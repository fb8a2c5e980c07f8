# diridea, modelled in Dafny

diridea maintains a directory tree whose directory *names* carry a policy.
A directory named `<prefix>--<web|backend>_<public|private>`, optionally
followed by a timing segment (`_expire`/`_archive`, digits, a unit letter)
and by `_encrypt`, `_backup` and `_cache` flags, is a *managed* directory.
On `run`, the engine does two things:

- It indexes every managed directory in the store.
- It walks each one's contents and hands every entry to plugin families in
  a fixed order. Indexed directories met on the way are skipped: they are
  processed under their own policy.

The families run visibility, location, then encrypt, backup and cache (each
only when its flag is set), then expire or archive (per the timing option).
Every plugin of a family is asked `isApplicable` and, on true, runs
`process`. The "Default" plugins change the store. The "Debug" plugins only
echo what they would do.

The project has one module per concern:

| file | module | what it holds |
|---|---|---|
| `common.dfy` | `Common` | `Option`, `Result`, `Outcome`, and every exception a run can raise |
| `paths.dfy` | `Paths` | PHP's `basename`, `dirname`, `rtrim($s, '/')`, and the parent/child relation of listings |
| `dir_value.dfy` | `DirValues` | the policy value object `DirValueObject`: its validating constructor and `timingValueInSeconds` |
| `name_pattern.dfy` | `NamePattern` | the directory-name regular expression, matched by hand with PCRE's leftmost-match semantics, and how a match becomes a policy |
| `storage.dfy` | `Storage` | the store (Flysystem's view of the base directory) as a sequence of entries, plus a `Filesystem` class whose methods change it in place |
| `plugins.dfy` | `Plugins` | the seven bundled plugins, and plugins not bundled here as opaque behaviours; specification functions plus the methods that run them on the shared store and echo stream |
| `engine.dfy` | `Engine` | the `Diridea` class: indexing, the recursive walk and the per-entry family pipeline, each method proved equal to a specification function, plus lemmas about those functions |
| `factory.dfy` | `Factory` | the two presets of `DirideaFactory` and what a run under each does |

## How the code differs from the design description

The model follows the code in every case below. Each difference is stated as
a proved lemma.

- **The name pattern has no anchors** and is applied to the whole listed
  path.
  - A name with trailing text (`foo--web_publicX`) still matches. The text
    after the marker is ignored (`NamePattern.TrailingTextIgnored`).
  - Every directory below a managed directory also matches, and gets the
    ancestor's policy under its own path (`NamePattern.SubdirectoryInheritsPolicy`).
  - So a managed directory's own walk skips all its subdirectories, and each
    one is walked separately (`Engine.ManagedSubdirectory`).
- **The unit character class is `[d|h]`,** which admits `|`.
  - The constructor accepts `d` and `h` and rejects `|`.
  - `timingValueInSeconds` knows `d` (days) and `m` (weeks). A policy with
    `h` is therefore accepted, but every timed plugin then throws on it
    (`DirValues.ConstructedTimingSeconds`, `Plugins.UnknownUnitThrows`).
- **Optional groups that are skipped are reported as `''`** by `preg_match`
  when a later group took part.
  - A name with `_backup` or `_cache` but no timing segment therefore passes
    `''` as the timing option. The constructor throws on it
    (`NamePattern.ParseDirectoryOutcome`).
- **The flag groups are unusual.**
  - The lazy `(_encrypt)??` never takes part, so no parsed policy has
    `encrypt` set.
  - `(_cache?)` also matches `_cach`, which yields `cache = false`
    (`NamePattern.ParsedPolicy`).
- **`ExpireDefault` tests the opposite way from the design.**
  - It fires when the modification time is *later* than now plus the period.
  - An entry whose period has passed is therefore left alone
    (`Plugins.ExpireDefaultSparesExpired`).
  - `ExpireDebug` fires when now is at least the modification time plus the
    period, as the design says. The two never agree
    (`Plugins.ExpireVariantsDisagree`).
- **There is no exception handling.**
  - `processContent` always returns true, so `run` returns true whenever it
    returns.
  - A storage failure or a policy rejected by the constructor aborts the
    whole run with the exception (`Engine.Diridea.Run`, `Engine.RunJurisdiction`).
- **`LocationDebug`'s memo is a function-static variable.** It is shared by
  every instance and lives for the whole process, not for one run
  (`Plugins.LocationDebugOnce`).
- **The timed plugins act on files only.**
  - Their `isApplicable` starts with `fileExists`, which the local adapter
    answers with `is_file`: false for a directory.
  - So no stored directory is ever expired or archived
    (`Plugins.TimedPluginsSkipDirectories`).
  - The directory branches of `ExpireDefault::process` and
    `ArchiveDefault::process` run only for an entry listed as a directory
    whose path the store now holds as a file. They then change nothing
    (`Plugins.ExpireDefaultRemoves`, `Plugins.ArchiveKeepsDirectories`).

## Model

| member | source | states |
|---|---|---|
| DirValues.LocationOf | src/voku/diridea/DirValueObject.php:7-8 | a location name is recognised exactly when it is `web` or `backend`, and naming the result gives the input back |
| DirValues.VisibilityOf | src/voku/diridea/DirValueObject.php:40-42 | a visibility name is recognised exactly when it is `public` or `private`, and naming the result gives the input back |
| DirValues.TimingOptionOf | src/voku/diridea/DirValueObject.php:21-22 | a timing option is recognised exactly when it is `expire` or `archive`, and naming the result gives the input back |
| DirValues.NamesRoundTrip | src/voku/diridea/DirValueObject.php:7-42 | names and enumeration values correspond one to one |
| DirValues.New | src/voku/diridea/DirValueObject.php:55-106 | the constructor succeeds exactly when location, visibility, option, value-with-option, unit-with-option and unit are all acceptable; each check that fails first throws its own exception with the offending value; a built object keeps every argument and satisfies `Valid` |
| DirValues.TimingSeconds | src/voku/diridea/DirValueObject.php:154-165 | converts exactly for units `d` and `m`, and throws the RuntimeException for any other unit or none |
| DirValues.WeekIsSevenDays | src/voku/diridea/DirValueObject.php:156-162 | for the same timing value, the `m` conversion is seven times the `d` conversion |
| DirValues.ConstructedTimingSeconds | src/voku/diridea/DirValueObject.php:93-98 | a policy the constructor accepts never has unit `m`: unit `d` converts to value × 86400, and anything else throws |
| DirValues.NewRepath | src/voku/diridea/DirValueObject.php:69 | the path is only stored: the same arguments under another path succeed or fail alike, giving the same object with that path |
| NamePattern.MarkerAt | src/voku/diridea/Diridea.php:24 | a found marker really occurs at that position |
| NamePattern.MarkerAtComplete | src/voku/diridea/Diridea.php:24 | every occurrence of one of the four `--location_visibility` markers is found, with the location and visibility it spells |
| NamePattern.MarkerTextSpelling | src/voku/diridea/Diridea.php:24 | each marker is `--`, the location name, `_` and the visibility name |
| NamePattern.FirstMarker | src/voku/diridea/Diridea.php:24 | the position found holds a marker and none comes before it, or no marker exists |
| NamePattern.FirstMarkerIs | src/voku/diridea/Diridea.php:24 | a marker with none before it is the one `FirstMarker` finds |
| NamePattern.LineStart | src/voku/diridea/Diridea.php:24 | the lazy `.*?` cannot cross a line break: everything from the result to the marker is free of line breaks, and the character before it is one |
| NamePattern.LinePrefix | src/voku/diridea/Diridea.php:24 | the prefix group is the text from the start of the marker's line up to the marker |
| NamePattern.DigitRun | src/voku/diridea/Diridea.php:24 | greedy `\d+`: every character taken is a digit, and the next one is not |
| NamePattern.TimingAt | src/voku/diridea/Diridea.php:24 | a timing segment found is an option text occurring there, one or more digits and one unit character from `[d\|h]` |
| NamePattern.Capture | src/voku/diridea/Diridea.php:24 | the pattern matches exactly when some marker occurs; the match uses the leftmost marker, and `_encrypt` never takes part |
| NamePattern.CaptureAt | src/voku/diridea/Diridea.php:24 | the captured prefix, location and visibility are those of the marker, and the prefix holds no line break |
| NamePattern.CaptureTiming | src/voku/diridea/Diridea.php:24 | the timing groups take part exactly when a timing segment follows the marker, and they hold its text |
| NamePattern.CaptureFlags | src/voku/diridea/Diridea.php:24 | `_backup` is taken exactly when it follows the visibility or timing segment; after that the full `_cache` is taken when present, else `_cach` |
| NamePattern.Reported | src/voku/diridea/Diridea.php:341 | a group that took part is reported with its text; one that did not is reported as `''` exactly when a later group took part |
| NamePattern.ReportedTiming | src/voku/diridea/Diridea.php:341-355 | the timing groups are reported with their text, or as `''` when only a later flag group matched, or are absent |
| NamePattern.LTrimUnderscore | src/voku/diridea/Diridea.php:353 | `ltrim($s, '_')`: a suffix of the input that does not start with `_`, and only underscores were removed |
| NamePattern.IntCastOfDigits | src/voku/diridea/Diridea.php:354 | `(int)` of an all-digit string is its decimal value |
| NamePattern.ConstructWithTiming | src/voku/diridea/Diridea.php:347-359 | with a timing segment present, the constructor accepts the groups unless the unit is `\|` |
| NamePattern.ParseDirectoryOutcome | src/voku/diridea/Diridea.php:341-359 | a non-matching path is not managed. A flag without timing throws InvalidTimingOption(''), a `\|` unit throws InvalidTimingUnit('\|'), and every other match yields a policy |
| NamePattern.ParsedPath | src/voku/diridea/Diridea.php:347-348 | a parsed policy carries the listed path, which is never empty |
| NamePattern.ParsedPolicy | src/voku/diridea/Diridea.php:347-358 | a parsed policy has the leftmost marker's prefix, location and visibility. `encrypt` is never set; `backup` is set exactly when `_backup` was captured, and `cache` only for the full `_cache` |
| NamePattern.ParsedTiming | src/voku/diridea/Diridea.php:353-355 | a parsed policy has a timing exactly when the segment was captured: the option without its underscore, the digits' value and the unit letter |
| NamePattern.ConstructTiming | src/voku/diridea/Diridea.php:353-355 | the constructor keeps the converted timing groups |
| NamePattern.GroupFlags | src/voku/diridea/Diridea.php:356-358 | how the captured flag groups become the three booleans |
| NamePattern.TrailingTextIgnored | src/voku/diridea/Diridea.php:24 | the name `foo--web_publicX`, whose visibility token is followed by other text, still yields a policy with prefix `foo`, location web and visibility public |
| NamePattern.SubpathCapture | src/voku/diridea/Diridea.php:24 | appending `/name` to a matching path leaves every captured group unchanged |
| NamePattern.SubdirectoryInheritsPolicy | src/voku/diridea/Diridea.php:341-359 | a directory below a matching directory parses to the same outcome: the same exception, or the ancestor's policy with its own path |
| Paths.LastSlash | src/voku/diridea/processes/ArchiveDefault.php:23 | the position found holds a slash and no slash follows it, or there is none |
| Paths.Basename | src/voku/diridea/processes/ArchiveDefault.php:21-23 | the slash-free tail of the path, preceded by a slash when shorter than the path |
| Paths.Dirname | src/voku/diridea/processes/ArchiveDefault.php:23 | `.` for a path with no slash; for a relative path with a slash, joining the result, `/` and the base name gives the path back |
| Paths.Parent | src/voku/diridea/Diridea.php:227 | the directory a path is listed in: empty (the root), or a proper prefix followed by a slash |
| Paths.RTrimSlashes | src/voku/diridea/processes/LocationDebug.php:33 | `rtrim($s, '/')`: a prefix of the input that does not end in a slash, and only slashes were removed |
| Paths.ChildStaysUnder | src/voku/diridea/Diridea.php:226-232 | a child of a directory below `b` lies below `b`, so the recursive walk stays inside its managed directory |
| Paths.ParentStaysBelow | src/voku/diridea/Diridea.php:226-232 | the parent of a path below `b` is `b` or below it |
| Paths.BasenameOfJoin | src/voku/diridea/processes/ArchiveDefault.php:21-23 | the base name of `a/b` is `b` |
| Paths.DirnameOfJoin | src/voku/diridea/processes/ArchiveDefault.php:23 | the directory name of `a/b` is `a` |
| Paths.ParentOfJoin | src/voku/diridea/processes/ArchiveDefault.php:21-23 | the directory `a/b` is listed in is `a` |
| Storage.Lookup | src/voku/diridea/processes/ExpireDefault.php:13-15 | the attributes stored for a path, present exactly when some entry has it, and taken from the first such entry |
| Storage.ListContents | src/voku/diridea/Diridea.php:227 | the listing holds exactly the store's direct children of the path, each longer than the path |
| Storage.VisibilitySet | src/voku/diridea/processes/VisibilityDefault.php:19 | an unknown path throws UnableToSetVisibility; otherwise the entries at that path get the visibility and all others are unchanged |
| Storage.Deleted | src/voku/diridea/processes/ExpireDefault.php:23 | deleting a directory throws; otherwise the path is gone and every other entry stays |
| Storage.DirectoryDeleted | src/voku/diridea/processes/ExpireDefault.php:21 | a directory's whole subtree is removed and nothing else; anything else leaves the store as it was |
| Storage.Relocated | src/voku/diridea/processes/ArchiveDefault.php:21-23 | a moved path goes to the destination or below it, with the matching length |
| Storage.DirectoryEnsured | src/voku/diridea/processes/ArchiveDefault.php:21-23 | `mkdir -p` of the destination's directory only adds to the store |
| Storage.EnsuredAdds | src/voku/diridea/processes/ArchiveDefault.php:21-23 | every entry `mkdir -p` adds is a private directory stamped now, at the path or above it, that was not stored before |
| Storage.EnsuredMakesDirectory | src/voku/diridea/processes/ArchiveDefault.php:21-23 | after a successful `mkdir -p`, the path is a stored directory |
| Storage.EnsuredWhenStored | src/voku/diridea/processes/ArchiveDefault.php:21-23 | a stored directory is left as it is; a stored file at the path makes `mkdir -p` fail |
| Storage.EnsuredFails | src/voku/diridea/processes/ArchiveDefault.php:21-23 | `mkdir -p` fails only for a path too long, or for a file stored at the path or above it |
| Storage.EnsuredSucceeds | src/voku/diridea/processes/ArchiveDefault.php:21-23 | `mkdir -p` succeeds when the path fits and nothing stored at it or above it is a file |
| Storage.Rename | src/voku/diridea/processes/ArchiveDefault.php:21-23 | `rename` throws UnableToMoveFile exactly for a missing source, or, onto another path, a destination inside the source or around it, an existing destination of the other kind or a non-empty directory, or an over-long result. Otherwise the source is gone and the destination exists |
| Storage.MoveOutcome | src/voku/diridea/processes/ArchiveDefault.php:21-23 | `move` throws UnableToCreateDirectory with the store as it was, or UnableToMoveFile with every stored entry still there; when it returns, the source is gone and the destination exists |
| Storage.MoveKeepsOthers | src/voku/diridea/processes/ArchiveDefault.php:21-23 | entries outside both subtrees survive a move, whether it returns or throws |
| Storage.MoveCarriesAttributes | src/voku/diridea/processes/ArchiveDefault.php:21-23 | a moved entry keeps its kind, visibility and timestamp under its new path |
| Storage.MoveMakesParent | src/voku/diridea/processes/ArchiveDefault.php:21-23 | after a successful move, the destination's directory is a stored directory |
| Storage.MoveAddsNothingElse | src/voku/diridea/processes/ArchiveDefault.php:21-23 | whatever a move leaves that was not stored before lies in the destination's subtree, or is a private directory stamped now on the way down to the destination's directory |
| Storage.Filesystem.SetVisibility | src/voku/diridea/processes/VisibilityDefault.php:19 | the store becomes `VisibilitySet` of the old store, or stays as it was when that throws |
| Storage.Filesystem.Delete | src/voku/diridea/processes/ExpireDefault.php:23 | the store becomes `Deleted` of the old store, or stays as it was when that throws |
| Storage.Filesystem.DeleteDirectory | src/voku/diridea/processes/ExpireDefault.php:21 | the store becomes `DirectoryDeleted` of the old store |
| Storage.Filesystem.Move | src/voku/diridea/processes/ArchiveDefault.php:21-23 | the store and the outcome are those `Moved` gives for the old store: the directories made, then the rename |
| Plugins.FutureDated | src/voku/diridea/processes/ExpireDefault.php:11-16 | false unless the path is a stored file; for a file, throws exactly when the seconds conversion throws, and true exactly when its modification time is later than now plus the period |
| Plugins.AgeReached | src/voku/diridea/processes/ExpireDebug.php:11-16 | false unless the path is a stored file; for a file, throws exactly when the seconds conversion throws, and true exactly when its modification time plus the period is at most now |
| Plugins.ArchiveDestination | src/voku/diridea/processes/ArchiveDefault.php:20-24 | the destination keeps the entry's base name and is longer than its path |
| Plugins.SymlinkLink | src/voku/diridea/processes/LocationDebug.php:33 | the link's base name is the policy directory's, and its directory is the trimmed public web path |
| Plugins.SymlinkTarget | src/voku/diridea/processes/LocationDebug.php:34 | the target is the base path followed directly by the policy path |
| Plugins.Test | src/voku/diridea/processes/DirideaInterface.php:12 | each bundled plugin's `isApplicable`: the two visibility plugins compare the listed visibility; LocationDebug asks whether the policy path is unseen; ExpireDefault is `FutureDated`; the other three timed plugins are `AgeReached` |
| Plugins.Recorded | src/voku/diridea/processes/LocationDebug.php:20-28 | LocationDebug records the policy path whatever it answers; no other plugin touches the memo |
| Plugins.Effect | src/voku/diridea/processes/DirideaInterface.php:14 | `process`: a Debug plugin never throws and leaves the store alone; any other echoes nothing; a throw leaves the world as it was, except ArchiveDefault's, which may leave the directories its move made; output only grows |
| Plugins.Changed | src/voku/diridea/processes/DirideaInterface.php:14 | a Default or opaque plugin's `process` that throws leaves the store as it was, except ArchiveDefault's move |
| Plugins.Reports | src/voku/diridea/processes/ExpireDebug.php:18-27 | a Debug plugin echoes at most one line; VisibilityDebug and ArchiveDebug always echo one |
| Plugins.Apply | src/voku/diridea/Diridea.php:247-249 | `process` runs only after `isApplicable` answered true. Output and memo only grow; a Debug plugin keeps the store; a non-Debug plugin keeps output and memo; a throw keeps the output, and the store too except for ArchiveDefault |
| Plugins.IsApplicable | src/voku/diridea/processes/DirideaInterface.php:12 | answers `Test` and updates the memo as `Recorded` says, leaving the output alone |
| Plugins.Process | src/voku/diridea/processes/DirideaInterface.php:14 | the store, output and memo after the call are those `Effect` gives |
| Plugins.Echo | src/voku/diridea/processes/VisibilityDebug.php:17-20 | appends exactly `Reports` to the output and keeps the memo |
| Plugins.EchoVisibility | src/voku/diridea/processes/VisibilityDebug.php:19 | appends one visibility report naming the entry and the policy's visibility |
| Plugins.EchoLocation | src/voku/diridea/processes/LocationDebug.php:31-39 | appends a symlink report of target and link unless the link already is one |
| Plugins.EchoExpire | src/voku/diridea/processes/ExpireDebug.php:18-27 | appends a delete report for a file, or for a directory with an empty listing |
| Plugins.EchoArchive | src/voku/diridea/processes/ArchiveDebug.php:18-25 | appends a move report naming the archive destination |
| Plugins.Change | src/voku/diridea/processes/ExpireDefault.php:18-25 | the store becomes what `Changed` gives, or stays as it was when that throws |
| Plugins.ApplyPlugin | src/voku/diridea/Diridea.php:247-249 | the store, output and memo after the call are those `Apply` gives |
| Plugins.VisibilityDefaultEffect | src/voku/diridea/processes/VisibilityDefault.php:12-20 | on an applicable entry, every stored entry at its path gets the policy's visibility and nothing else changes; a path not in the store throws |
| Plugins.VisibilityDefaultSettles | src/voku/diridea/processes/VisibilityDefault.php:12-20 | after it ran, the entry as listed again is no longer applicable |
| Plugins.VisibilityDebugMirrorsDefault | src/voku/diridea/processes/VisibilityDebug.php:12-20 | reports exactly the entries VisibilityDefault would change, naming the target visibility, and changes nothing |
| Plugins.LocationDebugOnce | src/voku/diridea/processes/LocationDebug.php:18-39 | the first call for a policy path records it and reports unless the link exists; every later call for that path, from any instance and for any entry, does nothing |
| Plugins.LocationDebugIgnoresEntry | src/voku/diridea/processes/LocationDebug.php:18-29 | its answer and memo depend only on the policy path and the memo |
| Plugins.UnknownUnitThrows | src/voku/diridea/DirValueObject.php:164 | with unit other than `d` or `m`, a timed plugin throws on a stored file and does nothing on a directory or a missing path |
| Plugins.TimedPluginsSkipDirectories | src/voku/diridea/processes/ArchiveDefault.php:11-16 | for a path that is not a stored file, every timed plugin answers false whatever the policy and the clock, and the world stays as it was |
| Plugins.ExpireVariantsDisagree | src/voku/diridea/processes/ExpireDefault.php:15 | for a non-negative timing value, ExpireDefault's and ExpireDebug's tests never both hold |
| Plugins.ExpireDefaultSparesExpired | src/voku/diridea/processes/ExpireDefault.php:11-16 | an entry whose period has passed (modified at least the period before now) is not applicable to ExpireDefault, and the world stays as it was |
| Plugins.ExpireDefaultRemoves | src/voku/diridea/processes/ExpireDefault.php:11-25 | an applicable path is a stored file and nothing throws: listed as a file, it is removed and every other entry stays; listed as a directory, `deleteDirectory` finds no directory and the world stays as it was |
| Plugins.ExpireDebugReports | src/voku/diridea/processes/ExpireDebug.php:18-27 | reports an applicable file always and an applicable directory only while its listing is empty, and changes no entry |
| Plugins.ArchiveDestinationShape | src/voku/diridea/processes/ArchiveDefault.php:20-24 | the destination keeps the base name and sits in `archiv` inside a directory, or beside a file |
| Plugins.ArchiveKeepsDirectories | src/voku/diridea/processes/ArchiveDefault.php:11-21 | an entry listed as a directory is never archived: whatever the store holds at its path, the world stays as it was |
| Plugins.InsideDirectory | src/voku/diridea/processes/ArchiveDefault.php:21 | a directory's archive destination lies below the directory |
| Plugins.ArchiveFileMoves | src/voku/diridea/processes/ArchiveDefault.php:11-25 | archiving an applicable file throws UnableToCreateDirectory with the world as it was, or UnableToMoveFile keeping output, memo and every stored entry; otherwise the file, attributes and all, is at its destination inside a stored `archiv` directory, its path is gone, and applying ArchiveDefault to the same listed entry again does nothing |
| Plugins.ArchiveDebugMirrorsDefault | src/voku/diridea/processes/ArchiveDebug.php:18-25 | ArchiveDebug reports the destination ArchiveDefault moves to, and that destination exists after a real archive succeeds |
| Engine.OrEmpty | src/voku/diridea/Diridea.php:246 | `$list ?? []`: an absent list runs nothing |
| Engine.RunPlugins | src/voku/diridea/Diridea.php:246-250 | a family's loop: output and memo only grow; an all-Debug list keeps the store; a list without Debug plugins keeps output and memo |
| Engine.RunPluginsAppend | src/voku/diridea/Diridea.php:246-296 | running two lists one after the other is running their concatenation, so a throw ends the entry |
| Engine.FailureIsFinal | src/voku/diridea/Diridea.php:244-299 | once a family has thrown, no later family runs |
| Engine.StageAdvance | src/voku/diridea/Diridea.php:244-299 | one family block after the earlier ones completed continues the pipeline, or ends it with the throw |
| Engine.ProcessContentSpec | src/voku/diridea/Diridea.php:244-299 | every processed entry is recorded as one dispatch under the policy's path |
| Engine.FirstPass | src/voku/diridea/Diridea.php:211-229 | the collected listings extend those collected before, in order |
| Engine.FirstPassUnfold | src/voku/diridea/Diridea.php:211-229 | one step of the first loop: an indexed directory is skipped; a throw ends the walk; otherwise the entry is processed and, for a directory, its listing taken afterwards is queued |
| Engine.HelperUnfold | src/voku/diridea/Diridea.php:205-239 | `processContentHelper` is the first loop, then the second loop over what it collected |
| Engine.SecondPassUnfold | src/voku/diridea/Diridea.php:231-236 | the second loop walks the collected listings in order and stops at a throw |
| Engine.PathsOf | src/voku/diridea/Diridea.php:192-200 | the index's paths, in index order |
| Engine.PathsOfAppend | src/voku/diridea/Diridea.php:192-200 | appending a policy appends its path |
| Engine.InPathsOf | src/voku/diridea/Diridea.php:216 | `in_array` on the paths: some indexed policy has that path |
| Engine.Put | src/voku/diridea/Diridea.php:347 | an existing key keeps the index's length; a new key is appended |
| Engine.PutContents | src/voku/diridea/Diridea.php:347 | after the assignment, every entry is the new policy or an old one, and keys stay unique |
| Engine.PutPaths | src/voku/diridea/Diridea.php:347 | the keys keep their order; a new key goes last |
| Engine.ManagedCons | src/voku/diridea/Diridea.php:336-346 | a path is managed in a listing exactly when the first entry is that parsing directory or the rest manages it |
| Engine.IndexFromSucceeds | src/voku/diridea/Diridea.php:336-362 | the indexing loop succeeds exactly when every listed directory parses without an exception |
| Engine.IndexFromContents | src/voku/diridea/Diridea.php:336-362 | on success, the loop indexes exactly the matching directories, each once, each as parsed from its path |
| Engine.IndexCharacterisation | src/voku/diridea/Diridea.php:330-365 | indexing the whole store throws exactly when some matching directory is rejected. Otherwise each matching directory is indexed once, under the policy parsed from its path |
| Engine.ManagedSubdirectory | src/voku/diridea/Diridea.php:213-219 | a directory below an indexed directory is indexed too, with the ancestor's policy under its own path, and the ancestor's walk skips it |
| Engine.FamiliesIgnoreClosedGates | src/voku/diridea/Diridea.php:258-296 | what runs on an entry depends only on families whose flag or timing option is on, and an absent family acts as an empty one |
| Engine.FamiliesDebug | src/voku/diridea/Diridea.php:244-299 | under a configuration of Debug plugins only, only Debug plugins run |
| Engine.FamiliesSilent | src/voku/diridea/Diridea.php:244-299 | under a configuration without Debug plugins, no Debug plugin runs |
| Engine.ExtendsTrans | src/voku/diridea/Diridea.php:205-239 | the walk's frame condition composes across steps |
| Engine.ExtendsWiden | src/voku/diridea/Diridea.php:311-325 | a walk lawful for some policies is lawful for more |
| Engine.ProcessContentExtends | src/voku/diridea/Diridea.php:221 | processing an entry below the policy's directory, not itself indexed and inside no indexed directory below the policy's, is a lawful step |
| Engine.TopListingReachable | src/voku/diridea/Diridea.php:317-318 | the listing of an indexed directory lies below it and inside no indexed directory below it |
| Engine.ChildrenReachable | src/voku/diridea/Diridea.php:213-229 | the listing of a directory the walk enters (below the policy's directory, not indexed, inside no indexed directory below the policy's) lies below the policy's directory and inside no indexed directory below it |
| Engine.FirstPassExtends | src/voku/diridea/Diridea.php:211-229 | the first loop dispatches only entries below the policy's directory that are not indexed and lie inside no indexed directory below it, and collects listings with the same property |
| Engine.HelperExtends | src/voku/diridea/Diridea.php:205-239 | a whole walk under a policy dispatches only entries below its directory, never an indexed directory, and never descends into an indexed subdirectory |
| Engine.SecondPassExtends | src/voku/diridea/Diridea.php:231-236 | so does the walk over the collected listings |
| Engine.DirectoriesExtends | src/voku/diridea/Diridea.php:311-325 | walking every indexed directory dispatches each entry under a policy whose directory contains it, and outside every indexed directory below that one |
| Engine.RunJurisdiction | src/voku/diridea/Diridea.php:301-306 | `run`: an indexing exception changes nothing. Otherwise every dispatched entry lies below its policy's directory, is not an indexed directory and lies inside no indexed directory below its policy's, and output and memo only grow. A Debug-only configuration keeps the store; one without Debug plugins echoes nothing and keeps the memo |
| Engine.IndexedPathsNonEmpty | src/voku/diridea/Diridea.php:347-348 | no indexed path is empty |
| Engine.FirstPassOrder | src/voku/diridea/Diridea.php:211-229 | a completed first loop dispatches the listing's entries in listing order, skipping exactly the indexed directories |
| Engine.HelperLevelFirst | src/voku/diridea/Diridea.php:205-239 | a completed walk first dispatches the listing's own entries, in order, before anything below them |
| Engine.Diridea.constructor | src/voku/diridea/Diridea.php:79-180 | the engine keeps its configuration and store and starts with an empty index |
| Engine.Diridea.DirideaDirectoriesPaths | src/voku/diridea/Diridea.php:192-200 | returns the paths of the current index, in order |
| Engine.Diridea.ReadDirideaDirectories | src/voku/diridea/Diridea.php:330-365 | returns the indexing of the whole store (`Index`), whose properties `IndexCharacterisation` states |
| Engine.Diridea.RunFamily | src/voku/diridea/Diridea.php:246-250 | one family's loop leaves the store, output and memo that `RunPlugins` gives |
| Engine.Diridea.Stage | src/voku/diridea/Diridea.php:244-299 | each family block, behind its gate, extends the pipeline by one family or keeps the earlier throw |
| Engine.Diridea.ProcessContent | src/voku/diridea/Diridea.php:244-299 | the state after the call is `ProcessContentSpec`'s, and the answer is true |
| Engine.Diridea.VisitListing | src/voku/diridea/Diridea.php:211-229 | the first loop's effect and collected listings are `FirstPass`'s; without a throw the result is true |
| Engine.Diridea.ProcessContentHelper | src/voku/diridea/Diridea.php:205-239 | the state after the call is `Helper`'s; without a throw the result is true |
| Engine.Diridea.Descend | src/voku/diridea/Diridea.php:231-236 | the state after the second loop is `SecondPass`'s; without a throw the result is true |
| Engine.Diridea.ProcessDirectories | src/voku/diridea/Diridea.php:311-325 | the state after the call is `Directories`'s over the current index; without a throw the result is true |
| Engine.Diridea.Run | src/voku/diridea/Diridea.php:301-306 | the state after the call is `RunSpec`'s. The index is replaced only when indexing succeeds, and a returned result is true |
| Factory.PresetFamilies | src/voku/diridea/Diridea.php:244-299 | with one plugin each for visibility, location, expire and archive and no others, an entry gets visibility, location, then expire or archive as the timing option says |
| Factory.CreateRuns | src/voku/diridea/DirideaFactory.php:27-55 | the default preset runs VisibilityDefault, LocationDefault, then ExpireDefault or ArchiveDefault |
| Factory.CreateDebugRuns | src/voku/diridea/DirideaFactory.php:63-91 | the debug preset runs VisibilityDebug, LocationDebug, then ExpireDebug or ArchiveDebug |
| Factory.PresetsShareSettings | src/voku/diridea/DirideaFactory.php:35-38 | both presets use the same adapter, the given base path and no verbosity; a named adapter is used as given, else `LocalFilesystemAdapter` |
| Factory.DebugRunKeepsStore | src/voku/diridea/DirideaFactory.php:63-91 | a run of the debug preset never changes the store |
| Factory.DefaultRunIsSilent | src/voku/diridea/DirideaFactory.php:27-55 | a run of the default preset echoes nothing and leaves LocationDebug's memo alone |

## Left out

- Logging: the logger, its verbosity and `log` only write to a sink and
  decide nothing. The verbosity is kept in the configuration.
- The `instanceof` checks of the `Diridea` constructor. Each family's
  plugin list is typed by the plugins its interface admits, so the
  exception they guard against cannot arise.
- Instantiating the adapter class with its permission modes. The store is
  a parameter of the engine. The adapter's name is kept as data.
- Flysystem is not part of this model. `Storage` models the calls the core
  makes: `listContents` (direct children, in store order), `fileExists`,
  `lastModified`, `setVisibility`, `delete`, `deleteDirectory` and `move`.
  Each is modelled as the local adapter performs it, with the failure it
  reports. `fileExists` is `is_file`, so it is false for a directory; `move`
  is `mkdir -p` of the destination's directory, then `rename`.
  - `rename`'s fallback of copying across devices is not modelled: the
    store is one device.
  - Directory timestamps do not change when entries are added to them or
    removed from them.
  - The directories `mkdir -p` makes are stored under the path as written,
    without normalisation: a top-level file is archived to `./archiv/...`
    (`dirname` answers `.`), and `./archiv` is a stored path of its own.
  - A deep listing is the whole store.
  - `clone $this->filesystem` shares the same store, so clones are the same
    `Filesystem` object.
- `MaxPathLength` (4096) stands in for the platform's path limit. It bounds
  every stored path, which is what makes the recursive walk terminate. A
  move whose renamed paths would exceed it throws.
- `time()` and `is_link` are parameters (`now`, `isLink`) because they read
  the clock and the real filesystem.
- `LocationDefault`, and any encrypt, backup or cache plugin, are not part
  of this model. They enter as opaque behaviours: a test and an effect, each
  free to read the policy, the listed entry, the whole store, the echo
  stream, the memo and the clock, and each free to throw. The engine runs
  them exactly like the bundled plugins.
- Plugins.Behaviour: an opaque plugin's effect replaces the store only. It
  cannot echo and cannot write LocationDebug's memo, and a throwing effect
  changes nothing. A real plugin could do either.
- Factory.DefaultRunIsSilent: it rests on that restriction. It says the
  default preset echoes nothing and leaves the memo alone, given that the
  `LocationDefault` not modelled here does neither.
- The `dispatched` record in `Engine.State`, and the ghost `dispatched`
  field of `Diridea`, exist only to state the jurisdiction and ordering
  properties. The PHP code keeps no such record.
- Engine.Diridea.constructor: the PHP property `dirideaDirectories` starts
  uninitialised and is read only after `run` assigns it. The model starts
  it empty.
- NamePattern.IntCast: PHP's `(int)` saturates at `PHP_INT_MAX` and
  `timingValueInSeconds` overflows to a float. The model uses unbounded
  integers, so very long digit runs and very large periods are not
  modelled faithfully.
- NamePattern.Capture models this one pattern only, not PCRE in general.
  The pattern is unanchored and uses the default flags.
- Engine.Put: its own contract states only the length when the key is
  already present. The remaining facts about the result are in
  `Engine.PutContents` and `Engine.PutPaths`.
- Output is a sequence of structured reports (`Plugins.Report`), not
  strings: the lines the Debug plugins echo, with their fields, not their
  exact text.
