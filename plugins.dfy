/**
 * The rule plugins (`DirideaInterface`): each has a test `isApplicable` and an
 * effect `process`. The Default variants change the store; the Debug
 * variants only echo a report; `LocationDebug` remembers, for the life of the
 * process, which policies it has already handled.
 */
module Plugins {
  import opened Common
  import opened Paths
  import opened DirValues
  import opened Storage

  /** A line a Debug plugin echoes. */
  datatype Report =
    | VisibilityReport(path: Path, visibility: Visibility)   // "visibility: <path> to <visibility>"
    | SymlinkReport(target: string, link: string)             // "symlink: <target> to <link>"
    | DeleteReport(path: Path)                                // "delete: <path>"
    | MoveReport(source: Path, destination: Path)             // "move: <source> into <destination>"

  /**
   * A plugin whose code is not part of the model (`LocationDefault` and the
   * encrypt, backup and cache plugins): a test that may read the policy, the
   * listed entry, the whole world and the clock, and may throw; and an effect
   * that may read the same and changes the store, or throws.
   */
  datatype Behaviour = Behaviour(
    applicable: (DirValue, Entry, World, int) -> Result<bool>,
    effect: (DirValue, Entry, World, int) -> Result<Tree>)

  datatype Plugin =
    | VisibilityDefault
    | VisibilityDebug
    | LocationDebug(publicWebPath: string)
    | ExpireDefault
    | ExpireDebug
    | ArchiveDefault
    | ArchiveDebug
    | Opaque(behaviour: Behaviour)

  /** The plugins each family's interface admits. */
  type VisibilityProcess = p: Plugin | p.VisibilityDefault? || p.VisibilityDebug? || p.Opaque?
    witness VisibilityDefault
  type LocationProcess = p: Plugin | p.LocationDebug? || p.Opaque?
    witness LocationDebug("")
  type ExpireProcess = p: Plugin | p.ExpireDefault? || p.ExpireDebug? || p.Opaque?
    witness ExpireDefault
  type ArchiveProcess = p: Plugin | p.ArchiveDefault? || p.ArchiveDebug? || p.Opaque?
    witness ArchiveDefault
  type OpaqueProcess = p: Plugin | p.Opaque?
    witness Opaque(Behaviour((d, e, w: World, now) => Ok(false), (d, e, w: World, now) => Ok(w.tree)))

  /** The variants that only report. */
  predicate IsDebug(p: Plugin) {
    p.VisibilityDebug? || p.LocationDebug? || p.ExpireDebug? || p.ArchiveDebug?
  }

  /**
   * What the plugins see and change: the store, the echoed output, and the
   * set of policy paths `LocationDebug`'s function-static cache has recorded.
   */
  datatype World = World(tree: Tree, output: seq<Report>, locationSeen: set<Path>)

  /** A call that returns normally, or throws with the world as it was at the throw. */
  datatype Step = Continue(world: World) | Abort(error: Error, world: World)

  function Resume(o: Outcome, w: World): Step {
    if o.Pass? then Continue(w) else Abort(o.error, w)
  }

  /** Visibility plugins compare the listed entry's visibility, not the store's. */
  predicate VisibilityApplicable(d: DirValue, e: Entry) {
    e.visibility != d.visibility
  }

  /**
   * `ExpireDefault::isApplicable`: the path is a stored file and its
   * modification time is later than the policy's seconds added to now. A
   * directory or a missing path answers false before the seconds are
   * computed.
   */
  function FutureDated(d: DirValue, e: Entry, t: Tree, now: int): (r: Result<bool>)
    ensures !IsFile(t, e.path) ==> r == Ok(false)
    ensures IsFile(t, e.path) ==> r.Err? == TimingSeconds(d).Err?
    ensures r.Err? ==> r.error == UnsupportedTimingUnit
    ensures r == Ok(true) <==> IsFile(t, e.path) && TimingSeconds(d).Ok?
                               && Lookup(t, e.path).value.lastModified > TimingSeconds(d).value + now
  {
    if !IsFile(t, e.path) then Ok(false)
    else
      match TimingSeconds(d)
      case Err(err) => Err(err)
      case Ok(seconds) => Ok(Lookup(t, e.path).value.lastModified > seconds + now)
  }

  /**
   * `isApplicable` of ExpireDebug, ArchiveDefault and ArchiveDebug: the path
   * is a stored file and its modification time plus the policy's seconds is
   * at most now.
   */
  function AgeReached(d: DirValue, e: Entry, t: Tree, now: int): (r: Result<bool>)
    ensures !IsFile(t, e.path) ==> r == Ok(false)
    ensures IsFile(t, e.path) ==> r.Err? == TimingSeconds(d).Err?
    ensures r.Err? ==> r.error == UnsupportedTimingUnit
    ensures r == Ok(true) <==> IsFile(t, e.path) && TimingSeconds(d).Ok?
                               && Lookup(t, e.path).value.lastModified + TimingSeconds(d).value <= now
  {
    if !IsFile(t, e.path) then Ok(false)
    else
      match TimingSeconds(d)
      case Err(err) => Err(err)
      case Ok(seconds) => Ok(Lookup(t, e.path).value.lastModified + seconds <= now)
  }

  /** The `archiv` directory ArchiveDefault moves an entry into: inside a directory, beside a file. */
  function ArchiveDirectory(e: Entry): Path {
    (if e.isDir then e.path else Dirname(e.path)) + "/archiv"
  }

  /** Where ArchiveDefault moves an entry, and what ArchiveDebug reports. */
  function ArchiveDestination(e: Entry): (r: Path)
    ensures Basename(r) == Basename(e.path)
    ensures |r| > |e.path|
  {
    var name := Basename(e.path);
    BasenameOfJoin(ArchiveDirectory(e), name);
    ArchiveDirectory(e) + "/" + name
  }

  /** The link LocationDebug checks: the public web path, one '/', the policy directory's base name. */
  function SymlinkLink(publicWebPath: string, d: DirValue): (r: string)
    ensures Basename(r) == Basename(d.path)
    ensures RTrimSlashes(publicWebPath) != [] ==> Dirname(r) == RTrimSlashes(publicWebPath)
  {
    var base := RTrimSlashes(publicWebPath);
    var name := Basename(d.path);
    BasenameOfJoin(base, name);
    assert base != [] ==> Dirname(base + "/" + name) == base by {
      if base != [] { DirnameOfJoin(base, name); }
    }
    base + "/" + name
  }

  /** The target LocationDebug reports: base path and policy path joined with no separator. */
  function SymlinkTarget(d: DirValue): (r: string)
    ensures |r| == |d.basePath| + |d.path| && r[..|d.basePath|] == d.basePath && r[|d.basePath|..] == d.path
  {
    d.basePath + d.path
  }

  /**
   * `isApplicable`, without its side effect: `Ok(b)` for an answer, `Err` for
   * the exception the seconds conversion (or an opaque test) throws.
   */
  function Test(p: Plugin, d: DirValue, e: Entry, w: World, now: int): (r: Result<bool>)
    ensures p.VisibilityDefault? || p.VisibilityDebug? ==> r == Ok(VisibilityApplicable(d, e))
    ensures p.LocationDebug? ==> r == Ok(d.path !in w.locationSeen)
    ensures p.ExpireDefault? ==> r == FutureDated(d, e, w.tree, now)
    ensures p.ExpireDebug? || p.ArchiveDefault? || p.ArchiveDebug? ==> r == AgeReached(d, e, w.tree, now)
  {
    match p
    case VisibilityDefault => Ok(VisibilityApplicable(d, e))
    case VisibilityDebug => Ok(VisibilityApplicable(d, e))
    case LocationDebug(_) => Ok(d.path !in w.locationSeen)
    case ExpireDefault => FutureDated(d, e, w.tree, now)
    case ExpireDebug => AgeReached(d, e, w.tree, now)
    case ArchiveDefault => AgeReached(d, e, w.tree, now)
    case ArchiveDebug => AgeReached(d, e, w.tree, now)
    case Opaque(b) => b.applicable(d, e, w, now)
  }

  /** LocationDebug's cache after `isApplicable`: the policy path is recorded, whatever the answer. */
  function Recorded(p: Plugin, d: DirValue, w: World): (r: set<Path>)
    ensures p.LocationDebug? ==> r == w.locationSeen + {d.path}
    ensures !p.LocationDebug? ==> r == w.locationSeen
  {
    if p.LocationDebug? then w.locationSeen + {d.path} else w.locationSeen
  }

  /**
   * `process`: a Debug variant reports, any other changes the store or
   * throws. Only a move can throw after changing the store.
   */
  function Effect(p: Plugin, d: DirValue, e: Entry, w: World, now: int, isLink: string -> bool): (r: Step)
    ensures r.Abort? && !p.ArchiveDefault? ==> r.world == w
    ensures w.output <= r.world.output && r.world.locationSeen == w.locationSeen
    ensures IsDebug(p) ==> r.Continue? && r.world.tree == w.tree
    ensures !IsDebug(p) ==> r.world.output == w.output
  {
    if IsDebug(p) then Continue(w.(output := w.output + Reports(p, d, e, w.tree, isLink)))
    else
      var a := Changed(p, d, e, w, now);
      Resume(a.outcome, w.(tree := a.tree))
  }

  /** What a Debug variant's `process` echoes: nothing or one line. */
  function Reports(p: Plugin, d: DirValue, e: Entry, t: Tree, isLink: string -> bool): (r: seq<Report>)
    requires IsDebug(p)
    ensures |r| <= 1
    ensures p.VisibilityDebug? || p.ArchiveDebug? ==> |r| == 1
  {
    match p
    case VisibilityDebug => [VisibilityReport(e.path, d.visibility)]
    case LocationDebug(web) =>
      var link := SymlinkLink(web, d);
      if isLink(link) then [] else [SymlinkReport(SymlinkTarget(d), link)]
    case ExpireDebug =>
      if !e.isDir || ListContents(t, e.path) == [] then [DeleteReport(e.path)] else []
    case ArchiveDebug => [MoveReport(e.path, ArchiveDestination(e))]
  }

  /** A store operation that throws before changing anything. */
  function Whole(r: Result<Tree>, t: Tree): (a: Attempt)
    ensures r.Ok? ==> a == Attempt(r.value, Pass)
    ensures r.Err? ==> a == Attempt(t, Fail(r.error))
  {
    if r.Ok? then Attempt(r.value, Pass) else Attempt(t, Fail(r.error))
  }

  /** The store after a Default variant's or an opaque plugin's `process`, and whether it threw. */
  function Changed(p: Plugin, d: DirValue, e: Entry, w: World, now: int): (r: Attempt)
    requires !IsDebug(p)
    ensures r.outcome.Fail? && !p.ArchiveDefault? ==> r.tree == w.tree
  {
    match p
    case VisibilityDefault => Whole(VisibilitySet(w.tree, e.path, d.visibility), w.tree)
    case ExpireDefault =>
      if e.isDir then Attempt(DirectoryDeleted(w.tree, e.path), Pass) else Whole(Deleted(w.tree, e.path), w.tree)
    case ArchiveDefault => Moved(w.tree, e.path, ArchiveDestination(e), now)
    case Opaque(b) => Whole(b.effect(d, e, w, now), w.tree)
  }

  /**
   * One plugin on one entry, as `processContent` runs it: `process` only when
   * `isApplicable` answers true; an exception from either escapes.
   */
  function Apply(p: Plugin, d: DirValue, e: Entry, w: World, now: int, isLink: string -> bool): (r: Step)
    ensures w.output <= r.world.output
    ensures w.locationSeen <= r.world.locationSeen
    ensures r.world.locationSeen == Recorded(p, d, w) || r.world.locationSeen == w.locationSeen
    ensures IsDebug(p) ==> r.world.tree == w.tree
    ensures !IsDebug(p) ==> r.world.output == w.output && r.world.locationSeen == w.locationSeen
    ensures r.Abort? ==> r.world.output == w.output
    ensures r.Abort? && !p.ArchiveDefault? ==> r.world.tree == w.tree
  {
    match Test(p, d, e, w, now)
    case Err(err) => Abort(err, w)
    case Ok(applicable) =>
      var w' := w.(locationSeen := Recorded(p, d, w));
      if applicable then Effect(p, d, e, w', now, isLink) else Continue(w')
  }

  /** The process-wide state a run touches besides the store: the echo stream and LocationDebug's cache. */
  class Host {
    var output: seq<Report>
    var locationSeen: set<Path>

    constructor ()
      ensures output == [] && locationSeen == {}
    {
      output := [];
      locationSeen := {};
    }
  }

  function Snapshot(fs: Filesystem, host: Host): World
    reads fs, host
  {
    World(fs.tree, host.output, host.locationSeen)
  }

  method IsApplicable(p: Plugin, d: DirValue, e: Entry, fs: Filesystem, host: Host, now: int)
    returns (r: Result<bool>)
    modifies host
    ensures r == Test(p, d, e, old(Snapshot(fs, host)), now)
    ensures host.locationSeen == Recorded(p, d, old(Snapshot(fs, host)))
    ensures host.output == old(host.output)
  {
    match p
    case VisibilityDefault =>
      r := Ok(e.visibility != d.visibility);
    case VisibilityDebug =>
      r := Ok(e.visibility != d.visibility);
    case LocationDebug(_) =>
      if d.path in host.locationSeen {
        r := Ok(false);
      } else {
        host.locationSeen := host.locationSeen + {d.path};
        r := Ok(true);
      }
    case ExpireDefault =>
      r := FutureDated(d, e, fs.tree, now);
    case ExpireDebug =>
      r := AgeReached(d, e, fs.tree, now);
    case ArchiveDefault =>
      r := AgeReached(d, e, fs.tree, now);
    case ArchiveDebug =>
      r := AgeReached(d, e, fs.tree, now);
    case Opaque(b) =>
      r := b.applicable(d, e, Snapshot(fs, host), now);
  }

  method Process(p: Plugin, d: DirValue, e: Entry, fs: Filesystem, host: Host, now: int, isLink: string -> bool)
    returns (o: Outcome)
    modifies fs, host
    ensures Resume(o, Snapshot(fs, host)) == Effect(p, d, e, old(Snapshot(fs, host)), now, isLink)
  {
    if IsDebug(p) {
      Echo(p, d, e, fs, host, isLink);
      o := Pass;
    } else {
      o := Change(p, d, e, fs, host, now);
    }
  }

  /** `process` of a Debug variant. */
  method Echo(p: Plugin, d: DirValue, e: Entry, fs: Filesystem, host: Host, isLink: string -> bool)
    requires IsDebug(p)
    modifies host
    ensures host.output == old(host.output) + Reports(p, d, e, fs.tree, isLink)
    ensures host.locationSeen == old(host.locationSeen)
  {
    match p
    case VisibilityDebug => EchoVisibility(d, e, host);
    case LocationDebug(web) => EchoLocation(web, d, host, isLink);
    case ExpireDebug => EchoExpire(e, fs, host);
    case ArchiveDebug => EchoArchive(e, host);
  }

  /** `VisibilityDebug::process`. */
  method EchoVisibility(d: DirValue, e: Entry, host: Host)
    modifies host
    ensures host.output == old(host.output) + [VisibilityReport(e.path, d.visibility)]
    ensures host.locationSeen == old(host.locationSeen)
  {
    host.output := host.output + [VisibilityReport(e.path, d.visibility)];
  }

  /** `LocationDebug::process`: report the symlink unless the link already is one. */
  method EchoLocation(web: string, d: DirValue, host: Host, isLink: string -> bool)
    modifies host
    ensures host.output == old(host.output)
                           + (if isLink(SymlinkLink(web, d)) then [] else [SymlinkReport(SymlinkTarget(d), SymlinkLink(web, d))])
    ensures host.locationSeen == old(host.locationSeen)
  {
    var link := SymlinkLink(web, d);
    if !isLink(link) {
      host.output := host.output + [SymlinkReport(SymlinkTarget(d), link)];
    }
  }

  /** `ExpireDebug::process`: report a file, or a directory with nothing listed in it. */
  method EchoExpire(e: Entry, fs: Filesystem, host: Host)
    modifies host
    ensures host.output == old(host.output) + (if !e.isDir || ListContents(fs.tree, e.path) == [] then [DeleteReport(e.path)] else [])
    ensures host.locationSeen == old(host.locationSeen)
  {
    if !e.isDir || ListContents(fs.tree, e.path) == [] {
      host.output := host.output + [DeleteReport(e.path)];
    }
  }

  /** `ArchiveDebug::process`. */
  method EchoArchive(e: Entry, host: Host)
    modifies host
    ensures host.output == old(host.output) + [MoveReport(e.path, ArchiveDestination(e))]
    ensures host.locationSeen == old(host.locationSeen)
  {
    host.output := host.output + [MoveReport(e.path, ArchiveDestination(e))];
  }

  /** `process` of a Default variant or an opaque plugin. */
  method Change(p: Plugin, d: DirValue, e: Entry, fs: Filesystem, host: Host, now: int) returns (o: Outcome)
    requires !IsDebug(p)
    modifies fs
    ensures var r := Changed(p, d, e, old(Snapshot(fs, host)), now);
            fs.tree == r.tree && o == r.outcome
  {
    match p
    case VisibilityDefault =>
      o := fs.SetVisibility(e.path, d.visibility);
    case ExpireDefault =>
      if e.isDir {
        fs.DeleteDirectory(e.path);
        o := Pass;
      } else {
        o := fs.Delete(e.path);
      }
    case ArchiveDefault =>
      o := fs.Move(e.path, ArchiveDestination(e), now);
    case Opaque(b) =>
      var t := b.effect(d, e, Snapshot(fs, host), now);
      if t.Ok? {
        fs.tree := t.value;
        o := Pass;
      } else {
        o := Fail(t.error);
      }
  }

  /** `if ($plugin->isApplicable(...)) { $plugin->process(...); }` */
  method ApplyPlugin(p: Plugin, d: DirValue, e: Entry, fs: Filesystem, host: Host, now: int, isLink: string -> bool)
    returns (o: Outcome)
    modifies fs, host
    ensures Resume(o, Snapshot(fs, host)) == Apply(p, d, e, old(Snapshot(fs, host)), now, isLink)
  {
    var applicable := IsApplicable(p, d, e, fs, host, now);
    if applicable.Err? {
      o := Fail(applicable.error);
    } else if applicable.value {
      o := Process(p, d, e, fs, host, now, isLink);
    } else {
      o := Pass;
    }
  }

  /**
   * VisibilityDefault gives every entry stored at the listed path the
   * policy's visibility and changes nothing else; a path the store does not
   * hold makes it throw.
   */
  lemma VisibilityDefaultEffect(d: DirValue, e: Entry, w: World, now: int, isLink: string -> bool)
    requires VisibilityApplicable(d, e)
    ensures var r := Apply(VisibilityDefault, d, e, w, now, isLink);
            && (!Exists(w.tree, e.path) <==> r == Abort(UnableToSetVisibility(e.path), w))
            && (r.Continue? ==>
                  && |r.world.tree| == |w.tree|
                  && r.world.output == w.output && r.world.locationSeen == w.locationSeen
                  && forall k :: 0 <= k < |w.tree| ==>
                       && r.world.tree[k].path == w.tree[k].path
                       && r.world.tree[k].isDir == w.tree[k].isDir
                       && r.world.tree[k].lastModified == w.tree[k].lastModified
                       && (w.tree[k].path == e.path ==> r.world.tree[k].visibility == d.visibility)
                       && (w.tree[k].path != e.path ==> r.world.tree[k] == w.tree[k]))
  {
  }

  /**
   * Once VisibilityDefault has run, the entry as listed again is no longer
   * applicable: a second run over the new listing changes nothing.
   */
  lemma VisibilityDefaultSettles(d: DirValue, e: Entry, w: World, now: int, isLink: string -> bool)
    requires VisibilityApplicable(d, e) && Exists(w.tree, e.path)
    ensures var r := Apply(VisibilityDefault, d, e, w, now, isLink);
            && r.Continue?
            && forall e' :: e' in r.world.tree && e'.path == e.path ==>
                 !VisibilityApplicable(d, e') && Apply(VisibilityDefault, d, e', r.world, now, isLink) == r
  {
    var r := Apply(VisibilityDefault, d, e, w, now, isLink);
    VisibilityDefaultEffect(d, e, w, now, isLink);
    forall e' | e' in r.world.tree && e'.path == e.path
      ensures !VisibilityApplicable(d, e')
    {
      var k :| 0 <= k < |r.world.tree| && r.world.tree[k] == e';
    }
  }

  /**
   * VisibilityDebug reports exactly the entries VisibilityDefault would
   * change, naming the path and the target visibility, and changes nothing.
   */
  lemma VisibilityDebugMirrorsDefault(d: DirValue, e: Entry, w: World, now: int, isLink: string -> bool)
    ensures var r := Apply(VisibilityDebug, d, e, w, now, isLink);
            && r.Continue? && r.world.tree == w.tree && r.world.locationSeen == w.locationSeen
            && (VisibilityApplicable(d, e) ==> r.world.output == w.output + [VisibilityReport(e.path, d.visibility)])
            && (!VisibilityApplicable(d, e) ==>
                  r.world.output == w.output && Apply(VisibilityDefault, d, e, w, now, isLink) == Continue(w))
  {
  }

  /**
   * The first LocationDebug call for a policy path records it and reports
   * the symlink unless the link already is one; every later call for that
   * path, from any LocationDebug instance and for any entry, does nothing.
   */
  lemma LocationDebugOnce(web: string, d: DirValue, e: Entry, w: World, now: int, isLink: string -> bool,
                          web': string, d': DirValue, e': Entry, now': int)
    requires d.path !in w.locationSeen && d'.path == d.path
    ensures var link := SymlinkLink(web, d);
            var r := Apply(LocationDebug(web), d, e, w, now, isLink);
            && r == Continue(World(w.tree,
                                   w.output + (if isLink(link) then [] else [SymlinkReport(SymlinkTarget(d), link)]),
                                   w.locationSeen + {d.path}))
            && Apply(LocationDebug(web'), d', e', r.world, now', isLink) == r
  {
    var w' := w.(locationSeen := w.locationSeen + {d.path});
    assert Test(LocationDebug(web), d, e, w, now) == Ok(true);
    assert Apply(LocationDebug(web), d, e, w, now, isLink) == Effect(LocationDebug(web), d, e, w', now, isLink);
    var r := Apply(LocationDebug(web), d, e, w, now, isLink);
    assert Test(LocationDebug(web'), d', e', r.world, now') == Ok(false);
    assert Recorded(LocationDebug(web'), d', r.world) == r.world.locationSeen;
  }

  /**
   * LocationDebug's answer depends on nothing but the policy path and the
   * cache: not on the entry, the store, the clock or the output so far.
   */
  lemma LocationDebugIgnoresEntry(web: string, d: DirValue, e1: Entry, e2: Entry, w1: World, w2: World, now1: int, now2: int)
    requires w1.locationSeen == w2.locationSeen
    ensures Test(LocationDebug(web), d, e1, w1, now1) == Test(LocationDebug(web), d, e2, w2, now2)
    ensures Recorded(LocationDebug(web), d, w1) == Recorded(LocationDebug(web), d, w2)
  {
  }

  /** The plugins whose test reads the policy's seconds. */
  predicate IsTimed(p: Plugin) {
    p.ExpireDefault? || p.ExpireDebug? || p.ArchiveDefault? || p.ArchiveDebug?
  }

  /**
   * A timed plugin on a policy whose unit the conversion does not know (every
   * parsed "h" policy): a stored file makes it throw; a directory or a
   * missing path does not, since `fileExists` answers false first.
   */
  lemma UnknownUnitThrows(p: Plugin, d: DirValue, e: Entry, w: World, now: int, isLink: string -> bool)
    requires IsTimed(p)
    requires d.timingUnit != Some(TimingUnitDay) && d.timingUnit != Some(TimingUnitWeek)
    ensures IsFile(w.tree, e.path) ==> Apply(p, d, e, w, now, isLink) == Abort(UnsupportedTimingUnit, w)
    ensures !IsFile(w.tree, e.path) ==> Apply(p, d, e, w, now, isLink) == Continue(w)
  {
  }

  /**
   * The timed plugins act on files only: for a path the store holds as a
   * directory, or not at all, their test answers false whatever the policy
   * and the clock, and the world stays as it was.
   */
  lemma TimedPluginsSkipDirectories(p: Plugin, d: DirValue, e: Entry, w: World, now: int, isLink: string -> bool)
    requires IsTimed(p) && !IsFile(w.tree, e.path)
    ensures Test(p, d, e, w, now) == Ok(false)
    ensures Apply(p, d, e, w, now, isLink) == Continue(w)
  {
  }

  /**
   * ExpireDefault tests the opposite way from ExpireDebug: for a
   * non-negative timing value, no entry satisfies both tests.
   */
  lemma ExpireVariantsDisagree(d: DirValue, e: Entry, t: Tree, now: int)
    requires ValueOrZero(d.timingValue) >= 0
    ensures !(FutureDated(d, e, t, now) == Ok(true) && AgeReached(d, e, t, now) == Ok(true))
  {
    if TimingSeconds(d).Ok? {
      assert TimingSeconds(d).value >= 0;
    }
  }

  /**
   * ExpireDefault leaves an entry alone once its period has passed: a
   * non-negative period, stored entry with a known unit and a modification
   * time no later than now minus the period is not applicable, and the world
   * stays exactly as it was.
   */
  lemma ExpireDefaultSparesExpired(d: DirValue, e: Entry, w: World, now: int, isLink: string -> bool)
    requires ValueOrZero(d.timingValue) >= 0 && TimingSeconds(d).Ok?
    requires Exists(w.tree, e.path)
    requires Lookup(w.tree, e.path).value.lastModified + TimingSeconds(d).value <= now
    ensures Apply(ExpireDefault, d, e, w, now, isLink) == Continue(w)
  {
    assert TimingSeconds(d).value >= 0;
    assert FutureDated(d, e, w.tree, now) == Ok(false);
  }

  /**
   * ExpireDefault removes files only. An applicable path is a stored file:
   * listed as a file, it goes and every other entry stays; listed as a
   * directory by a listing the store no longer matches, `deleteDirectory`
   * finds no directory there and nothing changes.
   */
  lemma ExpireDefaultRemoves(d: DirValue, e: Entry, w: World, now: int, isLink: string -> bool)
    requires FutureDated(d, e, w.tree, now) == Ok(true)
    ensures IsFile(w.tree, e.path)
    ensures var r := Apply(ExpireDefault, d, e, w, now, isLink);
            && r.Continue? && r.world.output == w.output
            && (e.isDir ==> r == Continue(w))
            && (!e.isDir ==> !Exists(r.world.tree, e.path)
                             && forall x :: x in w.tree && x.path != e.path ==> x in r.world.tree)
  {
  }

  /**
   * ExpireDebug reports an applicable file always and an applicable
   * directory only while it lists nothing, and changes no entry.
   */
  lemma ExpireDebugReports(d: DirValue, e: Entry, w: World, now: int, isLink: string -> bool)
    requires AgeReached(d, e, w.tree, now) == Ok(true)
    ensures var r := Apply(ExpireDebug, d, e, w, now, isLink);
            && r.Continue? && r.world.tree == w.tree
            && (r.world.output == w.output + [DeleteReport(e.path)] <==> !e.isDir || ListContents(w.tree, e.path) == [])
            && (r.world.output == w.output <==> e.isDir && ListContents(w.tree, e.path) != [])
  {
    var r := Apply(ExpireDebug, d, e, w, now, isLink);
    assert |w.output + [DeleteReport(e.path)]| != |w.output|;
  }

  /**
   * The archive destination keeps the base name and sits in an `archiv`
   * directory: inside the directory itself for a directory, beside the file
   * for a file.
   */
  lemma ArchiveDestinationShape(e: Entry)
    requires e.path != [] && e.path[0] != '/'
    ensures Basename(ArchiveDestination(e)) == Basename(e.path)
    ensures e.isDir ==> Dirname(ArchiveDestination(e)) == e.path + "/archiv"
    ensures !e.isDir ==> Dirname(ArchiveDestination(e)) == Dirname(e.path) + "/archiv"
  {
    DirnameOfJoin(ArchiveDirectory(e), Basename(e.path));
  }

  /**
   * ArchiveDefault never changes the world for an entry listed as a
   * directory. A stored directory is not applicable; a stored file at that
   * path (a listing the store no longer matches) is applicable, but making
   * the `archiv` directory inside a file fails, or the destination lies
   * inside the source and the rename fails, before anything is made.
   */
  lemma ArchiveKeepsDirectories(d: DirValue, e: Entry, w: World, now: int, isLink: string -> bool)
    requires e.isDir && e.path != []
    ensures Apply(ArchiveDefault, d, e, w, now, isLink).world == w
  {
    if AgeReached(d, e, w.tree, now) == Ok(true) {
      ArchiveDirectoryInFile(e, w.tree, now);
      ArchiveApplied(d, e, w, now, isLink);
      assert w.(tree := w.tree) == w;
    }
  }

  /** ArchiveDefault's `process` is the move to the archive destination. */
  lemma ArchiveChange(d: DirValue, e: Entry, w: World, now: int)
    ensures Changed(ArchiveDefault, d, e, w, now) == Moved(w.tree, e.path, ArchiveDestination(e), now)
  {
  }

  /** Archiving a stored file that was listed as a directory leaves the store as it was. */
  lemma ArchiveDirectoryInFile(e: Entry, t: Tree, now: int)
    requires e.isDir && e.path != [] && IsFile(t, e.path)
    ensures Moved(t, e.path, ArchiveDestination(e), now).tree == t
  {
    var dst := ArchiveDestination(e);
    ArchiveParent(e);
    assert ArchiveDirectory(e) == e.path + "/archiv";
    InsideDirectory(e);
    ArchiveMkdirInFile(e.path, t, now);
  }

  /** `mkdir -p` of `<f>/archiv` where `<f>` is a stored file fails, or finds the directory already there. */
  lemma ArchiveMkdirInFile(f: Path, t: Tree, now: int)
    requires f != [] && IsFile(t, f)
    ensures DirectoryEnsured(t, f + "/archiv", now) in {None, Some(t)}
  {
    var dir := f + "/" + "archiv";
    ParentOfJoin(f, "archiv");
    assert f + "/archiv" == dir;
    if Lookup(t, dir).None? && |dir| <= MaxPathLength {
      EnsuredWhenStored(t, f, now);
    }
  }

  /** A directory's archive destination lies inside it. */
  lemma InsideDirectory(e: Entry)
    requires e.isDir
    ensures IsUnder(ArchiveDestination(e), e.path)
  {
    var dst := ArchiveDestination(e);
    var rest := "/archiv" + "/" + Basename(e.path);
    assert dst == e.path + rest;
    assert dst[..|e.path|] == e.path;
    assert dst[|e.path|] == rest[0];
  }

  /**
   * ArchiveDefault on an applicable file. When making the `archiv`
   * directory fails it throws with the world as it was; when the rename
   * fails it throws with the directories it made left behind. Otherwise the
   * stored entry, attributes and all, is at its archive destination inside
   * a stored `archiv` directory, and the source path is gone, so applying
   * ArchiveDefault to the same listed entry again does nothing.
   */
  lemma ArchiveFileMoves(d: DirValue, e: Entry, w: World, now: int, isLink: string -> bool)
    requires !e.isDir && AgeReached(d, e, w.tree, now) == Ok(true)
    ensures var dst := ArchiveDestination(e);
            var r := Apply(ArchiveDefault, d, e, w, now, isLink);
            && (r.Abort? ==>
                  || r == Abort(UnableToCreateDirectory(ArchiveDirectory(e)), w)
                  || (r.error == UnableToMoveFile(e.path, dst) && r.world.output == w.output
                      && r.world.locationSeen == w.locationSeen && w.tree <= r.world.tree))
            && (r.Continue? ==>
                  && Lookup(w.tree, e.path).value.(path := dst) in r.world.tree
                  && HasDirectory(r.world.tree, ArchiveDirectory(e))
                  && !Exists(r.world.tree, e.path)
                  && Apply(ArchiveDefault, d, e, r.world, now, isLink) == r)
  {
    if Moved(w.tree, e.path, ArchiveDestination(e), now).outcome.Pass? {
      ArchiveSucceeded(d, e, w, now, isLink);
    } else {
      ArchiveFailed(d, e, w, now, isLink);
    }
  }

  lemma ArchiveFailed(d: DirValue, e: Entry, w: World, now: int, isLink: string -> bool)
    requires AgeReached(d, e, w.tree, now) == Ok(true)
    requires Moved(w.tree, e.path, ArchiveDestination(e), now).outcome.Fail?
    ensures var r := Apply(ArchiveDefault, d, e, w, now, isLink);
            && r.Abort?
            && (|| r == Abort(UnableToCreateDirectory(ArchiveDirectory(e)), w)
                || (r.error == UnableToMoveFile(e.path, ArchiveDestination(e)) && r.world.output == w.output
                    && r.world.locationSeen == w.locationSeen && w.tree <= r.world.tree))
  {
    var dst := ArchiveDestination(e);
    var m := Moved(w.tree, e.path, dst, now);
    ArchiveParent(e);
    ArchiveApplied(d, e, w, now, isLink);
    MoveOutcome(w.tree, e.path, dst, now);
    if m.outcome.error.UnableToCreateDirectory? {
      assert w.(tree := m.tree) == w;
    }
  }

  lemma ArchiveSucceeded(d: DirValue, e: Entry, w: World, now: int, isLink: string -> bool)
    requires AgeReached(d, e, w.tree, now) == Ok(true)
    requires Moved(w.tree, e.path, ArchiveDestination(e), now).outcome.Pass?
    ensures var r := Apply(ArchiveDefault, d, e, w, now, isLink);
            && r.Continue?
            && Lookup(w.tree, e.path).value.(path := ArchiveDestination(e)) in r.world.tree
            && HasDirectory(r.world.tree, ArchiveDirectory(e))
            && !Exists(r.world.tree, e.path)
            && Apply(ArchiveDefault, d, e, r.world, now, isLink) == r
  {
    var dst := ArchiveDestination(e);
    var m := Moved(w.tree, e.path, dst, now);
    ArchiveParent(e);
    ArchiveApplied(d, e, w, now, isLink);
    MoveOutcome(w.tree, e.path, dst, now);
    MoveCarriesAttributes(w.tree, e.path, dst, now, Lookup(w.tree, e.path).value);
    MoveMakesParent(w.tree, e.path, dst, now);
    TimedPluginsSkipDirectories(ArchiveDefault, d, e, w.(tree := m.tree), now, isLink);
  }

  /** An applicable ArchiveDefault's step is its move's outcome, with the store the move leaves. */
  lemma ArchiveApplied(d: DirValue, e: Entry, w: World, now: int, isLink: string -> bool)
    requires AgeReached(d, e, w.tree, now) == Ok(true)
    ensures var m := Moved(w.tree, e.path, ArchiveDestination(e), now);
            Apply(ArchiveDefault, d, e, w, now, isLink) == Resume(m.outcome, w.(tree := m.tree))
  {
    assert Test(ArchiveDefault, d, e, w, now) == Ok(true);
    assert w.(locationSeen := Recorded(ArchiveDefault, d, w)) == w;
    assert Apply(ArchiveDefault, d, e, w, now, isLink) == Effect(ArchiveDefault, d, e, w, now, isLink);
    ArchiveChange(d, e, w, now);
    var a := Changed(ArchiveDefault, d, e, w, now);
    assert Effect(ArchiveDefault, d, e, w, now, isLink) == Resume(a.outcome, w.(tree := a.tree));
  }

  /** The archive destination's parent is the `archiv` directory. */
  lemma ArchiveParent(e: Entry)
    ensures Parent(ArchiveDestination(e)) == ArchiveDirectory(e) != []
  {
    ParentOfJoin(ArchiveDirectory(e), Basename(e.path));
  }

  /**
   * ArchiveDebug names the destination ArchiveDefault moves to: when the
   * real archive succeeds, the reported destination then exists.
   */
  lemma ArchiveDebugMirrorsDefault(d: DirValue, e: Entry, w: World, now: int, isLink: string -> bool)
    requires Apply(ArchiveDefault, d, e, w, now, isLink).Continue?
    requires AgeReached(d, e, w.tree, now) == Ok(true)
    ensures var r := Apply(ArchiveDebug, d, e, w, now, isLink);
            && r.world.tree == w.tree
            && r.world.output == w.output + [MoveReport(e.path, ArchiveDestination(e))]
            && Exists(Apply(ArchiveDefault, d, e, w, now, isLink).world.tree, ArchiveDestination(e))
  {
    var dst := ArchiveDestination(e);
    ArchiveApplied(d, e, w, now, isLink);
    MoveOutcome(w.tree, e.path, dst, now);
    assert Reports(ArchiveDebug, d, e, w.tree, isLink) == [MoveReport(e.path, dst)];
  }
}
