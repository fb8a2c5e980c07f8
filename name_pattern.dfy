/**
 * The directory-name pattern `Diridea::REGEX` and how `readDirideaDirectories`
 * turns a match into a policy.
 *
 * The pattern
 *   (?<prefix>.*?)--(?<location>web|backend)_(?<visibility>public|private)
 *   (?<timings>(?<timing_option>_expire|_archive)(?<timing_value>\d+)(?<timing_unit>[d|h]))?
 *   (?<encrypt>_encrypt)??(?<backup>_backup)?(?<cache>_cache?)?
 * has no anchors and is applied to the whole listed path. It is matched here by
 * hand, in two layers: `Capture` says which groups take part in the leftmost
 * match and what they hold, and `MatchArray` says what PHP's `$matches` then
 * reports for each named group.
 */
module NamePattern {
  import opened Common
  import opened DirValues

  /** `lit` occurs in `s` at position `i`. */
  predicate HasAt(s: string, i: int, lit: string) {
    0 <= i && i + |lit| <= |s| && s[i..i + |lit|] == lit
  }

  predicate IsDigit(c: char) { '0' <= c <= '9' }

  /** The character class `[d|h]`: the bar is a member, not an alternation. */
  predicate IsUnitChar(c: char) { c == 'd' || c == '|' || c == 'h' }

  /** A character of an occurrence. */
  lemma HasAtChar(s: string, i: int, lit: string, k: int)
    requires HasAt(s, i, lit) && 0 <= k < |lit|
    ensures s[i + k] == lit[k]
  {
    assert s[i..i + |lit|][k] == s[i + k];
  }

  /** `--(web|backend)_(public|private)`: the location and visibility it names. */
  datatype Marker = Marker(location: Location, visibility: Visibility)

  function MarkerText(m: Marker): (t: string)
    ensures |t| == 3 + |LocationName(m.location)| + |VisibilityName(m.visibility)|
  {
    match (m.location, m.visibility)
    case (Web, Public) => "--web_public"
    case (Web, Private) => "--web_private"
    case (Backend, Public) => "--backend_public"
    case (Backend, Private) => "--backend_private"
  }

  /** The marker text is the two names joined as the pattern spells them. */
  lemma MarkerTextSpelling(m: Marker)
    ensures MarkerText(m) == "--" + LocationName(m.location) + "_" + VisibilityName(m.visibility)
  {
    match (m.location, m.visibility)
    case (Web, Public) =>
    case (Web, Private) =>
    case (Backend, Public) =>
    case (Backend, Private) =>
  }

  function MarkerAt(s: string, i: int): (r: Option<Marker>)
    ensures r.Some? ==> HasAt(s, i, MarkerText(r.value))
  {
    // the alternatives of each group differ in their first letters, so at
    // most one of the four combinations can be present at `i`
    if HasAt(s, i, "--web_public") then Some(Marker(Web, Public))
    else if HasAt(s, i, "--web_private") then Some(Marker(Web, Private))
    else if HasAt(s, i, "--backend_public") then Some(Marker(Backend, Public))
    else if HasAt(s, i, "--backend_private") then Some(Marker(Backend, Private))
    else None
  }

  /** Every occurrence of one of the four markers is found by `MarkerAt`. */
  lemma MarkerAtComplete(s: string, i: int, m: Marker)
    requires HasAt(s, i, MarkerText(m))
    ensures MarkerAt(s, i) == Some(m)
  {
    var t := MarkerText(m);
    if m.location == Backend {
      HasAtChar(s, i, t, 2);
      if HasAt(s, i, "--web_public") { HasAtChar(s, i, "--web_public", 2); }
      if HasAt(s, i, "--web_private") { HasAtChar(s, i, "--web_private", 2); }
      if m.visibility == Private {
        HasAtChar(s, i, t, 11);
        if HasAt(s, i, "--backend_public") { HasAtChar(s, i, "--backend_public", 11); }
      }
    } else if m.visibility == Private {
      HasAtChar(s, i, t, 7);
      if HasAt(s, i, "--web_public") { HasAtChar(s, i, "--web_public", 7); }
    }
  }

  /** A marker starts with a dash. */
  lemma MarkerStartsWithDash(s: string, i: int)
    requires MarkerAt(s, i).Some?
    ensures 0 <= i < |s| && s[i] == '-'
  {
    HasAtChar(s, i, MarkerText(MarkerAt(s, i).value), 0);
  }

  /** Position of the leftmost marker at or after `from`. */
  function FirstMarker(s: string, from: nat): (r: Option<nat>)
    ensures r.Some? ==> from <= r.value < |s| && MarkerAt(s, r.value).Some?
    ensures r.Some? ==> forall k :: from <= k < r.value ==> MarkerAt(s, k).None?
    ensures r.None? ==> forall k :: from <= k ==> MarkerAt(s, k).None?
    decreases |s| - from
  {
    if from >= |s| then None
    else if MarkerAt(s, from).Some? then Some(from)
    else FirstMarker(s, from + 1)
  }

  /** The leftmost marker is unique. */
  lemma FirstMarkerIs(s: string, from: nat, i: nat)
    requires from <= i && MarkerAt(s, i).Some?
    requires forall k :: from <= k < i ==> MarkerAt(s, k).None?
    ensures FirstMarker(s, from) == Some(i)
    decreases i - from
  {
    assert i < |s|;
    if from < i {
      assert MarkerAt(s, from).None?;
      FirstMarkerIs(s, from + 1, i);
    }
  }

  /** Start of the line holding position `i`: `.` does not match a newline. */
  function LineStart(s: string, i: nat): (r: nat)
    requires i <= |s|
    ensures r <= i
    ensures forall k :: r <= k < i ==> s[k] != '\n'
    ensures r > 0 ==> s[r - 1] == '\n'
    decreases i
  {
    if i == 0 then 0 else if s[i - 1] == '\n' then i else LineStart(s, i - 1)
  }

  /** What the lazy `.*?` takes before position `i`: the text since the last line break. */
  function LinePrefix(s: string, i: nat): (p: string)
    requires i <= |s|
    ensures p == s[LineStart(s, i)..i]
    ensures forall k :: 0 <= k < |p| ==> p[k] != '\n'
  {
    var st := LineStart(s, i);
    assert forall k :: 0 <= k < i - st ==> s[st..i][k] == s[st + k];
    s[st..i]
  }

  /** Length of the run of digits that starts at `i` (what a greedy `\d+` takes). */
  function DigitRun(s: string, i: nat): (n: nat)
    requires i <= |s|
    ensures i + n <= |s|
    ensures forall k :: i <= k < i + n ==> IsDigit(s[k])
    ensures i + n == |s| || !IsDigit(s[i + n])
    decreases |s| - i
  {
    if i < |s| && IsDigit(s[i]) then 1 + DigitRun(s, i + 1) else 0
  }

  /** The text of the three timing groups. */
  datatype Timing = Timing(option: string, digits: string, unit: string)

  /**
   * `(_expire|_archive)\d+[d|h]` at `j`, with the position after it. Giving
   * back digits to `\d+` cannot help: the next character would be a digit,
   * which `[d|h]` rejects.
   */
  function TimingAt(s: string, j: nat): (r: Option<(Timing, nat)>)
    requires j <= |s|
    ensures r.Some? ==> j < r.value.1 <= |s|
    ensures r.Some? ==> (r.value.0.option == "_expire" || r.value.0.option == "_archive")
                        && HasAt(s, j, r.value.0.option)
    ensures r.Some? ==> |r.value.0.digits| > 0 && (forall k :: 0 <= k < |r.value.0.digits| ==> IsDigit(r.value.0.digits[k]))
    ensures r.Some? ==> |r.value.0.unit| == 1 && IsUnitChar(r.value.0.unit[0])
  {
    var opt := TimingOptionAt(s, j);
    if opt == "" then None else TimingTail(s, opt, j + |opt|)
  }

  /** `(_expire|_archive)` at `j`, or "" when neither is there. */
  function TimingOptionAt(s: string, j: nat): (opt: string)
    ensures opt == "" || ((opt == "_expire" || opt == "_archive") && HasAt(s, j, opt))
  {
    if HasAt(s, j, "_expire") then "_expire" else if HasAt(s, j, "_archive") then "_archive" else ""
  }

  /** `\d+[d|h]` at `k`, after the option `opt`. */
  function TimingTail(s: string, opt: string, k: nat): (r: Option<(Timing, nat)>)
    requires k <= |s|
    ensures r.Some? ==> k < r.value.1 <= |s| && r.value.0.option == opt
    ensures r.Some? ==> |r.value.0.digits| > 0 && (forall k :: 0 <= k < |r.value.0.digits| ==> IsDigit(r.value.0.digits[k]))
    ensures r.Some? ==> |r.value.0.unit| == 1 && IsUnitChar(r.value.0.unit[0])
  {
    var n := DigitRun(s, k);
    if n > 0 && k + n < |s| && IsUnitChar(s[k + n]) then
      Some((Timing(opt, s[k..k + n], [s[k + n]]), k + n + 1))
    else None
  }

  /** The groups that take part in the leftmost match, and their text. */
  datatype Captures = Captures(
    start: nat,            // where the match starts
    at: nat,               // where its `--` is
    segmentEnd: nat,       // end of the visibility, or of the timing segment when there is one
    prefix: string,
    location: string,
    visibility: string,
    timing: Option<Timing>,
    encrypt: Option<string>,
    backup: Option<string>,
    cache: Option<string>)

  /**
   * PCRE's leftmost match. The lazy prefix stops at the first marker; the
   * greedy timing, backup and cache groups take their text when it is there;
   * the lazy `(_encrypt)??` is first tried empty, and since everything after it
   * is optional the match then succeeds, so it never takes part.
   */
  function Capture(s: string): (r: Option<Captures>)
    ensures r.Some? <==> exists i :: 0 <= i < |s| && MarkerAt(s, i).Some?
    ensures r.Some? ==> r.value.at < |s| && MarkerAt(s, r.value.at).Some?
    ensures r.Some? ==> forall k :: 0 <= k < r.value.at ==> MarkerAt(s, k).None?
    ensures r.Some? ==> r.value.encrypt.None?
  {
    match FirstMarker(s, 0)
    case None => None
    case Some(i) => Some(CaptureAt(s, i))
  }

  /** Where the visibility ends, for the marker at `i`. */
  function MarkerEnd(s: string, i: nat): (j: nat)
    requires MarkerAt(s, i).Some?
    ensures j <= |s|
  {
    i + |MarkerText(MarkerAt(s, i).value)|
  }

  /** The optional timing segment right after the marker, and where the segment ends. */
  function SegmentAt(s: string, i: nat): (r: (Option<Timing>, nat))
    requires MarkerAt(s, i).Some?
    ensures r.1 <= |s|
  {
    var t := TimingAt(s, MarkerEnd(s, i));
    if t.Some? then (Some(t.value.0), t.value.1) else (None, MarkerEnd(s, i))
  }

  /** `(_backup)?` at `j`. */
  function BackupGroup(s: string, j: nat): Option<string> {
    if HasAt(s, j, "_backup") then Some("_backup") else None
  }

  /** `(_cache?)?` at `j`: the full `_cache`, else `_cach`. */
  function CacheGroup(s: string, j: nat): Option<string> {
    if HasAt(s, j, "_cache") then Some("_cache") else if HasAt(s, j, "_cach") then Some("_cach") else None
  }

  /** Where the cache group is tried: after the backup group when that took part. */
  function AfterBackup(s: string, j: nat): (r: nat)
    ensures j <= |s| ==> r <= |s|
  {
    if BackupGroup(s, j).Some? then j + 7 else j
  }

  /** The groups of a match whose marker is at `i`. */
  function CaptureAt(s: string, i: nat): (c: Captures)
    requires MarkerAt(s, i).Some?
    ensures c.at == i && c.start <= i && c.prefix == s[c.start..i] && c.encrypt.None?
    ensures forall k :: 0 <= k < |c.prefix| ==> c.prefix[k] != '\n'
    ensures c.location == LocationName(MarkerAt(s, i).value.location)
    ensures c.visibility == VisibilityName(MarkerAt(s, i).value.visibility)
    ensures c.segmentEnd <= |s|
  {
    var m := MarkerAt(s, i).value;
    var seg := SegmentAt(s, i);
    Captures(LineStart(s, i), i, seg.1, LinePrefix(s, i), LocationName(m.location), VisibilityName(m.visibility),
             seg.0, None, BackupGroup(s, seg.1), CacheGroup(s, AfterBackup(s, seg.1)))
  }

  /**
   * `_backup` is taken exactly when it follows the visibility or timing
   * segment, and `_cache?` right after that: the full `_cache`, or `_cach`.
   */
  lemma CaptureFlags(s: string, i: nat)
    requires MarkerAt(s, i).Some?
    ensures var c := CaptureAt(s, i);
            && (c.backup.Some? <==> HasAt(s, c.segmentEnd, "_backup"))
            && (c.backup.Some? ==> c.backup.value == "_backup")
    ensures var c := CaptureAt(s, i);
            var j3 := c.segmentEnd + (if c.backup.Some? then 7 else 0);
            && (c.cache == Some("_cache") <==> HasAt(s, j3, "_cache"))
            && (c.cache == Some("_cach") <==> HasAt(s, j3, "_cach") && !HasAt(s, j3, "_cache"))
            && (c.cache.Some? ==> c.cache.value == "_cache" || c.cache.value == "_cach")
  {
    var c := CaptureAt(s, i);
    assert c.backup == BackupGroup(s, c.segmentEnd);
    assert c.cache == CacheGroup(s, AfterBackup(s, c.segmentEnd));
    CacheGroupCases(s, AfterBackup(s, c.segmentEnd));
  }

  lemma CacheGroupCases(s: string, j: nat)
    ensures CacheGroup(s, j) == Some("_cache") <==> HasAt(s, j, "_cache")
    ensures CacheGroup(s, j) == Some("_cach") <==> HasAt(s, j, "_cach") && !HasAt(s, j, "_cache")
    ensures CacheGroup(s, j).Some? ==> CacheGroup(s, j).value == "_cache" || CacheGroup(s, j).value == "_cach"
  {
    assert "_cache" != "_cach" by { assert |"_cache"| != |"_cach"|; }
  }

  /** What `$matches` holds for one named group: absent (None) or a string. */
  datatype Groups = Groups(
    prefix: string,
    location: string,
    visibility: string,
    timingOption: Option<string>,
    timingValue: Option<string>,
    timingUnit: Option<string>,
    encrypt: Option<string>,
    backup: Option<string>,
    cache: Option<string>)

  /**
   * `preg_match` reports a group that did not take part as '' when a later
   * group did, and leaves it out when no later group did.
   */
  function Reported(g: Option<string>, laterTookPart: bool): (r: Option<string>)
    ensures g.Some? ==> r == g
    ensures g.None? ==> (r.Some? <==> laterTookPart) && (r.Some? ==> r.value == "")
  {
    if g.Some? then g else if laterTookPart then Some("") else None
  }

  function MatchArray(c: Captures): (g: Groups) {
    var afterEncrypt := c.backup.Some? || c.cache.Some?;
    var afterTimings := c.encrypt.Some? || afterEncrypt;
    Groups(c.prefix, c.location, c.visibility,
           Reported(if c.timing.Some? then Some(c.timing.value.option) else None, afterTimings),
           Reported(if c.timing.Some? then Some(c.timing.value.digits) else None, afterTimings),
           Reported(if c.timing.Some? then Some(c.timing.value.unit) else None, afterTimings),
           Reported(c.encrypt, afterEncrypt),
           Reported(c.backup, c.cache.Some?),
           c.cache)
  }

  /** PHP `ltrim($s, '_')`. */
  function LTrimUnderscore(s: string): (r: string)
    ensures |r| <= |s| && s[|s| - |r|..] == r
    ensures r == [] || r[0] != '_'
    ensures forall k :: 0 <= k < |s| - |r| ==> s[k] == '_'
  {
    if s != [] && s[0] == '_' then LTrimUnderscore(s[1..]) else s
  }

  /** Decimal value of a string of digits. */
  function DigitsValue(s: string): (n: nat)
    requires forall k :: 0 <= k < |s| ==> IsDigit(s[k])
  {
    if s == [] then 0
    else
      assert IsDigit(s[|s| - 1]);
      DigitsValue(s[..|s| - 1]) * 10 + (s[|s| - 1] as int - '0' as int)
  }

  /** PHP `(int)` of a string, for the strings the pattern yields: the value of its leading digits, 0 for "". */
  function IntCast(s: string): int {
    var n := DigitRun(s, 0);
    DigitsValue(s[..n])
  }

  /**
   * One step of `readDirideaDirectories`: a directory whose listed path does
   * not match is not managed (Ok(None)); a match is handed to the constructor,
   * whose exception escapes.
   */
  function ParseDirectory(path: string, basePath: string): Result<Option<DirValue>> {
    match Capture(path)
    case None => Ok(None)
    case Some(c) =>
      var d := Construct(path, basePath, MatchArray(c));
      if d.Ok? then Ok(Some(d.value)) else Err(d.error)
  }

  /** `new DirValueObject(...)` on the reported groups: ltrim'd names, `(int)` value, flags by name. */
  function Construct(path: string, basePath: string, g: Groups): Result<DirValue> {
    New(path, basePath, g.prefix, g.location, g.visibility,
        if g.timingOption.Some? then Some(LTrimUnderscore(g.timingOption.value)) else None,
        if g.timingValue.Some? then Some(IntCast(g.timingValue.value)) else None,
        g.timingUnit,
        g.encrypt.Some? && LTrimUnderscore(g.encrypt.value) == "encrypt",
        g.backup.Some? && LTrimUnderscore(g.backup.value) == "backup",
        g.cache.Some? && LTrimUnderscore(g.cache.value) == "cache")
  }

  /** `(int)` of an all-digit string is its decimal value. */
  lemma IntCastOfDigits(s: string)
    requires forall k :: 0 <= k < |s| ==> IsDigit(s[k])
    ensures IntCast(s) == DigitsValue(s)
  {
    var n := DigitRun(s, 0);
    assert s[..n] == s;
  }

  lemma LTrimOfGroupTexts()
    ensures LTrimUnderscore("_expire") == "expire" && LTrimUnderscore("_archive") == "archive"
    ensures LTrimUnderscore("_backup") == "backup" && LTrimUnderscore("_cache") == "cache"
    ensures LTrimUnderscore("_cach") == "cach" && LTrimUnderscore("") == ""
  {
    LTrimSingle("_expire");
    LTrimSingle("_archive");
    LTrimSingle("_backup");
    LTrimSingle("_cache");
    LTrimSingle("_cach");
  }

  /** One leading underscore followed by something else is trimmed to the rest. */
  lemma LTrimSingle(s: string)
    requires |s| >= 2 && s[0] == '_' && s[1] != '_'
    ensures LTrimUnderscore(s) == s[1..]
  {
    assert s[1..][0] != '_';
  }

  /** The timing segment, when captured, is what `TimingAt` found after the marker. */
  lemma CaptureTiming(s: string, i: nat)
    requires MarkerAt(s, i).Some?
    ensures var c := CaptureAt(s, i);
            var t := TimingAt(s, MarkerEnd(s, i));
            && (c.timing.Some? <==> t.Some?)
            && (c.timing.Some? ==> c.timing.value == t.value.0 && c.segmentEnd == t.value.1)
  {
  }

  /**
   * What `$matches` reports for the timing groups: their text when the timing
   * segment took part, '' when only a later flag group did, nothing otherwise.
   */
  lemma ReportedTiming(c: Captures)
    requires c.encrypt.None?
    ensures var g := MatchArray(c);
            && (c.timing.Some? ==> g.timingOption == Some(c.timing.value.option)
                                   && g.timingValue == Some(c.timing.value.digits)
                                   && g.timingUnit == Some(c.timing.value.unit))
            && (c.timing.None? && (c.backup.Some? || c.cache.Some?) ==>
                  g.timingOption == Some("") && g.timingValue == Some("") && g.timingUnit == Some(""))
            && (c.timing.None? && c.backup.None? && c.cache.None? ==>
                  g.timingOption.None? && g.timingValue.None? && g.timingUnit.None?)
  {
  }

  /** With a timing segment the constructor accepts the groups unless the unit is the bar. */
  lemma ConstructWithTiming(path: string, basePath: string, g: Groups)
    requires LocationAccepted(g.location) && VisibilityAccepted(g.visibility)
    requires g.timingOption == Some("_expire") || g.timingOption == Some("_archive")
    requires g.timingValue.Some? && g.timingUnit.Some?
    requires |g.timingUnit.value| == 1 && IsUnitChar(g.timingUnit.value[0])
    ensures g.timingUnit == Some("|") ==> Construct(path, basePath, g) == Err(InvalidTimingUnit("|"))
    ensures g.timingUnit != Some("|") ==> Construct(path, basePath, g).Ok?
  {
    LTrimOfGroupTexts();
    var u := g.timingUnit.value;
    assert u == [u[0]];
  }

  /**
   * Which listed paths `readDirideaDirectories` skips, which make it throw and
   * which yield a policy. A `_backup` or `_cache?` captured without a timing
   * segment makes PHP report the timing option as '', an invalid option; a
   * `|` unit is an invalid unit. Everything else that matches is accepted.
   */
  lemma ParseDirectoryOutcome(path: string, basePath: string)
    ensures Capture(path).None? <==> ParseDirectory(path, basePath) == Ok(None)
    ensures Capture(path).Some? ==>
              var c := Capture(path).value;
              var flagWithoutTiming := c.timing.None? && (c.backup.Some? || c.cache.Some?);
              var barUnit := c.timing.Some? && c.timing.value.unit == "|";
              && (flagWithoutTiming ==> ParseDirectory(path, basePath) == Err(InvalidTimingOption("")))
              && (barUnit ==> ParseDirectory(path, basePath) == Err(InvalidTimingUnit("|")))
              && (!flagWithoutTiming && !barUnit ==>
                    ParseDirectory(path, basePath).Ok? && ParseDirectory(path, basePath).value.Some?)
  {
    match FirstMarker(path, 0)
    case None =>
    case Some(i) =>
      var c := CaptureAt(path, i);
      assert Capture(path) == Some(c);
      var g := MatchArray(c);
      ReportedTiming(c);
      LTrimOfGroupTexts();
      assert LocationAccepted(g.location) && VisibilityAccepted(g.visibility);
      if c.timing.Some? {
        CaptureTiming(path, i);
        ConstructWithTiming(path, basePath, g);
      } else if c.backup.Some? || c.cache.Some? {
        assert Construct(path, basePath, g) == Err(InvalidTimingOption(""));
      } else {
        assert Construct(path, basePath, g).Ok?;
      }
  }

  /** A parsed policy carries the path it was parsed from, which is never empty. */
  lemma ParsedPath(path: string, basePath: string)
    requires ParseDirectory(path, basePath).Ok? && ParseDirectory(path, basePath).value.Some?
    ensures ParseDirectory(path, basePath).value.value.path == path && path != []
  {
    ParseDirectoryOutcome(path, basePath);
    ParsedPolicy(path, basePath);
  }

  /**
   * The policy built for a matching path: the listed path, the prefix,
   * location and visibility of the leftmost marker; encrypt never set; backup
   * set when `_backup` was captured and cache only for the full `_cache`.
   */
  lemma ParsedPolicy(path: string, basePath: string)
    requires Capture(path).Some? && ParseDirectory(path, basePath).Ok?
    ensures ParseDirectory(path, basePath).value.Some?
    ensures var c := Capture(path).value;
            var d := ParseDirectory(path, basePath).value.value;
            && d.path == path && d.basePath == basePath && d.prefix == c.prefix
            && LocationName(d.location) == c.location && VisibilityName(d.visibility) == c.visibility
            && !d.encrypt
            && (d.backup <==> c.backup.Some?)
            && (d.cache <==> c.cache == Some("_cache"))
  {
    ParseDirectoryOutcome(path, basePath);
    var i := FirstMarker(path, 0).value;
    var c := CaptureAt(path, i);
    assert Capture(path) == Some(c);
    var g := MatchArray(c);
    var d := Construct(path, basePath, g).value;
    assert ParseDirectory(path, basePath) == Ok(Some(d));
    CaptureFlags(path, i);
    GroupFlags(c);
  }

  /**
   * The timing of the policy built for a matching path: present exactly when
   * the timing segment was captured, the option without its underscore, the
   * digit run as a number and the unit letter.
   */
  lemma ParsedTiming(path: string, basePath: string)
    requires Capture(path).Some? && ParseDirectory(path, basePath).Ok?
    ensures ParseDirectory(path, basePath).value.Some?
    ensures var c := Capture(path).value;
            var d := ParseDirectory(path, basePath).value.value;
            && (d.timingOption.Some? <==> c.timing.Some?)
            && (c.timing.Some? ==>
                  && "_" + TimingOptionName(d.timingOption.value) == c.timing.value.option
                  && (forall k :: 0 <= k < |c.timing.value.digits| ==> IsDigit(c.timing.value.digits[k]))
                  && d.timingValue == Some(DigitsValue(c.timing.value.digits))
                  && d.timingUnit == Some(c.timing.value.unit))
  {
    ParseDirectoryOutcome(path, basePath);
    var i := FirstMarker(path, 0).value;
    var c := CaptureAt(path, i);
    assert Capture(path) == Some(c);
    var g := MatchArray(c);
    var d := Construct(path, basePath, g).value;
    assert ParseDirectory(path, basePath) == Ok(Some(d));
    ReportedTiming(c);
    if c.timing.Some? {
      CaptureTiming(path, i);
      ConstructTiming(path, basePath, g, c.timing.value);
    }
  }

  /** The constructor keeps the timing groups, converted as `readDirideaDirectories` converts them. */
  lemma ConstructTiming(path: string, basePath: string, g: Groups, t: Timing)
    requires Construct(path, basePath, g).Ok?
    requires t.option == "_expire" || t.option == "_archive"
    requires forall k :: 0 <= k < |t.digits| ==> IsDigit(t.digits[k])
    requires g.timingOption == Some(t.option) && g.timingValue == Some(t.digits) && g.timingUnit == Some(t.unit)
    ensures var d := Construct(path, basePath, g).value;
            && d.timingOption.Some?
            && "_" + TimingOptionName(d.timingOption.value) == t.option
            && d.timingValue == Some(DigitsValue(t.digits))
            && d.timingUnit == Some(t.unit)
  {
    IntCastOfDigits(t.digits);
    OptionGroupName(t.option);
    var option := Some(LTrimUnderscore(t.option));
    var value := Some(IntCast(t.digits));
    var e := g.encrypt.Some? && LTrimUnderscore(g.encrypt.value) == "encrypt";
    var b := g.backup.Some? && LTrimUnderscore(g.backup.value) == "backup";
    var ca := g.cache.Some? && LTrimUnderscore(g.cache.value) == "cache";
    assert Construct(path, basePath, g)
        == New(path, basePath, g.prefix, g.location, g.visibility, option, value, g.timingUnit, e, b, ca);
  }

  /** The option group, stripped of its underscore, names an option whose name gives the group back. */
  lemma OptionGroupName(opt: string)
    requires opt == "_expire" || opt == "_archive"
    ensures forall o :: TimingOptionName(o) == LTrimUnderscore(opt) ==> "_" + TimingOptionName(o) == opt
  {
    LTrimSingle(opt);
    forall o | TimingOptionName(o) == LTrimUnderscore(opt) ensures "_" + TimingOptionName(o) == opt {
      assert opt == [opt[0]] + opt[1..];
    }
  }

  /** How the captured flag groups become the three booleans. */
  lemma GroupFlags(c: Captures)
    requires c.encrypt.None?
    requires c.backup.Some? ==> c.backup.value == "_backup"
    requires c.cache.Some? ==> c.cache.value == "_cache" || c.cache.value == "_cach"
    ensures var g := MatchArray(c);
            && !(g.encrypt.Some? && LTrimUnderscore(g.encrypt.value) == "encrypt")
            && (g.backup.Some? && LTrimUnderscore(g.backup.value) == "backup" <==> c.backup.Some?)
            && (g.cache.Some? && LTrimUnderscore(g.cache.value) == "cache" <==> c.cache == Some("_cache"))
  {
    LTrimOfGroupTexts();
    assert "cach" != "cache" by { assert |"cach"| != |"cache"|; }
    assert "" != "encrypt" && "" != "backup";
  }

  predicate NoSlash(lit: string) {
    forall k :: 0 <= k < |lit| ==> lit[k] != '/'
  }

  /** Text without a slash that occurs in `p + "/" + x` at or before `|p|` occurs in `p`. */
  lemma HasAtExtend(p: string, x: string, j: nat, lit: string)
    requires j <= |p| && NoSlash(lit)
    ensures HasAt(p + "/" + x, j, lit) <==> HasAt(p, j, lit)
  {
    var s := p + "/" + x;
    if j + |lit| <= |p| {
      assert s[j..j + |lit|] == p[j..j + |lit|];
    } else {
      assert s[|p|] == '/';
      if HasAt(s, j, lit) {
        HasAtChar(s, j, lit, |p| - j);
      }
    }
  }

  lemma MarkerAtExtend(p: string, x: string, k: nat)
    requires k <= |p|
    ensures MarkerAt(p + "/" + x, k) == MarkerAt(p, k)
  {
    HasAtExtend(p, x, k, "--web_public");
    HasAtExtend(p, x, k, "--web_private");
    HasAtExtend(p, x, k, "--backend_public");
    HasAtExtend(p, x, k, "--backend_private");
  }

  lemma {:induction false} DigitRunExtend(p: string, x: string, k: nat)
    requires k <= |p|
    ensures DigitRun(p + "/" + x, k) == DigitRun(p, k)
    decreases |p| - k
  {
    var s := p + "/" + x;
    if k < |p| {
      assert s[k] == p[k];
      if IsDigit(p[k]) {
        DigitRunExtend(p, x, k + 1);
      }
    } else {
      assert s[k] == '/';
    }
  }

  lemma TimingTailExtend(p: string, x: string, opt: string, k: nat)
    requires k <= |p|
    ensures TimingTail(p + "/" + x, opt, k) == TimingTail(p, opt, k)
  {
    var s := p + "/" + x;
    DigitRunExtend(p, x, k);
    var n := DigitRun(p, k);
    if k + n < |p| {
      assert s[k + n] == p[k + n];
      assert s[k..k + n] == p[k..k + n];
    } else {
      assert s[k + n] == '/';
    }
  }

  lemma TimingAtExtend(p: string, x: string, j: nat)
    requires j <= |p|
    ensures TimingAt(p + "/" + x, j) == TimingAt(p, j)
  {
    HasAtExtend(p, x, j, "_expire");
    HasAtExtend(p, x, j, "_archive");
    var opt := TimingOptionAt(p, j);
    assert TimingOptionAt(p + "/" + x, j) == opt;
    if opt != "" {
      TimingTailExtend(p, x, opt, j + |opt|);
    }
  }

  lemma {:induction false} LineStartExtend(p: string, x: string, i: nat)
    requires i <= |p|
    ensures LineStart(p + "/" + x, i) == LineStart(p, i)
    decreases i
  {
    if i > 0 {
      assert (p + "/" + x)[i - 1] == p[i - 1];
      LineStartExtend(p, x, i - 1);
    }
  }

  lemma LinePrefixExtend(p: string, x: string, i: nat)
    requires i <= |p|
    ensures LinePrefix(p + "/" + x, i) == LinePrefix(p, i)
  {
    LineStartExtend(p, x, i);
    var a := LineStart(p, i);
    assert (p + "/" + x)[a..i] == p[a..i];
  }

  /**
   * The pattern is applied to the whole listed path: once a directory
   * matches, every path below it matches through the same segment, with the
   * same groups.
   */
  lemma SubpathCapture(p: string, x: string)
    requires Capture(p).Some?
    ensures Capture(p + "/" + x) == Capture(p)
  {
    var i := FirstMarker(p, 0).value;
    FirstMarkerExtend(p, x, i);
    CaptureAtExtend(p, x, i);
  }

  lemma FirstMarkerExtend(p: string, x: string, i: nat)
    requires FirstMarker(p, 0) == Some(i)
    ensures FirstMarker(p + "/" + x, 0) == Some(i)
  {
    forall k | 0 <= k <= i ensures MarkerAt(p + "/" + x, k) == MarkerAt(p, k) {
      MarkerAtExtend(p, x, k);
    }
    FirstMarkerIs(p + "/" + x, 0, i);
  }

  /** The groups of a match in `p` are the groups of the same match in `p + "/" + x`. */
  lemma CaptureAtExtend(p: string, x: string, i: nat)
    requires i < |p| && MarkerAt(p, i).Some?
    ensures MarkerAt(p + "/" + x, i).Some?
    ensures CaptureAt(p + "/" + x, i) == CaptureAt(p, i)
  {
    var s := p + "/" + x;
    MarkerAtExtend(p, x, i);
    var j := MarkerEnd(p, i);
    assert MarkerEnd(s, i) == j;
    TimingAtExtend(p, x, j);
    var j2 := SegmentAt(p, i).1;
    assert SegmentAt(s, i) == SegmentAt(p, i);
    FlagGroupsExtend(p, x, j2);
    LineStartExtend(p, x, i);
    LinePrefixExtend(p, x, i);
  }

  /** The `_backup` and `_cache?` groups at or before `|p|` read the same in `p + "/" + x`. */
  lemma FlagGroupsExtend(p: string, x: string, j: nat)
    requires j <= |p|
    ensures BackupGroup(p + "/" + x, j) == BackupGroup(p, j)
    ensures AfterBackup(p + "/" + x, j) == AfterBackup(p, j)
    ensures CacheGroup(p + "/" + x, AfterBackup(p, j)) == CacheGroup(p, AfterBackup(p, j))
  {
    assert NoSlash("_backup");
    HasAtExtend(p, x, j, "_backup");
    CacheGroupExtend(p, x, AfterBackup(p, j));
  }

  lemma CacheGroupExtend(p: string, x: string, j: nat)
    requires j <= |p|
    ensures CacheGroup(p + "/" + x, j) == CacheGroup(p, j)
  {
    assert NoSlash("_cache") && NoSlash("_cach");
    HasAtExtend(p, x, j, "_cache");
    HasAtExtend(p, x, j, "_cach");
  }

  /**
   * So a directory below a managed directory is indexed with the ancestor's
   * policy under its own path, or makes the run throw exactly as the ancestor does.
   */
  lemma SubdirectoryInheritsPolicy(p: string, x: string, basePath: string)
    requires Capture(p).Some?
    ensures ParseDirectory(p, basePath).Err? ==> ParseDirectory(p + "/" + x, basePath) == ParseDirectory(p, basePath)
    ensures ParseDirectory(p, basePath).Ok? ==>
              ParseDirectory(p, basePath).value.Some? &&
              ParseDirectory(p + "/" + x, basePath)
                == Ok(Some(ParseDirectory(p, basePath).value.value.(path := p + "/" + x)))
  {
    SubpathCapture(p, x);
    ConstructRepath(p, p + "/" + x, basePath, MatchArray(Capture(p).value));
  }

  /** The listed path is only stored: it does not decide whether construction succeeds. */
  lemma ConstructRepath(path: string, path': string, basePath: string, g: Groups)
    ensures Construct(path, basePath, g).Err? ==> Construct(path', basePath, g) == Construct(path, basePath, g)
    ensures Construct(path, basePath, g).Ok? ==>
              Construct(path', basePath, g) == Ok(Construct(path, basePath, g).value.(path := path'))
  {
    var o := if g.timingOption.Some? then Some(LTrimUnderscore(g.timingOption.value)) else None;
    var v := if g.timingValue.Some? then Some(IntCast(g.timingValue.value)) else None;
    var e := g.encrypt.Some? && LTrimUnderscore(g.encrypt.value) == "encrypt";
    var b := g.backup.Some? && LTrimUnderscore(g.backup.value) == "backup";
    var c := g.cache.Some? && LTrimUnderscore(g.cache.value) == "cache";
    assert Construct(path, basePath, g) == New(path, basePath, g.prefix, g.location, g.visibility, o, v, g.timingUnit, e, b, c);
    assert Construct(path', basePath, g) == New(path', basePath, g.prefix, g.location, g.visibility, o, v, g.timingUnit, e, b, c);
    NewRepath(path, path', basePath, g.prefix, g.location, g.visibility, o, v, g.timingUnit, e, b, c);
  }
  /**
   * The pattern is unanchored: a visibility token followed by other text
   * still matches, and the trailing text is ignored.
   */
  lemma TrailingTextIgnored(basePath: string)
    ensures ParseDirectory("foo--web_publicX", basePath)
            == Ok(Some(DirValue("foo--web_publicX", basePath, "foo", Web, Public, None, None, None, false, false, false)))
  {
    var s := "foo--web_publicX";
    assert s[3..15] == "--web_public";
    assert MarkerAt(s, 3) == Some(Marker(Web, Public));
    forall k | 0 <= k < 3 ensures MarkerAt(s, k).None? {
      if MarkerAt(s, k).Some? {
        MarkerStartsWithDash(s, k);
        assert false;
      }
    }
    FirstMarkerIs(s, 0, 3);
    assert LineStart(s, 3) == 0;
    assert MarkerEnd(s, 3) == 15;
    assert TimingOptionAt(s, 15) == "";
    assert SegmentAt(s, 3) == (None, 15);
    assert BackupGroup(s, 15) == None && CacheGroup(s, 15) == None;
    var c := CaptureAt(s, 3);
    assert c == Captures(0, 3, 15, "foo", "web", "public", None, None, None, None);
    assert Capture(s) == Some(c);
    assert MatchArray(c) == Groups("foo", "web", "public", None, None, None, None, None, None);
  }
}
