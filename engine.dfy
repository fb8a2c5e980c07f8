/**
 * The engine (`Diridea`): `run` indexes every directory whose listed path
 * matches the name pattern, then walks each indexed directory's contents
 * breadth first per level, skipping indexed directories, and hands every
 * other entry to the plugin families in a fixed, flag-gated order.
 */
module Engine {
  import opened Common
  import opened Paths
  import opened DirValues
  import opened NamePattern
  import opened Storage
  import opened Plugins

  /** The constructor arguments of `Diridea` (the logger itself is left out). */
  datatype Config = Config(
    adapterClass: string,
    basePath: string,
    loggerVerbosity: Option<string>,
    locationProcesses: Option<seq<LocationProcess>>,
    visibilityProcesses: Option<seq<VisibilityProcess>>,
    expireProcesses: Option<seq<ExpireProcess>>,
    archiveProcesses: Option<seq<ArchiveProcess>>,
    encryptProcesses: Option<seq<OpaqueProcess>>,
    backupProcesses: Option<seq<OpaqueProcess>>,
    cacheProcesses: Option<seq<OpaqueProcess>>)

  /** `$list ?? []`. */
  function OrEmpty(ps: Option<seq<Plugin>>): (r: seq<Plugin>)
    ensures ps.None? ==> r == []
    ensures ps.Some? ==> r == ps.value
  {
    if ps.Some? then ps.value else []
  }

  /** The seven families in `processContent`'s order; a family whose gate is off contributes nothing. */
  function Family(cfg: Config, d: DirValue, k: nat): seq<Plugin>
    requires k < 7
  {
    match k
    case 0 => OrEmpty(cfg.visibilityProcesses)
    case 1 => OrEmpty(cfg.locationProcesses)
    case 2 => if d.encrypt then OrEmpty(cfg.encryptProcesses) else []
    case 3 => if d.backup then OrEmpty(cfg.backupProcesses) else []
    case 4 => if d.cache then OrEmpty(cfg.cacheProcesses) else []
    case 5 => if d.timingOption == Some(Expire) then OrEmpty(cfg.expireProcesses) else []
    case 6 => if d.timingOption == Some(Archive) then OrEmpty(cfg.archiveProcesses) else []
  }

  /** The plugins that run on one entry, in order: the first `n` families concatenated. */
  function FamiliesUpTo(cfg: Config, d: DirValue, n: nat): seq<Plugin>
    requires n <= 7
  {
    if n == 0 then [] else FamiliesUpTo(cfg, d, n - 1) + Family(cfg, d, n - 1)
  }

  function Families(cfg: Config, d: DirValue): seq<Plugin> {
    FamiliesUpTo(cfg, d, 7)
  }

  /**
   * Every plugin of the list in turn, with no early exit: each one's
   * `isApplicable`, then its `process` when that answered true. An exception
   * stops the rest.
   */
  function RunPlugins(ps: seq<Plugin>, d: DirValue, e: Entry, w: World, now: int, isLink: string -> bool): (r: Step)
    ensures w.output <= r.world.output && w.locationSeen <= r.world.locationSeen
    ensures (forall k :: 0 <= k < |ps| ==> IsDebug(ps[k])) ==> r.world.tree == w.tree
    ensures (forall k :: 0 <= k < |ps| ==> !IsDebug(ps[k])) ==>
              r.world.output == w.output && r.world.locationSeen == w.locationSeen
    decreases |ps|
  {
    if ps == [] then Continue(w)
    else
      match Apply(ps[0], d, e, w, now, isLink)
      case Abort(err, w') => Abort(err, w')
      case Continue(w') =>
        assert forall k :: 0 <= k < |ps[1..]| ==> ps[1..][k] == ps[k + 1];
        RunPlugins(ps[1..], d, e, w', now, isLink)
  }

  /** Running the rest of a list after a step that may have thrown. */
  function Then(r: Step, ps: seq<Plugin>, d: DirValue, e: Entry, now: int, isLink: string -> bool): Step {
    if r.Abort? then r else RunPlugins(ps, d, e, r.world, now, isLink)
  }

  /** Running two lists one after the other is running their concatenation. */
  lemma {:induction false} RunPluginsAppend(a: seq<Plugin>, b: seq<Plugin>, d: DirValue, e: Entry, w: World,
                                           now: int, isLink: string -> bool)
    ensures RunPlugins(a + b, d, e, w, now, isLink) == Then(RunPlugins(a, d, e, w, now, isLink), b, d, e, now, isLink)
    decreases |a|
  {
    if a == [] {
      assert a + b == b;
    } else {
      assert (a + b)[0] == a[0];
      assert (a + b)[1..] == a[1..] + b;
      match Apply(a[0], d, e, w, now, isLink)
      case Abort(_, _) =>
      case Continue(w') =>
        RunPluginsAppend(a[1..], b, d, e, w', now, isLink);
    }
  }

  /**
   * After the first `n` family blocks of `processContent`: either all of
   * them ran to the world `w`, or one threw and the whole entry ends there.
   */
  ghost predicate StageDone(cfg: Config, d: DirValue, e: Entry, w0: World, now: int, isLink: string -> bool,
                            n: nat, o: Outcome, w: World)
    requires n <= 7
  {
    && (o.Pass? ==> Continue(w) == RunPlugins(FamiliesUpTo(cfg, d, n), d, e, w0, now, isLink))
    && (o.Fail? ==> Abort(o.error, w) == RunPlugins(Families(cfg, d), d, e, w0, now, isLink))
  }

  /** Whose entry was handed to the plugins, under which policy. */
  datatype Dispatch = Dispatch(entry: Entry, policy: Path)

  /** The world plus the record of dispatches, which only the proofs read. */
  datatype State = State(world: World, dispatched: seq<Dispatch>)

  datatype Progress = Running(state: State) | Stopped(error: Error, state: State)

  function Progressed(o: Outcome, s: State): Progress {
    if o.Pass? then Running(s) else Stopped(o.error, s)
  }

  /** What a traversal needs besides the state: the configuration, the indexed paths, the clock, `is_link`. */
  datatype Ctx = Ctx(cfg: Config, managed: seq<Path>, now: int, isLink: string -> bool)

  /** An indexed directory met in a listing is left to its own policy. */
  predicate Skipped(e: Entry, managed: seq<Path>) {
    e.isDir && e.path in managed
  }

  /** `processContent`: the dispatch, then the families. It answers true whenever it returns. */
  function ProcessContentSpec(d: DirValue, e: Entry, ctx: Ctx, s: State): (r: Progress)
    ensures r.state.dispatched == s.dispatched + [Dispatch(e, d.path)]
  {
    var dispatched := s.dispatched + [Dispatch(e, d.path)];
    match RunPlugins(Families(ctx.cfg, d), d, e, s.world, ctx.now, ctx.isLink)
    case Continue(w) => Running(State(w, dispatched))
    case Abort(err, w) => Stopped(err, State(w, dispatched))
  }

  /** Every path in the list has at least `floor` characters. */
  predicate From(list: seq<Entry>, floor: int) {
    forall k :: 0 <= k < |list| ==> |list[k].path| >= floor
  }

  predicate AllFrom(subs: seq<Tree>, floor: int) {
    forall i :: 0 <= i < |subs| ==> From(subs[i], floor)
  }

  /**
   * The first loop of `processContentHelper`, from the current entry on:
   * skip indexed directories, process every other entry, and after
   * processing a directory take its listing, from the store as it now is,
   * for later. `floor` bounds the path lengths and makes the walk terminate.
   */
  function FirstPass(list: Tree, d: DirValue, ctx: Ctx, s: State, subs: seq<Tree>, floor: int): (r: (Progress, seq<Tree>))
    requires From(list, floor) && AllFrom(subs, floor + 1) && (|subs| > 0 ==> floor <= MaxPathLength)
    ensures AllFrom(r.1, floor + 1) && (|r.1| > 0 ==> floor <= MaxPathLength)
    ensures |subs| <= |r.1| && r.1[..|subs|] == subs
    decreases |list|
  {
    if list == [] then (Running(s), subs)
    else
      var e := list[0];
      assert From(list[1..], floor) by {
        forall k | 0 <= k < |list[1..]| ensures |list[1..][k].path| >= floor {
          assert list[1..][k] == list[k + 1];
        }
      }
      if Skipped(e, ctx.managed) then FirstPass(list[1..], d, ctx, s, subs, floor)
      else
        match ProcessContentSpec(d, e, ctx, s)
        case Stopped(err, s') => (Stopped(err, s'), subs)
        case Running(s') =>
          var subs' := if e.isDir then subs + [ListContents(s'.world.tree, e.path)] else subs;
          var r := FirstPass(list[1..], d, ctx, s', subs', floor);
          assert r.1[..|subs|] == r.1[..|subs'|][..|subs|];
          r
  }

  /** `processContentHelper`: the first loop, then each collected listing in turn. */
  function Helper(list: Tree, d: DirValue, ctx: Ctx, s: State, floor: int): Progress
    requires floor <= MaxPathLength + 1 && From(list, floor)
    decreases MaxPathLength + 1 - floor, 0
  {
    var (p, subs) := FirstPass(list, d, ctx, s, [], floor);
    if p.Stopped? || subs == [] then p
    else SecondPass(subs, d, ctx, p.state, floor + 1)
  }

  /** The second loop of `processContentHelper`, from the current listing on. */
  function SecondPass(subs: seq<Tree>, d: DirValue, ctx: Ctx, s: State, floor: int): Progress
    requires AllFrom(subs, floor) && (|subs| > 0 ==> floor <= MaxPathLength + 1)
    decreases MaxPathLength + 1 - floor, 1, |subs|
  {
    if subs == [] then Running(s)
    else
      match Helper(subs[0], d, ctx, s, floor)
      case Stopped(err, s') => Stopped(err, s')
      case Running(s') => SecondPass(subs[1..], d, ctx, s', floor)
  }

  /** `processDirectories`, from the current indexed directory on: list it, then walk it under its policy. */
  function Directories(index: seq<DirValue>, ctx: Ctx, s: State): Progress
    decreases |index|
  {
    if index == [] then Running(s)
    else
      match Helper(ListContents(s.world.tree, index[0].path), index[0], ctx, s, 0)
      case Stopped(err, s') => Stopped(err, s')
      case Running(s') => Directories(index[1..], ctx, s')
  }

  /** `dirideaDirectoriesPaths`. */
  function PathsOf(index: seq<DirValue>): (r: seq<Path>)
    ensures |r| == |index| && forall k :: 0 <= k < |index| ==> r[k] == index[k].path
  {
    if index == [] then [] else [index[0].path] + PathsOf(index[1..])
  }

  /** No two policies in the index share a path (the keys of the PHP array). */
  predicate UniquePaths(index: seq<DirValue>) {
    forall i, j :: 0 <= i < j < |index| ==> index[i].path != index[j].path
  }

  /** `$dirs[$d->path()] = $d`: replace the policy with that key where it stands, or append. */
  function Put(index: seq<DirValue>, d: DirValue): (r: seq<DirValue>)
    ensures d.path in PathsOf(index) ==> |r| == |index|
    ensures d.path !in PathsOf(index) ==> r == index + [d]
  {
    if index == [] then [d]
    else if index[0].path == d.path then [d] + index[1..]
    else
      var rest := Put(index[1..], d);
      assert PathsOf(index) == [index[0].path] + PathsOf(index[1..]);
      [index[0]] + rest
  }

  /** After `Put`, every policy is the new one or an old one, and paths stay unique. */
  lemma PutContents(index: seq<DirValue>, d: DirValue)
    ensures forall k :: 0 <= k < |Put(index, d)| ==> Put(index, d)[k] == d || Put(index, d)[k] in index
    ensures UniquePaths(index) ==> UniquePaths(Put(index, d))
  {
    PutElements(index, d);
    if UniquePaths(index) {
      PutUnique(index, d);
    }
  }

  lemma {:induction false} PutElements(index: seq<DirValue>, d: DirValue)
    ensures forall k :: 0 <= k < |Put(index, d)| ==> Put(index, d)[k] == d || Put(index, d)[k] in index
  {
    if index != [] && index[0].path != d.path {
      PutElements(index[1..], d);
      var r := Put(index, d);
      assert r == [index[0]] + Put(index[1..], d);
      forall k | 0 < k < |r| ensures r[k] == d || r[k] in index {
        assert r[k] == Put(index[1..], d)[k - 1];
      }
    }
  }

  lemma {:induction false} PutUnique(index: seq<DirValue>, d: DirValue)
    requires UniquePaths(index)
    ensures UniquePaths(Put(index, d))
  {
    if index != [] && index[0].path != d.path {
      var tail := index[1..];
      assert UniquePaths(tail) by {
        forall i, j | 0 <= i < j < |tail| ensures tail[i].path != tail[j].path {
          assert tail[i] == index[i + 1] && tail[j] == index[j + 1];
        }
      }
      PutUnique(tail, d);
      PutElements(tail, d);
      var r := Put(index, d);
      assert r == [index[0]] + Put(tail, d);
      forall j | 0 < j < |r| ensures r[0].path != r[j].path {
        assert r[j] == Put(tail, d)[j - 1];
        if r[j] != d {
          var m :| 0 <= m < |tail| && tail[m] == r[j];
          assert tail[m] == index[m + 1];
        }
      }
    }
  }

  /** The loop of `readDirideaDirectories`, from the current entry on. */
  function IndexFrom(entries: seq<Entry>, basePath: string, index: seq<DirValue>): Result<seq<DirValue>>
    decreases |entries|
  {
    if entries == [] then Ok(index)
    else if !entries[0].isDir then IndexFrom(entries[1..], basePath, index)
    else
      match ParseDirectory(entries[0].path, basePath)
      case Err(err) => Err(err)
      case Ok(None) => IndexFrom(entries[1..], basePath, index)
      case Ok(Some(d)) => IndexFrom(entries[1..], basePath, Put(index, d))
  }

  /** `readDirideaDirectories` over the deep listing of the whole store. */
  function Index(t: Tree, basePath: string): Result<seq<DirValue>> {
    IndexFrom(t, basePath, [])
  }

  /** `run`: rebuild the index, then process every indexed directory. */
  function RunSpec(cfg: Config, s: State, now: int, isLink: string -> bool): Progress {
    match Index(s.world.tree, cfg.basePath)
    case Err(err) => Stopped(err, s)
    case Ok(index) => Directories(index, Ctx(cfg, PathsOf(index), now, isLink), s)
  }

  /** The engine object: its configuration, its (shared) store and the index the last run built. */
  class Diridea {
    const config: Config
    const filesystem: Filesystem
    var dirideaDirectories: seq<DirValue>
    ghost var dispatched: seq<Dispatch>

    constructor (config: Config, filesystem: Filesystem)
      ensures this.config == config && this.filesystem == filesystem
      ensures dirideaDirectories == [] && dispatched == []
    {
      this.config := config;
      this.filesystem := filesystem;
      dirideaDirectories := [];
      dispatched := [];
    }

    ghost function Current(host: Host): State
      reads this, filesystem, host
    {
      State(Snapshot(filesystem, host), dispatched)
    }

    method DirideaDirectoriesPaths() returns (r: seq<Path>)
      ensures r == PathsOf(dirideaDirectories)
    {
      r := [];
      var i := 0;
      while i < |dirideaDirectories|
        invariant 0 <= i <= |dirideaDirectories|
        invariant |r| == i && forall k :: 0 <= k < i ==> r[k] == dirideaDirectories[k].path
      {
        r := r + [dirideaDirectories[i].path];
        i := i + 1;
      }
    }

    method ReadDirideaDirectories() returns (r: Result<seq<DirValue>>)
      ensures r == Index(filesystem.tree, config.basePath)
    {
      var listContents := filesystem.tree;
      var dirs: seq<DirValue> := [];
      var i := 0;
      while i < |listContents|
        invariant 0 <= i <= |listContents|
        invariant IndexFrom(listContents, config.basePath, []) == IndexFrom(listContents[i..], config.basePath, dirs)
      {
        var e := listContents[i];
        assert listContents[i..][1..] == listContents[i + 1..];
        if e.isDir {
          var parsed := ParseDirectory(e.path, config.basePath);
          if parsed.Err? {
            return Err(parsed.error);
          }
          if parsed.value.Some? {
            dirs := Put(dirs, parsed.value.value);
          }
        }
        i := i + 1;
      }
      r := Ok(dirs);
    }

    /** One family's loop in `processContent`. */
    method RunFamily(ps: seq<Plugin>, d: DirValue, e: Entry, host: Host, now: int, isLink: string -> bool)
      returns (o: Outcome)
      modifies filesystem, host
      ensures Resume(o, Snapshot(filesystem, host)) == RunPlugins(ps, d, e, old(Snapshot(filesystem, host)), now, isLink)
    {
      ghost var w0 := Snapshot(filesystem, host);
      var i := 0;
      while i < |ps|
        invariant 0 <= i <= |ps|
        invariant RunPlugins(ps, d, e, w0, now, isLink) == RunPlugins(ps[i..], d, e, Snapshot(filesystem, host), now, isLink)
      {
        assert ps[i..][1..] == ps[i + 1..];
        o := ApplyPlugin(ps[i], d, e, filesystem, host, now, isLink);
        if o.Fail? {
          return;
        }
        i := i + 1;
      }
      o := Pass;
    }

    method ProcessContent(d: DirValue, e: Entry, host: Host, now: int, isLink: string -> bool)
      returns (o: Outcome, ok: bool)
      modifies filesystem, host, this`dispatched
      ensures Progressed(o, Current(host))
              == ProcessContentSpec(d, e, Ctx(config, PathsOf(dirideaDirectories), now, isLink), old(Current(host)))
      ensures ok
    {
      ok := true;
      dispatched := dispatched + [Dispatch(e, d.path)];
      ghost var w0 := Snapshot(filesystem, host);
      o := Pass;
      assert StageDone(config, d, e, w0, now, isLink, 0, o, Snapshot(filesystem, host));
      o := Stage(d, e, host, now, isLink, 0, o, w0);
      o := Stage(d, e, host, now, isLink, 1, o, w0);
      o := Stage(d, e, host, now, isLink, 2, o, w0);
      o := Stage(d, e, host, now, isLink, 3, o, w0);
      o := Stage(d, e, host, now, isLink, 4, o, w0);
      o := Stage(d, e, host, now, isLink, 5, o, w0);
      o := Stage(d, e, host, now, isLink, 6, o, w0);
      assert StageDone(config, d, e, w0, now, isLink, 7, o, Snapshot(filesystem, host));
    }

    /**
     * One family block of `processContent` (the gate is inside `Family`):
     * nothing runs once an earlier family has thrown.
     */
    method Stage(d: DirValue, e: Entry, host: Host, now: int, isLink: string -> bool, n: nat, o0: Outcome, ghost w0: World)
      returns (o: Outcome)
      requires n < 7 && StageDone(config, d, e, w0, now, isLink, n, o0, Snapshot(filesystem, host))
      modifies filesystem, host
      ensures StageDone(config, d, e, w0, now, isLink, n + 1, o, Snapshot(filesystem, host))
    {
      o := o0;
      if o.Pass? {
        ghost var w := Snapshot(filesystem, host);
        o := RunFamily(Family(config, d, n), d, e, host, now, isLink);
        StageAdvance(config, d, e, w0, now, isLink, n, w, Resume(o, Snapshot(filesystem, host)));
      }
    }

    /**
     * The first loop of `processContentHelper`: process every entry of the
     * listing except indexed directories, and collect the listing of each
     * processed directory, taken right after its own processing.
     */
    method VisitListing(list: Tree, d: DirValue, host: Host, now: int, isLink: string -> bool, ghost floor: int)
      returns (o: Outcome, result: bool, subs: seq<Tree>)
      requires From(list, floor)
      modifies filesystem, host, this`dispatched
      ensures var r := FirstPass(list, d, Ctx(config, PathsOf(dirideaDirectories), now, isLink), old(Current(host)), [], floor);
              Progressed(o, Current(host)) == r.0 && (o.Pass? ==> subs == r.1)
      ensures o.Pass? ==> result
    {
      ghost var ctx := Ctx(config, PathsOf(dirideaDirectories), now, isLink);
      ghost var s0 := Current(host);
      result := true;
      subs := [];
      var i := 0;
      while i < |list|
        invariant 0 <= i <= |list|
        invariant From(list[i..], floor) && AllFrom(subs, floor + 1) && (|subs| > 0 ==> floor <= MaxPathLength)
        invariant FirstPass(list, d, ctx, s0, [], floor) == FirstPass(list[i..], d, ctx, Current(host), subs, floor)
        invariant result
      {
        var e := list[i];
        assert list[i..][1..] == list[i + 1..];
        FirstPassUnfold(list[i..], d, ctx, Current(host), subs, floor);
        var skip := false;
        if e.isDir {
          var paths := DirideaDirectoriesPaths();
          skip := e.path in paths;
        }
        if !skip {
          var r, tmp := ProcessContent(d, e, host, now, isLink);
          if r.Fail? {
            return r, result, subs;
          }
          if !tmp {
            result := false;
          }
          if e.isDir {
            subs := subs + [ListContents(filesystem.tree, e.path)];
          }
        }
        i := i + 1;
      }
      o := Pass;
    }

    /**
     * `processContentHelper`: process the listing's entries (indexed
     * directories excepted), collecting each processed directory's own
     * listing, then descend into the collected listings in order.
     */
    method ProcessContentHelper(list: Tree, d: DirValue, host: Host, now: int, isLink: string -> bool, ghost floor: int)
      returns (o: Outcome, result: bool)
      requires floor <= MaxPathLength + 1 && From(list, floor)
      modifies filesystem, host, this`dispatched
      ensures Progressed(o, Current(host))
              == Helper(list, d, Ctx(config, PathsOf(dirideaDirectories), now, isLink), old(Current(host)), floor)
      ensures o.Pass? ==> result
      decreases MaxPathLength + 1 - floor, 0
    {
      ghost var ctx := Ctx(config, PathsOf(dirideaDirectories), now, isLink);
      ghost var s0 := Current(host);
      var subs;
      HelperUnfold(list, d, ctx, s0, floor);
      o, result, subs := VisitListing(list, d, host, now, isLink, floor);
      if o.Fail? {
        return;
      }
      var tmp;
      o, tmp := Descend(subs, d, host, now, isLink, floor + 1);
      if o.Pass? && !tmp {
        result := false;
      }
    }

    /** The second loop of `processContentHelper`: walk each collected listing in turn. */
    method Descend(subs: seq<Tree>, d: DirValue, host: Host, now: int, isLink: string -> bool, ghost floor: int)
      returns (o: Outcome, result: bool)
      requires AllFrom(subs, floor) && (|subs| > 0 ==> floor <= MaxPathLength + 1)
      modifies filesystem, host, this`dispatched
      ensures Progressed(o, Current(host))
              == SecondPass(subs, d, Ctx(config, PathsOf(dirideaDirectories), now, isLink), old(Current(host)), floor)
      ensures o.Pass? ==> result
      decreases MaxPathLength + 1 - floor, 1
    {
      ghost var ctx := Ctx(config, PathsOf(dirideaDirectories), now, isLink);
      ghost var s0 := Current(host);
      result := true;
      var j := 0;
      assert subs[0..] == subs;
      while j < |subs|
        invariant 0 <= j <= |subs|
        invariant AllFrom(subs[j..], floor) && (|subs| > 0 ==> floor <= MaxPathLength + 1)
        invariant SecondPass(subs, d, ctx, s0, floor) == SecondPass(subs[j..], d, ctx, Current(host), floor)
        invariant result
      {
        assert subs[j..][1..] == subs[j + 1..];
        assert subs[j..][0] == subs[j];
        SecondPassUnfold(subs[j..], d, ctx, Current(host), floor);
        var r, tmp := ProcessContentHelper(subs[j], d, host, now, isLink, floor);
        if r.Fail? {
          return r, result;
        }
        if !tmp {
          result := false;
        }
        j := j + 1;
      }
      o := Pass;
    }

    /** `processDirectories`: list every indexed directory afresh and walk it under its own policy. */
    method ProcessDirectories(host: Host, now: int, isLink: string -> bool) returns (o: Outcome, result: bool)
      modifies filesystem, host, this`dispatched
      ensures Progressed(o, Current(host))
              == Directories(dirideaDirectories, Ctx(config, PathsOf(dirideaDirectories), now, isLink), old(Current(host)))
      ensures o.Pass? ==> result
    {
      ghost var ctx := Ctx(config, PathsOf(dirideaDirectories), now, isLink);
      ghost var s0 := Current(host);
      result := true;
      var i := 0;
      while i < |dirideaDirectories|
        invariant 0 <= i <= |dirideaDirectories|
        invariant Directories(dirideaDirectories, ctx, s0) == Directories(dirideaDirectories[i..], ctx, Current(host))
        invariant result
      {
        var dir := dirideaDirectories[i];
        assert dirideaDirectories[i..][1..] == dirideaDirectories[i + 1..];
        var listContents := ListContents(filesystem.tree, dir.path);
        assert From(listContents, 0);
        var r, tmp := ProcessContentHelper(listContents, dir, host, now, isLink, 0);
        if r.Fail? {
          return r, result;
        }
        if !tmp {
          result := false;
        }
        i := i + 1;
      }
      o := Pass;
    }

    /** `run`: rebuild the index from the whole store, then process it. */
    method Run(host: Host, now: int, isLink: string -> bool) returns (r: Result<bool>)
      modifies this, filesystem, host
      ensures Progressed(if r.Ok? then Pass else Fail(r.error), Current(host)) == RunSpec(config, old(Current(host)), now, isLink)
      ensures var index := Index(old(filesystem.tree), config.basePath);
              if index.Ok? then dirideaDirectories == index.value else dirideaDirectories == old(dirideaDirectories)
      ensures r.Ok? ==> r.value
    {
      var index := ReadDirideaDirectories();
      if index.Err? {
        return Err(index.error);
      }
      dirideaDirectories := index.value;
      var o, result := ProcessDirectories(host, now, isLink);
      if o.Fail? {
        return Err(o.error);
      }
      return Ok(result);
    }
  }

  /** One step of the first loop of `processContentHelper`. */
  lemma FirstPassUnfold(list: Tree, d: DirValue, ctx: Ctx, s: State, subs: seq<Tree>, floor: int)
    requires list != []
    requires From(list, floor) && AllFrom(subs, floor + 1) && (|subs| > 0 ==> floor <= MaxPathLength)
    ensures From(list[1..], floor)
    ensures Skipped(list[0], ctx.managed) ==> FirstPass(list, d, ctx, s, subs, floor) == FirstPass(list[1..], d, ctx, s, subs, floor)
    ensures !Skipped(list[0], ctx.managed) && ProcessContentSpec(d, list[0], ctx, s).Stopped? ==>
              FirstPass(list, d, ctx, s, subs, floor) == (ProcessContentSpec(d, list[0], ctx, s), subs)
    ensures !Skipped(list[0], ctx.managed) && ProcessContentSpec(d, list[0], ctx, s).Running? ==>
              var s' := ProcessContentSpec(d, list[0], ctx, s).state;
              var subs' := if list[0].isDir then subs + [ListContents(s'.world.tree, list[0].path)] else subs;
              AllFrom(subs', floor + 1) && (|subs'| > 0 ==> floor <= MaxPathLength)
              && FirstPass(list, d, ctx, s, subs, floor) == FirstPass(list[1..], d, ctx, s', subs', floor)
  {
    assert forall k :: 0 <= k < |list[1..]| ==> list[1..][k] == list[k + 1];
  }

  lemma HelperUnfold(list: Tree, d: DirValue, ctx: Ctx, s: State, floor: int)
    requires floor <= MaxPathLength + 1 && From(list, floor)
    ensures var r := FirstPass(list, d, ctx, s, [], floor);
            && (r.0.Stopped? ==> Helper(list, d, ctx, s, floor) == r.0)
            && (r.0.Running? ==> Helper(list, d, ctx, s, floor) == SecondPass(r.1, d, ctx, r.0.state, floor + 1))
  {
  }

  lemma SecondPassUnfold(subs: seq<Tree>, d: DirValue, ctx: Ctx, s: State, floor: int)
    requires subs != [] && AllFrom(subs, floor) && floor <= MaxPathLength + 1
    ensures AllFrom(subs[1..], floor)
    ensures Helper(subs[0], d, ctx, s, floor).Stopped? ==> SecondPass(subs, d, ctx, s, floor) == Helper(subs[0], d, ctx, s, floor)
    ensures Helper(subs[0], d, ctx, s, floor).Running? ==>
              SecondPass(subs, d, ctx, s, floor) == SecondPass(subs[1..], d, ctx, Helper(subs[0], d, ctx, s, floor).state, floor)
  {
    assert forall i :: 0 <= i < |subs[1..]| ==> subs[1..][i] == subs[i + 1];
  }

  /** One family block run after the earlier ones completed. */
  lemma StageAdvance(cfg: Config, d: DirValue, e: Entry, w0: World, now: int, isLink: string -> bool,
                     n: nat, w: World, r: Step)
    requires n < 7 && Continue(w) == RunPlugins(FamiliesUpTo(cfg, d, n), d, e, w0, now, isLink)
    requires r == RunPlugins(Family(cfg, d, n), d, e, w, now, isLink)
    ensures r.Continue? ==> Continue(r.world) == RunPlugins(FamiliesUpTo(cfg, d, n + 1), d, e, w0, now, isLink)
    ensures r.Abort? ==> r == RunPlugins(Families(cfg, d), d, e, w0, now, isLink)
  {
    RunPluginsAppend(FamiliesUpTo(cfg, d, n), Family(cfg, d, n), d, e, w0, now, isLink);
    if r.Abort? {
      FailureIsFinal(cfg, d, n + 1, e, w0, now, isLink);
    }
  }

  lemma PathsOfAppend(index: seq<DirValue>, d: DirValue)
    ensures PathsOf(index + [d]) == PathsOf(index) + [d.path]
  {
  }

  /** Once the first `n` families have thrown, the remaining ones do not run. */
  lemma FailureIsFinal(cfg: Config, d: DirValue, n: nat, e: Entry, w: World, now: int, isLink: string -> bool)
    requires n <= 7 && RunPlugins(FamiliesUpTo(cfg, d, n), d, e, w, now, isLink).Abort?
    ensures RunPlugins(Families(cfg, d), d, e, w, now, isLink) == RunPlugins(FamiliesUpTo(cfg, d, n), d, e, w, now, isLink)
    decreases 7 - n
  {
    if n < 7 {
      RunPluginsAppend(FamiliesUpTo(cfg, d, n), Family(cfg, d, n), d, e, w, now, isLink);
      FailureIsFinal(cfg, d, n + 1, e, w, now, isLink);
    }
  }

  /** Every indexed policy is what parsing its own path yields, and no two share a path. */
  predicate Consistent(index: seq<DirValue>, basePath: string) {
    && UniquePaths(index)
    && forall k :: 0 <= k < |index| ==> ParseDirectory(index[k].path, basePath) == Ok(Some(index[k]))
  }

  /** The path matches the pattern and its policy is accepted. */
  predicate Parses(p: Path, basePath: string) {
    ParseDirectory(p, basePath).Ok? && ParseDirectory(p, basePath).value.Some?
  }

  /** A listed directory whose name matches the pattern and parses into a policy. */
  predicate Managed(entries: seq<Entry>, basePath: string, p: Path) {
    exists k :: 0 <= k < |entries| && entries[k].isDir && entries[k].path == p
                && Parses(p, basePath)
  }

  lemma InPathsOf(index: seq<DirValue>, p: Path)
    ensures p in PathsOf(index) <==> exists k :: 0 <= k < |index| && index[k].path == p
  {
    if p in PathsOf(index) {
      var k :| 0 <= k < |index| && PathsOf(index)[k] == p;
    }
  }

  /** `Put` keeps the index's sequence of paths when the key is present and appends the key otherwise. */
  lemma {:induction false} PutPaths(index: seq<DirValue>, d: DirValue)
    ensures d.path in PathsOf(index) ==> PathsOf(Put(index, d)) == PathsOf(index)
    ensures d.path !in PathsOf(index) ==> PathsOf(Put(index, d)) == PathsOf(index) + [d.path]
  {
    if index == [] {
    } else if index[0].path == d.path {
      assert PathsOf(Put(index, d)) == [d.path] + PathsOf(index[1..]);
    } else {
      PutPaths(index[1..], d);
      assert PathsOf(index) == [index[0].path] + PathsOf(index[1..]);
      assert Put(index, d) == [index[0]] + Put(index[1..], d);
      assert PathsOf(Put(index, d)) == [index[0].path] + PathsOf(Put(index[1..], d));
    }
  }

  lemma ManagedCons(entries: seq<Entry>, basePath: string, p: Path)
    requires entries != []
    ensures Managed(entries, basePath, p)
            <==> (&& entries[0].isDir && entries[0].path == p
                  && Parses(p, basePath))
                 || Managed(entries[1..], basePath, p)
  {
    if Managed(entries, basePath, p) {
      var k :| 0 <= k < |entries| && entries[k].isDir && entries[k].path == p
               && Parses(p, basePath);
      if k > 0 {
        assert entries[1..][k - 1] == entries[k];
      }
    }
    if Managed(entries[1..], basePath, p) {
      var k :| 0 <= k < |entries[1..]| && entries[1..][k].isDir && entries[1..][k].path == p
               && Parses(p, basePath);
      assert entries[1..][k] == entries[k + 1];
    }
  }

  /**
   * The loop of `readDirideaDirectories` succeeds exactly when every listed
   * directory that matches the pattern also passes the policy constructor.
   */
  lemma {:induction false} IndexFromSucceeds(entries: seq<Entry>, basePath: string, index: seq<DirValue>)
    ensures IndexFrom(entries, basePath, index).Ok?
            <==> forall k :: 0 <= k < |entries| && entries[k].isDir ==> ParseDirectory(entries[k].path, basePath).Ok?
    decreases |entries|
  {
    if entries != [] {
      var rest := entries[1..];
      assert forall k :: 0 <= k < |rest| ==> rest[k] == entries[k + 1];
      var index' := if entries[0].isDir && Parses(entries[0].path, basePath)
                    then Put(index, ParseDirectory(entries[0].path, basePath).value.value) else index;
      IndexFromSucceeds(rest, basePath, index');
    }
  }

  /** On success, the loop indexes exactly the matching directories, each once, each as parsed from its path. */
  lemma {:induction false} IndexFromContents(entries: seq<Entry>, basePath: string, index: seq<DirValue>)
    requires Consistent(index, basePath) && IndexFrom(entries, basePath, index).Ok?
    ensures var r := IndexFrom(entries, basePath, index).value;
            && Consistent(r, basePath)
            && forall p :: p in PathsOf(r) <==> p in PathsOf(index) || Managed(entries, basePath, p)
    decreases |entries|
  {
    if entries != [] {
      var e := entries[0];
      var rest := entries[1..];
      forall p ensures Managed(entries, basePath, p)
                       <==> (e.isDir && e.path == p && Parses(p, basePath)) || Managed(rest, basePath, p) {
        ManagedCons(entries, basePath, p);
      }
      if !e.isDir || ParseDirectory(e.path, basePath) == Ok(None) {
        IndexFromContents(rest, basePath, index);
      } else {
        var d := ParseDirectory(e.path, basePath).value.value;
        ParsedPath(e.path, basePath);
        var index' := Put(index, d);
        PutContents(index, d);
        PutPaths(index, d);
        assert Consistent(index', basePath);
        IndexFromContents(rest, basePath, index');
      }
    }
  }

  /**
   * `readDirideaDirectories` over the whole store: it throws exactly when
   * some matching directory's policy is rejected, and otherwise the index
   * holds one policy per matching directory, the one parsed from its path.
   */
  lemma IndexCharacterisation(t: Tree, basePath: string)
    ensures Index(t, basePath).Ok?
            <==> forall k :: 0 <= k < |t| && t[k].isDir ==> ParseDirectory(t[k].path, basePath).Ok?
    ensures Index(t, basePath).Ok? ==>
              var index := Index(t, basePath).value;
              && UniquePaths(index)
              && (forall k :: 0 <= k < |index| ==> ParseDirectory(index[k].path, basePath) == Ok(Some(index[k])))
              && forall p :: p in PathsOf(index) <==> Managed(t, basePath, p)
  {
    IndexFromSucceeds(t, basePath, []);
    if Index(t, basePath).Ok? {
      IndexFromContents(t, basePath, []);
    }
  }

  /**
   * A directory listed below a managed directory is managed as well, with the
   * ancestor's policy under its own path; so the ancestor's traversal skips
   * it and it is processed once more as a policy of its own.
   */
  lemma ManagedSubdirectory(t: Tree, basePath: string, p: Path, x: string, e: Entry)
    requires Index(t, basePath).Ok? && p in PathsOf(Index(t, basePath).value)
    requires e in t && e.isDir && e.path == p + "/" + x
    ensures e.path in PathsOf(Index(t, basePath).value)
    ensures Skipped(e, PathsOf(Index(t, basePath).value))
    ensures Parses(p, basePath) &&
            ParseDirectory(e.path, basePath) == Ok(Some(ParseDirectory(p, basePath).value.value.(path := e.path)))
  {
    IndexCharacterisation(t, basePath);
    assert Managed(t, basePath, p);
    ParseDirectoryOutcome(p, basePath);
    SubdirectoryInheritsPolicy(p, x, basePath);
    var k :| 0 <= k < |t| && t[k] == e;
    assert Managed(t, basePath, e.path);
  }

  predicate DebugOnly(ps: seq<Plugin>) {
    forall k :: 0 <= k < |ps| ==> IsDebug(ps[k])
  }

  predicate NoDebug(ps: seq<Plugin>) {
    forall k :: 0 <= k < |ps| ==> !IsDebug(ps[k])
  }

  /** No configured plugin is a debug variant. */
  predicate Silent(cfg: Config) {
    && NoDebug(OrEmpty(cfg.visibilityProcesses))
    && NoDebug(OrEmpty(cfg.locationProcesses))
    && NoDebug(OrEmpty(cfg.encryptProcesses))
    && NoDebug(OrEmpty(cfg.backupProcesses))
    && NoDebug(OrEmpty(cfg.cacheProcesses))
    && NoDebug(OrEmpty(cfg.expireProcesses))
    && NoDebug(OrEmpty(cfg.archiveProcesses))
  }

  /** Every configured plugin, in every family, is a debug variant. */
  predicate AllDebug(cfg: Config) {
    && DebugOnly(OrEmpty(cfg.visibilityProcesses))
    && DebugOnly(OrEmpty(cfg.locationProcesses))
    && DebugOnly(OrEmpty(cfg.encryptProcesses))
    && DebugOnly(OrEmpty(cfg.backupProcesses))
    && DebugOnly(OrEmpty(cfg.cacheProcesses))
    && DebugOnly(OrEmpty(cfg.expireProcesses))
    && DebugOnly(OrEmpty(cfg.archiveProcesses))
  }

  /**
   * What runs on an entry depends only on the families whose gate is open,
   * and an absent family (`null`) acts as an empty one.
   */
  lemma FamiliesIgnoreClosedGates(cfg: Config, cfg': Config, d: DirValue)
    requires OrEmpty(cfg.visibilityProcesses) == OrEmpty(cfg'.visibilityProcesses)
    requires OrEmpty(cfg.locationProcesses) == OrEmpty(cfg'.locationProcesses)
    requires d.encrypt ==> OrEmpty(cfg.encryptProcesses) == OrEmpty(cfg'.encryptProcesses)
    requires d.backup ==> OrEmpty(cfg.backupProcesses) == OrEmpty(cfg'.backupProcesses)
    requires d.cache ==> OrEmpty(cfg.cacheProcesses) == OrEmpty(cfg'.cacheProcesses)
    requires d.timingOption == Some(Expire) ==> OrEmpty(cfg.expireProcesses) == OrEmpty(cfg'.expireProcesses)
    requires d.timingOption == Some(Archive) ==> OrEmpty(cfg.archiveProcesses) == OrEmpty(cfg'.archiveProcesses)
    ensures Families(cfg, d) == Families(cfg', d)
  {
    assert forall k :: 0 <= k < 7 ==> Family(cfg, d, k) == Family(cfg', d, k);
    assert FamiliesUpTo(cfg, d, 1) == FamiliesUpTo(cfg', d, 1);
    assert FamiliesUpTo(cfg, d, 2) == FamiliesUpTo(cfg', d, 2);
    assert FamiliesUpTo(cfg, d, 3) == FamiliesUpTo(cfg', d, 3);
    assert FamiliesUpTo(cfg, d, 4) == FamiliesUpTo(cfg', d, 4);
    assert FamiliesUpTo(cfg, d, 5) == FamiliesUpTo(cfg', d, 5);
    assert FamiliesUpTo(cfg, d, 6) == FamiliesUpTo(cfg', d, 6);
  }

  /** Under a debug-only configuration, only debug plugins ever run. */
  lemma {:induction false} FamiliesDebug(cfg: Config, d: DirValue, n: nat)
    requires AllDebug(cfg) && n <= 7
    ensures DebugOnly(FamiliesUpTo(cfg, d, n))
  {
    if n > 0 {
      FamiliesDebug(cfg, d, n - 1);
      var a := FamiliesUpTo(cfg, d, n - 1);
      var b := Family(cfg, d, n - 1);
      assert DebugOnly(b);
      forall k | 0 <= k < |a + b| ensures IsDebug((a + b)[k]) {
        if k < |a| { assert (a + b)[k] == a[k]; } else { assert (a + b)[k] == b[k - |a|]; }
      }
    }
  }

  /** Under a configuration without debug plugins, no debug plugin ever runs. */
  lemma {:induction false} FamiliesSilent(cfg: Config, d: DirValue, n: nat)
    requires Silent(cfg) && n <= 7
    ensures NoDebug(FamiliesUpTo(cfg, d, n))
  {
    if n > 0 {
      FamiliesSilent(cfg, d, n - 1);
      var a := FamiliesUpTo(cfg, d, n - 1);
      var b := Family(cfg, d, n - 1);
      assert NoDebug(b);
      forall k | 0 <= k < |a + b| ensures !IsDebug((a + b)[k]) {
        if k < |a| { assert (a + b)[k] == a[k]; } else { assert (a + b)[k] == b[k - |a|]; }
      }
    }
  }

  /** `x` lies inside no indexed directory that is itself below `policy`. */
  predicate Sheltered(x: Path, policy: Path, managed: seq<Path>) {
    forall q :: q in managed && IsUnder(q, policy) ==> !IsUnder(x, q)
  }

  /**
   * A dispatch the engine may make on behalf of one of the given policies:
   * the entry lies below the policy's directory, is not an indexed
   * directory, and lies inside no indexed directory below the policy's.
   */
  predicate Lawful(x: Dispatch, ctx: Ctx, policies: set<Path>) {
    && x.policy in policies && IsUnder(x.entry.path, x.policy) && !Skipped(x.entry, ctx.managed)
    && Sheltered(x.entry.path, x.policy, ctx.managed)
  }

  /**
   * How a traversal may change the state: it only appends lawful dispatches,
   * only appends output, only adds to the memo; under a debug-only
   * configuration it leaves the store alone, and under one without debug
   * plugins it echoes nothing and leaves the memo alone.
   */
  predicate Extends(s: State, r: State, ctx: Ctx, policies: set<Path>) {
    && s.dispatched <= r.dispatched
    && (forall k :: |s.dispatched| <= k < |r.dispatched| ==> Lawful(r.dispatched[k], ctx, policies))
    && s.world.output <= r.world.output
    && s.world.locationSeen <= r.world.locationSeen
    && (AllDebug(ctx.cfg) ==> r.world.tree == s.world.tree)
    && (Silent(ctx.cfg) ==> r.world.output == s.world.output && r.world.locationSeen == s.world.locationSeen)
  }

  lemma ExtendsTrans(s1: State, s2: State, s3: State, ctx: Ctx, policies: set<Path>)
    requires Extends(s1, s2, ctx, policies) && Extends(s2, s3, ctx, policies)
    ensures Extends(s1, s3, ctx, policies)
  {
    forall k | |s1.dispatched| <= k < |s3.dispatched| ensures Lawful(s3.dispatched[k], ctx, policies) {
      if k < |s2.dispatched| {
        assert s3.dispatched[k] == s2.dispatched[k];
      }
    }
  }

  lemma ExtendsWiden(s: State, r: State, ctx: Ctx, policies: set<Path>, more: set<Path>)
    requires Extends(s, r, ctx, policies) && policies <= more
    ensures Extends(s, r, ctx, more)
  {
  }

  /** Every entry of the list lies below `p` and inside no indexed directory below `p`. */
  predicate Reachable(list: seq<Entry>, p: Path, managed: seq<Path>) {
    forall k :: 0 <= k < |list| ==> IsUnder(list[k].path, p) && Sheltered(list[k].path, p, managed)
  }

  lemma ProcessContentExtends(d: DirValue, e: Entry, ctx: Ctx, s: State)
    requires IsUnder(e.path, d.path) && !Skipped(e, ctx.managed) && Sheltered(e.path, d.path, ctx.managed)
    ensures Extends(s, ProcessContentSpec(d, e, ctx, s).state, ctx, {d.path})
  {
    if AllDebug(ctx.cfg) {
      FamiliesDebug(ctx.cfg, d, 7);
    }
    if Silent(ctx.cfg) {
      FamiliesSilent(ctx.cfg, d, 7);
    }
  }

  /** An indexed directory's own listing holds nothing inside an indexed directory below it. */
  lemma TopListingReachable(t: Tree, p: Path, managed: seq<Path>)
    requires p != []
    ensures Reachable(ListContents(t, p), p, managed)
  {
    var l := ListContents(t, p);
    forall k | 0 <= k < |l| ensures IsUnder(l[k].path, p) && Sheltered(l[k].path, p, managed) {
      assert l[k] in l;
      ChildIsUnder(l[k].path, p);
    }
  }

  /**
   * The listing of a directory the walk entered (below `b`, not indexed,
   * inside no indexed directory below `b`) lies below `b` and inside no
   * indexed directory below `b` either.
   */
  lemma ChildrenReachable(t: Tree, p: Path, b: Path, managed: seq<Path>)
    requires IsUnder(p, b) && p !in managed && Sheltered(p, b, managed)
    ensures Reachable(ListContents(t, p), b, managed)
  {
    var l := ListContents(t, p);
    forall k | 0 <= k < |l| ensures IsUnder(l[k].path, b) && Sheltered(l[k].path, b, managed) {
      assert l[k] in l;
      ChildStaysUnder(l[k].path, p, b);
      forall q | q in managed && IsUnder(q, b) ensures !IsUnder(l[k].path, q) {
        if IsUnder(l[k].path, q) {
          ParentStaysBelow(l[k].path, q);
        }
      }
    }
  }

  lemma {:induction false} FirstPassExtends(list: Tree, d: DirValue, ctx: Ctx, s: State, subs: seq<Tree>, floor: int)
    requires From(list, floor) && AllFrom(subs, floor + 1) && (|subs| > 0 ==> floor <= MaxPathLength)
    requires Reachable(list, d.path, ctx.managed)
    requires forall i :: 0 <= i < |subs| ==> Reachable(subs[i], d.path, ctx.managed)
    ensures var r := FirstPass(list, d, ctx, s, subs, floor);
            && Extends(s, r.0.state, ctx, {d.path})
            && forall i :: 0 <= i < |r.1| ==> Reachable(r.1[i], d.path, ctx.managed)
    decreases |list|
  {
    if list != [] {
      var e := list[0];
      FirstPassUnfold(list, d, ctx, s, subs, floor);
      assert Reachable(list[1..], d.path, ctx.managed) by {
        forall k | 0 <= k < |list[1..]|
          ensures IsUnder(list[1..][k].path, d.path) && Sheltered(list[1..][k].path, d.path, ctx.managed)
        {
          assert list[1..][k] == list[k + 1];
        }
      }
      if Skipped(e, ctx.managed) {
        FirstPassExtends(list[1..], d, ctx, s, subs, floor);
      } else {
        var p := ProcessContentSpec(d, e, ctx, s);
        ProcessContentExtends(d, e, ctx, s);
        if p.Running? {
          var s' := p.state;
          var subs' := if e.isDir then subs + [ListContents(s'.world.tree, e.path)] else subs;
          if e.isDir {
            ChildrenReachable(s'.world.tree, e.path, d.path, ctx.managed);
          }
          assert forall i :: 0 <= i < |subs'| ==> Reachable(subs'[i], d.path, ctx.managed);
          FirstPassExtends(list[1..], d, ctx, s', subs', floor);
          ExtendsTrans(s, s', FirstPass(list, d, ctx, s, subs, floor).0.state, ctx, {d.path});
        }
      }
    }
  }

  lemma {:induction false} HelperExtends(list: Tree, d: DirValue, ctx: Ctx, s: State, floor: int)
    requires floor <= MaxPathLength + 1 && From(list, floor) && Reachable(list, d.path, ctx.managed)
    ensures Extends(s, Helper(list, d, ctx, s, floor).state, ctx, {d.path})
    decreases MaxPathLength + 1 - floor, 0
  {
    HelperUnfold(list, d, ctx, s, floor);
    FirstPassExtends(list, d, ctx, s, [], floor);
    var r := FirstPass(list, d, ctx, s, [], floor);
    if r.0.Running? && r.1 != [] {
      SecondPassExtends(r.1, d, ctx, r.0.state, floor + 1);
      ExtendsTrans(s, r.0.state, Helper(list, d, ctx, s, floor).state, ctx, {d.path});
    }
  }

  lemma {:induction false} SecondPassExtends(subs: seq<Tree>, d: DirValue, ctx: Ctx, s: State, floor: int)
    requires AllFrom(subs, floor) && (|subs| > 0 ==> floor <= MaxPathLength + 1)
    requires forall i :: 0 <= i < |subs| ==> Reachable(subs[i], d.path, ctx.managed)
    ensures Extends(s, SecondPass(subs, d, ctx, s, floor).state, ctx, {d.path})
    decreases MaxPathLength + 1 - floor, 1, |subs|
  {
    if subs != [] {
      SecondPassUnfold(subs, d, ctx, s, floor);
      HelperExtends(subs[0], d, ctx, s, floor);
      var h := Helper(subs[0], d, ctx, s, floor);
      if h.Running? {
        assert forall i :: 0 <= i < |subs[1..]| ==> subs[1..][i] == subs[i + 1];
        SecondPassExtends(subs[1..], d, ctx, h.state, floor);
        ExtendsTrans(s, h.state, SecondPass(subs, d, ctx, s, floor).state, ctx, {d.path});
      }
    }
  }

  lemma {:induction false} DirectoriesExtends(index: seq<DirValue>, ctx: Ctx, s: State)
    requires forall k :: 0 <= k < |index| ==> index[k].path != []
    ensures Extends(s, Directories(index, ctx, s).state, ctx, set k | 0 <= k < |index| :: index[k].path)
    decreases |index|
  {
    var all := set k | 0 <= k < |index| :: index[k].path;
    if index == [] {
    } else {
      var d := index[0];
      var list := ListContents(s.world.tree, d.path);
      TopListingReachable(s.world.tree, d.path, ctx.managed);
      HelperExtends(list, d, ctx, s, 0);
      var h := Helper(list, d, ctx, s, 0);
      assert d.path in all;
      ExtendsWiden(s, h.state, ctx, {d.path}, all);
      if h.Running? {
        var rest := index[1..];
        assert forall k :: 0 <= k < |rest| ==> rest[k] == index[k + 1];
        DirectoriesExtends(rest, ctx, h.state);
        var restPaths := set k | 0 <= k < |rest| :: rest[k].path;
        assert restPaths <= all by {
          forall p | p in restPaths ensures p in all {
            var k :| 0 <= k < |rest| && rest[k].path == p;
            assert index[k + 1].path == p;
          }
        }
        ExtendsWiden(h.state, Directories(rest, ctx, h.state).state, ctx, restPaths, all);
        ExtendsTrans(s, h.state, Directories(index, ctx, s).state, ctx, all);
      }
    }
  }

  /**
   * `run` as a whole: when indexing throws nothing changes; otherwise every
   * entry handed to the plugins lies below the indexed directory whose
   * policy it was processed under, no indexed directory, and nothing inside
   * an indexed directory below that one, is handed over, output and the memo
   * only grow, and a configuration made only of
   * debug plugins never changes the store.
   */
  lemma RunJurisdiction(cfg: Config, s: State, now: int, isLink: string -> bool)
    ensures Index(s.world.tree, cfg.basePath).Err? ==> RunSpec(cfg, s, now, isLink) == Stopped(Index(s.world.tree, cfg.basePath).error, s)
    ensures Index(s.world.tree, cfg.basePath).Ok? ==>
              var index := Index(s.world.tree, cfg.basePath).value;
              Extends(s, RunSpec(cfg, s, now, isLink).state, Ctx(cfg, PathsOf(index), now, isLink), set p | p in PathsOf(index))
  {
    if Index(s.world.tree, cfg.basePath).Ok? {
      var index := Index(s.world.tree, cfg.basePath).value;
      var ctx := Ctx(cfg, PathsOf(index), now, isLink);
      IndexedPathsNonEmpty(s.world.tree, cfg.basePath);
      DirectoriesExtends(index, ctx, s);
      IndexedPathSet(index);
    }
  }

  lemma IndexedPathsNonEmpty(t: Tree, basePath: string)
    requires Index(t, basePath).Ok?
    ensures forall k :: 0 <= k < |Index(t, basePath).value| ==> Index(t, basePath).value[k].path != []
  {
    var index := Index(t, basePath).value;
    IndexCharacterisation(t, basePath);
    forall k | 0 <= k < |index| ensures index[k].path != [] {
      ParsedPath(index[k].path, basePath);
    }
  }

  lemma IndexedPathSet(index: seq<DirValue>)
    ensures (set k | 0 <= k < |index| :: index[k].path) == (set p | p in PathsOf(index))
  {
    InPathsOfAll(index);
  }

  lemma InPathsOfAll(index: seq<DirValue>)
    ensures forall p :: p in PathsOf(index) <==> exists k :: 0 <= k < |index| && index[k].path == p
  {
    forall p ensures p in PathsOf(index) <==> exists k :: 0 <= k < |index| && index[k].path == p {
      InPathsOf(index, p);
    }
  }

  /** The entries of a listing that the first loop hands over, in listing order. */
  function Visited(list: seq<Entry>, managed: seq<Path>): seq<Entry>
  {
    if list == [] then []
    else if Skipped(list[0], managed) then Visited(list[1..], managed)
    else [list[0]] + Visited(list[1..], managed)
  }

  function DispatchesOf(es: seq<Entry>, policy: Path): seq<Dispatch>
  {
    if es == [] then [] else [Dispatch(es[0], policy)] + DispatchesOf(es[1..], policy)
  }

  /**
   * The first loop hands over the listing's entries in listing order,
   * skipping exactly the indexed directories.
   */
  lemma {:induction false} FirstPassOrder(list: Tree, d: DirValue, ctx: Ctx, s: State, subs: seq<Tree>, floor: int)
    requires From(list, floor) && AllFrom(subs, floor + 1) && (|subs| > 0 ==> floor <= MaxPathLength)
    ensures FirstPass(list, d, ctx, s, subs, floor).0.Running? ==>
              FirstPass(list, d, ctx, s, subs, floor).0.state.dispatched
              == s.dispatched + DispatchesOf(Visited(list, ctx.managed), d.path)
    decreases |list|, 1
  {
    if list != [] {
      if Skipped(list[0], ctx.managed) {
        FirstPassUnfold(list, d, ctx, s, subs, floor);
        assert Visited(list, ctx.managed) == Visited(list[1..], ctx.managed);
        FirstPassOrder(list[1..], d, ctx, s, subs, floor);
      } else {
        FirstPassOrderVisit(list, d, ctx, s, subs, floor);
      }
    }
  }

  lemma {:induction false} FirstPassOrderVisit(list: Tree, d: DirValue, ctx: Ctx, s: State, subs: seq<Tree>, floor: int)
    requires From(list, floor) && AllFrom(subs, floor + 1) && (|subs| > 0 ==> floor <= MaxPathLength)
    requires list != [] && !Skipped(list[0], ctx.managed)
    ensures FirstPass(list, d, ctx, s, subs, floor).0.Running? ==>
              FirstPass(list, d, ctx, s, subs, floor).0.state.dispatched
              == s.dispatched + DispatchesOf(Visited(list, ctx.managed), d.path)
    decreases |list|, 0
  {
    var e := list[0];
    var v := Visited(list[1..], ctx.managed);
    assert Visited(list, ctx.managed) == [e] + v;
    FirstPassUnfold(list, d, ctx, s, subs, floor);
    var p := ProcessContentSpec(d, e, ctx, s);
    if p.Running? {
      var s' := p.state;
      var subs' := if e.isDir then subs + [ListContents(s'.world.tree, e.path)] else subs;
      FirstPassOrder(list[1..], d, ctx, s', subs', floor);
      var x := Dispatch(e, d.path);
      var b := DispatchesOf(v, d.path);
      assert s'.dispatched == s.dispatched + [x];
      assert DispatchesOf([e] + v, d.path) == [x] + b;
      assert (s.dispatched + [x]) + b == s.dispatched + ([x] + b);
    }
  }

  /**
   * Breadth first per level: a walk that completes starts by handing over
   * the listing's own entries, in order, before anything below them.
   */
  lemma HelperLevelFirst(list: Tree, d: DirValue, ctx: Ctx, s: State, floor: int)
    requires floor <= MaxPathLength + 1 && From(list, floor) && Reachable(list, d.path, ctx.managed)
    requires Helper(list, d, ctx, s, floor).Running?
    ensures s.dispatched + DispatchesOf(Visited(list, ctx.managed), d.path) <= Helper(list, d, ctx, s, floor).state.dispatched
  {
    HelperUnfold(list, d, ctx, s, floor);
    FirstPassOrder(list, d, ctx, s, [], floor);
    FirstPassExtends(list, d, ctx, s, [], floor);
    var r := FirstPass(list, d, ctx, s, [], floor);
    if r.1 != [] {
      SecondPassExtends(r.1, d, ctx, r.0.state, floor + 1);
    }
  }
}
