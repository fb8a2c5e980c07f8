/**
 * The storage the engine works on: Flysystem's view of the managed base
 * directory, as a sequence of entries in listing order. A directory's listing
 * is the entries whose parent is that directory; a deep listing is every entry.
 */
module Storage {
  import opened Common
  import opened Paths
  import opened DirValues

  /** The longest relative path the store holds (the platform's PATH_MAX). */
  const MaxPathLength: nat := 4096

  /** `StorageAttributes` of one listed file or directory. */
  datatype Entry = Entry(path: Path, isDir: bool, visibility: Visibility, lastModified: int)

  predicate Bounded(t: seq<Entry>) {
    forall k :: 0 <= k < |t| ==> |t[k].path| <= MaxPathLength
  }

  type Tree = t: seq<Entry> | Bounded(t) witness []

  /** Some entry, file or directory, has this path. */
  predicate Exists(t: Tree, p: Path) {
    exists k :: 0 <= k < |t| && t[k].path == p
  }

  /** The attributes stored for `p` (the first entry with that path). */
  function Lookup(t: Tree, p: Path): (r: Option<Entry>)
    ensures r.Some? <==> Exists(t, p)
    ensures r.Some? ==> r.value.path == p && r.value in t
    ensures r.Some? ==> exists k :: 0 <= k < |t| && t[k] == r.value && forall j :: 0 <= j < k ==> t[j].path != p
  {
    if t == [] then None
    else if t[0].path == p then Some(t[0])
    else
      var r := Lookup(t[1..], p);
      assert forall k :: 1 <= k < |t| ==> t[k] == t[1..][k - 1];
      r
  }

  /** `listContents($p)` (not deep): the direct children of `p`, in store order. */
  function ListContents(t: Tree, p: Path): (r: Tree)
    ensures forall e :: e in r <==> e in t && IsChild(e.path, p)
    ensures forall k :: 0 <= k < |r| ==> |r[k].path| > |p|
    ensures |r| <= |t|
  {
    if t == [] then []
    else
      var rest := ListContents(t[1..], p);
      assert forall e :: e in t <==> e == t[0] || e in t[1..];
      if IsChild(t[0].path, p) then [t[0]] + rest else rest
  }

  /**
   * `fileExists` on the local adapter, which asks `is_file`: the path is
   * stored, and not as a directory.
   */
  predicate IsFile(t: Tree, p: Path) {
    Lookup(t, p).Some? && !Lookup(t, p).value.isDir
  }

  /** Some entry with this path is a directory. */
  predicate HasDirectory(t: Tree, p: Path) {
    exists k :: 0 <= k < |t| && t[k].path == p && t[k].isDir
  }

  /** `setVisibility`: an unknown path throws; otherwise every entry with that path gets the visibility. */
  function VisibilitySet(t: Tree, p: Path, v: Visibility): (r: Result<Tree>)
    ensures r.Err? <==> !Exists(t, p)
    ensures r.Err? ==> r.error == UnableToSetVisibility(p)
    ensures r.Ok? ==> |r.value| == |t|
    ensures r.Ok? ==> forall k :: 0 <= k < |t| ==>
                        r.value[k] == if t[k].path == p then t[k].(visibility := v) else t[k]
  {
    if !Exists(t, p) then Err(UnableToSetVisibility(p)) else Ok(WithVisibility(t, p, v))
  }

  function WithVisibility(t: Tree, p: Path, v: Visibility): (r: Tree)
    ensures |r| == |t|
    ensures forall k :: 0 <= k < |t| ==> r[k] == if t[k].path == p then t[k].(visibility := v) else t[k]
  {
    if t == [] then []
    else [if t[0].path == p then t[0].(visibility := v) else t[0]] + WithVisibility(t[1..], p, v)
  }

  /** The entries of `t` outside the subtree rooted at `p`, in order. */
  function WithoutSubtree(t: Tree, p: Path): (r: Tree)
    ensures forall e :: e in r <==> e in t && !InSubtree(e.path, p)
    ensures |r| <= |t|
  {
    if t == [] then []
    else
      var rest := WithoutSubtree(t[1..], p);
      assert forall e :: e in t <==> e == t[0] || e in t[1..];
      if InSubtree(t[0].path, p) then rest else [t[0]] + rest
  }

  /** The entries of `t` whose path is not `p`, in order. */
  function WithoutPath(t: Tree, p: Path): (r: Tree)
    ensures forall e :: e in r <==> e in t && e.path != p
  {
    if t == [] then []
    else
      var rest := WithoutPath(t[1..], p);
      assert forall e :: e in t <==> e == t[0] || e in t[1..];
      if t[0].path == p then rest else [t[0]] + rest
  }

  /**
   * `delete`: a missing path is left alone; a directory cannot be unlinked
   * and throws; a file is removed.
   */
  function Deleted(t: Tree, p: Path): (r: Result<Tree>)
    ensures r.Err? <==> Lookup(t, p).Some? && Lookup(t, p).value.isDir
    ensures r.Err? ==> r.error == UnableToDeleteFile(p)
    ensures r.Ok? ==> !Exists(r.value, p)
    ensures r.Ok? ==> forall e :: e in t && e.path != p ==> e in r.value
  {
    var entry := Lookup(t, p);
    if entry.None? then Ok(t)
    else if entry.value.isDir then Err(UnableToDeleteFile(p))
    else
      var r := WithoutPath(t, p);
      assert forall k :: 0 <= k < |r| ==> r[k] in r;
      Ok(r)
  }

  /** `deleteDirectory`: nothing happens unless `p` is a directory; otherwise its whole subtree goes. */
  function DirectoryDeleted(t: Tree, p: Path): (r: Tree)
    ensures Lookup(t, p).Some? && Lookup(t, p).value.isDir ==>
              forall e :: e in r <==> e in t && !InSubtree(e.path, p)
    ensures !(Lookup(t, p).Some? && Lookup(t, p).value.isDir) ==> r == t
  {
    var entry := Lookup(t, p);
    if entry.Some? && entry.value.isDir then WithoutSubtree(t, p) else t
  }

  /** The path an entry of the subtree at `src` gets when that subtree is renamed to `dst`. */
  function Relocated(x: Path, src: Path, dst: Path): (r: Path)
    requires InSubtree(x, src)
    ensures |r| == |x| - |src| + |dst|
    ensures x == src ==> r == dst
    ensures IsUnder(x, src) ==> IsUnder(r, dst)
  {
    var r := dst + x[|src|..];
    assert IsUnder(x, src) ==> r[..|dst|] == dst && r[|dst|] == x[|src|];
    r
  }

  /** Every entry of the moved subtree still fits once it carries its new path. */
  predicate FitsAfterMove(t: Tree, src: Path, dst: Path) {
    forall k :: 0 <= k < |t| && InSubtree(t[k].path, src) ==> |t[k].path| - |src| + |dst| <= MaxPathLength
  }

  function Renamed(t: Tree, src: Path, dst: Path): (r: Tree)
    requires FitsAfterMove(t, src, dst)
    ensures |r| == |t|
    ensures forall k :: 0 <= k < |t| ==>
              r[k] == if InSubtree(t[k].path, src) then t[k].(path := Relocated(t[k].path, src, dst)) else t[k]
  {
    if t == [] then []
    else
      var e := t[0];
      var e' := if InSubtree(e.path, src) then e.(path := Relocated(e.path, src, dst)) else e;
      assert FitsAfterMove(t[1..], src, dst) by {
        forall k | 0 <= k < |t[1..]| && InSubtree(t[1..][k].path, src)
          ensures |t[1..][k].path| - |src| + |dst| <= MaxPathLength
        {
          assert t[1..][k] == t[k + 1];
        }
      }
      [e'] + Renamed(t[1..], src, dst)
  }

  /**
   * `mkdir($p, 0700, true)` as the local adapter's `ensureDirectoryExists`
   * runs it: a stored directory is left as it is; otherwise every missing
   * directory on the way down to `p` is added, private (the visibility
   * converter's default for directories) and stamped `now`. A file in the
   * way, or a path too long for the platform, makes it fail.
   */
  function DirectoryEnsured(t: Tree, p: Path, now: int): (r: Option<Tree>)
    ensures r.Some? ==> t <= r.value
    decreases |p|
  {
    if p == [] then Some(t)
    else
      match Lookup(t, p)
      case Some(x) => if x.isDir then Some(t) else None
      case None =>
        if |p| > MaxPathLength then None
        else
          match DirectoryEnsured(t, Parent(p), now)
          case None => None
          case Some(t1) =>
            var r: Tree := t1 + [Entry(p, true, Private, now)];
            Some(r)
  }

  /**
   * Every entry `mkdir -p` adds is a private directory stamped `now`, at the
   * path or above it, that the store did not hold.
   */
  lemma {:induction false} EnsuredAdds(t: Tree, p: Path, now: int)
    requires DirectoryEnsured(t, p, now).Some?
    ensures var r := DirectoryEnsured(t, p, now).value;
            forall k :: |t| <= k < |r| ==>
              && r[k].isDir && r[k].visibility == Private && r[k].lastModified == now
              && InSubtree(p, r[k].path) && !Exists(t, r[k].path)
    decreases |p|
  {
    if p != [] && Lookup(t, p).None? {
      var q := Parent(p);
      var t1 := DirectoryEnsured(t, q, now).value;
      var r := t1 + [Entry(p, true, Private, now)];
      assert DirectoryEnsured(t, p, now).value == r;
      EnsuredAdds(t, q, now);
      forall k | |t| <= k < |r|
        ensures && r[k].isDir && r[k].visibility == Private && r[k].lastModified == now
                && InSubtree(p, r[k].path) && !Exists(t, r[k].path)
      {
        if k < |t1| {
          assert r[k] == t1[k];
          if q != [] { BelowParent(p, r[k].path); }
        }
      }
    }
  }

  /** After a successful `mkdir -p`, the path is a stored directory. */
  lemma EnsuredMakesDirectory(t: Tree, p: Path, now: int)
    requires DirectoryEnsured(t, p, now).Some? && p != []
    ensures var r := DirectoryEnsured(t, p, now).value;
            Lookup(r, p).Some? && Lookup(r, p).value.isDir
  {
    if Lookup(t, p).None? {
      var q := Parent(p);
      var t1 := DirectoryEnsured(t, q, now).value;
      var made := Entry(p, true, Private, now);
      var r := t1 + [made];
      EnsuredAdds(t, q, now);
      forall k | 0 <= k < |t1| ensures t1[k].path != p {
        if k < |t| { assert t[k] == t1[k]; }
        else if q != [] { assert IsUnder(p, q); }
      }
      assert r[|t1|] == made;
      assert forall k :: 0 <= k < |t1| ==> r[k] == t1[k];
    }
  }

  /** What is at or above a path's parent is above the path. */
  lemma BelowParent(p: Path, x: Path)
    requires Parent(p) != [] && InSubtree(Parent(p), x)
    ensures IsUnder(p, x)
  {
    if IsUnder(Parent(p), x) { UnderTransitive(p, Parent(p), x); }
  }

  /** A stored directory is left as it is; a stored file in its place makes `mkdir -p` fail. */
  lemma EnsuredWhenStored(t: Tree, p: Path, now: int)
    requires p != [] && Lookup(t, p).Some?
    ensures Lookup(t, p).value.isDir ==> DirectoryEnsured(t, p, now) == Some(t)
    ensures !Lookup(t, p).value.isDir ==> DirectoryEnsured(t, p, now).None?
  {
  }

  /** `mkdir -p` fails only for a path too long, or a file stored at the path or above it. */
  lemma {:induction false} EnsuredFails(t: Tree, p: Path, now: int)
    requires DirectoryEnsured(t, p, now).None?
    ensures |p| > MaxPathLength || exists k :: 0 <= k < |t| && !t[k].isDir && InSubtree(p, t[k].path)
    decreases |p|
  {
    var q := Parent(p);
    if Lookup(t, p).Some? {
      var k :| 0 <= k < |t| && t[k] == Lookup(t, p).value;
    } else if |p| <= MaxPathLength {
      EnsuredFails(t, q, now);
      if |q| <= MaxPathLength {
        var k :| 0 <= k < |t| && !t[k].isDir && InSubtree(q, t[k].path);
        BelowParent(p, t[k].path);
      }
    }
  }

  /** `mkdir -p` succeeds when the path fits and nothing stored at it or above it is a file. */
  lemma {:induction false} EnsuredSucceeds(t: Tree, p: Path, now: int)
    requires |p| <= MaxPathLength
    requires forall k :: 0 <= k < |t| && InSubtree(p, t[k].path) ==> t[k].isDir
    ensures DirectoryEnsured(t, p, now).Some?
    decreases |p|
  {
    if p != [] {
      if Lookup(t, p).Some? {
        var k :| 0 <= k < |t| && t[k] == Lookup(t, p).value;
      } else {
        var q := Parent(p);
        if q != [] {
          forall k | 0 <= k < |t| && InSubtree(q, t[k].path) ensures t[k].isDir {
            BelowParent(p, t[k].path);
          }
          EnsuredSucceeds(t, q, now);
        }
      }
    }
  }

  /**
   * `rename` refuses an existing destination of the other kind, and a
   * directory that is not empty.
   */
  predicate Occupied(t: Tree, src: Path, dst: Path)
    requires Exists(t, src)
  {
    && Exists(t, dst)
    && (Lookup(t, src).value.isDir != Lookup(t, dst).value.isDir
        || (Lookup(t, dst).value.isDir && exists k :: 0 <= k < |t| && IsUnder(t[k].path, dst)))
  }

  /**
   * `rename`: a missing source, a destination inside the source or a source
   * inside the destination, an occupied destination, or a renamed path too
   * long for the platform make it fail; renaming onto itself changes
   * nothing. Otherwise a file or an empty directory at the destination is
   * replaced and the source's subtree is renamed in place.
   */
  function Rename(t: Tree, src: Path, dst: Path): (r: Result<Tree>)
    ensures r.Err? <==> !Exists(t, src)
                        || (src != dst && (IsUnder(dst, src) || IsUnder(src, dst) || Occupied(t, src, dst)
                                           || !FitsAfterMove(WithoutSubtree(t, dst), src, dst)))
    ensures r.Err? ==> r.error == UnableToMoveFile(src, dst)
    ensures r.Ok? && src != dst ==> !Exists(r.value, src) && Exists(r.value, dst)
  {
    if !Exists(t, src) then Err(UnableToMoveFile(src, dst))
    else if src == dst then Ok(t)
    else if IsUnder(dst, src) || IsUnder(src, dst) || Occupied(t, src, dst) then Err(UnableToMoveFile(src, dst))
    else
      var kept := WithoutSubtree(t, dst);
      if !FitsAfterMove(kept, src, dst) then Err(UnableToMoveFile(src, dst))
      else
        MoveFacts(t, src, dst);
        Ok(Renamed(kept, src, dst))
  }

  /** What a store operation leaves behind: the store afterwards, and whether it threw. */
  datatype Attempt = Attempt(tree: Tree, outcome: Outcome)

  /**
   * `move` on the local adapter: `mkdir -p` of the destination's parent
   * directory, then `rename`. A failed mkdir throws with the store as it
   * was; a failed rename throws with the directories already made left in
   * place.
   */
  function Moved(t: Tree, src: Path, dst: Path, now: int): Attempt {
    match DirectoryEnsured(t, Parent(dst), now)
    case None => Attempt(t, Fail(UnableToCreateDirectory(Parent(dst))))
    case Some(t1) =>
      match Rename(t1, src, dst)
      case Err(err) => Attempt(t1, Fail(err))
      case Ok(t2) => Attempt(t2, Pass)
  }

  /**
   * `move` throws either from `mkdir`, with the store as it was, or from
   * `rename`, with every stored entry still there; when it returns, the
   * source path is gone and the destination is stored.
   */
  lemma MoveOutcome(t: Tree, src: Path, dst: Path, now: int)
    ensures var r := Moved(t, src, dst, now);
            && (r.outcome.Fail? ==>
                  || r == Attempt(t, Fail(UnableToCreateDirectory(Parent(dst))))
                  || (r.outcome.error == UnableToMoveFile(src, dst) && t <= r.tree))
            && (r.outcome.Pass? && src != dst ==> !Exists(r.tree, src) && Exists(r.tree, dst))
  {
  }

  /** Paths in both subtrees would make one root lie inside the other. */
  lemma DisjointSubtrees(x: Path, src: Path, dst: Path)
    requires src != dst && !IsUnder(dst, src) && !IsUnder(src, dst)
    ensures !(InSubtree(x, src) && InSubtree(x, dst))
  {
  }

  lemma MoveFacts(t: Tree, src: Path, dst: Path)
    requires Exists(t, src) && src != dst && !IsUnder(dst, src) && !IsUnder(src, dst)
    requires FitsAfterMove(WithoutSubtree(t, dst), src, dst)
    ensures var r := Renamed(WithoutSubtree(t, dst), src, dst);
            !Exists(r, src) && Exists(r, dst)
  {
    var kept := WithoutSubtree(t, dst);
    var r := Renamed(kept, src, dst);
    var k :| 0 <= k < |t| && t[k].path == src;
    DisjointSubtrees(src, src, dst);
    assert t[k] in kept;
    var j :| 0 <= j < |kept| && kept[j] == t[k];
    assert r[j].path == dst;
    forall i | 0 <= i < |r| ensures r[i].path != src {
      if !InSubtree(kept[i].path, src) {
        assert kept[i].path != src;
      }
    }
  }

  /** Outside both subtrees, a successful `rename` leaves every entry where it was. */
  lemma RenameKeepsOthers(t: Tree, src: Path, dst: Path, e: Entry)
    requires Rename(t, src, dst).Ok?
    requires e in t && !InSubtree(e.path, src) && !InSubtree(e.path, dst)
    ensures e in Rename(t, src, dst).value
  {
    if src != dst {
      var kept := WithoutSubtree(t, dst);
      assert e in kept;
      var j :| 0 <= j < |kept| && kept[j] == e;
      assert Renamed(kept, src, dst)[j] == e;
    }
  }

  /** What `mkdir -p` returns still holds every entry it was given. */
  lemma EnsuredKeeps(t: Tree, p: Path, now: int, e: Entry)
    requires DirectoryEnsured(t, p, now).Some? && e in t
    ensures e in DirectoryEnsured(t, p, now).value
  {
    var k :| 0 <= k < |t| && t[k] == e;
    assert DirectoryEnsured(t, p, now).value[k] == e;
  }

  /**
   * Outside both subtrees, `move` leaves every entry where it was, whether
   * it succeeds or throws.
   */
  lemma MoveKeepsOthers(t: Tree, src: Path, dst: Path, now: int, e: Entry)
    requires e in t && !InSubtree(e.path, src) && !InSubtree(e.path, dst)
    ensures e in Moved(t, src, dst, now).tree
  {
    var m := DirectoryEnsured(t, Parent(dst), now);
    if m.Some? {
      EnsuredKeeps(t, Parent(dst), now, e);
      if Rename(m.value, src, dst).Ok? {
        RenameKeepsOthers(m.value, src, dst, e);
      }
    }
  }

  /** A moved entry keeps its kind, visibility and timestamp under its new path. */
  lemma MoveCarriesAttributes(t: Tree, src: Path, dst: Path, now: int, e: Entry)
    requires Moved(t, src, dst, now).outcome.Pass? && src != dst
    requires e in t && InSubtree(e.path, src)
    ensures e.(path := Relocated(e.path, src, dst)) in Moved(t, src, dst, now).tree
  {
    var t1 := DirectoryEnsured(t, Parent(dst), now).value;
    EnsuredKeeps(t, Parent(dst), now, e);
    var kept := WithoutSubtree(t1, dst);
    DisjointSubtrees(e.path, src, dst);
    assert e in kept;
    var j :| 0 <= j < |kept| && kept[j] == e;
    assert Renamed(kept, src, dst)[j] == e.(path := Relocated(e.path, src, dst));
  }

  /** After a successful `move`, the destination's parent is a stored directory. */
  lemma MoveMakesParent(t: Tree, src: Path, dst: Path, now: int)
    requires Moved(t, src, dst, now).outcome.Pass? && src != dst && Parent(dst) != []
    ensures HasDirectory(Moved(t, src, dst, now).tree, Parent(dst))
  {
    var q := Parent(dst);
    var t1 := DirectoryEnsured(t, q, now).value;
    EnsuredMakesDirectory(t, q, now);
    var x := Lookup(t1, q).value;
    assert IsUnder(dst, q);
    if IsUnder(q, src) { UnderTransitive(dst, q, src); }
    assert Rename(t1, src, dst).Ok?;
    RenameKeepsOthers(t1, src, dst, x);
    var r := Moved(t, src, dst, now).tree;
    assert r == Rename(t1, src, dst).value;
    var k :| 0 <= k < |r| && r[k] == x;
  }

  /**
   * Whatever `move` leaves behind that was not stored before lies in the
   * destination's subtree, or is a private directory, stamped `now`, that it
   * made on the way down to the destination's parent.
   */
  lemma MoveAddsNothingElse(t: Tree, src: Path, dst: Path, now: int, x: Entry)
    requires x in Moved(t, src, dst, now).tree && x !in t
    ensures || InSubtree(x.path, dst)
            || (x.isDir && x.visibility == Private && x.lastModified == now && InSubtree(Parent(dst), x.path))
  {
    var t1 := DirectoryEnsured(t, Parent(dst), now).value;
    if x in t1 {
      MadeOnTheWay(t, Parent(dst), now, x);
    } else {
      var kept := WithoutSubtree(t1, dst);
      var r := Renamed(kept, src, dst);
      var j :| 0 <= j < |r| && r[j] == x;
      assert kept[j] in t1;
    }
  }

  /** An entry `mkdir -p` added is one of the directories it made. */
  lemma MadeOnTheWay(t: Tree, p: Path, now: int, x: Entry)
    requires DirectoryEnsured(t, p, now).Some? && x in DirectoryEnsured(t, p, now).value && x !in t
    ensures x.isDir && x.visibility == Private && x.lastModified == now && InSubtree(p, x.path)
  {
    var t1 := DirectoryEnsured(t, p, now).value;
    EnsuredAdds(t, p, now);
    var k :| 0 <= k < |t1| && t1[k] == x;
    if k < |t| { assert t[k] == x; }
  }

  /** The store as a mutable object; every clone of `Filesystem` shares it. */
  class Filesystem {
    var tree: Tree

    constructor (t: Tree)
      ensures tree == t
    {
      tree := t;
    }

    function FileExists(p: Path): bool
      reads this
    {
      IsFile(tree, p)
    }

    method SetVisibility(p: Path, v: Visibility) returns (o: Outcome)
      modifies this
      ensures var r := VisibilitySet(old(tree), p, v);
              if r.Ok? then o.Pass? && tree == r.value else o == Fail(r.error) && tree == old(tree)
    {
      var r := VisibilitySet(tree, p, v);
      if r.Ok? {
        tree := r.value;
        o := Pass;
      } else {
        o := Fail(r.error);
      }
    }

    method Delete(p: Path) returns (o: Outcome)
      modifies this
      ensures var r := Deleted(old(tree), p);
              if r.Ok? then o.Pass? && tree == r.value else o == Fail(r.error) && tree == old(tree)
    {
      var r := Deleted(tree, p);
      if r.Ok? {
        tree := r.value;
        o := Pass;
      } else {
        o := Fail(r.error);
      }
    }

    method DeleteDirectory(p: Path)
      modifies this
      ensures tree == DirectoryDeleted(old(tree), p)
    {
      tree := DirectoryDeleted(tree, p);
    }

    method Move(src: Path, dst: Path, now: int) returns (o: Outcome)
      modifies this
      ensures var r := Moved(old(tree), src, dst, now);
              tree == r.tree && o == r.outcome
    {
      var made := DirectoryEnsured(tree, Parent(dst), now);
      if made.None? {
        o := Fail(UnableToCreateDirectory(Parent(dst)));
      } else {
        tree := made.value;
        var r := Rename(tree, src, dst);
        if r.Ok? {
          tree := r.value;
          o := Pass;
        } else {
          o := Fail(r.error);
        }
      }
    }
  }
}
