/**
 * Path helpers: PHP's `basename`, `dirname` and `rtrim($s, '/')`, and the
 * parent/child relation the storage uses to list a directory. Paths are the
 * storage's normalised relative paths: segments separated by a single '/',
 * no leading or trailing '/'.
 */
module Paths {

  type Path = string

  /** Position of the last '/' in `s`, or -1 when there is none. */
  function LastSlash(s: string): (r: int)
    ensures -1 <= r < |s|
    ensures r >= 0 ==> s[r] == '/'
    ensures forall k :: r < k < |s| ==> s[k] != '/'
    decreases |s|
  {
    if s == [] then -1
    else if s[|s| - 1] == '/' then |s| - 1
    else LastSlash(s[..|s| - 1])
  }

  /** The last '/' is the only slash position with no slash after it. */
  lemma LastSlashUnique(s: string, i: int)
    requires 0 <= i < |s| && s[i] == '/'
    requires forall k :: i < k < |s| ==> s[k] != '/'
    ensures LastSlash(s) == i
  {
  }

  /** PHP `basename`: the part after the last '/'. */
  function Basename(p: Path): (r: string)
    ensures |r| <= |p| && p[|p| - |r|..] == r
    ensures forall k :: 0 <= k < |r| ==> r[k] != '/'
    ensures |r| < |p| ==> p[|p| - |r| - 1] == '/'
  {
    p[LastSlash(p) + 1..]
  }

  /** PHP `dirname`: "." without a slash, "/" for a top-level absolute path, else the part before the last '/'. */
  function Dirname(p: Path): (r: Path)
    ensures (forall k :: 0 <= k < |p| ==> p[k] != '/') ==> r == "."
    ensures |p| > 0 && p[0] != '/' && (exists k :: 0 <= k < |p| && p[k] == '/') ==>
              r + "/" + Basename(p) == p
    ensures |r| + |Basename(p)| + 1 >= |p|
  {
    var i := LastSlash(p);
    if i < 0 then "." else if i == 0 then "/" else p[..i]
  }

  /** The directory whose listing contains `p`: "" (the root) for a top-level path. */
  function Parent(p: Path): (r: Path)
    ensures |r| <= |p|
    ensures r != [] ==> |r| < |p| && p[..|r|] == r && p[|r|] == '/'
  {
    var i := LastSlash(p);
    if i < 0 then "" else p[..i]
  }

  /** `c` is listed when `p` is listed (a direct child). */
  predicate IsChild(c: Path, p: Path) {
    c != p && Parent(c) == p
  }

  /** `x` lies strictly below directory `p`. */
  predicate IsUnder(x: Path, p: Path) {
    |x| > |p| && x[..|p|] == p && x[|p|] == '/'
  }

  /** `x` is `p` itself or lies below it. */
  predicate InSubtree(x: Path, p: Path) {
    x == p || IsUnder(x, p)
  }

  /** A child is strictly longer than its parent: the listing recursion goes deeper. */
  lemma ChildIsLonger(c: Path, p: Path)
    requires IsChild(c, p)
    ensures |c| > |p|
  {
  }

  /** A listed child of a non-root directory lies below it. */
  lemma ChildIsUnder(c: Path, p: Path)
    requires IsChild(c, p) && p != []
    ensures IsUnder(c, p)
  {
  }

  /** Below `b` stays below `b` one level down. */
  lemma ChildStaysUnder(c: Path, p: Path, b: Path)
    requires IsChild(c, p) && IsUnder(p, b)
    ensures IsUnder(c, b)
  {
    assert c[..|p|] == p;
    assert c[..|b|] == c[..|p|][..|b|];
    assert c[|b|] == c[..|p|][|b|];
  }

  /** A path below `b` has its parent at `b` or below `b`. */
  lemma ParentStaysBelow(c: Path, b: Path)
    requires IsUnder(c, b)
    ensures Parent(c) == b || IsUnder(Parent(c), b)
  {
    var i := LastSlash(c);
    assert c[|b|] == '/';
    assert |b| <= i;
    if i > |b| {
      assert Parent(c) == c[..i];
      assert c[..i][..|b|] == c[..|b|];
    }
  }

  lemma BasenameOfJoin(a: string, b: string)
    requires forall k :: 0 <= k < |b| ==> b[k] != '/'
    ensures Basename(a + "/" + b) == b
  {
    var s := a + "/" + b;
    assert s[|a|] == '/';
    forall k | |a| < k < |s| ensures s[k] != '/' {
      assert s[k] == b[k - |a| - 1];
    }
    LastSlashUnique(s, |a|);
    assert s[|a| + 1..] == b;
  }

  lemma DirnameOfJoin(a: string, b: string)
    requires a != []
    requires forall k :: 0 <= k < |b| ==> b[k] != '/'
    ensures Dirname(a + "/" + b) == a
  {
    var s := a + "/" + b;
    assert s[|a|] == '/';
    forall k | |a| < k < |s| ensures s[k] != '/' {
      assert s[k] == b[k - |a| - 1];
    }
    LastSlashUnique(s, |a|);
    assert s[..|a|] == a;
  }

  lemma ParentOfJoin(a: string, b: string)
    requires forall k :: 0 <= k < |b| ==> b[k] != '/'
    ensures Parent(a + "/" + b) == a
  {
    var s := a + "/" + b;
    assert s[|a|] == '/';
    forall k | |a| < k < |s| ensures s[k] != '/' {
      assert s[k] == b[k - |a| - 1];
    }
    LastSlashUnique(s, |a|);
    assert s[..|a|] == a;
  }

  /** Below is transitive. */
  lemma UnderTransitive(x: Path, y: Path, z: Path)
    requires IsUnder(x, y) && IsUnder(y, z)
    ensures IsUnder(x, z)
  {
    assert x[..|z|] == x[..|y|][..|z|];
    assert x[|z|] == x[..|y|][|z|];
  }

  /** PHP `rtrim($s, '/')`. */
  function RTrimSlashes(s: string): (r: string)
    ensures |r| <= |s| && s[..|r|] == r
    ensures r == [] || r[|r| - 1] != '/'
    ensures forall k :: |r| <= k < |s| ==> s[k] == '/'
    decreases |s|
  {
    if s != [] && s[|s| - 1] == '/' then RTrimSlashes(s[..|s| - 1]) else s
  }
}
