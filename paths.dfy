/** The POSIX `os.path` operations the report writer uses: `join`, `basename`, `dirname`. */
module Paths {

  /** Python's `p.rfind('/')`. */
  function LastSlash(p: string): (i: int)
    ensures -1 <= i < |p|
    ensures i >= 0 ==> p[i] == '/'
    ensures forall k :: i < k < |p| ==> p[k] != '/'
  {
    if p == [] then -1
    else if p[|p| - 1] == '/' then |p| - 1
    else LastSlash(p[..|p| - 1])
  }

  /** `os.path.basename(p)`: what follows the last slash. */
  function Basename(p: string): (r: string)
    ensures '/' !in r
    ensures |r| <= |p| && p[|p| - |r|..] == r
    ensures |r| == |p| || p[|p| - |r| - 1] == '/'
  {
    var i := LastSlash(p);
    p[i + 1..]
  }

  predicate AllSlashes(h: string) {
    forall k :: 0 <= k < |h| ==> h[k] == '/'
  }

  /** `h.rstrip('/')`. */
  function StripTrailingSlashes(h: string): (r: string)
    ensures |r| <= |h| && r == h[..|r|] && AllSlashes(h[|r|..])
    ensures r == [] || r[|r| - 1] != '/'
    decreases |h|
  {
    if h != [] && h[|h| - 1] == '/' then StripTrailingSlashes(h[..|h| - 1]) else h
  }

  /**
   * `os.path.dirname(p)`: up to the last slash, with the trailing slashes
   * removed unless that leaves only slashes.
   */
  function Dirname(p: string): (r: string)
    ensures |r| <= |p| && r == p[..|r|]
    ensures r == [] <==> '/' !in p
    ensures r != [] && r[|r| - 1] == '/' ==> AllSlashes(r)
  {
    var head := p[..LastSlash(p) + 1];
    if head != [] && !AllSlashes(head) then StripTrailingSlashes(head) else head
  }

  /** `os.path.join(a, b)` for two components. */
  function Join(a: string, b: string): (r: string)
    ensures b != [] && b[0] == '/' ==> r == b
    ensures !(b != [] && b[0] == '/') ==>
      && |a| + |b| <= |r| <= |a| + |b| + 1 && r[..|a|] == a && r[|r| - |b|..] == b
      && (|r| == |a| + |b| + 1 ==> r[|a|] == '/')
  {
    if b != [] && b[0] == '/' then b
    else if a == [] || a[|a| - 1] == '/' then a + b
    else a + "/" + b
  }

  lemma {:induction false} LastSlashAt(p: string, i: nat)
    requires i < |p| && p[i] == '/'
    requires forall k :: i < k < |p| ==> p[k] != '/'
    ensures LastSlash(p) == i
    decreases |p|
  {
    if p[|p| - 1] != '/' {
      LastSlashAt(p[..|p| - 1], i);
    }
  }

  lemma {:induction false} LastSlashNone(p: string)
    requires '/' !in p
    ensures LastSlash(p) == -1
    decreases |p|
  {
    if p != [] {
      assert p[|p| - 1] in p;
      assert forall c :: c in p[..|p| - 1] ==> c in p;
      LastSlashNone(p[..|p| - 1]);
    }
  }

  /** A file name without slashes joined to a directory is that path's base name. */
  lemma BasenameOfJoin(dir: string, name: string)
    requires '/' !in name
    ensures Basename(Join(dir, name)) == name
  {
    var p := Join(dir, name);
    assert name != [] ==> name[0] in name;
    if dir == [] {
      assert p == name;
      LastSlashNone(name);
    } else {
      var d := if dir[|dir| - 1] == '/' then dir else dir + "/";
      assert p == d + name;
      assert forall k :: |d| <= k < |p| ==> p[k] == name[k - |d|] && name[k - |d|] in name;
      LastSlashAt(p, |d| - 1);
      assert p[|d|..] == name;
    }
  }

  /** The directory of a name joined to a directory without a trailing slash is that directory. */
  lemma DirnameOfJoin(dir: string, name: string)
    requires '/' !in name
    requires dir != [] && dir[|dir| - 1] != '/'
    ensures Dirname(Join(dir, name)) == dir
  {
    assert name != [] ==> name[0] in name;
    var p := Join(dir, name);
    assert p == dir + "/" + name;
    assert forall k :: |dir| < k < |p| ==> p[k] == name[k - |dir| - 1] && name[k - |dir| - 1] in name;
    LastSlashAt(p, |dir|);
    var head := p[..|dir| + 1];
    assert head == dir + "/";
    assert head[|dir| - 1] != '/';
    assert head[..|head| - 1] == dir;
    assert !AllSlashes(head);
    assert StripTrailingSlashes(head) == StripTrailingSlashes(dir) == dir;
  }
}
