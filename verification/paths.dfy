/** POSIX path operations (`os.path.join`, `dirname`, `basename`) on plain strings. */
module Paths {

  /** `os.path.join(a, b)`: an absolute `b` wins, otherwise one '/' separates the parts. */
  function Join(a: string, b: string): string {
    if |b| > 0 && b[0] == '/' then b
    else if a == [] || a[|a| - 1] == '/' then a + b
    else a + "/" + b
  }

  /** Index just past the last '/' of `p` (0 when there is none). */
  function SepEnd(p: string): (n: nat)
    ensures n <= |p|
    ensures n > 0 ==> p[n - 1] == '/'
    ensures forall i :: n <= i < |p| ==> p[i] != '/'
  {
    if p == [] then 0 else if p[|p| - 1] == '/' then |p| else SepEnd(p[..|p| - 1])
  }

  /** `os.path.basename`: everything after the last '/'. */
  function BaseName(p: string): string {
    p[SepEnd(p)..]
  }

  predicate AllSeps(s: string) {
    forall i :: 0 <= i < |s| ==> s[i] == '/'
  }

  /** `s.rstrip('/')`. */
  function TrimSeps(s: string): (r: string)
    ensures |r| <= |s| && r == s[..|r|]
    ensures r == [] || r[|r| - 1] != '/'
  {
    if s != [] && s[|s| - 1] == '/' then TrimSeps(s[..|s| - 1]) else s
  }

  /** `os.path.dirname`: the head up to the last '/', trailing '/'s dropped unless it is all '/'. */
  function DirName(p: string): string {
    var head := p[..SepEnd(p)];
    if head != [] && !AllSeps(head) then TrimSeps(head) else head
  }

  /** `p` is the directory `d` itself or lies below it. */
  predicate Within(p: string, d: string) {
    || p == d
    || (|d| < |p| && p[..|d|] == d && (p[|d|] == '/' || (d != [] && d[|d| - 1] == '/')))
  }

  /** A name with no '/' leaves the last separator where it was. */
  lemma {:induction false} SepEndOfName(p: string, name: string)
    requires forall i :: 0 <= i < |name| ==> name[i] != '/'
    ensures SepEnd(p + name) == SepEnd(p)
    decreases |name|
  {
    if name != [] {
      var front := name[..|name| - 1];
      assert (p + name)[..|p + name| - 1] == p + front;
      SepEndOfName(p, front);
    } else {
      assert p + name == p;
    }
  }

  /**
   * Splitting a joined path gives its parts back: `dirname(join(d, f)) == d` and
   * `basename(join(d, f)) == f` for a directory without a trailing '/' and a plain name.
   */
  lemma JoinSplits(d: string, name: string)
    requires d != [] && d[|d| - 1] != '/'
    requires name != [] && forall i :: 0 <= i < |name| ==> name[i] != '/'
    ensures Join(d, name) == d + "/" + name
    ensures DirName(Join(d, name)) == d
    ensures BaseName(Join(d, name)) == name
  {
    var p := d + "/" + name;
    assert name[0] != '/';
    SepEndOfName(d + "/", name);
    assert SepEnd(d + "/") == |d| + 1;
    assert p[..|d| + 1] == d + "/";
    assert !AllSeps(d + "/") by { assert (d + "/")[|d| - 1] != '/'; }
    assert (d + "/")[..|d|] == d;
    assert TrimSeps(d) == d;
    assert TrimSeps(d + "/") == d;
    assert DirName(p) == TrimSeps(d + "/");
    assert p[|d| + 1..] == name;
  }

  /** A path joined under `d` lies within `d`. */
  lemma JoinWithin(d: string, name: string)
    requires d != []
    requires name == [] || name[0] != '/'
    ensures Within(Join(d, name), d)
  {
    var p := Join(d, name);
    if d[|d| - 1] == '/' {
      assert p == d + name;
      if name != [] { assert p[..|d|] == d; }
    } else {
      assert p == d + "/" + name;
      assert p[..|d|] == d;
    }
  }
}
