/** Slash-separated paths: the parts of path/filepath that the configuration code relies on. */
module Paths {

  type Path = string

  /** Index of the last '/' in p, or -1 when p has none. */
  function LastSeparator(p: Path): (k: int)
    ensures -1 <= k < |p|
    ensures k >= 0 ==> p[k] == '/'
    ensures forall j :: k < j < |p| ==> p[j] != '/'
  {
    if |p| == 0 then -1
    else if p[|p| - 1] == '/' then |p| - 1
    else LastSeparator(p[..|p| - 1])
  }

  /** filepath.Dir on clean paths: everything before the last separator, "/" when that
      separator is the leading one, "." when there is none. */
  function Dir(p: Path): (d: Path)
    ensures d != ""
    ensures d != "." && d != "/" ==> |d| < |p| && p[..|d|] == d && p[|d|] == '/'
  {
    var k := LastSeparator(p);
    if k < 0 then "." else if k == 0 then "/" else p[..k]
  }

  /** filepath.Join of two elements: an empty base is dropped, the root "/" is not
      doubled, otherwise they are separated by '/'. Other cleaning (doubled or trailing
      separators, "." and ".." elements) is not modelled. */
  function Join(base: Path, name: string): (p: Path)
    ensures base != "" && base != "/" ==> IsWithin(p, base) && |p| == |base| + 1 + |name|
    ensures base == "/" ==> |p| == 1 + |name| && p[0] == '/'
  {
    if base == "" then name else if base == "/" then "/" + name else base + "/" + name
  }

  /** filepath.Join(base, names...) */
  function JoinAll(base: Path, names: seq<string>): (p: Path)
    ensures |base| <= |p| && p[..|base|] == base
    decreases |names|
  {
    if names == [] then base else JoinAll(Join(base, names[0]), names[1..])
  }

  /** Dir undoes Join when the joined name is a single element. */
  lemma DirOfJoin(base: Path, name: string)
    requires base != "" && '/' !in name
    ensures Dir(Join(base, name)) == base
  {
    if base == "/" {
      var p := "/" + name;
      assert p[0] == '/';
      forall j | 0 < j < |p| ensures p[j] != '/' {
        assert p[j] == name[j - 1];
      }
      assert LastSeparator(p) == 0;
    } else {
      var p := base + "/" + name;
      assert p[|base|] == '/';
      forall j | |base| < j < |p| ensures p[j] != '/' {
        assert p[j] == name[j - |base| - 1];
      }
      assert LastSeparator(p) == |base|;
      assert p[..|base|] == base;
    }
  }

  /** Joining the same name to two different bases gives two different paths. */
  lemma JoinInjective(a: Path, b: Path, name: string)
    requires Join(a, name) == Join(b, name)
    ensures a == b
  {
    if a != "" && b != "" && a != "/" && b != "/" {
      assert |a| == |b|;
      assert a == Join(a, name)[..|a|] == Join(b, name)[..|b|] == b;
    }
  }

  /** q is root itself or lies below it. */
  predicate IsWithin(q: Path, root: Path)
  {
    q == root || (|root| < |q| && q[..|root|] == root && q[|root|] == '/')
  }

  /** The path that q, lying within `from`, takes once `from` is renamed to `to`. */
  function Rebase(q: Path, from: Path, to: Path): (r: Path)
    requires IsWithin(q, from)
    ensures IsWithin(r, to)
    ensures q == from ==> r == to
  {
    var r := to + q[|from|..];
    assert q != from ==> r[|to|] == q[|from|];
    r
  }

  /** Two paths that both contain q are nested one within the other. */
  lemma WithinBoth(q: Path, a: Path, b: Path)
    requires IsWithin(q, a) && IsWithin(q, b)
    ensures IsWithin(a, b) || IsWithin(b, a)
  {
    if |a| < |b| {
      assert b[..|a|] == q[..|a|] == a;
      assert b[|a|] == q[|a|];
    } else if |b| < |a| {
      assert a[..|b|] == q[..|b|] == b;
      assert a[|b|] == q[|b|];
    } else {
      assert a == q[..|a|] == b;
    }
  }

  /** Rebase is injective: two entries never land on the same renamed path. */
  lemma RebaseInjective(from: Path, to: Path)
    ensures forall q1, q2 ::
      (IsWithin(q1, from) && IsWithin(q2, from) && Rebase(q1, from, to) == Rebase(q2, from, to)) ==> q1 == q2
  {
    forall q1, q2 | IsWithin(q1, from) && IsWithin(q2, from) && Rebase(q1, from, to) == Rebase(q2, from, to)
      ensures q1 == q2
    {
      assert q1[|from|..] == Rebase(q1, from, to)[|to|..];
      assert q2[|from|..] == Rebase(q2, from, to)[|to|..];
      assert q1 == q1[..|from|] + q1[|from|..];
      assert q2 == q2[..|from|] + q2[|from|..];
    }
  }
}
