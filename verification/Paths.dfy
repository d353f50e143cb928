/** Tree paths as the driver uses them: a sequence of names, the empty sequence
    being the space root (rendered "."). */
module Paths {

  type Name = string
  type Path = seq<Name>

  const CONTROL: Name := ".ocis-remoteposix"
  const TRASH: Name := "trash"
  const VERSIONS: Name := "versions"
  const TMP: Name := "tmp"

  /** The driver's own directory and everything below it. */
  predicate Reserved(p: Path) {
    |p| > 0 && p[0] == CONTROL
  }

  function TrashPath(id: string): Path {
    [CONTROL, TRASH, id]
  }

  function VersionPath(id: string): Path {
    [CONTROL, VERSIONS, id]
  }

  /** Where `p`, at or below `src`, ends up when `src` becomes `dst`. */
  function Rebase(p: Path, src: Path, dst: Path): (r: Path)
    requires src <= p
    ensures dst <= r && |r| == |dst| + |p| - |src|
  {
    dst + p[|src|..]
  }

  lemma RebaseInjective(p: Path, q: Path, src: Path, dst: Path)
    requires src <= p && src <= q
    ensures Rebase(p, src, dst) == Rebase(q, src, dst) ==> p == q
  {
    if Rebase(p, src, dst) == Rebase(q, src, dst) {
      assert p[|src|..] == Rebase(p, src, dst)[|dst|..] == q[|src|..];
      assert p == src + p[|src|..] && q == src + q[|src|..];
    }
  }

  lemma RebaseBack(p: Path, src: Path, dst: Path)
    requires src <= p
    ensures Rebase(Rebase(p, src, dst), dst, src) == p
  {
    assert Rebase(p, src, dst)[|dst|..] == p[|src|..];
  }

  lemma RebaseChild(p: Path, n: Name, src: Path, dst: Path)
    requires src <= p
    ensures src <= p + [n] && Rebase(p + [n], src, dst) == Rebase(p, src, dst) + [n]
  {
    assert (p + [n])[|src|..] == p[|src|..] + [n];
  }

  lemma RebaseSelf(src: Path, dst: Path)
    ensures Rebase(src, src, dst) == dst
  {
  }

  lemma PrefixTrans(a: Path, b: Path, c: Path)
    requires a <= b && b <= c
    ensures a <= c
  {
    assert forall i | 0 <= i < |a| :: a[i] == c[i];
  }

  lemma NextPrefix(a: Path, b: Path)
    requires a <= b && |a| < |b|
    ensures a + [b[|a|]] <= b
  {
    assert a + [b[|a|]] == b[..|a| + 1];
  }

  lemma LastEqual(p: Path, n: Name, q: Path, m: Name)
    requires p + [n] == q + [m]
    ensures p == q && n == m
  {
    assert |p| == |q|;
    assert p == (p + [n])[..|p|] == (q + [m])[..|q|] == q;
    assert n == (p + [n])[|p|] == (q + [m])[|q|];
  }

  /** Two prefixes of one path are comparable. */
  lemma PrefixesCompare(a: Path, b: Path, c: Path)
    requires a <= c && b <= c
    ensures a <= b || b <= a
    ensures |a| <= |b| ==> a <= b
  {
    assert a == c[..|a|] && b == c[..|b|];
    if |a| <= |b| {
      assert a == b[..|a|];
    } else {
      assert b == a[..|b|];
    }
  }
}
