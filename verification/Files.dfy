/** The mounted file system: entries by path, and renames within it. */
module Files {
  import opened Paths
  import opened Metadata
  import opened Scans

  datatype Entry = Entry(content: Content, size: int, mtime: int)
  type Files = map<Path, Entry>

  predicate IsDir(f: Files, p: Path) {
    p in f && f[p].content == Folder
  }

  /** Everything is in a directory, up to the root. */
  ghost predicate FilesOk(f: Files) {
    forall p :: p in f && p != [] ==> IsDir(f, Up(p))
  }

  /** The paths at and below `p`, seen from `p`. */
  function Below(f: Files, p: Path): (s: set<Path>)
    ensures forall r :: r in s <==> p + r in f
  {
    assert forall q :: p <= q ==> p + q[|p|..] == q;
    assert forall r :: (p + r)[|p|..] == r && p <= p + r;
    set q | q in f && p <= q :: q[|p|..]
  }

  /** What a digest of the tree at `p` identifies. */
  function TreeAt(f: Files, p: Path): Tree {
    map r | r in Below(f, p) :: f[p + r].content
  }

  predicate Apart(p: Path, q: Path) {
    !(p <= q) && !(q <= p)
  }

  /** Where everything at and below `src` goes. */
  function Moved(f: Files, src: Path, dst: Path): (s: set<Path>)
    ensures forall p :: p in s <==> dst <= p && Rebase(p, dst, src) in f
  {
    forall q | src <= q ensures Rebase(Rebase(q, src, dst), dst, src) == q { RebaseBack(q, src, dst); }
    forall p | dst <= p
      ensures src <= Rebase(p, dst, src) && Rebase(Rebase(p, dst, src), src, dst) == p { RebaseBack(p, dst, src); }
    set q | q in f && src <= q :: Rebase(q, src, dst)
  }

  function Rename(f: Files, src: Path, dst: Path): Files {
    var moved := Moved(f, src, dst);
    map p | p in f.Keys + moved && (p in moved || !(src <= p)) ::
      if p in moved then f[Rebase(p, dst, src)] else f[p]
  }

  /** The rename is possible: there is something to move, nothing in the way, and a
      directory to move it into. */
  predicate CanRename(f: Files, src: Path, dst: Path) {
    src in f && dst !in f && dst != [] && IsDir(f, Up(dst))
  }

  lemma {:induction false} NothingBelow(f: Files, p: Path, q: Path)
    requires FilesOk(f) && p !in f && p <= q
    ensures q !in f
    decreases |q|
  {
    if q in f {
      assert p != q;
      assert p <= Up(q);
      NothingBelow(f, p, Up(q));
    }
  }

  /** Where each path of the renamed tree comes from. */
  lemma RenamedAt(f: Files, src: Path, dst: Path, p: Path)
    requires FilesOk(f) && Apart(src, dst) && dst !in f
    ensures src <= p ==> p !in Rename(f, src, dst)
    ensures dst <= p ==> (p in Rename(f, src, dst) <==> Rebase(p, dst, src) in f)
    ensures dst <= p && p in Rename(f, src, dst) ==> Rename(f, src, dst)[p] == f[Rebase(p, dst, src)]
    ensures !(src <= p) && !(dst <= p) ==> (p in Rename(f, src, dst) <==> p in f)
    ensures !(src <= p) && !(dst <= p) && p in f ==> Rename(f, src, dst)[p] == f[p]
  {
    if dst <= p {
      NothingBelow(f, dst, p);
      if src <= p { PrefixesCompare(src, dst, p); }
    }
  }

  lemma SameTree(f: Files, g: Files, p: Path, q: Path)
    requires forall r :: p + r in f <==> q + r in g
    requires forall r :: p + r in f ==> f[p + r] == g[q + r]
    ensures TreeAt(f, p) == TreeAt(g, q)
  {
  }

  /** A rename moves the whole tree and nothing else. */
  lemma RenameMoves(f: Files, src: Path, dst: Path)
    requires FilesOk(f) && Apart(src, dst) && dst !in f
    ensures TreeAt(Rename(f, src, dst), dst) == TreeAt(f, src)
    ensures src !in Rename(f, src, dst)
    ensures src in f ==> dst in Rename(f, src, dst) && Rename(f, src, dst)[dst] == f[src]
  {
    hide Rename, TreeAt;
    var g := Rename(f, src, dst);
    forall r ensures (dst + r in g <==> src + r in f) && (src + r in f ==> f[src + r] == g[dst + r]) {
      RenamedAt(f, src, dst, dst + r);
      assert Rebase(dst + r, dst, src) == src + r;
    }
    SameTree(f, g, src, dst);
    RenamedAt(f, src, dst, src);
    RenamedAt(f, src, dst, dst);
    RebaseSelf(dst, src);
  }

  /** Two file systems agree at and below a path. */
  ghost predicate SameBelow(f: Files, g: Files, p: Path) {
    forall q :: p <= q ==> (q in f <==> q in g) && (q in f ==> f[q] == g[q])
  }

  lemma SameBelowTree(f: Files, g: Files, p: Path)
    requires SameBelow(f, g, p)
    ensures TreeAt(f, p) == TreeAt(g, p) && (p in f <==> p in g)
  {
    forall r ensures p <= p + r {}
    SameTree(f, g, p, p);
  }

  lemma RenameElsewhere(f: Files, src: Path, dst: Path, p: Path)
    requires FilesOk(f) && Apart(src, dst) && dst !in f && Apart(p, src) && Apart(p, dst)
    ensures SameBelow(f, Rename(f, src, dst), p)
  {
    hide Rename;
    forall q | p <= q
      ensures (q in f <==> q in Rename(f, src, dst)) && (q in f ==> f[q] == Rename(f, src, dst)[q])
    {
      if src <= q { PrefixesCompare(src, p, q); }
      if dst <= q { PrefixesCompare(dst, p, q); }
      RenamedAt(f, src, dst, q);
    }
  }

  lemma AlsoBelow(p: Path, q: Path)
    requires q != []
    ensures p <= Up(q) ==> p <= q
  {
  }

  lemma RenameOk(f: Files, src: Path, dst: Path)
    requires FilesOk(f) && Apart(src, dst) && CanRename(f, src, dst)
    ensures FilesOk(Rename(f, src, dst))
  {
    hide Rename;
    var g := Rename(f, src, dst);
    forall p | p in g && p != [] ensures IsDir(g, Up(p)) {
      RenamedAt(f, src, dst, p);
      RenamedAt(f, src, dst, Up(p));
      if dst <= p {
        if p == dst {
          AlsoBelow(src, dst);
        } else {
          assert dst <= Up(p) && Up(Rebase(p, dst, src)) == Rebase(Up(p), dst, src);
        }
      } else {
        AlsoBelow(dst, p);
        AlsoBelow(src, p);
      }
    }
  }

  /** Moving a tree away and back again restores every entry. */
  lemma RenameBack(f: Files, src: Path, dst: Path)
    requires FilesOk(f) && Apart(src, dst) && CanRename(f, src, dst)
    ensures Rename(Rename(f, src, dst), dst, src) == f
  {
    hide Rename;
    var g := Rename(f, src, dst);
    var h := Rename(g, dst, src);
    RenameOk(f, src, dst);
    RenamedAt(f, src, dst, src);
    forall p ensures (p in h <==> p in f) && (p in f ==> h[p] == f[p]) {
      RenamedAt(g, dst, src, p);
      RenamedAt(f, src, dst, p);
      if src <= p {
        RenamedAt(f, src, dst, Rebase(p, src, dst));
        RebaseBack(p, src, dst);
        if dst <= p { PrefixesCompare(src, dst, p); }
      } else if dst <= p {
        NothingBelow(f, dst, p);
      }
    }
  }
}
