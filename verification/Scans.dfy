/** Reconciling the node table with a complete walk of the mounted tree. */
module Scans {
  import opened Paths
  import opened Metadata
  import opened Trees

  /** What the walk reports for one path. */
  datatype Seen = Seen(dir: bool, size: int, mtime: int)
  type Walked = map<Path, Seen>

  function Up(p: Path): Path
    requires p != []
  {
    p[..|p| - 1]
  }

  /** A walk starts at the root, skips the reserved directory, and reports every
      directory before what is in it. */
  predicate WalkOk(w: Walked) {
    && [] in w && w[[]].dir
    && forall p :: p in w && p != [] ==> !Reserved(p) && Up(p) in w && w[Up(p)].dir
  }

  predicate LiveAt(t: Table, p: Path) {
    exists i :: i in t && t[i].path == p && t[i].missing == 0
  }

  /** Identities drawn for the paths that have no live row. */
  ghost predicate FreshIds(t: Table, w: Walked, ids: map<Path, Id>) {
    && (forall p :: p in w && !LiveAt(t, p) ==> p in ids && FreshId(t, ids[p]))
    && (forall p, q :: p in ids && q in ids && ids[p] == ids[q] ==> p == q)
  }

  /** The scan stops when an entry changed between file and directory. */
  predicate SameKinds(t: Table, w: Walked) {
    forall i :: i in t && t[i].path in w ==> t[i].dir == w[t[i].path].dir
  }

  /** The identity the walk gives to a path: the live row's, or a new one. */
  function IdAt(t: Table, ids: map<Path, Id>, p: Path): Id
    requires UniquePaths(t) && (LiveAt(t, p) || p in ids)
  {
    if LiveAt(t, p) then ByPath(t, p).value else ids[p]
  }

  predicate Changed(r: Row, s: Seen) {
    r.size != s.size || r.mtime != s.mtime
  }

  /** An existing row after the scan: seen and written, seen and unchanged, or unseen. */
  function ScannedRow(t: Table, w: Walked, ids: map<Path, Id>, i: Id, tag: Tag, now: int): Row
    requires UniquePaths(t) && i in t
    requires t[i].path in w && t[i].path != [] ==> LiveAt(t, Up(t[i].path)) || Up(t[i].path) in ids
  {
    var r := t[i];
    if Reserved(r.path) then r
    else if r.path in w then
      var s := w[r.path];
      if Changed(r, s)
      then r.(parent := if r.path == [] then r.parent else IdAt(t, ids, Up(r.path)), size := s.size, mtime := s.mtime,
          etag := tag)
      else r
    else if r.missing == 0 then r.(missing := now)
    else r
  }

  /** A row goes when its path is back under a new identity, or when it has been
      missing for the grace period. */
  predicate Dropped(t: Table, w: Walked, i: Id, now: int, grace: int)
    requires i in t
  {
    && !Reserved(t[i].path) && t[i].missing != 0
    && (t[i].path in w || now - t[i].missing >= grace)
  }

  function NewRow(t: Table, w: Walked, ids: map<Path, Id>, p: Path, tag: Tag): Row
    requires UniquePaths(t) && p in w && p != [] && (LiveAt(t, Up(p)) || Up(p) in ids)
  {
    Row(IdAt(t, ids, Up(p)), p[|p| - 1], p, w[p].dir, w[p].size, w[p].mtime, tag, 0)
  }

  function ChangedPaths(t: Table, w: Walked): set<Path> {
    (set p | p in w && !LiveAt(t, p)) +
    (set i | i in t && !Reserved(t[i].path) && t[i].path in w && Changed(t[i], w[t[i].path]) :: t[i].path) +
    (set i | i in t && !Reserved(t[i].path) && t[i].path !in w :: t[i].path)
  }

  ghost predicate ScanInput(t: Table, space: Id, w: Walked, ids: map<Path, Id>, now: int) {
    TreeOk(t, space) && WalkOk(w) && FreshIds(t, w, ids) && SameKinds(t, w) && now > 0
  }

  lemma RootLive(t: Table, space: Id, w: Walked)
    requires TreeOk(t, space)
    ensures LiveAt(t, [])
  {
    assert t[space].path == [];
  }

  ghost function Kept(t: Table, space: Id, w: Walked, ids: map<Path, Id>, tag: Tag, now: int, grace: int): Table
    requires ScanInput(t, space, w, ids, now)
  {
    RootLive(t, space, w);
    map i | i in t && !Dropped(t, w, i, now, grace) :: ScannedRow(t, w, ids, i, tag, now)
  }

  ghost function Added(t: Table, space: Id, w: Walked, ids: map<Path, Id>, tag: Tag): Table
    requires TreeOk(t, space) && WalkOk(w) && FreshIds(t, w, ids)
  {
    RootLive(t, space, w);
    map p | p in w && !LiveAt(t, p) :: ids[p] := NewRow(t, w, ids, p, tag)
  }

  /** The node table the scan's transaction leaves. */
  ghost function Scanned(t: Table, space: Id, w: Walked, ids: map<Path, Id>, tag: Tag, now: int, grace: int): Table
    requires ScanInput(t, space, w, ids, now)
  {
    Refresh(Kept(t, space, w, ids, tag, now, grace) + Added(t, space, w, ids, tag), ChangedPaths(t, w), tag)
  }

  // ------------------------------------------------------------------ what a scan does to each row

  ghost predicate NewAt(t: Table, w: Walked, ids: map<Path, Id>, p: Path, j: Id) {
    p in w && !LiveAt(t, p) && p in ids && ids[p] == j
  }

  lemma AddedRow(t: Table, space: Id, w: Walked, ids: map<Path, Id>, tag: Tag, p: Path)
    requires TreeOk(t, space) && WalkOk(w) && FreshIds(t, w, ids) && p in w && !LiveAt(t, p)
    ensures p in ids && ids[p] in Added(t, space, w, ids, tag) && FreshId(t, ids[p])
    ensures p != [] && (LiveAt(t, Up(p)) || Up(p) in ids)
    ensures Added(t, space, w, ids, tag)[ids[p]] == NewRow(t, w, ids, p, tag)
  {
    hide AllParented, AllLinked, AllLive, TrashShaped;
    RootLive(t, space, w);
  }

  lemma AddedFrom(t: Table, space: Id, w: Walked, ids: map<Path, Id>, tag: Tag, j: Id) returns (p: Path)
    requires TreeOk(t, space) && WalkOk(w) && FreshIds(t, w, ids) && j in Added(t, space, w, ids, tag)
    ensures NewAt(t, w, ids, p, j) && p != [] && j !in t
  {
    hide AllParented, AllLinked, AllLive, TrashShaped;
    RootLive(t, space, w);
    p :| p in w && !LiveAt(t, p) && ids[p] == j;
  }

  lemma RefreshContent(t: Table, changed: set<Path>, tag: Tag)
    ensures forall i :: i in t ==>
              i in Refresh(t, changed, tag) && Refresh(t, changed, tag)[i].size == t[i].size &&
                  Refresh(t, changed, tag)[i].mtime == t[i].mtime
  {
  }

  /** Every surviving row, in its place. */
  lemma ScannedKept(t: Table, space: Id, w: Walked, ids: map<Path, Id>, tag: Tag, now: int, grace: int, i: Id)
    requires ScanInput(t, space, w, ids, now) && i in t && !Dropped(t, w, i, now, grace)
    ensures t[i].path in w && t[i].path != [] ==> LiveAt(t, Up(t[i].path)) || Up(t[i].path) in ids
    ensures var u := Scanned(t, space, w, ids, tag, now, grace);
            && i in u && SamePlace(u[i], ScannedRow(t, w, ids, i, tag, now)) && (Reserved(t[i].path) ==> u[i] == t[i])
            && u[i].size == ScannedRow(t, w, ids, i, tag, now).size &&
                 u[i].mtime == ScannedRow(t, w, ids, i, tag, now).mtime
  {
    hide AllParented, AllLinked, AllLive, TrashShaped, ScannedRow, Refresh;
    RootLive(t, space, w);
    var kept, added := Kept(t, space, w, ids, tag, now, grace), Added(t, space, w, ids, tag);
    RefreshReserved(kept + added, ChangedPaths(t, w), tag);
    RefreshContent(kept + added, ChangedPaths(t, w), tag);
    if i in added { var p := AddedFrom(t, space, w, ids, tag, i); }
    assert (kept + added)[i] == ScannedRow(t, w, ids, i, tag, now);
    assert Reserved(t[i].path) ==> ScannedRow(t, w, ids, i, tag, now) == t[i]
        by { ReservedRow(t, w, ids, i, tag, now); }
  }

  lemma ReservedRow(t: Table, w: Walked, ids: map<Path, Id>, i: Id, tag: Tag, now: int)
    requires UniquePaths(t) && i in t
    requires t[i].path in w && t[i].path != [] ==> LiveAt(t, Up(t[i].path)) || Up(t[i].path) in ids
    ensures Reserved(t[i].path) ==> ScannedRow(t, w, ids, i, tag, now) == t[i]
  {
  }

  lemma ScannedNew(t: Table, space: Id, w: Walked, ids: map<Path, Id>, tag: Tag, now: int, grace: int, p: Path)
    requires ScanInput(t, space, w, ids, now) && p in w && !LiveAt(t, p)
    ensures p in ids && FreshId(t, ids[p]) && p != [] && (LiveAt(t, Up(p)) || Up(p) in ids)
    ensures var u := Scanned(t, space, w, ids, tag, now, grace);
            ids[p] in u && SamePlace(u[ids[p]], NewRow(t, w, ids, p, tag))
  {
    hide AllParented, AllLinked, AllLive, TrashShaped, NewRow, Refresh;
    AddedRow(t, space, w, ids, tag, p);
    RefreshReserved(Kept(t, space, w, ids, tag, now, grace) + Added(t, space, w, ids, tag), ChangedPaths(t, w), tag);
  }

  lemma ScannedOnly(t: Table, space: Id, w: Walked, ids: map<Path, Id>, tag: Tag, now: int, grace: int, j: Id)
      returns (p: Path)
    requires ScanInput(t, space, w, ids, now) && j in Scanned(t, space, w, ids, tag, now, grace)
    ensures (j in t && !Dropped(t, w, j, now, grace)) || NewAt(t, w, ids, p, j)
  {
    hide AllParented, AllLinked, AllLive, TrashShaped;
    p := [];
    if j in Added(t, space, w, ids, tag) {
      p := AddedFrom(t, space, w, ids, tag, j);
    }
  }

  /** Every walked path has a live public row, under the identity the walk gave it. */
  lemma WalkedRow(t: Table, space: Id, w: Walked, ids: map<Path, Id>, tag: Tag, now: int, grace: int, p: Path)
    requires ScanInput(t, space, w, ids, now) && p in w
    ensures LiveAt(t, p) || p in ids
    ensures var u := Scanned(t, space, w, ids, tag, now, grace);
            var i := IdAt(t, ids, p);
            i != "" && i in u && u[i].path == p && u[i].missing == 0 && u[i].dir == w[p].dir && !Reserved(p)
  {
    hide AllParented, AllLinked, AllLive, TrashShaped, Scanned;
    RootLive(t, space, w);
    if LiveAt(t, p) {
      var i :| i in t && t[i].path == p && t[i].missing == 0;
      assert ByPath(t, p) == Ok(i);
      ScannedKept(t, space, w, ids, tag, now, grace, i);
    } else {
      ScannedNew(t, space, w, ids, tag, now, grace, p);
    }
  }

  /** A surviving public row the walk has seen is live, and hangs below its walked parent. */
  lemma SeenRow(t: Table, space: Id, w: Walked, ids: map<Path, Id>, tag: Tag, now: int, grace: int, i: Id)
    requires ScanInput(t, space, w, ids, now) && i in t && t[i].path in w && t[i].missing == 0 && i != space
    ensures t[i].path != [] && Up(t[i].path) in w && (LiveAt(t, Up(t[i].path)) || Up(t[i].path) in ids)
    ensures var u := Scanned(t, space, w, ids, tag, now, grace);
            i in u && u[i].path == t[i].path && u[i].name == t[i].name && u[i].parent == IdAt(t, ids, Up(t[i].path))
            && t[i].path == Up(t[i].path) + [t[i].name]
  {
    hide Scanned, TrashShaped, AllParented;
    RootLive(t, space, w);
    assert t[i].path != [];
    assert LiveDir(t, t[i].parent) && Linked(t, i);
    var p := t[i].parent;
    assert Up(t[i].path) == t[p].path;
    assert LiveAt(t, t[p].path);
    assert ByPath(t, t[p].path) == Ok(p);
    ScannedKept(t, space, w, ids, tag, now, grace, i);
  }

  lemma ScanLinked(t: Table, space: Id, w: Walked, ids: map<Path, Id>, tag: Tag, now: int, grace: int, j: Id)
    requires ScanInput(t, space, w, ids, now)
    requires var u := Scanned(t, space, w, ids, tag, now, grace);
             j in u && j != space && !TrashRoot(u[j].path) && u[j].parent in u
    ensures Linked(Scanned(t, space, w, ids, tag, now, grace), j)
  {
    hide Scanned, AllLive, AllParented, AllLinked, TrashShaped, ScannedRow;
    var u := Scanned(t, space, w, ids, tag, now, grace);
    var p := ScannedOnly(t, space, w, ids, tag, now, grace, j);
    if j in t && !Dropped(t, w, j, now, grace) {
      if !Reserved(t[j].path) && t[j].path in w {
        SeenRow(t, space, w, ids, tag, now, grace, j);
        WalkedRow(t, space, w, ids, tag, now, grace, Up(t[j].path));
      } else {
        UnseenLinked(t, space, w, ids, tag, now, grace, j);
      }
    } else {
      ScannedNew(t, space, w, ids, tag, now, grace, p);
      WalkedRow(t, space, w, ids, tag, now, grace, Up(p));
    }
  }

  /** A surviving row that the walk has not seen keeps its place below its old parent. */
  lemma UnseenLinked(t: Table, space: Id, w: Walked, ids: map<Path, Id>, tag: Tag, now: int, grace: int, j: Id)
    requires ScanInput(t, space, w, ids, now) && j in t && !Dropped(t, w, j, now, grace)
    requires (Reserved(t[j].path) || t[j].path !in w)
    requires var u := Scanned(t, space, w, ids, tag, now, grace);
             j in u && j != space && !TrashRoot(u[j].path) && u[j].parent in u
    ensures Linked(Scanned(t, space, w, ids, tag, now, grace), j)
  {
    hide Scanned, AllLive, AllParented, TrashShaped;
    ScannedKept(t, space, w, ids, tag, now, grace, j);
    var q := t[j].parent;
    var r := ScannedOnly(t, space, w, ids, tag, now, grace, q);
    assert q in t && Linked(t, j);
    ScannedKept(t, space, w, ids, tag, now, grace, q);
  }

  lemma ScanLive(t: Table, space: Id, w: Walked, ids: map<Path, Id>, tag: Tag, now: int, grace: int, j: Id)
    requires ScanInput(t, space, w, ids, now)
    requires var u := Scanned(t, space, w, ids, tag, now, grace);
             j in u && j != space && !Reserved(u[j].path) && u[j].missing == 0
    ensures LiveDir(Scanned(t, space, w, ids, tag, now, grace), Scanned(t, space, w, ids, tag, now, grace)[j].parent)
  {
    hide Scanned, AllLinked, AllParented, TrashShaped;
    var p := ScannedOnly(t, space, w, ids, tag, now, grace, j);
    if j in t && !Dropped(t, w, j, now, grace) {
      ScannedKept(t, space, w, ids, tag, now, grace, j);
      SeenRow(t, space, w, ids, tag, now, grace, j);
      WalkedRow(t, space, w, ids, tag, now, grace, Up(t[j].path));
    } else {
      ScannedNew(t, space, w, ids, tag, now, grace, p);
      WalkedRow(t, space, w, ids, tag, now, grace, Up(p));
    }
  }

  /** A row's place after the scan: its old one, or a walked path that had no live row. */
  lemma ScanPath(t: Table, space: Id, w: Walked, ids: map<Path, Id>, tag: Tag, now: int, grace: int, j: Id)
    requires ScanInput(t, space, w, ids, now) && j in Scanned(t, space, w, ids, tag, now, grace)
    ensures var u := Scanned(t, space, w, ids, tag, now, grace);
            || (j in t && !Dropped(t, w, j, now, grace) && u[j].path == t[j].path && (j != space ==> u[j].parent != ""))
            || (j !in t && u[j].path in w && !LiveAt(t, u[j].path) && u[j].path in ids && ids[u[j].path] == j
                && u[j].parent != "" && !Reserved(u[j].path))
  {
    hide Scanned, AllLinked, AllLive, TrashShaped;
    var p := ScannedOnly(t, space, w, ids, tag, now, grace, j);
    if j in t && !Dropped(t, w, j, now, grace) {
      ScannedKept(t, space, w, ids, tag, now, grace, j);
      if t[j].path in w && t[j].path != [] {
        WalkedRow(t, space, w, ids, tag, now, grace, Up(t[j].path));
      }
    } else {
      ScannedNew(t, space, w, ids, tag, now, grace, p);
      WalkedRow(t, space, w, ids, tag, now, grace, Up(p));
    }
  }

  lemma ScanUnique(t: Table, space: Id, w: Walked, ids: map<Path, Id>, tag: Tag, now: int, grace: int)
    requires ScanInput(t, space, w, ids, now)
    ensures UniquePaths(Scanned(t, space, w, ids, tag, now, grace))
  {
    hide Scanned, AllLinked, AllLive, AllParented, TrashShaped, ScannedRow;
    var u := Scanned(t, space, w, ids, tag, now, grace);
    forall i, j | i in u && j in u && u[i].path == u[j].path ensures i == j {
      ScanPath(t, space, w, ids, tag, now, grace, i);
      ScanPath(t, space, w, ids, tag, now, grace, j);
    }
  }

  /** A scan keeps the tree, whatever it has seen. */
  lemma ScanTree(t: Table, space: Id, w: Walked, ids: map<Path, Id>, tag: Tag, now: int, grace: int)
    requires ScanInput(t, space, w, ids, now)
    ensures TreeOk(Scanned(t, space, w, ids, tag, now, grace), space)
    ensures SameReserved(t, Scanned(t, space, w, ids, tag, now, grace))
  {
    hide Scanned, ScannedRow, AllLinked, AllLive;
    var u := Scanned(t, space, w, ids, tag, now, grace);
    ScanUnique(t, space, w, ids, tag, now, grace);
    WalkedRow(t, space, w, ids, tag, now, grace, []);
    forall j | j in u ensures (j != space ==> u[j].parent != "") && (Reserved(u[j].path) ==> j in t && u[j] == t[j]) {
      ScanPath(t, space, w, ids, tag, now, grace, j);
      if j in t && !Dropped(t, w, j, now, grace) {
        ScannedKept(t, space, w, ids, tag, now, grace, j);
      }
    }
    forall i | i in t && Reserved(t[i].path) ensures i in u && u[i] == t[i] {
      ScannedKept(t, space, w, ids, tag, now, grace, i);
    }
    ScanTreeAll(t, space, w, ids, tag, now, grace);
  }

  lemma ScanTreeAll(t: Table, space: Id, w: Walked, ids: map<Path, Id>, tag: Tag, now: int, grace: int)
    requires ScanInput(t, space, w, ids, now)
    ensures var u := Scanned(t, space, w, ids, tag, now, grace);
            RootOk(u, space) && AllLinked(u, space) && AllLive(u, space)
  {
    hide Scanned, TreeOk, Linked, LiveDir, ScannedRow;
    var u := Scanned(t, space, w, ids, tag, now, grace);
    ScanRoot(t, space, w, ids, tag, now, grace);
    forall j | j in u && j != space && !TrashRoot(u[j].path) && u[j].parent in u ensures Linked(u, j) {
      ScanLinked(t, space, w, ids, tag, now, grace, j);
    }
    forall j | j in u && j != space && !Reserved(u[j].path) && u[j].missing == 0 ensures LiveDir(u, u[j].parent) {
      ScanLive(t, space, w, ids, tag, now, grace, j);
    }
  }

  lemma ScanRoot(t: Table, space: Id, w: Walked, ids: map<Path, Id>, tag: Tag, now: int, grace: int)
    requires ScanInput(t, space, w, ids, now)
    ensures RootOk(Scanned(t, space, w, ids, tag, now, grace), space)
  {
    hide Scanned, AllLinked, AllLive, TrashShaped, AllParented;
    var u := Scanned(t, space, w, ids, tag, now, grace);
    ScannedKept(t, space, w, ids, tag, now, grace, space);
    if "" in u {
      var p := ScannedOnly(t, space, w, ids, tag, now, grace, "");
    }
  }

  /** A row that was live keeps its identity, name and path: it stays live if the walk
      saw it and is marked missing if not. A row is removed only if an earlier
      scan had marked it missing, and either its path is back or the grace period is over. */
  lemma ScanKeepsIds(t: Table, space: Id, w: Walked, ids: map<Path, Id>, tag: Tag, now: int, grace: int, i: Id)
    requires ScanInput(t, space, w, ids, now) && i in t && !Reserved(t[i].path)
    ensures var u := Scanned(t, space, w, ids, tag, now, grace);
            && (t[i].missing == 0 ==>
                  && i in u && u[i].path == t[i].path && u[i].name == t[i].name && u[i].parent == t[i].parent
                  && u[i].missing == (if t[i].path in w then 0 else now))
            && (i !in u ==> t[i].missing != 0 && (t[i].path in w || now - t[i].missing >= grace))
            && (i in u && t[i].missing != 0 ==> u[i].missing == t[i].missing && t[i].path !in w)
  {
    hide Scanned, AllParented, TrashShaped;
    if t[i].missing == 0 {
      ScannedKept(t, space, w, ids, tag, now, grace, i);
      if t[i].path in w && i != space {
        SeenRow(t, space, w, ids, tag, now, grace, i);
        assert LiveDir(t, t[i].parent) && Linked(t, i);
        assert ByPath(t, Up(t[i].path)) == Ok(t[i].parent);
      }
    } else if i in Scanned(t, space, w, ids, tag, now, grace) {
      ScanPath(t, space, w, ids, tag, now, grace, i);
      ScannedKept(t, space, w, ids, tag, now, grace, i);
    } else if !Dropped(t, w, i, now, grace) {
      ScannedKept(t, space, w, ids, tag, now, grace, i);
    }
  }
}
