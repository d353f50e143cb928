/** The shape of the node table, and what each journalled operation needs of it. */
module Trees {
  import opened Paths
  import opened Metadata

  predicate TrashRoot(p: Path) {
    |p| == 3 && p[0] == CONTROL && p[1] == TRASH
  }

  predicate LiveDir(t: Table, i: Id) {
    i in t && t[i].dir && t[i].missing == 0 && !Reserved(t[i].path)
  }

  predicate Linked(t: Table, i: Id)
    requires i in t && t[i].parent in t
  {
    t[i].path == t[t[i].parent].path + [t[i].name]
  }

  ghost predicate RootOk(t: Table, space: Id) {
    "" !in t && space in t && t[space].path == [] && t[space].parent == "" && t[space].dir && t[space].missing == 0
  }

  ghost predicate AllParented(t: Table, space: Id) {
    forall i :: i in t && i != space ==> t[i].parent != ""
  }

  ghost predicate AllLinked(t: Table, space: Id) {
    forall i :: i in t && i != space && !TrashRoot(t[i].path) && t[i].parent in t ==> Linked(t, i)
  }

  ghost predicate AllLive(t: Table, space: Id) {
    forall i :: i in t && i != space && !Reserved(t[i].path) && t[i].missing == 0 ==> LiveDir(t, t[i].parent)
  }

  ghost predicate TrashShaped(t: Table) {
    forall i :: i in t && Reserved(t[i].path) ==> |t[i].path| >= 3 && t[i].path[1] == TRASH
  }

  /** Unique paths, one root, and every row that is neither the root nor the top
      of a trashed subtree sits in its parent under its own name. A live public
      row has a live directory as parent. A row marked missing may have lost its
      parent: a directory that reappears gets a new ID. */
  ghost predicate TreeOk(t: Table, space: Id) {
    && RootOk(t, space)
    && UniquePaths(t)
    && AllParented(t, space)
    && AllLinked(t, space)
    && AllLive(t, space)
    && TrashShaped(t)
  }

  predicate FreeAt(t: Table, p: Path) {
    forall i :: i in t ==> !(p <= t[i].path)
  }

  /** A free public place for one entry, in a live directory. */
  predicate FreePlace(t: Table, parent: Id, name: Name, target: Path) {
    && LiveDir(t, parent)
    && target == t[parent].path + [name]
    && !Reserved(target)
    && FreeAt(t, target)
  }

  /** A new UUID: it names no row and no row's parent. */
  predicate FreshId(t: Table, i: Id) {
    i != "" && i !in t && forall j :: j in t ==> t[j].parent != i
  }

  predicate LivePublic(t: Table, i: Id) {
    i in t && t[i].missing == 0 && !Reserved(t[i].path)
  }

  /** A public row that is live, or marked missing in a live directory. */
  predicate Housed(t: Table, i: Id) {
    i in t && !Reserved(t[i].path) && (t[i].missing == 0 || LiveDir(t, t[i].parent))
  }

  function Subtree(t: Table, p: Path): Table {
    map i | i in t && p <= t[i].path :: t[i]
  }

  /** Every row of the snapshot but its top has its directory in the snapshot. */
  predicate Closed(snapshot: Table, top: Id) {
    forall i :: i in snapshot && i != top ==>
      snapshot[i].parent in snapshot && snapshot[snapshot[i].parent].dir
  }

  /** What a restore checks: the trash entry, and a free place. */
  predicate RestoreReady(db: Db, op: Operation) {
    && op.id in db.retained && db.retained[op.id].kind == TrashItem
    && db.retained[op.id].node == op.node
    && db.retained[op.id].snapshot == op.snapshot
    && db.retained[op.id].path == op.row.path
    && op.source == TrashPath(op.id) && op.row.parent != ""
    && FreePlace(db.nodes, op.row.parent, op.row.name, op.target)
  }

  /** What the request has established, under its locks, when it writes the journal. */
  predicate Enabled(db: Db, op: Operation) {
    var t := db.nodes;
    && (op.session != "" ==> op.session in db.uploads)
    && match op.kind
       case Create =>
         && FreshId(t, op.node) && op.row.parent != "" && Reserved(op.source)
         && FreePlace(t, op.row.parent, op.row.name, op.target)
       case Replace =>
         && op.node in t && !t[op.node].dir && LiveDir(t, t[op.node].parent) && Reserved(op.source)
         && t[op.node].path == op.target && !Reserved(op.target) && t[op.node].etag == op.row.etag
         && op.id !in db.retained
       case Move =>
         && LivePublic(t, op.node) && op.node != db.space && op.row.parent != ""
         && t[op.node].path == op.source && !(op.source <= op.target)
         && FreePlace(t, op.row.parent, op.row.name, op.target)
       case Trash =>
         && LivePublic(t, op.node) && op.node != db.space
         && t[op.node].path == op.source && op.row.path == op.source
         && op.snapshot == Subtree(t, op.source)
         && op.target == TrashPath(op.id) && op.id !in db.retained
         && FreeAt(t, op.target)
       case Restore => RestoreReady(db, op) && Closed(op.snapshot, op.node)
  }

  /** A trash entry's snapshot describes exactly the rows below its place in the trash. */
  ghost predicate TrashOk(t: Table, key: OpId, r: Retained) {
    && r.node in r.snapshot && r.snapshot[r.node].path == r.path
    && (forall i :: i in r.snapshot ==>
          && r.path <= r.snapshot[i].path
          && i in t
          && t[i] == r.snapshot[i].(path := Rebase(r.snapshot[i].path, r.path, TrashPath(key))))
    && (forall i :: i in t && TrashPath(key) <= t[i].path ==> i in r.snapshot)
  }

  ghost predicate RetainedOk(db: Db) {
    forall k :: k in db.retained && db.retained[k].kind == TrashItem ==> TrashOk(db.nodes, k, db.retained[k])
  }

  ghost predicate DbOk(db: Db) {
    TreeOk(db.nodes, db.space) && RetainedOk(db)
  }

  // ------------------------------------------------------------------ one transaction

  /** The same rows in the same places; sizes, times and etags may differ. */
  ghost predicate SameShape(t: Table, u: Table) {
    t.Keys == u.Keys &&
    forall i :: i in t ==> SamePlace(t[i], u[i])
  }

  predicate SamePlace(r: Row, s: Row) {
    r.parent == s.parent && r.name == s.name && r.path == s.path && r.dir == s.dir && r.missing == s.missing
  }

  lemma ShapeTree(t: Table, u: Table, space: Id)
    requires TreeOk(t, space) && SameShape(t, u)
    ensures TreeOk(u, space)
  {
    forall i | i in u && i != space && !TrashRoot(u[i].path) && u[i].parent in u ensures Linked(u, i) {
      assert SamePlace(t[i], u[i]) && SamePlace(t[t[i].parent], u[t[i].parent]);
      assert Linked(t, i);
    }
    forall i | i in u && i != space && !Reserved(u[i].path) && u[i].missing == 0 ensures LiveDir(u, u[i].parent) {
      assert SamePlace(t[i], u[i]);
      assert LiveDir(t, t[i].parent);
      assert SamePlace(t[t[i].parent], u[t[i].parent]);
    }
    forall i, j | i in u && j in u && u[i].path == u[j].path ensures i == j {
      assert SamePlace(t[i], u[i]) && SamePlace(t[j], u[j]);
    }
    forall i | i in u ensures SamePlace(t[i], u[i]) {}
  }

  /** A public non-root row: its parent, when present, is public and strictly above. */
  lemma ParentAbove(t: Table, space: Id, i: Id)
    requires TreeOk(t, space) && i in t && i != space && !TrashRoot(t[i].path) && t[i].parent in t
    ensures t[t[i].parent].path <= t[i].path && |t[t[i].parent].path| + 1 == |t[i].path|
    ensures Reserved(t[t[i].parent].path) ==> Reserved(t[i].path)
    ensures Reserved(t[i].path) ==> Reserved(t[t[i].parent].path)
  {
    assert Linked(t, i);
  }

  lemma CreateTree(db: Db, op: Operation, size: int, mtime: int)
    requires TreeOk(db.nodes, db.space) && Enabled(db, op) && op.kind == Create
    ensures KindRows(db, op, size, mtime).Ok? && TreeOk(KindRows(db, op, size, mtime).value, db.space)
  {
    hide TreeOk;
    var row := Row(op.row.parent, op.row.name, op.target, op.row.dir, size, mtime, db.tag, 0);
    Planted(db.nodes, db.space, op.node, row);
  }

  lemma Planted(t: Table, space: Id, n: Id, row: Row)
    requires TreeOk(t, space) && FreshId(t, n) && row.parent != ""
    requires FreePlace(t, row.parent, row.name, row.path)
    ensures TreeOk(t[n := row], space)
  {
    var u := t[n := row];
    assert RootOk(u, space) && AllParented(u, space) && TrashShaped(u) && UniquePaths(u) by {
      hide AllLinked, AllLive;
    }
    hide UniquePaths, FreeAt, AllParented, TrashShaped, RootOk;
    forall i | i in u && i != space && !TrashRoot(u[i].path) && u[i].parent in u ensures Linked(u, i) {
      if i != n { assert Linked(t, i); }
    }
    forall i | i in u && i != space && !Reserved(u[i].path) && u[i].missing == 0 ensures LiveDir(u, u[i].parent) {
      if i != n { assert LiveDir(t, t[i].parent); }
    }
  }

  /** A replaced file was live, or is back in its live directory. */
  lemma Revived(t: Table, space: Id, n: Id, row: Row)
    requires TreeOk(t, space) && n in t && LiveDir(t, t[n].parent) && row.missing == 0
    requires SamePlace(t[n], row.(missing := t[n].missing))
    ensures TreeOk(t[n := row], space)
  {
    var u := t[n := row];
    assert RootOk(u, space) && AllParented(u, space) && TrashShaped(u) && UniquePaths(u) by {
      hide AllLinked, AllLive, LiveDir;
    }
    hide UniquePaths, AllParented, TrashShaped, RootOk;
    forall i | i in u && i != space && !TrashRoot(u[i].path) && u[i].parent in u ensures Linked(u, i) {
      assert Linked(t, i);
    }
    forall i | i in u && i != space && !Reserved(u[i].path) && u[i].missing == 0 ensures LiveDir(u, u[i].parent) {
      if i != n { assert LiveDir(t, t[i].parent); }
    }
  }

  lemma ReplaceTree(db: Db, op: Operation, size: int, mtime: int)
    requires TreeOk(db.nodes, db.space) && Enabled(db, op) && op.kind == Replace
    ensures KindRows(db, op, size, mtime).Ok? && TreeOk(KindRows(db, op, size, mtime).value, db.space)
  {
    hide TreeOk;
    var row := db.nodes[op.node].(size := size, mtime := mtime, etag := db.tag, missing := 0);
    Revived(db.nodes, db.space, op.node, row);
  }

  /** Moving a subtree onto a free place keeps paths unique. */
  lemma RebaseUnique(t: Table, src: Path, dst: Path)
    requires UniquePaths(t) && FreeAt(t, dst)
    ensures UniquePaths(RebaseRows(t, src, dst))
  {
    var r := RebaseRows(t, src, dst);
    forall i, j | i in r && j in r && r[i].path == r[j].path ensures i == j {
      if src <= t[i].path && src <= t[j].path {
        RebaseInjective(t[i].path, t[j].path, src, dst);
      }
    }
  }

  /** A row other than the top of the moved subtree keeps its link. */
  lemma MovedLink(t: Table, space: Id, src: Path, dst: Path, i: Id)
    requires TreeOk(t, space) && !Reserved(src)
    requires i in t && i != space && t[i].path != src && !TrashRoot(t[i].path) && t[i].parent in t
    ensures Linked(RebaseRows(t, src, dst), i)
  {
    var p := t[i].parent;
    assert Linked(t, i);
    if src <= t[p].path {
      RebaseChild(t[p].path, t[i].name, src, dst);
    } else {
      assert !(src <= t[i].path);
    }
  }

  /** What moving the subtree at the public path `src` to the free path `dst` does
      to every other row. */
  lemma MovedTree(t: Table, space: Id, src: Path, dst: Path)
    requires TreeOk(t, space) && src != [] && !Reserved(src) && FreeAt(t, dst)
    requires Reserved(dst) ==> TrashRoot(dst)
    ensures var r := RebaseRows(t, src, dst);
            && RootOk(r, space) && UniquePaths(r) && AllParented(r, space) && TrashShaped(r)
            && (forall i :: i in r && i != space && t[i].path != src && !TrashRoot(r[i].path) && r[i].parent in r ==>
                 Linked(r, i))
            && (forall i :: i in r && i != space && t[i].path != src && !Reserved(r[i].path) && r[i].missing == 0 ==>
                 LiveDir(r, r[i].parent))
  {
    var r := RebaseRows(t, src, dst);
    RebaseUnique(t, src, dst);
    forall i | i in r && i != space && t[i].path != src && !TrashRoot(r[i].path) && r[i].parent in r
      ensures Linked(r, i)
    {
      MovedLink(t, space, src, dst, i);
    }
    forall i | i in r && i != space && t[i].path != src && !Reserved(r[i].path) && r[i].missing == 0
      ensures LiveDir(r, r[i].parent)
    {
      MovedLive(t, space, src, dst, i);
    }
  }

  lemma MovedLive(t: Table, space: Id, src: Path, dst: Path, i: Id)
    requires TreeOk(t, space) && src != [] && !Reserved(src)
    requires i in t && i != space && t[i].path != src && t[i].missing == 0
    requires !Reserved(RebaseRows(t, src, dst)[i].path)
    ensures LiveDir(RebaseRows(t, src, dst), t[i].parent)
  {
    assert !Reserved(t[i].path);
    assert LiveDir(t, t[i].parent) && Linked(t, i);
    if src <= t[t[i].parent].path {
      assert src <= t[i].path;
      assert dst <= RebaseRows(t, src, dst)[i].path;
    }
  }

  /** Giving the moved top its new parent and name completes the tree. */
  lemma Relinked(r: Table, space: Id, top: Id, parent: Id, name: Name, tag: Tag)
    requires RootOk(r, space) && UniquePaths(r) && AllParented(r, space) && TrashShaped(r)
    requires top in r && top != space && parent != top && parent != ""
    requires LiveDir(r, parent) && r[top].path == r[parent].path + [name] && !Reserved(r[top].path)
    requires forall i :: i in r && i != space && i != top && !TrashRoot(r[i].path) && r[i].parent in r ==> Linked(r, i)
    requires forall i :: i in r && i != space && i != top && !Reserved(r[i].path) && r[i].missing == 0 ==>
             LiveDir(r, r[i].parent)
    ensures TreeOk(r[top := r[top].(parent := parent, name := name, etag := tag)], space)
  {
    var u := r[top := r[top].(parent := parent, name := name, etag := tag)];
    assert forall i :: i in r ==> u[i].path == r[i].path && u[i].dir == r[i].dir && u[i].missing == r[i].missing;
    assert RootOk(u, space) && UniquePaths(u) && AllParented(u, space) && TrashShaped(u);
    hide RootOk, UniquePaths, AllParented, TrashShaped;
    forall i | i in u && i != space && !TrashRoot(u[i].path) && u[i].parent in u ensures Linked(u, i) {
      if i != top { assert Linked(r, i); }
    }
    forall i | i in u && i != space && !Reserved(u[i].path) && u[i].missing == 0 ensures LiveDir(u, u[i].parent) {
      if i != top { assert LiveDir(r, r[i].parent); }
    }
  }

  lemma MoveTree(db: Db, op: Operation, size: int, mtime: int)
    requires TreeOk(db.nodes, db.space) && Enabled(db, op) && op.kind == Move
    ensures KindRows(db, op, size, mtime).Ok? && TreeOk(KindRows(db, op, size, mtime).value, db.space)
  {
    hide Linked;
    var t := db.nodes;
    MovedTree(t, db.space, op.source, op.target);
    RebaseSelf(op.source, op.target);
    assert forall i :: i in t && t[i].path == op.source ==> i == op.node;
    assert !(op.source <= t[op.row.parent].path);
    Relinked(RebaseRows(t, op.source, op.target), db.space, op.node, op.row.parent, op.row.name, db.tag);
  }

  lemma TrashTree(db: Db, op: Operation, size: int, mtime: int)
    requires TreeOk(db.nodes, db.space) && Enabled(db, op) && op.kind == Trash
    ensures KindRows(db, op, size, mtime).Ok? && TreeOk(KindRows(db, op, size, mtime).value, db.space)
  {
    var t := db.nodes;
    MovedTree(t, db.space, op.source, op.target);
    RebaseSelf(op.source, op.target);
    assert forall i :: i in t && t[i].path == op.source ==> i == op.node;
  }

  /** The rows a restore writes: below the target, in place of the snapshot's path. */
  lemma RestoredPlace(db: Db, op: Operation, i: Id)
    requires TreeOk(db.nodes, db.space) && RetainedOk(db) && RestoreReady(db, op) && op.kind == Restore
    requires i in op.snapshot
    ensures i in db.nodes && i != db.space && op.row.path <= op.snapshot[i].path
    ensures db.nodes[i] == op.snapshot[i].(path := Rebase(op.snapshot[i].path, op.row.path, TrashPath(op.id)))
    ensures var r := RestoredRow(db.nodes[i], op, i, db.tag);
            && r.path == Rebase(op.snapshot[i].path, op.row.path, op.target)
            && op.target <= r.path && !Reserved(r.path)
  {
    assert TrashOk(db.nodes, op.id, db.retained[op.id]);
  }

  lemma RestoredUnique(db: Db, op: Operation, r: Table)
    requires TreeOk(db.nodes, db.space) && RetainedOk(db) && RestoreReady(db, op) && op.kind == Restore
    requires r == map i | i in db.nodes ::
             if i in op.snapshot then RestoredRow(db.nodes[i], op, i, db.tag) else db.nodes[i]
    ensures UniquePaths(r)
  {
    var t, s, src := db.nodes, op.snapshot, op.row.path;
    forall i, j | i in r && j in r && r[i].path == r[j].path ensures i == j {
      if i in s { RestoredPlace(db, op, i); }
      if j in s { RestoredPlace(db, op, j); }
      if i in s && j in s {
        RebaseInjective(s[i].path, s[j].path, src, op.target);
        assert t[i].path == t[j].path;
      }
    }
  }

  lemma RestoredLink(db: Db, op: Operation, r: Table, i: Id)
    requires TreeOk(db.nodes, db.space) && RetainedOk(db) && Enabled(db, op) && op.kind == Restore
    requires r == map i | i in db.nodes ::
             if i in op.snapshot then RestoredRow(db.nodes[i], op, i, db.tag) else db.nodes[i]
    requires i in op.snapshot && i != op.node
    ensures r[i].parent in op.snapshot && r[i].parent in r && Linked(r, i) && LiveDir(r, r[i].parent)
  {
    var t, s, src := db.nodes, op.snapshot, op.row.path;
    var p := s[i].parent;
    assert TrashOk(t, op.id, db.retained[op.id]);
    RestoredPlace(db, op, i);
    RestoredPlace(db, op, p);
    assert t[i].path != t[op.node].path;
    RestoredPlace(db, op, op.node);
    RebaseSelf(src, TrashPath(op.id));
    assert TrashPath(op.id) <= t[i].path && t[i].path != TrashPath(op.id);
    assert Linked(t, i);
    RebaseChild(s[p].path, s[i].name, src, TrashPath(op.id));
    RebaseInjective(s[p].path + [s[i].name], s[i].path, src, TrashPath(op.id));
    RebaseChild(s[p].path, s[i].name, src, op.target);
  }

  lemma RestoreTree(db: Db, op: Operation, size: int, mtime: int)
    requires TreeOk(db.nodes, db.space) && RetainedOk(db) && Enabled(db, op) && op.kind == Restore
    ensures KindRows(db, op, size, mtime).Ok? && TreeOk(KindRows(db, op, size, mtime).value, db.space)
  {
    var t, s, space := db.nodes, op.snapshot, db.space;
    var r := map i | i in t :: if i in s then RestoredRow(t[i], op, i, db.tag) else t[i];
    RestoredUnique(db, op, r);
    assert TrashOk(t, op.id, db.retained[op.id]);
    forall i | i in s ensures i in r && i != space && !Reserved(r[i].path) && Reserved(t[i].path) && r[i].parent != "" {
      RestoredPlace(db, op, i);
    }
    RestoredPlace(db, op, op.node);
    forall i | i in r && i != space && !TrashRoot(r[i].path) && r[i].parent in r ensures Linked(r, i) {
      if i in s && i != op.node {
        RestoredLink(db, op, r, i);
      } else if i !in s {
        assert Linked(t, i);
      }
    }
    forall i | i in r && i != space && !Reserved(r[i].path) && r[i].missing == 0 ensures LiveDir(r, r[i].parent) {
      if i in s && i != op.node {
        RestoredLink(db, op, r, i);
      } else if i !in s {
        assert LiveDir(t, t[i].parent);
      }
    }
  }

  // ------------------------------------------------------------------ trash entries

  /** Same rows in the reserved part of the tree. */
  ghost predicate SameReserved(t: Table, u: Table) {
    && (forall i :: i in t && Reserved(t[i].path) ==> i in u && u[i] == t[i])
    && (forall i :: i in u && Reserved(u[i].path) ==> i in t && u[i] == t[i])
  }

  lemma KeepTrash(t: Table, u: Table, k: OpId, r: Retained)
    requires TrashOk(t, k, r) && SameReserved(t, u)
    ensures TrashOk(u, k, r)
  {
  }

  lemma RefreshReserved(t: Table, changed: set<Path>, tag: Tag)
    ensures SameReserved(t, Refresh(t, changed, tag))
    ensures SameShape(t, Refresh(t, changed, tag))
  {
    var u := Refresh(t, changed, tag);
    forall i | i in t && Reserved(t[i].path) ensures u[i] == t[i] {
      assert forall p :: p in changed && !Reserved(p) ==> !(t[i].path <= p);
    }
  }

  lemma RebaseReserved(t: Table, src: Path, dst: Path)
    requires src != [] && !Reserved(src) && dst != [] && !Reserved(dst)
    ensures SameReserved(t, RebaseRows(t, src, dst))
  {
  }

  lemma PublicOpReserved(db: Db, op: Operation, size: int, mtime: int)
    requires Enabled(db, op) && op.kind in {Create, Replace, Move} && KindRows(db, op, size, mtime).Ok?
    ensures SameReserved(db.nodes, KindRows(db, op, size, mtime).value)
  {
    if op.kind == Move {
      RebaseReserved(db.nodes, op.source, op.target);
    }
  }

  /** The entry a trash operation adds describes the rows it has just moved. */
  lemma NewTrash(t: Table, op: Operation, r: Retained)
    requires op.snapshot == Subtree(t, op.source) && op.target == TrashPath(op.id) && FreeAt(t, op.target)
    requires op.node in t && t[op.node].path == op.source == op.row.path
    requires r.node == op.node && r.path == op.source && r.snapshot == op.snapshot
    ensures TrashOk(RebaseRows(t, op.source, op.target), op.id, r)
  {
  }

  lemma KindRetainedOk(db: Db, op: Operation, size: int, mtime: int, k: OpId)
    requires DbOk(db) && Enabled(db, op)
    requires KindRows(db, op, size, mtime).Ok? && KindRetained(db, op).Ok?
    requires k in KindRetained(db, op).value && KindRetained(db, op).value[k].kind == TrashItem
    ensures TrashOk(KindRows(db, op, size, mtime).value, k, KindRetained(db, op).value[k])
  {
    hide AllParented, AllLinked, AllLive, TrashShaped, TrashOk;
    var t, u, r := db.nodes, KindRows(db, op, size, mtime).value, KindRetained(db, op).value[k];
    if op.kind == Trash {
      if k == op.id {
        NewTrash(t, op, r);
      } else {
        TrashKeepsTrash(t, u, op, k, r);
      }
    } else if op.kind == Restore {
      RestoreKeepsTrash(db, op, u, k);
    } else {
      PublicOpReserved(db, op, size, mtime);
      KeepTrash(t, u, k, r);
    }
  }

  lemma TrashKeepsTrash(t: Table, u: Table, op: Operation, k: OpId, r: Retained)
    requires TrashOk(t, k, r) && k != op.id && op.target == TrashPath(op.id) && !Reserved(op.source) && op.source != []
    requires u == RebaseRows(t, op.source, op.target)
    ensures TrashOk(u, k, r)
  {
    forall i | i in u && TrashPath(k) <= u[i].path ensures i in r.snapshot {
      assert TrashPath(k)[2] != op.target[2];
    }
  }

  lemma RestoreKeepsTrash(db: Db, op: Operation, u: Table, k: OpId)
    requires DbOk(db) && Enabled(db, op) && op.kind == Restore
    requires u == map i | i in db.nodes ::
             if i in op.snapshot then RestoredRow(db.nodes[i], op, i, db.tag) else db.nodes[i]
    requires k in db.retained && k != op.id && db.retained[k].kind == TrashItem
    ensures TrashOk(u, k, db.retained[k])
  {
    var t, r := db.nodes, db.retained[k];
    assert TrashOk(t, k, r);
    forall i | i in r.snapshot ensures i !in op.snapshot {
      assert TrashPath(k)[2] != TrashPath(op.id)[2];
      if i in op.snapshot {
        RestoredPlace(db, op, i);
      }
    }
    forall i | i in u && TrashPath(k) <= u[i].path ensures i in r.snapshot {
      if i in op.snapshot {
        RestoredPlace(db, op, i);
      }
    }
  }

  /** Every enabled operation commits, and its transaction keeps the tree and the trash. */
  lemma CommitKeepsDb(db: Db, op: Operation, size: int, mtime: int)
    requires DbOk(db) && Enabled(db, op)
    ensures Commit(db, op, size, mtime).Ok? && DbOk(Commit(db, op, size, mtime).value)
  {
    hide TreeOk, TrashOk, Refresh;
    match op.kind {
      case Create => CreateTree(db, op, size, mtime);
      case Replace => ReplaceTree(db, op, size, mtime);
      case Move => MoveTree(db, op, size, mtime);
      case Trash => TrashTree(db, op, size, mtime);
      case Restore => RestoreTree(db, op, size, mtime);
    }
    var u, kept := KindRows(db, op, size, mtime).value, KindRetained(db, op).value;
    var changed := {op.source, op.target};
    RefreshReserved(u, changed, db.tag);
    ShapeTree(u, Refresh(u, changed, db.tag), db.space);
    forall k | k in kept && kept[k].kind == TrashItem ensures TrashOk(Refresh(u, changed, db.tag), k, kept[k]) {
      KindRetainedOk(db, op, size, mtime, k);
      KeepTrash(u, Refresh(u, changed, db.tag), k, kept[k]);
    }
  }
}
