/** Exactly when the commit of a journal entry leaves the node table a tree, whatever has
    become of the table since the entry was written. */
module TreeChanges {
  import opened Paths
  import opened Metadata
  import opened Trees

  /** What every journal entry says, in whatever state it is committed. */
  ghost predicate WellWritten(space: Id, op: Operation) {
    && (op.kind != Restore ==> op.node != "" && op.node != space)
    && (op.kind in {Create, Move, Restore} ==> op.row.parent != "" && op.target != [] && !Reserved(op.target))
    && (op.kind in {Move, Trash} ==> op.source != [] && !Reserved(op.source) && op.source != op.target)
    && (op.kind == Trash ==> op.target == TrashPath(op.id))
    && (op.kind in {Trash, Restore} ==> SnapshotOk(space, op.snapshot))
  }

  ghost predicate SnapshotOk(space: Id, snapshot: Table) {
    space !in snapshot && forall i :: i in snapshot ==> snapshot[i].parent != ""
  }

  // ------------------------------------------------------------------ the conditions

  /** A new row goes into its directory, and nobody else's directory is taken to be it. */
  predicate CreateFits(t: Table, op: Operation) {
    && LiveDir(t, op.row.parent) && op.target == t[op.row.parent].path + [op.row.name]
    && forall j :: j in t && t[j].parent == op.node && !TrashRoot(t[j].path) ==> t[j].path == op.target + [t[j].name]
  }

  /** A row that comes back has a live directory to come back to. */
  predicate ReplaceFits(t: Table, op: Operation) {
    op.node in t && (t[op.node].missing == 0 || Reserved(t[op.node].path) || LiveDir(t, t[op.node].parent))
  }

  /** Where a path is after the move. */
  function MovedPath(op: Operation, p: Path): Path {
    if op.source <= p then Rebase(p, op.source, op.target) else p
  }

  /** At the source is the node that is moved, and it goes into its new directory; a lost
      row at the source does no harm. */
  predicate MoveFits(t: Table, op: Operation) {
    && (forall j :: j in t && j != op.node && t[j].path == op.source ==> t[j].missing != 0 && t[j].parent !in t)
    && (op.node in t ==>
          var p, at := op.row.parent, MovedPath(op, t[op.node].path);
          && (p in t && !TrashRoot(at) ==> at == MovedPath(op, t[p].path) + [op.row.name])
          && (t[op.node].missing == 0 && !Reserved(at) ==>
                p in t && t[p].dir && t[p].missing == 0 && !Reserved(MovedPath(op, t[p].path))))
  }

  /** Where a row is after the restore, and whose it is. */
  function RestoredPath(t: Table, op: Operation, i: Id): Path
    requires i in t
  {
    if i in op.snapshot then Regraft(op.snapshot[i].path, op.row.path, op.target) else t[i].path
  }

  function RestoredParent(op: Operation, i: Id): Id
    requires i in op.snapshot
  {
    if i == op.node then op.row.parent else op.snapshot[i].parent
  }

  function RestoredName(op: Operation, i: Id): Name
    requires i in op.snapshot
  {
    if i == op.node then op.row.name else op.snapshot[i].name
  }

  /** Every restored row goes into a directory that is there, and the rows that are not
      restored and have a restored directory are where that one comes to be. */
  predicate RestoreFits(t: Table, space: Id, op: Operation) {
    && (forall i :: i in t && i in op.snapshot ==>
          var p := RestoredParent(op, i);
          && p in t && t[p].dir && (p in op.snapshot || (t[p].missing == 0 && !Reserved(t[p].path)))
          && RestoredPath(t, op, i) == RestoredPath(t, op, p) + [RestoredName(op, i)])
    && (forall j :: j in t && j !in op.snapshot && j != space && t[j].parent in t && t[j].parent in op.snapshot ==>
          TrashRoot(t[j].path) || t[j].path == RestoredPath(t, op, t[j].parent) + [t[j].name])
  }

  predicate StillFits(t: Table, space: Id, op: Operation) {
    match op.kind
    case Create => CreateFits(t, op)
    case Replace => ReplaceFits(t, op)
    case Move => MoveFits(t, op)
    case Trash => true
    case Restore => RestoreFits(t, space, op)
  }

  // ------------------------------------------------------------------ they are exact

  /** A row is where its directory is, and a live public one has a live directory. */
  ghost predicate Settled(t: Table, space: Id, i: Id)
    requires i in t
  {
    i != space ==>
      && (!TrashRoot(t[i].path) && t[i].parent in t ==> Linked(t, i))
      && (!Reserved(t[i].path) && t[i].missing == 0 ==> LiveDir(t, t[i].parent))
  }

  /** What else makes a tree. */
  ghost predicate Grounded(t: Table, space: Id) {
    RootOk(t, space) && UniquePaths(t) && AllParented(t, space) && TrashShaped(t)
  }

  lemma TreeSettled(t: Table, space: Id)
    ensures TreeOk(t, space) <==> Grounded(t, space) && forall i :: i in t ==> Settled(t, space, i)
  {
    hide RootOk, UniquePaths, AllParented, TrashShaped, LiveDir, Linked;
  }

  lemma CreateSettled(t: Table, u: Table, space: Id, op: Operation, i: Id)
    requires TreeOk(t, space) && WellWritten(space, op) && op.kind == Create && op.node !in t && CreateFits(t, op)
    requires op.node in u && u == t[op.node := u[op.node]] && i in u
    requires u[op.node] == Row(op.row.parent, op.row.name, op.target, op.row.dir, u[op.node].size, u[op.node].mtime,
             u[op.node].etag, 0)
    ensures Settled(u, space, i)
  {
    hide UniquePaths, TrashShaped, AllParented, RootOk, TreeOk;
    TreeSettled(t, space);
    if i != op.node { assert Settled(t, space, i); }
  }

  lemma CreateGrounded(db: Db, op: Operation, size: int, mtime: int)
    requires TreeOk(db.nodes, db.space) && WellWritten(db.space, op) && op.kind == Create
    requires KindRows(db, op, size, mtime).Ok?
    ensures Grounded(KindRows(db, op, size, mtime).value, db.space)
  {
    hide AllLinked, AllLive;
  }

  lemma CreateTreeIff(db: Db, op: Operation, size: int, mtime: int)
    requires TreeOk(db.nodes, db.space) && WellWritten(db.space, op) && op.kind == Create
    requires KindRows(db, op, size, mtime).Ok?
    ensures TreeOk(KindRows(db, op, size, mtime).value, db.space) <==> CreateFits(db.nodes, op)
  {
    hide TreeOk, Settled, CreateFits, Grounded;
    var t, u, n := db.nodes, KindRows(db, op, size, mtime).value, op.node;
    CreateGrounded(db, op, size, mtime);
    TreeSettled(u, db.space);
    if CreateFits(t, op) {
      forall i | i in u ensures Settled(u, db.space, i) { CreateSettled(t, u, db.space, op, i); }
    }
    if TreeOk(u, db.space) { CreatedFits(t, u, db.space, op); }
  }

  lemma CreatedFits(t: Table, u: Table, space: Id, op: Operation)
    requires TreeOk(t, space) && WellWritten(space, op) && op.kind == Create && op.node !in t && TreeOk(u, space)
    requires op.node in u && u == t[op.node := u[op.node]]
    requires u[op.node] == Row(op.row.parent, op.row.name, op.target, op.row.dir, u[op.node].size, u[op.node].mtime,
             u[op.node].etag, 0)
    ensures CreateFits(t, op)
  {
    hide UniquePaths, TrashShaped, AllParented, AllLinked, AllLive;
    TreeSettled(u, space);
    assert Settled(u, space, op.node);
    forall j | j in t && t[j].parent == op.node && !TrashRoot(t[j].path) ensures t[j].path == op.target + [t[j].name] {
      assert Settled(u, space, j);
    }
  }

  lemma ReplaceSettled(t: Table, u: Table, space: Id, op: Operation, i: Id)
    requires TreeOk(t, space) && op.node in t && op.node in u && op.node != space && i in t
    requires u == t[op.node := t[op.node].(size := u[op.node].size, mtime := u[op.node].mtime, etag := u[op.node].etag,
                                           missing := 0)]
    ensures Settled(u, space, i) <==> i != op.node || ReplaceFits(t, op)
  {
    hide UniquePaths, TrashShaped, AllParented, RootOk, TreeOk;
    TreeSettled(t, space);
    assert Settled(t, space, i);
    if t[i].parent in t { assert Settled(t, space, t[i].parent); }
  }

  lemma ReplaceTreeIff(db: Db, op: Operation, size: int, mtime: int)
    requires TreeOk(db.nodes, db.space) && WellWritten(db.space, op) && op.kind == Replace
    requires KindRows(db, op, size, mtime).Ok?
    ensures TreeOk(KindRows(db, op, size, mtime).value, db.space) <==> ReplaceFits(db.nodes, op)
  {
    hide TreeOk, Settled, ReplaceFits, Grounded;
    var t, u := db.nodes, KindRows(db, op, size, mtime).value;
    ReplaceGrounded(t, u, db.space, op.node);
    TreeSettled(u, db.space);
    forall i | i in t ensures Settled(u, db.space, i) <==> i != op.node || ReplaceFits(t, op) {
      ReplaceSettled(t, u, db.space, op, i);
    }
  }

  lemma ReplaceGrounded(t: Table, u: Table, space: Id, n: Id)
    requires TreeOk(t, space) && n in t && n in u && n != space && u == t[n := u[n]]
    requires u[n].path == t[n].path && u[n].parent == t[n].parent
    ensures Grounded(u, space)
  {
    hide AllLinked, AllLive;
  }

  lemma TrashTreeAlways(db: Db, op: Operation, size: int, mtime: int)
    requires TreeOk(db.nodes, db.space) && WellWritten(db.space, op) && op.kind == Trash
    requires KindRows(db, op, size, mtime).Ok?
    ensures TreeOk(KindRows(db, op, size, mtime).value, db.space)
  {
    var t, u := db.nodes, KindRows(db, op, size, mtime).value;
    forall i | i in u && i != db.space && !TrashRoot(u[i].path) && u[i].parent in u ensures Linked(u, i) {
      if t[i].path == op.source {
        RebaseSelf(op.source, op.target);
      } else {
        MovedLink(t, db.space, op.source, op.target, i);
      }
    }
    forall i | i in u && i != db.space && !Reserved(u[i].path) && u[i].missing == 0 ensures LiveDir(u, u[i].parent) {
      MovedLive(t, db.space, op.source, op.target, i);
    }
  }

  // ------------------------------------------------------------------ moves

  /** The rows of a move. */
  ghost predicate MoveRows(t: Table, u: Table, op: Operation) {
    && u.Keys == t.Keys
    && forall i :: i in t ==>
         && u[i].path == MovedPath(op, t[i].path) && u[i].dir == t[i].dir && u[i].missing == t[i].missing
         && u[i].parent == (if i == op.node then op.row.parent else t[i].parent)
         && u[i].name == (if i == op.node then op.row.name else t[i].name)
  }

  lemma MovesRows(db: Db, op: Operation, size: int, mtime: int)
    requires op.kind == Move && KindRows(db, op, size, mtime).Ok?
    ensures MoveRows(db.nodes, KindRows(db, op, size, mtime).value, op)
  {
    hide UniquePaths, Rebase;
  }

  lemma MovesUnique(db: Db, op: Operation, size: int, mtime: int)
    requires op.kind == Move && KindRows(db, op, size, mtime).Ok?
    ensures UniquePaths(KindRows(db, op, size, mtime).value)
  {
    hide UniquePaths, RebaseRows;
    SameUnique(RebaseRows(db.nodes, op.source, op.target), KindRows(db, op, size, mtime).value);
  }

  lemma SameUnique(t: Table, u: Table)
    requires UniquePaths(t) && u.Keys == t.Keys && forall i :: i in t ==> u[i].path == t[i].path
    ensures UniquePaths(u)
  {
  }

  lemma MoveGrounded(t: Table, u: Table, space: Id, op: Operation)
    requires TreeOk(t, space) && WellWritten(space, op) && op.kind == Move && MoveRows(t, u, op) && UniquePaths(u)
    ensures Grounded(u, space)
  {
    hide AllLinked, AllLive, UniquePaths;
  }

  /** Rows other than the moved node and what is at the source keep their directories. */
  lemma MoveOthers(t: Table, u: Table, space: Id, op: Operation, i: Id)
    requires TreeOk(t, space) && WellWritten(space, op) && op.kind == Move && MoveRows(t, u, op)
    requires i in t && i != op.node && t[i].path != op.source
    ensures Settled(u, space, i)
  {
    hide UniquePaths, AllParented;
    var p := t[i].parent;
    if i != space && p in t && !TrashRoot(t[i].path) {
      assert Linked(t, i);
      if op.source <= t[p].path {
        RebaseChild(t[p].path, t[i].name, op.source, op.target);
      }
    }
    if i != space && t[i].missing == 0 && !Reserved(t[i].path) {
      assert LiveDir(t, p);
    }
    assert TrashRoot(u[i].path) || !TrashRoot(t[i].path);
  }

  /** What is at the source, if it is not the node: it has left its directory. */
  lemma MoveStray(t: Table, u: Table, space: Id, op: Operation, i: Id)
    requires TreeOk(t, space) && WellWritten(space, op) && op.kind == Move && MoveRows(t, u, op)
    requires i in t && i != op.node && t[i].path == op.source
    ensures Settled(u, space, i) <==> t[i].missing != 0 && t[i].parent !in t
  {
    hide UniquePaths, AllParented, TrashShaped;
    RebaseSelf(op.source, op.target);
    var p := t[i].parent;
    assert i != space;
    if p in t { assert Linked(t, i); }
    if t[i].missing == 0 { assert LiveDir(t, p); }
  }

  lemma MoveNode(t: Table, u: Table, space: Id, op: Operation)
    requires TreeOk(t, space) && WellWritten(space, op) && op.kind == Move && MoveRows(t, u, op) && op.node in t
    ensures Settled(u, space, op.node) <==>
            var p, at := op.row.parent, MovedPath(op, t[op.node].path);
            && (p in t && !TrashRoot(at) ==> at == MovedPath(op, t[p].path) + [op.row.name])
            && (t[op.node].missing == 0 && !Reserved(at) ==>
                  p in t && t[p].dir && t[p].missing == 0 && !Reserved(MovedPath(op, t[p].path)))
  {
    hide TreeOk, MovedPath;
  }

  lemma MoveTreeIff(db: Db, op: Operation, size: int, mtime: int)
    requires TreeOk(db.nodes, db.space) && WellWritten(db.space, op) && op.kind == Move
    requires KindRows(db, op, size, mtime).Ok?
    ensures TreeOk(KindRows(db, op, size, mtime).value, db.space) <==> MoveFits(db.nodes, op)
  {
    hide TreeOk, Settled, Grounded, KindRows, WellWritten, MovedPath;
    var t, u := db.nodes, KindRows(db, op, size, mtime).value;
    MovesRows(db, op, size, mtime);
    MovesUnique(db, op, size, mtime);
    MoveGrounded(t, u, db.space, op);
    TreeSettled(u, db.space);
    forall i | i in t && i != op.node
      ensures Settled(u, db.space, i) <==> (t[i].path == op.source ==> t[i].missing != 0 && t[i].parent !in t)
    {
      if t[i].path == op.source { MoveStray(t, u, db.space, op, i); } else { MoveOthers(t, u, db.space, op, i); }
    }
    if op.node in t { MoveNode(t, u, db.space, op); }
  }

  // ------------------------------------------------------------------ restores

  ghost predicate RestoreRows(t: Table, u: Table, op: Operation) {
    && u.Keys == t.Keys
    && forall i :: i in t ==>
         && u[i].path == RestoredPath(t, op, i) && u[i].dir == t[i].dir
         && (i in op.snapshot ==>
              u[i].missing == 0 && u[i].parent == RestoredParent(op, i) && u[i].name == RestoredName(op, i))
         && (i !in op.snapshot ==> u[i].missing == t[i].missing && u[i].parent == t[i].parent && u[i].name == t[i].name)
  }

  lemma RestoresRows(db: Db, op: Operation, size: int, mtime: int)
    requires op.kind == Restore && KindRows(db, op, size, mtime).Ok?
    ensures RestoreRows(db.nodes, KindRows(db, op, size, mtime).value, op)
    ensures UniquePaths(KindRows(db, op, size, mtime).value)
  {
    hide UniquePaths, Regraft;
  }

  lemma RegraftPublic(p: Path, src: Path, dst: Path)
    requires dst != [] && !Reserved(dst)
    ensures dst <= Regraft(p, src, dst) && !Reserved(Regraft(p, src, dst))
  {
  }

  lemma RestoreGrounded(t: Table, u: Table, space: Id, op: Operation)
    requires TreeOk(t, space) && WellWritten(space, op) && op.kind == Restore && RestoreRows(t, u, op) && UniquePaths(u)
    ensures Grounded(u, space)
  {
    hide AllLinked, AllLive, UniquePaths, Regraft;
    forall i | i in op.snapshot ensures !Reserved(Regraft(op.snapshot[i].path, op.row.path, op.target)) {
      RegraftPublic(op.snapshot[i].path, op.row.path, op.target);
    }
  }

  lemma RestoreIn(t: Table, u: Table, space: Id, op: Operation, i: Id)
    requires TreeOk(t, space) && WellWritten(space, op) && op.kind == Restore && RestoreRows(t, u, op)
    requires i in t && i in op.snapshot
    ensures Settled(u, space, i) <==>
            var p := RestoredParent(op, i);
            && p in t && t[p].dir && (p in op.snapshot || (t[p].missing == 0 && !Reserved(t[p].path)))
            && RestoredPath(t, op, i) == RestoredPath(t, op, p) + [RestoredName(op, i)]
  {
    hide TreeOk, Regraft;
    RegraftPublic(op.snapshot[i].path, op.row.path, op.target);
    var p := RestoredParent(op, i);
    if p in op.snapshot { RegraftPublic(op.snapshot[p].path, op.row.path, op.target); }
  }

  lemma RestoreOut(t: Table, u: Table, space: Id, op: Operation, j: Id)
    requires TreeOk(t, space) && WellWritten(space, op) && op.kind == Restore && RestoreRows(t, u, op)
    requires j in t && j !in op.snapshot
    ensures Settled(u, space, j) <==>
            (j != space && t[j].parent in t && t[j].parent in op.snapshot ==>
               TrashRoot(t[j].path) || t[j].path == RestoredPath(t, op, t[j].parent) + [t[j].name])
  {
    hide TreeOk, Regraft;
    TreeSettled(t, space);
    assert Settled(t, space, j);
    var p := t[j].parent;
    if p in op.snapshot { RegraftPublic(op.snapshot[p].path, op.row.path, op.target); }
  }

  lemma RestoreTreeIff(db: Db, op: Operation, size: int, mtime: int)
    requires TreeOk(db.nodes, db.space) && WellWritten(db.space, op) && op.kind == Restore
    requires KindRows(db, op, size, mtime).Ok?
    ensures TreeOk(KindRows(db, op, size, mtime).value, db.space) <==> RestoreFits(db.nodes, db.space, op)
  {
    hide TreeOk, Settled, Grounded, KindRows, WellWritten, RestoredPath, RestoredParent, RestoredName;
    var t, u := db.nodes, KindRows(db, op, size, mtime).value;
    RestoresRows(db, op, size, mtime);
    RestoreGrounded(t, u, db.space, op);
    TreeSettled(u, db.space);
    forall i | i in t && i in op.snapshot
      ensures Settled(u, db.space, i) <==>
              var p := RestoredParent(op, i);
              && p in t && t[p].dir && (p in op.snapshot || (t[p].missing == 0 && !Reserved(t[p].path)))
              && RestoredPath(t, op, i) == RestoredPath(t, op, p) + [RestoredName(op, i)]
    {
      RestoreIn(t, u, db.space, op, i);
    }
    forall j | j in t && j !in op.snapshot
      ensures Settled(u, db.space, j) <==>
              (j != db.space && t[j].parent in t && t[j].parent in op.snapshot ==>
                 TrashRoot(t[j].path) || t[j].path == RestoredPath(t, op, t[j].parent) + [t[j].name])
    {
      RestoreOut(t, u, db.space, op, j);
    }
  }

  /** A commit leaves a tree exactly if the entry still fits the table. */
  lemma CommitTreeIff(db: Db, op: Operation, size: int, mtime: int)
    requires TreeOk(db.nodes, db.space) && WellWritten(db.space, op) && Commit(db, op, size, mtime).Ok?
    ensures TreeOk(Commit(db, op, size, mtime).value.nodes, db.space) <==> StillFits(db.nodes, db.space, op)
  {
    hide TreeOk, KindRows, Refresh, WellWritten, CreateFits, ReplaceFits, MoveFits, RestoreFits;
    var u := KindRows(db, op, size, mtime).value;
    SameTree(u, db.space, {op.source, op.target}, db.tag);
    match op.kind
    case Create => CreateTreeIff(db, op, size, mtime);
    case Replace => ReplaceTreeIff(db, op, size, mtime);
    case Move => MoveTreeIff(db, op, size, mtime);
    case Trash => TrashTreeAlways(db, op, size, mtime);
    case Restore => RestoreTreeIff(db, op, size, mtime);
  }

  /** New revisions make no difference. */
  lemma SameTree(t: Table, space: Id, changed: set<Path>, tag: Tag)
    ensures TreeOk(Refresh(t, changed, tag), space) <==> TreeOk(t, space)
  {
    hide TreeOk, Refresh, SameShape;
    var u := Refresh(t, changed, tag);
    RefreshReserved(t, changed, tag);
    ShapeBack(t, u);
    if TreeOk(t, space) { ShapeTree(t, u, space); }
    if TreeOk(u, space) { ShapeTree(u, t, space); }
  }

  lemma ShapeBack(t: Table, u: Table)
    requires SameShape(t, u)
    ensures SameShape(u, t)
  {
  }
}
