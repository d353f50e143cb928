/** Deleting a subtree and restoring it undo each other, in the rows and in the files. */
module TrashRestore {
  import opened Paths
  import opened Metadata
  import opened Trees
  import opened TreeChanges
  import opened Files

  /** The restore of what `op` put in the trash, to the place it came from. */
  function Undo(db: Db, op: Operation): Operation
    requires op.node in db.nodes
  {
    op.(kind := Restore, source := op.target, target := op.source, row := db.nodes[op.node], session := "")
  }

  predicate NoneMissing(snapshot: Table) {
    forall i :: i in snapshot ==> snapshot[i].missing == 0
  }

  /** A deleted live subtree takes every directory of its rows along. */
  lemma SnapshotClosed(db: Db, op: Operation)
    requires DbOk(db) && Enabled(db, op) && op.kind == Trash && NoneMissing(op.snapshot)
    ensures Closed(op.snapshot, op.node)
  {
    hide RetainedOk;
    var t, s := db.nodes, op.snapshot;
    forall i | i in s && i != op.node ensures s[i].parent in s && s[s[i].parent].dir {
      assert i != db.space && op.source != [];
      assert LiveDir(t, t[i].parent);
      assert Linked(t, i);
      PrefixesCompare(op.source, t[t[i].parent].path, t[i].path);
      assert t[i].path != op.source;
    }
  }

  /** The rows after the delete. */
  lemma Trashed(db: Db, op: Operation, size: int, mtime: int, i: Id)
    requires DbOk(db) && Enabled(db, op) && op.kind == Trash && i in db.nodes && Commit(db, op, size, mtime).Ok?
    ensures var u := Commit(db, op, size, mtime).value.nodes;
            && u.Keys == db.nodes.Keys
            && (i in op.snapshot ==> u[i] == db.nodes[i].(path := Rebase(db.nodes[i].path, op.source, op.target)))
            && (i !in op.snapshot ==> SameButEtag(db.nodes[i], u[i]) && !(op.source <= u[i].path))
            && (i !in op.snapshot && !(db.nodes[i].path <= op.source) ==> u[i] == db.nodes[i])
  {
    hide TreeOk, RetainedOk, Refresh, Rebase;
    RefreshedRow(RebaseRows(db.nodes, op.source, op.target), op.source, op.target, db.tag, i);
  }

  /** Refreshing changes the revisions of public directories on the way to a public path. */
  lemma RefreshedRow(t: Table, source: Path, target: Path, tag: Tag, i: Id)
    requires i in t && Reserved(target)
    ensures var u := Refresh(t, {source, target}, tag);
            && u.Keys == t.Keys && SameButEtag(t[i], u[i])
            && (Reserved(t[i].path) || !(t[i].path <= source) ==> u[i] == t[i])
  {
  }

  lemma TrashedFrame(db: Db, op: Operation, size: int, mtime: int)
    requires Enabled(db, op) && op.kind == Trash && Commit(db, op, size, mtime).Ok?
    ensures var after := Commit(db, op, size, mtime).value;
            && after.space == db.space
            && after.retained == db.retained[op.id := Retained(op.node, op.row.path, TrashItem, op.row.size, op.time,
                 op.snapshot)]
  {
    hide KindRows, Refresh;
  }

  /** The place a subtree was deleted from is free for it again. */
  lemma PlaceFreed(db: Db, op: Operation, size: int, mtime: int)
    requires DbOk(db) && Enabled(db, op) && op.kind == Trash && Commit(db, op, size, mtime).Ok?
    ensures var row := db.nodes[op.node];
            row.parent != "" && FreePlace(Commit(db, op, size, mtime).value.nodes, row.parent, row.name, op.source)
  {
    hide RetainedOk, Commit, UniquePaths, TrashShaped;
    var t, u, parent := db.nodes, Commit(db, op, size, mtime).value.nodes, db.nodes[op.node].parent;
    assert LiveDir(t, parent);
    assert Linked(t, op.node);
    Trashed(db, op, size, mtime, parent);
    forall i | i in u ensures !(op.source <= u[i].path) {
      Trashed(db, op, size, mtime, i);
    }
  }

  lemma UndoEnabled(db: Db, op: Operation, size: int, mtime: int)
    requires DbOk(db) && Enabled(db, op) && op.kind == Trash && NoneMissing(op.snapshot)
    ensures op.node in db.nodes
    ensures Commit(db, op, size, mtime).Ok? && Enabled(Commit(db, op, size, mtime).value, Undo(db, op))
  {
    hide TreeOk, RetainedOk, Commit, FreePlace, Closed;
    CommitKeepsDb(db, op, size, mtime);
    TrashedFrame(db, op, size, mtime);
    SnapshotClosed(db, op);
    PlaceFreed(db, op, size, mtime);
  }

  /** The rows after the restore. */
  lemma Undone(db: Db, op: Operation, z1: int, m1: int, z2: int, m2: int, i: Id)
    requires DbOk(db) && Enabled(db, op) && op.kind == Trash && NoneMissing(op.snapshot) && i in db.nodes
    requires Commit(db, op, z1, m1).Ok? && Commit(Commit(db, op, z1, m1).value, Undo(db, op), z2, m2).Ok?
    ensures var v := Commit(Commit(db, op, z1, m1).value, Undo(db, op), z2, m2).value.nodes;
            && v.Keys == db.nodes.Keys && SameButEtag(db.nodes[i], v[i])
            && (i !in op.snapshot && !(db.nodes[i].path <= op.source) ==> v[i] == db.nodes[i])
  {
    hide TreeOk, RetainedOk;
    var one := Commit(db, op, z1, m1).value;
    hide Commit, KindRows, Refresh;
    Trashed(db, op, z1, m1, i);
    RestoredRows(one, Undo(db, op), z2, m2, i);
    if i in op.snapshot {
      RebaseSame(db.nodes[i].path, op.source);
    }
  }

  lemma RebaseSame(p: Path, src: Path)
    requires src <= p
    ensures Rebase(p, src, src) == p
  {
  }

  lemma RestoredRows(db: Db, op: Operation, size: int, mtime: int, i: Id)
    requires op.kind == Restore && Commit(db, op, size, mtime).Ok? && i in db.nodes && Reserved(op.source)
    ensures var v := Commit(db, op, size, mtime).value.nodes;
            && v.Keys == db.nodes.Keys
            && (i in op.snapshot ==> SameButEtag(RestoredRow(db.nodes[i], op, i, db.tag), v[i]))
            && (i !in op.snapshot ==> SameButEtag(db.nodes[i], v[i]))
            && (i !in op.snapshot && !(db.nodes[i].path <= op.target) ==> v[i] == db.nodes[i])
  {
  }

  /** Trash and restore are inverse. Deleting a subtree without missing rows and
      restoring it to its recorded path is possible and gives back every row with its
      ID, parent, name, path and times, changes only revisions in the subtree and
      above it, and leaves no trace among the retained entries. */
  lemma RoundTrip(db: Db, op: Operation, z1: int, m1: int, z2: int, m2: int)
    requires DbOk(db) && Enabled(db, op) && op.kind == Trash && NoneMissing(op.snapshot)
    ensures var one := Commit(db, op, z1, m1);
            one.Ok? && DbOk(one.value) && Enabled(one.value, Undo(db, op)) &&
            var two := Commit(one.value, Undo(db, op), z2, m2);
            && two.Ok? && two.value.nodes.Keys == db.nodes.Keys
            && two.value.retained == db.retained
            && forall i :: i in db.nodes ==>
                 && SameButEtag(db.nodes[i], two.value.nodes[i])
                 && (i !in op.snapshot && !(db.nodes[i].path <= op.source) ==> two.value.nodes[i] == db.nodes[i])
  {
    hide DbOk, Enabled, Commit;
    CommitKeepsDb(db, op, z1, m1);
    UndoEnabled(db, op, z1, m1);
    var one := Commit(db, op, z1, m1).value;
    CommitKeepsDb(one, Undo(db, op), z2, m2);
    UndoneFrame(db, op, z1, m1, z2, m2);
    forall i | i in db.nodes
      ensures i in Commit(one, Undo(db, op), z2, m2).value.nodes
      ensures SameButEtag(db.nodes[i], Commit(one, Undo(db, op), z2, m2).value.nodes[i])
      ensures i !in op.snapshot && !(db.nodes[i].path <= op.source) ==>
              Commit(one, Undo(db, op), z2, m2).value.nodes[i] == db.nodes[i]
    {
      Undone(db, op, z1, m1, z2, m2, i);
    }
  }

  lemma UndoneFrame(db: Db, op: Operation, z1: int, m1: int, z2: int, m2: int)
    requires Enabled(db, op) && op.kind == Trash
    requires Commit(db, op, z1, m1).Ok? && Commit(Commit(db, op, z1, m1).value, Undo(db, op), z2, m2).Ok?
    ensures var two := Commit(Commit(db, op, z1, m1).value, Undo(db, op), z2, m2).value;
            two.retained == db.retained && two.nodes.Keys == db.nodes.Keys
  {
    hide Refresh, KindRows, Commit;
    TrashedFrame(db, op, z1, m1);
    RestoredFrame(Commit(db, op, z1, m1).value, Undo(db, op), z2, m2);
    RowsKept(db, op, z1, m1);
    RowsKept(Commit(db, op, z1, m1).value, Undo(db, op), z2, m2);
  }

  lemma RestoredFrame(db: Db, op: Operation, size: int, mtime: int)
    requires op.kind == Restore && Commit(db, op, size, mtime).Ok?
    ensures Commit(db, op, size, mtime).value.retained == db.retained - {op.id}
  {
    hide Refresh, KindRows;
  }

  lemma RowsKept(db: Db, op: Operation, size: int, mtime: int)
    requires op.kind in {Trash, Restore} && Commit(db, op, size, mtime).Ok?
    ensures Commit(db, op, size, mtime).value.nodes.Keys == db.nodes.Keys
  {
  }

  /** The files: what was moved into the trash is moved back. */
  lemma FilesRoundTrip(f: Files, op: Operation)
    requires FilesOk(f) && Apart(op.source, op.target) && CanRename(f, op.source, op.target)
    ensures Rename(Rename(f, op.source, op.target), op.target, op.source) == f
  {
    RenameBack(f, op.source, op.target);
  }

  // ------------------------------------------------------------------ missing rows

  /** From an intact trash, a restore that meets its checks keeps the tree exactly when
      every restored row's directory is restored with it: all rows are revived, the missing
      ones too. */
  lemma IntactRestoreIff(db: Db, op: Operation, size: int, mtime: int)
    requires DbOk(db) && op.kind == Restore && op.session == "" && RestoreReady(db, op)
    ensures KindRows(db, op, size, mtime).Ok?
    ensures TreeOk(KindRows(db, op, size, mtime).value, db.space) <==> Closed(op.snapshot, op.node)
  {
    var t, s := db.nodes, op.snapshot;
    var r := map i | i in t :: if i in s then RestoredRow(t[i], op, i, db.tag) else t[i];
    assert KindRows(db, op, size, mtime) == Ok(r) by { RestoredUnique(db, op, r); }
    if Closed(s, op.node) {
      RestoreTree(db, op, size, mtime);
    } else {
      var i :| i in s && i != op.node && !(s[i].parent in s && s[s[i].parent].dir);
      OrphanRevived(db, op, r, i);
    }
  }

  lemma OrphanRevived(db: Db, op: Operation, r: Table, i: Id)
    requires DbOk(db) && op.kind == Restore && RestoreReady(db, op)
    requires r == map i | i in db.nodes ::
             if i in op.snapshot then RestoredRow(db.nodes[i], op, i, db.tag) else db.nodes[i]
    requires i in op.snapshot && i != op.node
    requires !(op.snapshot[i].parent in op.snapshot && op.snapshot[op.snapshot[i].parent].dir)
    ensures !AllLive(r, db.space)
  {
    hide AllParented, AllLive;
    var t, s, p := db.nodes, op.snapshot, op.snapshot[i].parent;
    assert TrashOk(t, op.id, db.retained[op.id]);
    RestoredPlace(db, op, i);
    assert r[i].parent == p && r[i].missing == 0;
    if p in t && p !in s {
      RestoredPlace(db, op, op.node);
      RebaseSelf(op.row.path, TrashPath(op.id));
      assert t[i].path != TrashPath(op.id);
      assert Linked(t, i);
      PrefixesCompare(TrashPath(op.id), t[p].path, t[i].path);
    }
    NotLive(r, db.space, i);
  }

  lemma NotLive(r: Table, space: Id, i: Id)
    requires i in r && i != space && !Reserved(r[i].path) && r[i].missing == 0 && !LiveDir(r, r[i].parent)
    ensures !AllLive(r, space)
  {
  }

  // ------------------------------------------------------------------ rows that have moved on

  /** What the deletion of a linked subtree records. */
  ghost predicate LinkedSnapshot(space: Id, s: Table, top: Id, path: Path) {
    && SnapshotOk(space, s) && UniquePaths(s) && top in s && s[top].path == path
    && (forall i :: i in s ==> path <= s[i].path)
    && (forall i :: i in s && i != top && s[i].parent in s ==> Linked(s, i))
  }

  lemma SubtreeLinked(t: Table, space: Id, top: Id)
    requires TreeOk(t, space) && LivePublic(t, top) && top != space
    ensures LinkedSnapshot(space, Subtree(t, t[top].path), top, t[top].path)
  {
    var s := Subtree(t, t[top].path);
    assert t[top].path != [];
    forall i | i in s && i != top && s[i].parent in s ensures Linked(s, i) {
      assert i != space && !TrashRoot(t[i].path);
      assert Linked(t, i);
    }
  }

  /** Of the rows that are still there, each but the top is restored with its directory. */
  predicate ClosedNow(t: Table, s: Table, top: Id) {
    forall i :: i in t && i in s && i != top ==> s[i].parent in s && s[i].parent in t && t[s[i].parent].dir
  }

  /** No other row, unless it is the top of something in the trash, has its directory among
      the restored ones. */
  predicate NoneLeft(t: Table, s: Table) {
    forall j :: j in t && j !in s && t[j].parent in t && t[j].parent in s ==> TrashRoot(t[j].path)
  }

  /** The top is there if anything is. */
  lemma {:induction false} UpToTop(t: Table, space: Id, s: Table, top: Id, path: Path, i: Id)
    requires LinkedSnapshot(space, s, top, path) && ClosedNow(t, s, top) && i in t && i in s
    ensures top in t
    decreases |s[i].path|
  {
    if i != top {
      assert Linked(s, i);
      UpToTop(t, space, s, top, path, s[i].parent);
    }
  }

  lemma RegraftedPath(space: Id, op: Operation, i: Id)
    requires LinkedSnapshot(space, op.snapshot, op.node, op.row.path) && i in op.snapshot
    ensures var p := Regraft(op.snapshot[i].path, op.row.path, op.target);
            op.target <= p && (p == op.target <==> i == op.node)
    ensures i != op.node && op.snapshot[i].parent in op.snapshot ==>
              Regraft(op.snapshot[i].path, op.row.path, op.target) ==
                Regraft(op.snapshot[op.snapshot[i].parent].path, op.row.path, op.target) + [op.snapshot[i].name]
  {
    var s := op.snapshot;
    RebaseSelf(op.row.path, op.target);
    if i != op.node {
      assert s[i].path != op.row.path;
      if s[i].parent in s {
        assert Linked(s, i);
        RebaseChild(s[s[i].parent].path, s[i].name, op.row.path, op.target);
      }
    }
  }

  lemma NoChildBelow(t: Table, target: Path, p: Id, name: Name)
    requires FreeAt(t, target) && p in t
    ensures target <= t[p].path + [name] ==> target == t[p].path + [name]
  {
  }

  /** A restored row other than the top fits exactly with its directory. */
  lemma InnerFits(t: Table, space: Id, op: Operation, i: Id)
    requires LinkedSnapshot(space, op.snapshot, op.node, op.row.path) && FreeAt(t, op.target)
    requires i in t && i in op.snapshot && i != op.node
    ensures var p := op.snapshot[i].parent;
            (&& p in t && t[p].dir && (p in op.snapshot || (t[p].missing == 0 && !Reserved(t[p].path)))
             && RestoredPath(t, op, i) == RestoredPath(t, op, p) + [RestoredName(op, i)]) <==>
            p in op.snapshot && p in t && t[p].dir
  {
    hide LinkedSnapshot, Regraft;
    RegraftedPath(space, op, i);
    var p := op.snapshot[i].parent;
    if p in t { NoChildBelow(t, op.target, p, RestoredName(op, i)); }
  }

  lemma TopFits(t: Table, space: Id, op: Operation)
    requires LinkedSnapshot(space, op.snapshot, op.node, op.row.path)
    requires FreePlace(t, op.row.parent, op.row.name, op.target)
    requires op.node in t
    ensures var p := op.row.parent;
            (&& p in t && t[p].dir && (p in op.snapshot || (t[p].missing == 0 && !Reserved(t[p].path)))
             && RestoredPath(t, op, op.node) == RestoredPath(t, op, p) + [op.row.name]) <==>
            p !in op.snapshot
  {
    hide LinkedSnapshot, Regraft, FreeAt;
    NodeListed(space, op);
    RegraftedPath(space, op, op.node);
    if op.row.parent in op.snapshot { RegraftedPath(space, op, op.row.parent); }
  }

  lemma NodeListed(space: Id, op: Operation)
    requires LinkedSnapshot(space, op.snapshot, op.node, op.row.path)
    ensures op.node in op.snapshot
  {
  }

  lemma OuterFits(t: Table, space: Id, op: Operation, j: Id)
    requires LinkedSnapshot(space, op.snapshot, op.node, op.row.path) && FreeAt(t, op.target)
    requires j in t && j !in op.snapshot && t[j].parent in t && t[j].parent in op.snapshot
    ensures t[j].path != RestoredPath(t, op, t[j].parent) + [t[j].name]
  {
    hide LinkedSnapshot, Regraft;
    RegraftedPath(space, op, t[j].parent);
  }

  lemma LinkedFitsIff(t: Table, space: Id, op: Operation)
    requires TreeOk(t, space) && LinkedSnapshot(space, op.snapshot, op.node, op.row.path)
    requires FreePlace(t, op.row.parent, op.row.name, op.target)
    ensures RestoreFits(t, space, op) <==>
            ClosedNow(t, op.snapshot, op.node) && NoneLeft(t, op.snapshot) && op.row.parent !in op.snapshot
  {
    hide LinkedSnapshot, RestoredPath, UniquePaths, AllLinked, AllLive, TrashShaped;
    NodeListed(space, op);
    forall i | i in t && i in op.snapshot
      ensures (var p := RestoredParent(op, i);
               && p in t && t[p].dir && (p in op.snapshot || (t[p].missing == 0 && !Reserved(t[p].path)))
               && RestoredPath(t, op, i) == RestoredPath(t, op, p) + [RestoredName(op, i)]) <==>
              if i == op.node then op.row.parent !in op.snapshot
              else op.snapshot[i].parent in op.snapshot && op.snapshot[i].parent in t && t[op.snapshot[i].parent].dir
    {
      if i == op.node { TopFits(t, space, op); } else { InnerFits(t, space, op, i); }
    }
    forall j | j in t && j !in op.snapshot && t[j].parent in t && t[j].parent in op.snapshot
      ensures t[j].path != RestoredPath(t, op, t[j].parent) + [t[j].name] && j != space
    {
      OuterFits(t, space, op, j);
    }
    if ClosedNow(t, op.snapshot, op.node) && op.row.parent in op.snapshot {
      UpToTop(t, space, op.snapshot, op.node, op.row.path, op.row.parent);
    }
  }

  lemma LinkedUnique(db: Db, op: Operation, size: int, mtime: int)
    requires TreeOk(db.nodes, db.space) && op.kind == Restore && RestoreReady(db, op)
    requires LinkedSnapshot(db.space, op.snapshot, op.node, op.row.path)
    ensures KindRows(db, op, size, mtime).Ok?
  {
    hide AllParented, AllLinked, AllLive, TrashShaped;
    var t, s := db.nodes, op.snapshot;
    var r := map i | i in t :: if i in s then RestoredRow(t[i], op, i, db.tag) else t[i];
    forall i, j | i in r && j in r && r[i].path == r[j].path ensures i == j {
      if i in s { RegraftedPath(db.space, op, i); }
      if j in s { RegraftedPath(db.space, op, j); }
      if i in s && j in s {
        RebaseInjective(s[i].path, s[j].path, op.row.path, op.target);
      }
    }
  }

  /** A restore that meets its checks can be written, and keeps the tree exactly if what it
      restores is closed among the rows that are still there, no row is left behind in a
      restored directory, and it does not go into a directory that it restores. Of the trash
      nothing is asked but that the entry once recorded a linked subtree. */
  lemma RestoreKeepsTreeIff(db: Db, op: Operation, size: int, mtime: int)
    requires TreeOk(db.nodes, db.space) && op.kind == Restore && RestoreReady(db, op)
    requires LinkedSnapshot(db.space, op.snapshot, op.node, op.row.path)
    ensures KindRows(db, op, size, mtime).Ok?
    ensures TreeOk(KindRows(db, op, size, mtime).value, db.space) <==>
            ClosedNow(db.nodes, op.snapshot, op.node) && NoneLeft(db.nodes, op.snapshot) &&
                op.row.parent !in op.snapshot
  {
    hide TreeOk, KindRows, LinkedSnapshot, RestoreFits, ClosedNow, NoneLeft, FreeAt;
    LinkedUnique(db, op, size, mtime);
    ReadyWritten(db, op);
    RestoreTreeIff(db, op, size, mtime);
    LinkedFitsIff(db.nodes, db.space, op);
  }

  lemma ReadyWritten(db: Db, op: Operation)
    requires op.kind == Restore && RestoreReady(db, op) && LinkedSnapshot(db.space, op.snapshot, op.node, op.row.path)
    ensures WellWritten(db.space, op)
  {
  }
}
