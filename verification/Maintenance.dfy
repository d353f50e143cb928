/** The metadata transactions that are not journalled: purging a trash entry and
    editing a node's metadata. */
module Maintenance {
  import opened Paths
  import opened Metadata
  import opened Trees
  import opened LockPlan
  import opened LockCoverage
  import opened Interference

  lemma PurgeKeepsDb(db: Db, key: OpId)
    requires DbOk(db) && key in db.retained && db.retained[key].kind == TrashItem
    ensures DbOk(Purged(db, key))
  {
    var t, u := db.nodes, Purged(db, key).nodes;
    PurgeTree(t, db.space, key, u);
    forall k | k in Purged(db, key).retained && db.retained[k].kind == TrashItem
      ensures TrashOk(u, k, db.retained[k])
    {
      PurgeKeepsTrash(t, u, key, k, db.retained[k]);
    }
  }

  lemma PurgeTree(t: Table, space: Id, key: OpId, u: Table)
    requires TreeOk(t, space) && u == map i | i in t && !(TrashPath(key) <= t[i].path) :: t[i]
    ensures TreeOk(u, space)
  {
    forall i | i in u && i != space && !TrashRoot(u[i].path) && u[i].parent in u ensures Linked(u, i) {
      assert Linked(t, i);
    }
    forall i | i in u && i != space && !Reserved(u[i].path) && u[i].missing == 0 ensures LiveDir(u, u[i].parent) {
      assert LiveDir(t, t[i].parent);
    }
  }

  lemma PurgeKeepsTrash(t: Table, u: Table, key: OpId, k: OpId, r: Retained)
    requires TrashOk(t, k, r) && k != key && u == map i | i in t && !(TrashPath(key) <= t[i].path) :: t[i]
    ensures TrashOk(u, k, r)
  {
    assert TrashPath(k)[2] != TrashPath(key)[2];
    forall i | i in r.snapshot ensures i in u && u[i] == t[i] {
      assert TrashPath(k) <= t[i].path;
    }
  }

  /** Purging leaves every public row, so every plan, alone. */
  lemma PurgeKeeps(db: Db, key: OpId, locks: LockMap)
    requires key in db.retained
    ensures Keeps(db.nodes, Purged(db, key).nodes, locks)
  {
  }

  /** Purging under a lock on the entry's node disturbs no operation that does not
      want that lock. */
  lemma PurgeStable(db: Db, key: OpId, op: Operation)
    requires DbOk(db) && Enabled(db, op) && OpLocks(db.nodes, db.space, op).Ok?
    requires key in db.retained && db.retained[key].kind == TrashItem
    requires op.node != db.retained[key].node
    ensures Enabled(Purged(db, key), op)
    ensures UniquePaths(Purged(db, key).nodes)
    ensures OpLocks(Purged(db, key).nodes, db.space, op) == OpLocks(db.nodes, db.space, op)
  {
    hide AllParented, AllLinked, AllLive, TrashShaped, OpLocks, Keeps, TrashOk;
    PurgeKeepsDb(db, key);
    PurgeKeeps(db, key, OpLocks(db.nodes, db.space, op).value);
    OpLocksStable(db.nodes, Purged(db, key).nodes, db.space, op);
    if op.kind == Trash {
      PurgeSubtree(db, key, op.source);
    }
  }

  lemma PurgeSubtree(db: Db, key: OpId, p: Path)
    requires key in db.retained && p != [] && !Reserved(p)
    ensures Subtree(Purged(db, key).nodes, p) == Subtree(db.nodes, p)
  {
  }

  lemma EditShape(db: Db, x: Id)
    requires x in db.nodes
    ensures SameShape(db.nodes, Edited(db, x).nodes)
    ensures forall z :: z in db.nodes && Edited(db, x).nodes[z] != db.nodes[z] ==>
              z == x || (db.nodes[z].dir && db.nodes[z].path <= db.nodes[x].path)
    ensures !Reserved(db.nodes[x].path) ==> SameReserved(db.nodes, Edited(db, x).nodes)
  {
  }

  lemma EditKeepsDb(db: Db, x: Id)
    requires DbOk(db) && Public(db.nodes, x)
    ensures DbOk(Edited(db, x))
  {
    hide TreeOk, TrashOk, Edited;
    EditFrame(db, x);
    EditShape(db, x);
    ShapeTree(db.nodes, Edited(db, x).nodes, db.space);
    forall k | k in db.retained && db.retained[k].kind == TrashItem
      ensures TrashOk(Edited(db, x).nodes, k, db.retained[k])
    {
      KeepTrash(db.nodes, Edited(db, x).nodes, k, db.retained[k]);
    }
  }

  lemma EditFrame(db: Db, x: Id)
    requires x in db.nodes
    ensures Edited(db, x) == db.(nodes := Edited(db, x).nodes, tag := db.tag + 1)
  {
  }

  lemma EditKeeps(db: Db, x: Id, locks: LockMap)
    requires x in db.nodes
    ensures Keeps(db.nodes, Edited(db, x).nodes, locks)
  {
    EditShape(db, x);
    assert forall z :: z in db.nodes ==> SamePlace(db.nodes[z], Edited(db, x).nodes[z]);
  }

  /** An operation with disjoint locks writes no node at or above the edited one. */
  lemma EditApart(db: Db, x: Id, held: LockMap, op: Operation)
    requires DbOk(db) && x in db.nodes && Enabled(db, op) && OpLocks(db.nodes, db.space, op).Ok?
    requires HeldTo(db.nodes, held, x) && !Conflict(held, OpLocks(db.nodes, db.space, op).value)
    ensures !EditHits(db, x, op)
  {
    hide TreeOk, OpLocks, TrashOk, FreePlace, FreeAt;
    OpLocksHold(db, op);
  }

  lemma FreePlaceShape(t: Table, u: Table, parent: Id, name: Name, target: Path)
    requires SameShape(t, u) && FreePlace(t, parent, name, target)
    ensures FreePlace(u, parent, name, target)
  {
    forall i | i in u ensures !(target <= u[i].path) {
      assert SamePlace(t[i], u[i]);
    }
    assert SamePlace(t[parent], u[parent]);
  }

  lemma FreeIdShape(t: Table, u: Table, i: Id, p: Path)
    requires SameShape(t, u)
    ensures FreshId(t, i) ==> FreshId(u, i)
    ensures FreeAt(t, p) ==> FreeAt(u, p)
  {
    forall j | j in u ensures SamePlace(t[j], u[j]) {}
  }

  /** Editing a node under a write lock on it disturbs no operation with disjoint locks. */
  lemma EditStable(db: Db, x: Id, held: LockMap, op: Operation)
    requires DbOk(db) && Public(db.nodes, x) && Enabled(db, op) && OpLocks(db.nodes, db.space, op).Ok?
    requires HeldTo(db.nodes, held, x) && !Conflict(held, OpLocks(db.nodes, db.space, op).value)
    ensures Enabled(Edited(db, x), op)
    ensures UniquePaths(Edited(db, x).nodes)
    ensures OpLocks(Edited(db, x).nodes, db.space, op) == OpLocks(db.nodes, db.space, op)
  {
    hide AllParented, AllLinked, AllLive, TrashShaped, OpLocks, Edited, Keeps, Enabled, HeldTo, TrashOk;
    var t, u := db.nodes, Edited(db, x).nodes;
    EditFrame(db, x);
    EditKeepsDb(db, x);
    EditKeeps(db, x, OpLocks(t, db.space, op).value);
    OpLocksStable(t, u, db.space, op);
    EditApart(db, x, held, op);
    EditEnabledIff(db, x, op);
  }

  /** An edit of `x` runs into a pending replacement of `x`, or into a pending deletion
      whose snapshot has it. */
  predicate EditHits(db: Db, x: Id, op: Operation)
    requires x in db.nodes
  {
    || (op.kind == Replace && op.node == x)
    || (op.kind == Trash && op.source <= db.nodes[x].path)
  }

  /** An operation survives an edit exactly if it is not hit by it: the revision that the
      edit draws is a new one. */
  lemma EditEnabledIff(db: Db, x: Id, op: Operation)
    requires x in db.nodes && Enabled(db, op)
    ensures !EditHits(db, x, op) ==> Enabled(Edited(db, x), op)
    ensures EditHits(db, x, op) && db.nodes[x].etag != db.tag ==> !Enabled(Edited(db, x), op)
  {
    hide Edited, FreePlace, FreshId, FreeAt, SameShape;
    var t, u := db.nodes, Edited(db, x).nodes;
    EditFrame(db, x);
    EditShape(db, x);
    FreeIdShape(t, u, op.node, op.target);
    EditStamp(db, x);
    if HasPlace(op) { FreePlaceShape(t, u, op.row.parent, op.row.name, op.target); }
    if op.kind == Replace { LiveDirShape(t, u, t[op.node].parent); }
    if HasSource(op) { RowShape(t, u, op.node); }
    if op.kind == Trash {
      if op.source <= t[x].path {
        assert Subtree(t, op.source)[x] == t[x];
        assert x in Subtree(u, op.source) ==> Subtree(u, op.source)[x] == u[x];
      } else {
        EditSubtree(db, x, op.source);
      }
    }
  }

  lemma EditStamp(db: Db, x: Id)
    requires x in db.nodes
    ensures x in Edited(db, x).nodes && Edited(db, x).nodes[x].etag == db.tag
  {
  }

  lemma RowShape(t: Table, u: Table, i: Id)
    requires SameShape(t, u) && i in t
    ensures i in u && SamePlace(t[i], u[i])
  {
  }

  lemma LiveDirShape(t: Table, u: Table, d: Id)
    requires SameShape(t, u) && LiveDir(t, d)
    ensures LiveDir(u, d)
  {
    assert SamePlace(t[d], u[d]);
  }

  lemma EditSubtree(db: Db, x: Id, p: Path)
    requires x in db.nodes && !(p <= db.nodes[x].path)
    ensures Subtree(Edited(db, x).nodes, p) == Subtree(db.nodes, p)
  {
    hide Edited;
    EditShape(db, x);
    var t, u := db.nodes, Edited(db, x).nodes;
    forall z | z in t ensures p <= u[z].path <==> p <= t[z].path {
      assert SamePlace(t[z], u[z]);
    }
    forall z | z in t && p <= t[z].path ensures u[z] == t[z] {
      if t[z].path <= t[x].path {
        PrefixTrans(p, t[z].path, t[x].path);
      }
    }
  }
}
