/** When committing an operation changes a plan. */
module PlanChanges {
  import opened Paths
  import opened Metadata
  import opened Trees
  import opened LockPlan
  import opened LockCoverage
  import opened Interference

  /** The operation puts a row on the way to `p`, or takes one from it. */
  predicate Touches(op: Operation, p: Path) {
    || (HasPlace(op) && op.target <= p)
    || (op.kind in {Move, Trash} && op.source <= p)
  }

  // ------------------------------------------------------------------ an untouched way

  /** From `t` to `u`, rows on the way to `p` stay where they are and none is added. */
  ghost predicate SameWay(t: Table, u: Table, p: Path) {
    && (forall i :: Public(t, i) && t[i].path <= p ==> i in u && SameSpot(t[i], u[i]))
    && (forall j :: Public(u, j) && u[j].path <= p ==> PathTaken(t, u[j].path))
  }

  lemma {:induction false} ChainSame(t: Table, u: Table, space: Id, i: Id, w: bool, seen: set<Id>, p: Path)
    requires TreeOk(t, space) && Public(t, i) && t[i].path <= p && SameWay(t, u, p) && Below(t, seen, i)
    requires AddNode(t, space, i, w, seen).Ok?
    ensures i in u && AddNode(u, space, i, w, seen) == AddNode(t, space, i, w, seen)
    decreases |t[i].path|
  {
    if t[i].parent != "" {
      UpOne(t, space, i, seen);
      PrefixTrans(t[t[i].parent].path, t[i].path, p);
      ChainSame(t, u, space, t[i].parent, false, seen + {i}, p);
    }
  }

  lemma {:induction false} WalkSame(t: Table, u: Table, space: Id, i: Id, parts: Path, write: bool)
    requires TreeOk(t, space) && TreeOk(u, space) && Public(t, i) && SameWay(t, u, t[i].path + parts)
    requires Walk(t, space, i, parts, write).Ok?
    ensures i in u && Walk(u, space, i, parts, write) == Walk(t, space, i, parts, write)
    decreases |parts|
  {
    hide AllParented, AllLinked, AllLive, TrashShaped, AddNode;
    assert t[i].path <= t[i].path + parts;
    if parts != [] {
      var q := t[i].path + [parts[0]];
      assert q + parts[1..] == t[i].path + parts;
      var child := ByPath(t, q);
      if child.Err? {
        if ByPath(u, q).Ok? { PublicChild(u, space, i, ByPath(u, q).value); }
      } else {
        var c := child.value;
        WalkOne(t, space, i, parts, write, c);
        PublicChild(t, space, i, c);
        assert ByPath(u, q) == Ok(c);
        ChainSame(t, u, space, c, LastWrite(t, c, parts, write), {}, t[i].path + parts);
        WalkSame(t, u, space, c, parts[1..], write);
      }
    }
  }

  lemma RefSame(t: Table, u: Table, space: Id, q: Ref)
    requires TreeOk(t, space) && TreeOk(u, space) && Public(t, q.base) && SameWay(t, u, t[q.base].path + q.path)
    requires PlanRef(t, space, q).Ok?
    ensures UniquePaths(t) && UniquePaths(u) && PlanRef(u, space, q) == PlanRef(t, space, q)
  {
    hide AllParented, AllLinked, AllLive, TrashShaped, AddNode, Walk;
    var b := q.base;
    assert t[b].path <= t[b].path + q.path;
    ChainSame(t, u, space, b, if q.path == [] then q.write || t[b].dir else false, {}, t[b].path + q.path);
    if q.path != [] {
      WalkSame(t, u, space, b, q.path, q.write);
    }
  }

  lemma CommitSameWay(db: Db, op: Operation, size: int, mtime: int, p: Path)
    requires DbOk(db) && Enabled(db, op) && Commit(db, op, size, mtime).Ok? && !Touches(op, p)
    ensures SameWay(db.nodes, Commit(db, op, size, mtime).value.nodes, p)
  {
    hide AllParented, AllLinked, AllLive, TrashShaped, UniquePaths, Refresh, KindRows;
    var t, u := db.nodes, Commit(db, op, size, mtime).value.nodes;
    forall i | Public(t, i) && t[i].path <= p ensures i in u && SameSpot(t[i], u[i]) {
      if i == op.node {
        ReplacedSpot(db, op, size, mtime, p);
      } else {
        StayedRow(db, op, i, p);
        UntouchedRow(db, op, size, mtime, i);
      }
    }
    forall j | Public(u, j) && u[j].path <= p ensures PathTaken(t, u[j].path) {
      PlacedRow(db, op, size, mtime, j);
      if op.kind != Replace && op.target <= u[j].path {
        PrefixTrans(op.target, u[j].path, p);
      }
    }
  }

  lemma StayedRow(db: Db, op: Operation, i: Id, p: Path)
    requires DbOk(db) && Enabled(db, op) && Public(db.nodes, i) && db.nodes[i].path <= p && !Touches(op, p)
    ensures !Moved(db, op, i)
  {
    hide AllParented, AllLinked, AllLive, TrashShaped, UniquePaths;
    if op.kind == Restore {
      assert TrashOk(db.nodes, op.id, db.retained[op.id]);
    } else if op.source <= db.nodes[i].path {
      PrefixTrans(op.source, db.nodes[i].path, p);
    }
  }

  /** The row an operation is about is on an untouched way only if it is replaced in place. */
  lemma ReplacedSpot(db: Db, op: Operation, size: int, mtime: int, p: Path)
    requires DbOk(db) && Enabled(db, op) && Commit(db, op, size, mtime).Ok? && !Touches(op, p)
    requires Public(db.nodes, op.node) && db.nodes[op.node].path <= p
    ensures op.node in Commit(db, op, size, mtime).value.nodes
    ensures SameSpot(db.nodes[op.node], Commit(db, op, size, mtime).value.nodes[op.node])
  {
    hide AllParented, AllLinked, AllLive, TrashShaped, UniquePaths;
  }

  // ------------------------------------------------------------------ a touched way

  /** What a plan is stamped with is rows of the table, at their paths. */
  lemma {:induction false} ChainVisits(t: Table, space: Id, i: Id, w: bool, seen: set<Id>, v: Visit)
    requires i in t && AddNode(t, space, i, w, seen).Ok? && v in AddNode(t, space, i, w, seen).value.stamp
    ensures v.Visit? && v.id in t && t[v.id].path == v.path
    decreases t.Keys - seen
  {
    if !Reserved(t[i].path) && t[i].parent != "" && v != Visit(i, t[i].parent, t[i].path) {
      ChainVisits(t, space, t[i].parent, false, seen + {i}, v);
    }
  }

  lemma {:induction false} WalkVisits(t: Table, space: Id, i: Id, parts: Path, write: bool, v: Visit)
    requires i in t && UniquePaths(t) && Walk(t, space, i, parts, write).Ok?
    requires v in Walk(t, space, i, parts, write).value.stamp
    ensures v.Visit? && v.id in t && t[v.id].path == v.path
    decreases |parts|
  {
    hide AddNode;
    var c := ByPath(t, t[i].path + [parts[0]]).value;
    var w := (write && |parts| == 1) || (t[c].dir && |parts| == 1);
    if v in AddNode(t, space, c, w, {}).value.stamp {
      ChainVisits(t, space, c, w, {}, v);
    } else {
      WalkVisits(t, space, c, parts[1..], write, v);
    }
  }

  lemma RefVisits(t: Table, space: Id, q: Ref, v: Visit)
    requires UniquePaths(t) && q.base in t && q.base != "" && PlanRef(t, space, q).Ok?
    requires v in PlanRef(t, space, q).value.stamp
    ensures v.Visit? && v.id in t && t[v.id].path == v.path
  {
    hide AddNode, Walk;
    var w := if q.path == [] then q.write || t[q.base].dir else false;
    if v in AddNode(t, space, q.base, w, {}).value.stamp {
      ChainVisits(t, space, q.base, w, {}, v);
    } else {
      WalkVisits(t, space, q.base, q.path, q.write, v);
    }
  }

  /** A node that a plan locks is in its stamp. */
  lemma {:induction false} ChainStamps(t: Table, space: Id, i: Id, w: bool, seen: set<Id>, x: Id)
    requires i in t && x in t && x != space && AddNode(t, space, i, w, seen).Ok?
    requires NodeKey(x) in AddNode(t, space, i, w, seen).value.locks
    ensures Visit(x, t[x].parent, t[x].path) in AddNode(t, space, i, w, seen).value.stamp
    decreases t.Keys - seen
  {
    NodeKeysDiffer(x, i, t[i].parent, t[i].name);
    NodeKeysDiffer(x, space, t[i].parent, t[i].name);
    if x != i && !Reserved(t[i].path) && t[i].parent != "" {
      ChainStamps(t, space, t[i].parent, false, seen + {i}, x);
    }
  }

  lemma {:induction false} WalkStamps(t: Table, space: Id, i: Id, parts: Path, write: bool, x: Id)
    requires i in t && x in t && x != space && UniquePaths(t) && Walk(t, space, i, parts, write).Ok?
    requires NodeKey(x) in Walk(t, space, i, parts, write).value.locks
    ensures Visit(x, t[x].parent, t[x].path) in Walk(t, space, i, parts, write).value.stamp
    decreases |parts|
  {
    hide AddNode;
    if parts != [] {
      NodeKeysDiffer(x, x, i, parts[0]);
      var child := ByPath(t, t[i].path + [parts[0]]);
      if child.Ok? {
        var c := child.value;
        var w := (write && |parts| == 1) || (t[c].dir && |parts| == 1);
        if NodeKey(x) in AddNode(t, space, c, w, {}).value.locks {
          ChainStamps(t, space, c, w, {}, x);
        } else {
          WalkStamps(t, space, c, parts[1..], write, x);
        }
      }
    }
  }

  /** A plan is stamped with every live node on its way. */
  lemma RefStamps(t: Table, space: Id, q: Ref, x: Id)
    requires TreeOk(t, space) && Public(t, q.base) && Housed(t, x) && x != space && t[x].path <= t[q.base].path + q.path
    requires PlanRef(t, space, q).Ok?
    ensures Visit(x, t[x].parent, t[x].path) in PlanRef(t, space, q).value.stamp
  {
    hide AddNode, Walk, AllParented, AllLinked, AllLive, TrashShaped;
    PlanReaches(t, space, q, x);
    var w := if q.path == [] then q.write || t[q.base].dir else false;
    if NodeKey(x) in AddNode(t, space, q.base, w, {}).value.locks {
      ChainStamps(t, space, q.base, w, {}, x);
    } else {
      WalkStamps(t, space, q.base, q.path, q.write, x);
    }
  }

  /** A plan that visits a path has a row there. */
  lemma VisitedTaken(t: Table, space: Id, q: Ref, i: Id, parent: Id, p: Path)
    requires TreeOk(t, space) && q.base in t && UniquePaths(t) && PlanRef(t, space, q).Ok?
    requires Visit(i, parent, p) in PlanRef(t, space, q).value.stamp
    ensures PathTaken(t, p)
  {
    hide PlanRef, AllParented, AllLinked, AllLive, TrashShaped;
    RefVisits(t, space, q, Visit(i, parent, p));
  }

  lemma TakenAway(db: Db, op: Operation, size: int, mtime: int)
    requires DbOk(db) && Enabled(db, op) && Commit(db, op, size, mtime).Ok? && op.kind in {Move, Trash}
    ensures !PathTaken(Commit(db, op, size, mtime).value.nodes, op.source)
  {
    hide AllParented, AllLinked, AllLive, TrashShaped, Refresh, KindRows;
    var u := Commit(db, op, size, mtime).value.nodes;
    forall j | j in u ensures u[j].path != op.source {
      PlacedRow(db, op, size, mtime, j);
    }
  }

  /** Where a placed node is afterwards. */
  lemma PutThere(db: Db, op: Operation, size: int, mtime: int)
    requires DbOk(db) && Enabled(db, op) && Commit(db, op, size, mtime).Ok? && HasPlace(op)
    ensures var u := Commit(db, op, size, mtime).value.nodes;
            LivePublic(u, op.node) && u[op.node].path == op.target
    ensures op.node != db.space && !PathTaken(db.nodes, op.target)
  {
    hide AllParented, AllLinked, AllLive, TrashShaped, UniquePaths;
    if op.kind == Restore {
      assert TrashOk(db.nodes, op.id, db.retained[op.id]);
    }
  }

  lemma KeysStay(db: Db, op: Operation, size: int, mtime: int)
    requires Commit(db, op, size, mtime).Ok?
    ensures db.nodes.Keys <= Commit(db, op, size, mtime).value.nodes.Keys
  {
  }

  /** A commit changes a plan exactly if the operation touches the way to where the
      reference leads. */
  lemma PlanChangesIff(db: Db, op: Operation, size: int, mtime: int, q: Ref)
    requires DbOk(db) && Enabled(db, op) && Commit(db, op, size, mtime).Ok?
    requires Public(db.nodes, q.base) && UniquePaths(db.nodes) && PlanRef(db.nodes, db.space, q).Ok?
    ensures var u := Commit(db, op, size, mtime).value.nodes;
            && UniquePaths(u)
            && (PlanRef(u, db.space, q) != PlanRef(db.nodes, db.space, q) <==>
                 Touches(op, db.nodes[q.base].path + q.path))
            && (!Touches(op, db.nodes[q.base].path + q.path) ==> Public(u, q.base))
  {
    hide AllParented, AllLinked, AllLive, TrashShaped, RetainedOk, PlanRef, Commit, Enabled;
    var t, space, p := db.nodes, db.space, db.nodes[q.base].path + q.path;
    var db' := Commit(db, op, size, mtime).value;
    var u := db'.nodes;
    CommitKeepsDb(db, op, size, mtime);
    CommitSpace(db, op, size, mtime);
    KeysStay(db, op, size, mtime);
    if !Touches(op, p) {
      CommitSameWay(db, op, size, mtime, p);
      RefSame(t, u, space, q);
      assert t[q.base].path <= p;
    } else if op.kind in {Move, Trash} && op.source <= p {
      EnabledPaths(db, op);
      SourceNode(db, op);
      RefStamps(t, space, q, op.node);
      TakenAway(db, op, size, mtime);
      if PlanRef(u, space, q) == PlanRef(t, space, q) {
        VisitedTaken(u, space, q, op.node, t[op.node].parent, op.source);
      }
    } else {
      PutThere(db, op, size, mtime);
      BaseStays(db, op, size, mtime, q.base, p);
      if PlanRef(u, space, q) == PlanRef(t, space, q) {
        RefStamps(u, space, q, op.node);
        VisitedTaken(t, space, q, op.node, u[op.node].parent, op.target);
      }
    }
  }

  lemma CommitSpace(db: Db, op: Operation, size: int, mtime: int)
    requires Commit(db, op, size, mtime).Ok?
    ensures Commit(db, op, size, mtime).value.space == db.space
  {
  }

  lemma SourceNode(db: Db, op: Operation)
    requires DbOk(db) && Enabled(db, op) && op.kind in {Move, Trash}
    ensures Housed(db.nodes, op.node) && op.node != db.space && db.nodes[op.node].path == op.source
  {
  }

  /** A base above the place of an operation stays where it is. */
  lemma BaseStays(db: Db, op: Operation, size: int, mtime: int, b: Id, p: Path)
    requires DbOk(db) && Enabled(db, op) && Commit(db, op, size, mtime).Ok? && HasPlace(op)
    requires Public(db.nodes, b) && db.nodes[b].path <= p && !(op.kind == Move && op.source <= p)
    ensures var u := Commit(db, op, size, mtime).value.nodes; b in u && u[b].path == db.nodes[b].path
  {
    hide AllParented, AllLinked, AllLive, TrashShaped, UniquePaths, Refresh, KindRows;
    if op.kind == Restore {
      assert TrashOk(db.nodes, op.id, db.retained[op.id]);
    } else if op.kind == Move && op.source <= db.nodes[b].path {
      PrefixTrans(op.source, db.nodes[b].path, p);
    }
    UntouchedRow(db, op, size, mtime, b);
  }
}
