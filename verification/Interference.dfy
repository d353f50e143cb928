/** Operations with disjoint locks do not interfere: committing one leaves every
    plan that does not conflict with it, and every other enabled operation, as it was. */
module Interference {
  import opened Paths
  import opened Metadata
  import opened Trees
  import opened LockPlan
  import opened LockCoverage

  predicate SameSpot(r: Row, s: Row) {
    r.parent == s.parent && r.name == s.name && r.path == s.path && r.dir == s.dir
  }

  /** `locks` has a key on every row from the root down to `z`. */
  ghost predicate HeldTo(t: Table, locks: LockMap, z: Id)
    requires z in t
  {
    forall y :: y in t && t[y].path <= t[z].path ==> NodeKey(y) in locks
  }

  /** From `t` to `u`, the public rows held down to stay where they are, and the
      entries held free below them stay free. */
  ghost predicate Keeps(t: Table, u: Table, locks: LockMap) {
    && (forall z :: Public(t, z) && HeldTo(t, locks, z) ==> z in u && SameSpot(t[z], u[z]))
    && (forall i, part ::
          Public(t, i) && HeldTo(t, locks, i) && EntryKey(i, part) in locks && !PathTaken(t, t[i].path + [part]) ==>
            !PathTaken(u, t[i].path + [part]))
  }

  // ------------------------------------------------------------------ plans are stable

  lemma HeldUp(t: Table, locks: LockMap, i: Id, z: Id)
    requires i in t && z in t && t[z].path <= t[i].path && HeldTo(t, locks, i)
    ensures HeldTo(t, locks, z)
  {
    forall y | y in t && t[y].path <= t[z].path ensures NodeKey(y) in locks {
      PrefixTrans(t[y].path, t[z].path, t[i].path);
    }
  }

  lemma ChainHeld(t: Table, space: Id, i: Id, w: bool, locks: LockMap)
    requires TreeOk(t, space) && Public(t, i) && AddNode(t, space, i, w, {}).Ok?
    requires AddNode(t, space, i, w, {}).value.locks.Keys <= locks.Keys
    ensures HeldTo(t, locks, i)
  {
    forall y | y in t && t[y].path <= t[i].path ensures NodeKey(y) in locks {
      ChainCovers(t, space, i, w, {}, y);
    }
  }

  lemma {:induction false} ChainStable(t: Table, u: Table, space: Id, i: Id, w: bool, seen: set<Id>, locks: LockMap)
    requires TreeOk(t, space) && Public(t, i) && Below(t, seen, i)
    requires AddNode(t, space, i, w, seen).Ok? && HeldTo(t, locks, i) && Keeps(t, u, locks)
    ensures i in u && SameSpot(t[i], u[i])
    ensures AddNode(u, space, i, w, seen) == AddNode(t, space, i, w, seen)
    decreases |t[i].path|
  {
    if t[i].parent != "" {
      UpOne(t, space, i, seen);
      HeldUp(t, locks, i, t[i].parent);
      ChainStable(t, u, space, t[i].parent, false, seen + {i}, locks);
    }
  }

  lemma {:induction false} WalkStable(t: Table, u: Table, space: Id, i: Id, parts: Path, write: bool, locks: LockMap)
    requires TreeOk(t, space) && UniquePaths(u) && Public(t, i) && HeldTo(t, locks, i) && Keeps(t, u, locks)
    requires Walk(t, space, i, parts, write).Ok?
    requires Walk(t, space, i, parts, write).value.locks.Keys <= locks.Keys
    ensures i in u && Walk(u, space, i, parts, write) == Walk(t, space, i, parts, write)
    decreases |parts|
  {
    hide AllParented, AllLinked, AllLive, TrashShaped, AddNode;
    assert i in u && SameSpot(t[i], u[i]);
    if parts != [] {
      var q := t[i].path + [parts[0]];
      var child := ByPath(t, q);
      if child.Err? {
        assert EntryKey(i, parts[0]) in Walk(t, space, i, parts, write).value.locks;
        assert ByPath(u, q).Err?;
      } else {
        var c := child.value;
        WalkOne(t, space, i, parts, write, c);
        PublicChild(t, space, i, c);
        ChainHeld(t, space, c, LastWrite(t, c, parts, write), locks);
        assert c in u && SameSpot(t[c], u[c]);
        assert ByPath(u, q) == Ok(c);
        ChainStable(t, u, space, c, LastWrite(t, c, parts, write), {}, locks);
        WalkStable(t, u, space, c, parts[1..], write, locks);
      }
    }
  }

  /** No row is directly at the reserved name below the root. */
  lemma PublicChild(t: Table, space: Id, i: Id, c: Id)
    requires TreeOk(t, space) && Public(t, i) && c in t && |t[c].path| == |t[i].path| + 1 && t[i].path <= t[c].path
    ensures Public(t, c)
  {
  }

  lemma RefStable(t: Table, u: Table, space: Id, r: Ref, locks: LockMap)
    requires TreeOk(t, space) && UniquePaths(u) && Public(t, r.base) && Keeps(t, u, locks)
    requires PlanRef(t, space, r).Ok? && PlanRef(t, space, r).value.locks.Keys <= locks.Keys
    ensures PlanRef(u, space, r) == PlanRef(t, space, r)
  {
    hide AllParented, AllLinked, AllLive, TrashShaped, Keeps, HeldTo;
    var b := r.base;
    var w := if r.path == [] then r.write || t[b].dir else false;
    ChainHeld(t, space, b, w, locks);
    ChainStable(t, u, space, b, w, {}, locks);
    if r.path != [] {
      WalkStable(t, u, space, b, r.path, r.write, locks);
    }
  }

  lemma {:induction false} RefsStable(t: Table, u: Table, space: Id, refs: seq<Ref>, locks: LockMap)
    requires TreeOk(t, space) && UniquePaths(u) && Keeps(t, u, locks)
    requires forall r :: r in refs ==> Public(t, r.base)
    requires PlanRefs(t, space, refs).Ok? && PlanRefs(t, space, refs).value.locks.Keys <= locks.Keys
    ensures PlanRefs(u, space, refs) == PlanRefs(t, space, refs)
    decreases |refs|
  {
    if refs != [] {
      RefStable(t, u, space, refs[0], locks);
      RefsStable(t, u, space, refs[1..], locks);
    }
  }

  // ------------------------------------------------------------------ an operation's own locks

  predicate HasPlace(op: Operation) {
    op.kind in {Create, Move, Restore}
  }

  predicate HasSource(op: Operation) {
    op.kind in {Replace, Move, Trash}
  }

  /** What the lock set recorded in a journal entry contains. */
  ghost predicate OpHolds(db: Db, op: Operation, locks: LockMap) {
    && NodeKey(op.node) in locks && locks[NodeKey(op.node)]
    && NodeKey(db.space) in locks
    && (HasPlace(op) ==>
          && op.row.parent in db.nodes && HeldTo(db.nodes, locks, op.row.parent)
          && EntryKey(op.row.parent, op.row.name) in locks && locks[EntryKey(op.row.parent, op.row.name)])
    && (HasSource(op) ==> op.node in db.nodes && HeldTo(db.nodes, locks, op.node))
  }

  lemma HeldMore(t: Table, a: LockMap, b: LockMap, z: Id)
    requires z in t && HeldTo(t, a, z) && a.Keys <= b.Keys
    ensures HeldTo(t, b, z)
  {
  }

  lemma PlaceLocks(t: Table, space: Id, parent: Id, name: Name, target: Path)
    requires TreeOk(t, space) && FreePlace(t, parent, name, target)
    ensures var p := PlanRef(t, space, Ref(space, target, true));
            && p.Ok? && HeldTo(t, p.value.locks, parent)
            && EntryKey(parent, name) in p.value.locks && p.value.locks[EntryKey(parent, name)]
  {
    hide AllParented, AllLinked, AllLive, TrashShaped;
    var own := Ref(parent, [name], true);
    SpellingIrrelevant(t, space, own);
    LiveChain(t, space, parent, false, {});
    assert ByPath(t, target).Err? by {
      assert !PathTaken(t, target);
    }
    var chain := AddNode(t, space, parent, false, {}).value;
    assert Walk(t, space, parent, [name], true) == Ok(Plan(map[EntryKey(parent, name) := true], multiset{}));
    assert PlanRef(t, space, own).value.locks == Merge(chain.locks, map[EntryKey(parent, name) := true]);
    ChainHeld(t, space, parent, false, PlanRef(t, space, own).value.locks);
  }

  lemma NodeLocks(t: Table, space: Id, x: Id)
    requires TreeOk(t, space) && Housed(t, x)
    ensures var p := PlanRef(t, space, Ref(space, t[x].path, true));
            p.Ok? && HeldTo(t, p.value.locks, x)
  {
    hide AllParented, AllLinked, TrashShaped;
    if LivePublic(t, x) {
      SpellingIrrelevant(t, space, Ref(x, [], true));
      assert t[x].path + [] == t[x].path;
      LiveChain(t, space, x, true, {});
      ChainHeld(t, space, x, true, AddNode(t, space, x, true, {}).value.locks);
    } else {
      EntryLocks(t, space, x);
    }
  }

  /** The same for a file that is marked missing: it is planned from its directory. */
  lemma EntryLocks(t: Table, space: Id, x: Id)
    requires TreeOk(t, space) && Public(t, x) && x != space && LiveDir(t, t[x].parent)
    ensures var p := PlanRef(t, space, Ref(space, t[x].path, true));
            p.Ok? && HeldTo(t, p.value.locks, x)
  {
    var d, n := t[x].parent, t[x].name;
    assert Linked(t, x);
    var own := Ref(d, [n], true);
    SpellingIrrelevant(t, space, own);
    LiveChain(t, space, d, false, {});
    UpOne(t, space, x, {});
    LiveChain(t, space, d, false, {} + {x});
    var c := AddNode(t, space, x, true, {});
    assert c.Ok?;
    assert ByPath(t, t[d].path + [n]) == Ok(x);
    assert [n][1..] == [];
    assert Walk(t, space, x, [], true) == Ok(NOTHING);
    assert PlanRef(t, space, own).Ok? && Within(c.value.locks, PlanRef(t, space, own).value.locks);
    ChainHeld(t, space, x, true, PlanRef(t, space, own).value.locks);
  }

  /** An enabled operation can be planned, and its locks hold its node, its place
      and everything above them. */
  lemma OpLocksHold(db: Db, op: Operation)
    requires TreeOk(db.nodes, db.space) && Enabled(db, op)
    ensures OpLocks(db.nodes, db.space, op).Ok? && OpHolds(db, op, OpLocks(db.nodes, db.space, op).value)
  {
    hide AllParented, AllLinked, AllLive, TrashShaped, PlanRef, HeldTo;
    var t, space := db.nodes, db.space;
    var refs := OpRefs(space, op);
    if HasPlace(op) {
      PlaceLocks(t, space, op.row.parent, op.row.name, op.target);
    }
    if HasSource(op) {
      NodeLocks(t, space, op.node);
    }
    var locks := OpPlanned(t, space, op, refs);
    if HasPlace(op) {
      var p := PlanRef(t, space, Ref(space, op.target, true)).value.locks;
      HeldMore(t, p, locks, op.row.parent);
      RootHeld(t, space, locks, op.row.parent);
    }
    if HasSource(op) {
      var at := if op.kind == Replace then op.target else op.source;
      HeldMore(t, PlanRef(t, space, Ref(space, at, true)).value.locks, locks, op.node);
      RootHeld(t, space, locks, op.node);
    }
  }

  lemma RootHeld(t: Table, space: Id, locks: LockMap, z: Id)
    requires RootOk(t, space) && z in t && HeldTo(t, locks, z)
    ensures NodeKey(space) in locks
  {
  }

  /** The operation's locks contain those of each of its references. */
  lemma OpPlanned(t: Table, space: Id, op: Operation, refs: seq<Ref>) returns (locks: LockMap)
    requires UniquePaths(t) && refs == OpRefs(space, op) && !(Reserved(op.source) && Reserved(op.target))
    requires forall r :: r in refs ==> PlanRef(t, space, r).Ok?
    ensures OpLocks(t, space, op) == Ok(locks)
    ensures NodeKey(op.node) in locks && locks[NodeKey(op.node)]
    ensures forall r :: r in refs ==> Within(PlanRef(t, space, r).value.locks, locks)
  {
    hide PlanRef;
    var a := PlanRef(t, space, refs[0]).value;
    assert refs[1..] == [] || refs[1..] == [refs[1]];
    if |refs| == 1 {
      assert PlanRefs(t, space, refs[1..]) == Ok(NOTHING);
      assert PlanRefs(t, space, refs) == Ok(Join(a, NOTHING));
    } else {
      var b := PlanRef(t, space, refs[1]).value;
      assert refs[1..][1..] == [];
      assert PlanRefs(t, space, refs[1..]) == Ok(Join(b, NOTHING));
      assert PlanRefs(t, space, refs) == Ok(Join(a, Join(b, NOTHING)));
    }
    locks := OpLocks(t, space, op).value;
  }

  // ------------------------------------------------------------------ the rows an operation touches

  /** The rows whose place the operation rewrites. */
  predicate Moved(db: Db, op: Operation, z: Id)
    requires z in db.nodes
  {
    || (op.kind in {Move, Trash} && op.source <= db.nodes[z].path)
    || (op.kind == Restore && z in op.snapshot)
  }

  lemma UntouchedRow(db: Db, op: Operation, size: int, mtime: int, z: Id)
    requires Enabled(db, op) && KindRows(db, op, size, mtime).Ok?
    requires z in db.nodes && !Moved(db, op, z) && z != op.node
    ensures var u := Refresh(KindRows(db, op, size, mtime).value, {op.source, op.target}, db.tag);
            && z in u && SameButEtag(u[z], db.nodes[z])
            && (u[z] == db.nodes[z] || (db.nodes[z].dir && !Reserved(db.nodes[z].path) &&
                ((db.nodes[z].path <= op.source && !Reserved(op.source)) ||
                    (db.nodes[z].path <= op.target && !Reserved(op.target)))))
  {
    assert KindRows(db, op, size, mtime).value[z] == db.nodes[z];
  }

  lemma PlacedRow(db: Db, op: Operation, size: int, mtime: int, j: Id)
    requires DbOk(db) && Enabled(db, op) && KindRows(db, op, size, mtime).Ok?
    requires j in Refresh(KindRows(db, op, size, mtime).value, {op.source, op.target}, db.tag)
    ensures var u := Refresh(KindRows(db, op, size, mtime).value, {op.source, op.target}, db.tag);
            || (j in db.nodes && !Moved(db, op, j) && u[j].path == db.nodes[j].path)
            || (op.kind != Replace && op.target <= u[j].path && (j !in db.nodes || Moved(db, op, j)))
  {
    hide TreeOk, RetainedOk, Enabled, KindRows, Moved;
    assert Refresh(KindRows(db, op, size, mtime).value, {op.source, op.target}, db.tag)[j].path ==
           KindRows(db, op, size, mtime).value[j].path;
    PlacedKind(db, op, size, mtime, j);
  }

  lemma PlacedKind(db: Db, op: Operation, size: int, mtime: int, j: Id)
    requires DbOk(db) && Enabled(db, op) && KindRows(db, op, size, mtime).Ok?
    requires j in KindRows(db, op, size, mtime).value
    ensures var v := KindRows(db, op, size, mtime).value;
            || (j in db.nodes && !Moved(db, op, j) && v[j].path == db.nodes[j].path)
            || (op.kind != Replace && op.target <= v[j].path && (j !in db.nodes || Moved(db, op, j)))
  {
    hide TreeOk, UniquePaths, FreeAt, FreshId;
    if op.kind == Restore && j in op.snapshot {
      assert TrashOk(db.nodes, op.id, db.retained[op.id]);
      assert KindRows(db, op, size, mtime).value[j] == RestoredRow(db.nodes[j], op, j, db.tag);
    }
  }

  /** The target of one operation is not where another wants a free or existing place. */
  lemma OtherPlace(db: Db, op: Operation, locks: LockMap, i: Id, part: Name)
    requires DbOk(db) && Enabled(db, op) && OpLocks(db.nodes, db.space, op).Ok?
    requires !Conflict(locks, OpLocks(db.nodes, db.space, op).value)
    requires Public(db.nodes, i) && EntryKey(i, part) in locks
    ensures op.kind != Replace ==> !(op.target <= db.nodes[i].path + [part])
  {
    hide AllParented, AllLinked, AllLive, OpLocks, HeldTo;
    var t, q := db.nodes, db.nodes[i].path + [part];
    assert |t[i].path| > 0 ==> q[0] == t[i].path[0];
    if op.kind != Replace && op.target <= q {
      if op.target == q {
        if HasPlace(op) {
          OpLocksHold(db, op);
          LastEqual(t[op.row.parent].path, op.row.name, t[i].path, part);
        }
      } else {
        PrefixesCompare(op.target, t[i].path, q);
      }
    }
  }

  /** Committing an operation keeps the rows and entries of every lock set that does
      not conflict with it. */
  lemma OpKeeps(db: Db, op: Operation, size: int, mtime: int, locks: LockMap)
    requires DbOk(db) && Enabled(db, op) && OpLocks(db.nodes, db.space, op).Ok?
    requires !Conflict(locks, OpLocks(db.nodes, db.space, op).value)
    requires Commit(db, op, size, mtime).Ok?
    ensures Keeps(db.nodes, Commit(db, op, size, mtime).value.nodes, locks)
  {
    hide AllParented, AllLinked, AllLive, TrashShaped, OpLocks, Refresh, KindRows;
    var t, u := db.nodes, Commit(db, op, size, mtime).value.nodes;
    OpLocksHold(db, op);
    forall z | Public(t, z) && HeldTo(t, locks, z) ensures z in u && SameSpot(t[z], u[z]) {
      KeptRow(db, op, size, mtime, locks, z);
    }
    forall i, part | Public(t, i) && HeldTo(t, locks, i) && EntryKey(i, part) in locks &&
        !PathTaken(t, t[i].path + [part])
      ensures !PathTaken(u, t[i].path + [part])
    {
      OtherPlace(db, op, locks, i, part);
      forall j | j in u ensures u[j].path != t[i].path + [part] {
        PlacedRow(db, op, size, mtime, j);
      }
    }
  }

  lemma KeptRow(db: Db, op: Operation, size: int, mtime: int, locks: LockMap, z: Id)
    requires DbOk(db) && Enabled(db, op) && OpLocks(db.nodes, db.space, op).Ok?
    requires !Conflict(locks, OpLocks(db.nodes, db.space, op).value)
    requires Commit(db, op, size, mtime).Ok? && Public(db.nodes, z) && HeldTo(db.nodes, locks, z)
    ensures z != op.node && !Moved(db, op, z)
    ensures z in Commit(db, op, size, mtime).value.nodes
    ensures SameButEtag(Commit(db, op, size, mtime).value.nodes[z], db.nodes[z])
    ensures !db.nodes[z].dir ==> Commit(db, op, size, mtime).value.nodes[z] == db.nodes[z]
  {
    hide AllParented, AllLinked, AllLive, OpLocks;
    OpLocksHold(db, op);
    assert NodeKey(z) in locks;
    assert z != op.node;
    if op.kind == Restore {
      assert TrashOk(db.nodes, op.id, db.retained[op.id]);
      assert z !in op.snapshot;
    }
    UntouchedRow(db, op, size, mtime, z);
  }

  // ------------------------------------------------------------------ enabled operations stay enabled

  /** Two operations of the same database, planned on it, with disjoint locks. */
  ghost predicate Disjoint(db: Db, o1: Operation, o2: Operation) {
    && DbOk(db) && Enabled(db, o1) && Enabled(db, o2) && o1.id != o2.id
    && OpLocks(db.nodes, db.space, o1).Ok? && OpLocks(db.nodes, db.space, o2).Ok?
    && !Conflict(OpLocks(db.nodes, db.space, o2).value, OpLocks(db.nodes, db.space, o1).value)
  }

  lemma DisjointHolds(db: Db, o1: Operation, o2: Operation)
    requires Disjoint(db, o1, o2)
    ensures Disjoint(db, o2, o1)
    ensures OpHolds(db, o1, OpLocks(db.nodes, db.space, o1).value)
    ensures OpHolds(db, o2, OpLocks(db.nodes, db.space, o2).value)
  {
    hide TreeOk, OpLocks, OpHolds;
    OpLocksHold(db, o1);
    OpLocksHold(db, o2);
  }

  /** What an enabled operation says about its paths. */
  lemma EnabledPaths(db: Db, op: Operation)
    requires Enabled(db, op)
    ensures HasPlace(op) ==> FreePlace(db.nodes, op.row.parent, op.row.name, op.target)
    ensures HasSource(op) ==> Housed(db.nodes, op.node)
    ensures op.kind == Replace ==> LiveDir(db.nodes, db.nodes[op.node].parent)
    ensures HasSource(op) ==> db.nodes[op.node].path == if op.kind == Replace then op.target else op.source
    ensures op.kind == Trash ==> op.target == TrashPath(op.id) && FreeAt(db.nodes, op.target)
    ensures op.kind in {Create, Replace, Restore} ==> Reserved(op.source)
  {
  }

  /** A free place stays free. */
  lemma PlaceStable(db: Db, o1: Operation, o2: Operation, size: int, mtime: int)
    requires Disjoint(db, o1, o2) && HasPlace(o2) && Commit(db, o1, size, mtime).Ok?
    ensures FreePlace(Commit(db, o1, size, mtime).value.nodes, o2.row.parent, o2.row.name, o2.target)
  {
    hide AllParented, AllLinked, AllLive, TrashShaped, Enabled, OpLocks, Refresh, KindRows, HeldTo;
    EnabledPaths(db, o1);
    EnabledPaths(db, o2);
    var t, u := db.nodes, Commit(db, o1, size, mtime).value.nodes;
    var l1, l2 := OpLocks(t, db.space, o1).value, OpLocks(t, db.space, o2).value;
    DisjointHolds(db, o1, o2);
    KeptRow(db, o1, size, mtime, l2, o2.row.parent);
    OtherPlace(db, o1, l2, o2.row.parent, o2.row.name);
    if HasPlace(o1) {
      OtherPlace(db, o2, l1, o1.row.parent, o1.row.name);
    }
    forall j | j in u ensures !(o2.target <= u[j].path) {
      PlacedRow(db, o1, size, mtime, j);
      if o2.target <= u[j].path && o1.target <= u[j].path {
        PrefixesCompare(o1.target, o2.target, u[j].path);
      }
    }
  }

  /** The nodes that two disjoint operations write are not above one another. */
  lemma SourcesApart(db: Db, o1: Operation, o2: Operation)
    requires Disjoint(db, o1, o2) && HasSource(o1) && HasSource(o2)
    ensures o1.node in db.nodes && o2.node in db.nodes
    ensures !(db.nodes[o2.node].path <= db.nodes[o1.node].path) && !(db.nodes[o1.node].path <= db.nodes[o2.node].path)
  {
    hide TreeOk, Enabled, OpLocks;
    DisjointHolds(db, o1, o2);
  }

  /** A place is not at, above or below the node that a disjoint operation writes. */
  lemma PlaceApart(db: Db, o1: Operation, o2: Operation)
    requires Disjoint(db, o1, o2) && HasPlace(o1) && HasSource(o2)
    ensures o2.node in db.nodes
    ensures !(db.nodes[o2.node].path <= o1.target) && !(o1.target <= db.nodes[o2.node].path)
  {
    hide TreeOk, Enabled, OpLocks;
    DisjointHolds(db, o1, o2);
    EnabledPaths(db, o1);
    if db.nodes[o2.node].path <= o1.target {
      PrefixesCompare(db.nodes[o2.node].path, db.nodes[o1.row.parent].path, o1.target);
    }
  }

  /** One operation's public paths are not at or below the node that another writes. */
  lemma PathsApart(db: Db, o1: Operation, o2: Operation)
    requires Disjoint(db, o1, o2) && HasSource(o2) && o2.node != db.space
    ensures o2.node in db.nodes && db.nodes[o2.node].path != [] && !Reserved(db.nodes[o2.node].path)
    ensures !(db.nodes[o2.node].path <= o1.target)
    ensures !(db.nodes[o2.node].path <= o1.source)
    ensures o1.kind != Replace ==> !(o1.target <= db.nodes[o2.node].path)
    ensures HasSource(o1) ==> !(db.nodes[o2.node].path <= db.nodes[o1.node].path)
    ensures o1.kind in {Move, Trash} ==> !(o1.source <= db.nodes[o2.node].path)
  {
    hide AllParented, AllLinked, AllLive, TrashShaped, Enabled, OpLocks;
    EnabledPaths(db, o1);
    EnabledPaths(db, o2);
    RootOnly(db.nodes, db.space, o2.node);
    if HasPlace(o1) { PlaceApart(db, o1, o2); }
    if HasSource(o1) { SourcesApart(db, o1, o2); }
  }

  lemma RootOnly(t: Table, space: Id, i: Id)
    requires TreeOk(t, space) && i in t && i != space
    ensures t[i].path != []
  {
  }

  /** Nothing at or below the node that one operation writes is touched by another. */
  lemma SubtreeApart(db: Db, o1: Operation, o2: Operation, size: int, mtime: int, z: Id)
    requires Disjoint(db, o1, o2) && HasSource(o2) && o2.node != db.space && Commit(db, o1, size, mtime).Ok?
    requires z in db.nodes && o2.node in db.nodes && db.nodes[o2.node].path <= db.nodes[z].path
    ensures !Moved(db, o1, z) && z != o1.node
    ensures z in Commit(db, o1, size, mtime).value.nodes
    ensures Commit(db, o1, size, mtime).value.nodes[z] == db.nodes[z]
  {
    hide TreeOk, Enabled, OpLocks, Refresh, KindRows;
    var t := db.nodes;
    var s2 := t[o2.node].path;
    PathsApart(db, o1, o2);
    NotMoved(db, o1, o2, z);
    UntouchedRow(db, o1, size, mtime, z);
    if t[z].path <= o1.source {
      PrefixTrans(s2, t[z].path, o1.source);
    }
    if t[z].path <= o1.target {
      PrefixTrans(s2, t[z].path, o1.target);
    }
  }

  lemma NotMoved(db: Db, o1: Operation, o2: Operation, z: Id)
    requires Disjoint(db, o1, o2) && HasSource(o2) && o2.node != db.space
    requires z in db.nodes && o2.node in db.nodes && db.nodes[o2.node].path <= db.nodes[z].path
    ensures !Moved(db, o1, z) && z != o1.node
  {
    hide TreeOk, OpLocks;
    var t := db.nodes;
    PathsApart(db, o1, o2);
    if o1.kind in {Move, Trash} && o1.source <= t[z].path {
      PrefixesCompare(t[o2.node].path, o1.source, t[z].path);
    }
    if o1.kind == Restore {
      assert TrashOk(t, o1.id, db.retained[o1.id]);
    }
  }

  lemma SnapshotStable(db: Db, o1: Operation, o2: Operation, size: int, mtime: int)
    requires Disjoint(db, o1, o2) && HasSource(o2) && o2.node != db.space && Commit(db, o1, size, mtime).Ok?
    ensures o2.node in db.nodes
    ensures Subtree(Commit(db, o1, size, mtime).value.nodes, db.nodes[o2.node].path) ==
            Subtree(db.nodes, db.nodes[o2.node].path)
  {
    hide TreeOk, Enabled, OpLocks, Refresh, KindRows;
    PathsApart(db, o1, o2);
    var t, u := db.nodes, Commit(db, o1, size, mtime).value.nodes;
    var s2 := t[o2.node].path;
    forall j | j in u && s2 <= u[j].path ensures j in t && s2 <= t[j].path {
      PlacedRow(db, o1, size, mtime, j);
      if o1.kind != Replace && o1.target <= u[j].path {
        PrefixesCompare(o1.target, s2, u[j].path);
      }
    }
    forall z | z in t && s2 <= t[z].path ensures z in u && u[z] == t[z] {
      SubtreeApart(db, o1, o2, size, mtime, z);
    }
  }

  lemma TrashPlaceStable(db: Db, o1: Operation, o2: Operation, size: int, mtime: int)
    requires Disjoint(db, o1, o2) && o2.kind == Trash && Commit(db, o1, size, mtime).Ok?
    ensures FreeAt(Commit(db, o1, size, mtime).value.nodes, o2.target)
  {
    hide TreeOk, Enabled, OpLocks, Refresh, KindRows;
    var u := Commit(db, o1, size, mtime).value.nodes;
    EnabledPaths(db, o1);
    EnabledPaths(db, o2);
    assert TrashPath(o2.id)[2] != TrashPath(o1.id)[2];
    forall j | j in u ensures !(o2.target <= u[j].path) {
      PlacedRow(db, o1, size, mtime, j);
    }
  }

  /** Where the parents in a committed table come from. */
  lemma ParentFrom(db: Db, op: Operation, size: int, mtime: int, j: Id)
    requires DbOk(db) && Enabled(db, op) && KindRows(db, op, size, mtime).Ok?
    requires j in KindRows(db, op, size, mtime).value
    ensures j in db.nodes || j == op.node
    ensures var parent := KindRows(db, op, size, mtime).value[j].parent;
            (j in db.nodes && parent == db.nodes[j].parent) || (HasPlace(op) && parent == op.row.parent)
  {
    hide TreeOk, FreePlace, FreeAt, UniquePaths;
    if op.kind == Restore && j in op.snapshot {
      assert TrashOk(db.nodes, op.id, db.retained[op.id]);
    }
  }

  lemma FreshStable(db: Db, o1: Operation, o2: Operation, size: int, mtime: int)
    requires Disjoint(db, o1, o2) && o2.kind == Create && Commit(db, o1, size, mtime).Ok?
    ensures FreshId(Commit(db, o1, size, mtime).value.nodes, o2.node)
  {
    hide TreeOk, RetainedOk, OpLocks, HeldTo, KindRows, KindRetained, FreePlace;
    DisjointHolds(db, o1, o2);
    var v := KindRows(db, o1, size, mtime).value;
    forall j | j in v ensures v[j].parent != o2.node && j != o2.node {
      ParentFrom(db, o1, size, mtime, j);
    }
  }

  /** The directory of a file that is being replaced stays. */
  lemma DirStable(db: Db, o1: Operation, o2: Operation, size: int, mtime: int)
    requires Disjoint(db, o1, o2) && o2.kind == Replace && Commit(db, o1, size, mtime).Ok?
    ensures LiveDir(Commit(db, o1, size, mtime).value.nodes, db.nodes[o2.node].parent)
  {
    hide AllParented, AllLive, TrashShaped, OpLocks, Refresh, KindRows, FreeAt, TrashOk;
    var t, l2 := db.nodes, OpLocks(db.nodes, db.space, o2).value;
    DisjointHolds(db, o1, o2);
    ParentAbove(t, db.space, o2.node);
    HeldUp(t, l2, o2.node, t[o2.node].parent);
    KeptRow(db, o1, size, mtime, l2, t[o2.node].parent);
  }

  /** Non-interference. After one of two operations with disjoint locks commits, the
      other is still enabled and would record the same locks. */
  lemma EnabledStable(db: Db, o1: Operation, o2: Operation, size: int, mtime: int)
    requires Disjoint(db, o1, o2) && Commit(db, o1, size, mtime).Ok?
    ensures var after := Commit(db, o1, size, mtime).value;
            && Enabled(after, o2)
            && UniquePaths(after.nodes)
            && OpLocks(after.nodes, after.space, o2) == OpLocks(db.nodes, db.space, o2)
  {
    hide AllParented, AllLinked, AllLive, TrashShaped, OpLocks, Refresh, KindRows, FreeAt, HeldTo, Keeps, TrashOk;
    var t, after := db.nodes, Commit(db, o1, size, mtime).value;
    var l2 := OpLocks(t, db.space, o2).value;
    CommitKeepsDb(db, o1, size, mtime);
    DisjointHolds(db, o1, o2);
    if HasPlace(o2) { PlaceStable(db, o1, o2, size, mtime); }
    if HasSource(o2) { KeptRow(db, o1, size, mtime, l2, o2.node); }
    if o2.kind == Create { FreshStable(db, o1, o2, size, mtime); }
    if o2.kind == Replace { DirStable(db, o1, o2, size, mtime); }
    if o2.kind == Trash {
      SnapshotStable(db, o1, o2, size, mtime);
      TrashPlaceStable(db, o1, o2, size, mtime);
    }
    OpKeeps(db, o1, size, mtime, l2);
    OpLocksStable(t, after.nodes, db.space, o2);
  }

  lemma OpLocksStable(t: Table, u: Table, space: Id, op: Operation)
    requires TreeOk(t, space) && UniquePaths(u) && OpLocks(t, space, op).Ok?
    requires Keeps(t, u, OpLocks(t, space, op).value)
    ensures OpLocks(u, space, op) == OpLocks(t, space, op)
  {
    hide AllParented, AllLinked, AllLive, TrashShaped, Keeps, PlanRef;
    var refs := OpRefs(space, op);
    RefsStable(t, u, space, refs, OpLocks(t, space, op).value);
  }
}
