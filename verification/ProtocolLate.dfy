/** Where the lock protocol's promise ends, a second time: a request may name a node that
    is in the trash while it plans, and public again when it acts. Its locks then do not
    cover the way to the node. No recovery has a part in this. */
module ProtocolLate {
  import opened Paths
  import opened Metadata
  import opened Trees
  import opened LockPlan
  import opened LockCoverage
  import opened Interference
  import opened Requests
  import opened Protocol
  import opened ProtocolCommits
  import opened ProtocolRuns
  import opened ProtocolReach

  // ------------------------------------------------------------------ the scene

  const ROOT: Row := Row("", "", [], true, 0, 0, 0, 0)
  const DIR: Row := Row("s", "d", ["d"], true, 0, 0, 0, 0)
  const SUB: Row := Row("d", "x", ["d", "x"], true, 0, 0, 0, 0)
  const SNAPSHOT: Table := map["d" := DIR, "x" := SUB]
  const KEPT: Retained := Retained("d", ["d"], TrashItem, 0, 0, SNAPSHOT)

  /** A directory and the directory in it, in the trash. */
  const NODES: Table := map["s" := ROOT, "d" := DIR.(path := TrashPath("k")),
      "x" := SUB.(path := TrashPath("k") + ["x"])]
  const DB: Db := Db("s", NODES, map["k" := KEPT], map[], map[], [], 0, map[], 1)
  const START: Global := Global(DB, 0, 0, 0, map[0 := FREE, 1 := FREE, 2 := FREE], [])
  const STORY: Story := Story(START, true)

  /** The same, restored. */
  const BACK: Table := map["s" := ROOT.(etag := 1), "d" := DIR.(etag := 1), "x" := SUB.(etag := 1)]

  const BY_ID: Ref := Ref("x", [], true)
  const ITEM: Ref := Ref("d", [], true)
  const PLACE: Ref := Ref("s", ["d"], true)

  const ID_LOCKS: LockMap := map[NodeKey("x") := true, NodeKey("s") := false]

  const RESTORE: Operation := Bare("k", Restore, TrashPath("k"), ["d"], "", "d", DIR, SNAPSHOT)
  const TRASH_SUB: Operation := Bare("a", Trash, ["d", "x"], TrashPath("a"), "", "x", SUB.(etag := 1),
      map["x" := SUB.(etag := 1)])
  const TRASH_DIR: Operation := Bare("c", Trash, ["d"], TrashPath("c"), "", "d", DIR.(etag := 1),
      map["d" := DIR.(etag := 1), "x" := SUB.(etag := 1)])

  lemma Unique()
    ensures UniquePaths(BACK) && UniquePaths(NODES)
  {
    hide UniquePaths;
    assert BACK.Keys == {"s", "d", "x"} && NODES.Keys == {"s", "d", "x"};
    ThreePaths(BACK);
    ThreePaths(NODES);
  }

  lemma BackTree()
    ensures TreeOk(BACK, "s")
  {
    hide UniquePaths;
    Unique();
    assert BACK.Keys == {"s", "d", "x"};
    assert ["d"] == [] + ["d"] && ["d", "x"] == ["d"] + ["x"];
  }

  lemma StartTree()
    ensures TreeOk(NODES, "s")
  {
    hide UniquePaths;
    Unique();
    assert NODES.Keys == {"s", "d", "x"};
  }

  lemma StartInit()
    ensures DbOk(DB) && Init(START)
  {
    hide TreeOk;
    StartTree();
    assert NODES.Keys == {"s", "d", "x"} && SNAPSHOT.Keys == {"d", "x"};
    assert Rebase(["d"], ["d"], TrashPath("k")) == TrashPath("k");
    assert Rebase(["d", "x"], ["d"], TrashPath("k")) == TrashPath("k") + ["x"];
    assert TrashOk(NODES, "k", KEPT);
  }

  /** An entry with the locks that planning gives it. */
  lemma Planned(db: Db, op: Operation) returns (full: Operation)
    requires TreeOk(db.nodes, db.space) && UniquePaths(db.nodes) && Enabled(db, op)
    ensures full == op.(locks := full.locks) && Enabled(db, full) && NewUuids(db, full)
    ensures OpLocks(db.nodes, db.space, full) == Ok(full.locks) && OpHolds(db, full, full.locks)
  {
    hide TreeOk, PlanRefs, HeldTo;
    OpLocksHold(db, op);
    full := op.(locks := OpLocks(db.nodes, db.space, op).value);
    EnabledIds(db, op);
  }

  // ------------------------------------------------------------------ plans

  /** A trashed node's plan: the node and the space. */
  lemma TrashedPlan(i: Id)
    requires i == "d" || i == "x"
    ensures UniquePaths(NODES) && PlanRef(NODES, "s", Ref(i, [], true)).Ok?
    ensures PlanRef(NODES, "s", Ref(i, [], true)).value.locks == map[NodeKey(i) := true, NodeKey("s") := false]
  {
    hide NodeKey, UniquePaths;
    Unique();
    NodeKeysDiffer("s", i, "", "");
  }

  /** The place's plan conflicts with nothing that the first process holds. */
  lemma PlaceApart(t: Table)
    requires TreeOk(t, "s") && PlanRef(t, "s", PLACE).Ok? && "x" in t && !(t["x"].path <= ["d"])
    ensures !Conflict(ID_LOCKS, PlanRef(t, "s", PLACE).value.locks)
  {
    hide PlanRef, AllParented, AllLinked, AllLive, TrashShaped;
    var locks := PlanRef(t, "s", PLACE).value.locks;
    assert t["s"].path + ["d"] == ["d"];
    if NodeKey("x") in locks { PlanNames(t, "s", PLACE, "x"); }
    if NodeKey("s") in locks { PlanNames(t, "s", PLACE, "s"); }
  }

  /** Free locks, when only the first process holds any. */
  lemma Free(h: Global, locks: LockMap)
    requires h.actors.Keys == {0, 1, 2} && h.actors[0].held == ID_LOCKS && h.actors[1].held == map[]
    requires h.actors[2].held == map[]
    requires !Conflict(ID_LOCKS, locks)
    ensures forall j :: j in locks ==> LockFree(h, j, locks[j])
  {
    hide NodeKey;
  }

  // ------------------------------------------------------------------ the first process

  lemma FirstPart() returns (h: Global)
    ensures Reaches(STORY, h) && h.db == DB && h.actors.Keys == {0, 1, 2} && h.actors[1] == h.actors[2] == FREE
    ensures h.actors[0].pc.Ready? && h.actors[0].pc.refs == [BY_ID] && h.actors[0].held == ID_LOCKS
    ensures h.actors[0].own == ""
  {
    hide PlanRef, PlanRefs, Run, Reaches, NodeKey, PublicPlans, UniquePaths;
    TrashedPlan("x");
    OneRef(NODES, "s", BY_ID);
    ReachesSelf(STORY);
    var h1 := Lock(STORY, START, 0, [BY_ID], PlanRefs(NODES, "s", [BY_ID]).value);
    h := ClearDo(STORY, h1, 0);
  }

  // ------------------------------------------------------------------ the restore

  lemma RestoreEnabled()
    ensures Enabled(DB, RESTORE)
  {
    assert NODES.Keys == {"s", "d", "x"};
    assert ["d"] == [] + ["d"];
  }

  lemma RestoreAsked(op: Operation)
    requires op == RESTORE.(locks := op.locks)
    ensures UniquePaths(NODES) && Answer(DB, RestoreItem("k", "d", PLACE)) == Apply(Asked(op))
  {
    hide UniquePaths;
    Unique();
    assert Full("s", PLACE) == PLACE;
    assert PLACE.(path := PLACE.path[..0]) == Ref("s", [], true);
    assert Resolve(NODES, Ref("s", [], true)) == Ok("s");
    assert Parent(NODES, PLACE) == Ok("s");
    assert [] + ["d"] == ["d"];
  }

  lemma RestorePlan()
    ensures UniquePaths(NODES) && PlanRefs(NODES, "s", [ITEM, PLACE]).Ok?
    ensures !Conflict(ID_LOCKS, PlanRefs(NODES, "s", [ITEM, PLACE]).value.locks)
  {
    hide PlanRef, TreeOk, UniquePaths, NodeKey;
    Unique();
    StartTree();
    TrashedPlan("d");
    PlacePlanned();
    PlaceApart(NODES);
    OneRef(NODES, "s", PLACE);
    assert [ITEM, PLACE][1..] == [PLACE];
    NodeKeysDiffer("d", "s", "", "");
    NodeKeysDiffer("x", "s", "", "");
    NodeKeysDiffer("x", "d", "", "");
  }

  lemma PlacePlanned()
    ensures UniquePaths(NODES) && PlanRef(NODES, "s", PLACE).Ok?
  {
    hide TreeOk;
    Unique();
    StartTree();
    RestoreEnabled();
    RootPlaced();
  }

  lemma RootPlaced()
    ensures UniquePaths(NODES) && PlanRef(NODES, "s", PLACE).Ok?
  {
    hide AddNode, UniquePaths;
    Unique();
    StartTree();
    LiveChain(NODES, "s", "s", false, {});
    assert NODES.Keys == {"s", "d", "x"};
    assert NODES["s"].path + ["d"] == ["d"];
    assert !PathTaken(NODES, ["d"]);
  }

  /** What the restore leaves. */
  predicate Restored(db: Db) {
    db.space == "s" && db.nodes == BACK && db.retained == map[] && db.ops == map[] && db.uploads == map[] && db.tag == 2
  }

  const HALFWAY: Table := map["s" := ROOT, "d" := DIR.(etag := 1), "x" := SUB.(etag := 1)]

  lemma HalfwayUnique()
    ensures UniquePaths(HALFWAY)
  {
    hide UniquePaths;
    assert HALFWAY.Keys == {"s", "d", "x"};
    ThreePaths(HALFWAY);
  }

  lemma RestoredRows(db: Db, op: Operation)
    requires op == RESTORE.(locks := op.locks) && db == DB.(ops := map["k" := op])
    ensures KindRows(db, op, 0, 0) == Ok(HALFWAY)
  {
    hide UniquePaths;
    assert Regraft(["d"], ["d"], ["d"]) == ["d"] && Regraft(["d", "x"], ["d"], ["d"]) == ["d", "x"];
    assert NODES.Keys == {"s", "d", "x"};
    assert HALFWAY == map i | i in NODES :: if i in SNAPSHOT then RestoredRow(NODES[i], op, i, 1) else NODES[i];
    HalfwayUnique();
  }

  lemma RefreshedRows()
    ensures Refresh(HALFWAY, {TrashPath("k"), ["d"]}, 1) == BACK
  {
    var u := Refresh(HALFWAY, {TrashPath("k"), ["d"]}, 1);
    assert HALFWAY.Keys == {"s", "d", "x"};
    assert !Reserved(["d"]) && [] <= ["d"] && ["d"] <= ["d"];
    assert u["s"] == BACK["s"] && u["d"] == BACK["d"] && u["x"] == BACK["x"];
  }

  lemma RestoreCommits(db: Db, op: Operation)
    requires op == RESTORE.(locks := op.locks) && db == DB.(ops := map["k" := op])
    ensures Commit(db, op, 0, 0).Ok? && Restored(Commit(db, op, 0, 0).value)
  {
    hide KindRows, Refresh;
    RestoredRows(db, op);
    RefreshedRows();
  }

  /** Meanwhile the directory has been restored. */
  lemma SecondPart() returns (h: Global)
    ensures Reaches(STORY, h) && Restored(h.db) && h.actors.Keys == {0, 1, 2} && h.actors[1] == h.actors[2] == FREE
    ensures h.actors[0].pc.Ready? && h.actors[0].pc.refs == [BY_ID] && h.actors[0].held == ID_LOCKS
    ensures h.actors[0].own == ""
  {
    hide PlanRef, PlanRefs, Run, Reaches, NodeKey, PublicPlans, UniquePaths, Answer, Enabled, NewUuids, OpLocks,
        TreeOk, Commit, Restored, OpHolds, Conflict;
    var h0 := FirstPart();
    RestorePlan();
    Free(h0, PlanRefs(NODES, "s", [ITEM, PLACE]).value.locks);
    var h1 := Lock(STORY, h0, 1, [ITEM, PLACE], PlanRefs(NODES, "s", [ITEM, PLACE]).value);
    var h2 := ClearDo(STORY, h1, 1);
    RestoreEnabled();
    StartTree();
    var op := Planned(DB, RESTORE);
    RestoreAsked(op);
    assert Full("s", PLACE) == PLACE && Full("s", Ref("d", [], true)) == ITEM;
    var h3 := JournalDo(STORY, h2, 1, RestoreItem("k", "d", PLACE), op);
    RestoreCommits(h3.db, op);
    var h4 := CommitOwnDo(STORY, h3, 1);
    h := AbortDo(STORY, h4, 1);
  }

  // ------------------------------------------------------------------ the other process

  lemma DirPlan()
    ensures UniquePaths(BACK) && PlanRef(BACK, "s", PLACE).Ok? && PlanRefs(BACK, "s", [PLACE]).Ok?
    ensures PlanRefs(BACK, "s", [PLACE]).value.locks == PlanRef(BACK, "s", PLACE).value.locks
    ensures !Conflict(ID_LOCKS, PlanRef(BACK, "s", PLACE).value.locks)
    ensures NodeKey("d") in PlanRef(BACK, "s", PLACE).value.locks && PlanRef(BACK, "s", PLACE).value.locks[NodeKey("d")]
  {
    hide PlanRef, UniquePaths, AllParented, AllLinked, AllLive, TrashShaped, HeldTo;
    Unique();
    BackTree();
    NodeLocks(BACK, "s", "d");
    PlaceApart(BACK);
    OneRef(BACK, "s", PLACE);
    assert BACK["s"].path + PLACE.path == ["d"];
    PlanReaches(BACK, "s", PLACE, "d");
  }

  /** A third process has planned for the directory and found no entry in its way. */
  lemma ThirdPart() returns (h: Global)
    ensures Reaches(STORY, h) && Restored(h.db) && h.actors.Keys == {0, 1, 2} && h.actors[1] == FREE
    ensures h.actors[0].pc.Ready? && h.actors[0].pc.refs == [BY_ID] && h.actors[0].held == ID_LOCKS
    ensures h.actors[0].own == ""
    ensures h.actors[2].pc.Ready? && h.actors[2].pc.refs == [PLACE] && h.actors[2].own == ""
    ensures NodeKey("d") in h.actors[2].held && h.actors[2].held[NodeKey("d")]
  {
    hide PlanRef, PlanRefs, Run, Reaches, NodeKey, PublicPlans, UniquePaths, Conflict;
    var h0 := SecondPart();
    DirPlan();
    Free(h0, PlanRefs(BACK, "s", [PLACE]).value.locks);
    var h1 := Lock(STORY, h0, 2, [PLACE], PlanRefs(BACK, "s", [PLACE]).value);
    h := ClearDo(STORY, h1, 2);
  }

  // ------------------------------------------------------------------ the late deletion

  lemma SubEnabled(db: Db)
    requires Restored(db)
    ensures Enabled(db, TRASH_SUB)
  {
    InnerSubtree();
    assert BACK.Keys == {"s", "d", "x"};
  }

  lemma InnerSubtree()
    ensures Subtree(BACK, ["d", "x"]) == map["x" := SUB.(etag := 1)]
  {
    assert BACK.Keys == {"s", "d", "x"};
  }

  lemma SubAsked(db: Db, op: Operation)
    requires Restored(db) && op == TRASH_SUB.(locks := op.locks)
    ensures UniquePaths(db.nodes) && Answer(db, Delete(BY_ID, "a")) == Apply(Asked(op))
  {
    hide UniquePaths, Subtree;
    Unique();
    InnerSubtree();
    assert Full("s", BY_ID) == BY_ID;
    assert Resolve(BACK, BY_ID) == Ok("x");
  }

  /** The entry of the late deletion asks for the directory too. */
  lemma SubHolds(db: Db, op: Operation)
    requires Restored(db) && op == TRASH_SUB.(locks := op.locks) && OpHolds(db, op, op.locks)
    ensures NodeKey("d") in op.locks
  {
    assert BACK["d"].path <= BACK["x"].path;
  }

  /** The first process journals the deletion of the inner directory, under locks made for
      the trash. */
  lemma FourthPart() returns (h: Global, was: Db, op: Operation)
    ensures Reaches(STORY, h) && Restored(was) && h.db == was.(ops := map["a" := op])
    ensures op == TRASH_SUB.(locks := op.locks)
    ensures h.actors.Keys == {0, 1, 2} && h.actors[0].pc == Publish(op)
    ensures h.actors[2].pc.Ready? && h.actors[2].pc.refs == [PLACE] && h.actors[2].own == ""
    ensures Conflict(h.actors[2].held, op.locks)
  {
    hide Run, Reaches, NodeKey, UniquePaths, Answer, Enabled, NewUuids, OpLocks, TreeOk, OpHolds;
    var h0 := ThirdPart();
    was := h0.db;
    SubEnabled(was);
    BackTree();
    Unique();
    op := Planned(was, TRASH_SUB);
    SubHolds(was, op);
    SubAsked(was, op);
    assert Full("s", BY_ID) == BY_ID;
    h := JournalDo(STORY, h0, 0, Delete(BY_ID, "a"), op);
  }

  /** Plan stability fails without a recovery: a process that had found its locks free of
      journal entries has one in its way. */
  lemma LateEntry()
    ensures exists moves ::
              && Init(START) && Run(START, moves).Ok? && Calm(moves)
              && var h := Run(START, moves).value;
                 && 2 in h.actors && h.actors[2].pc.Ready? && "a" in h.db.ops
                 && Conflict(h.actors[2].held, h.db.ops["a"].locks)
  {
    hide Run, Init, Conflict, Restored, Calm;
    StartInit();
    var h, was, op := FourthPart();
    var moves :| Run(START, moves) == Ok(h) && Calm(moves);
  }

  // ------------------------------------------------------------------ what it leads to

  lemma DirSubtree()
    ensures Subtree(BACK, ["d"]) == TRASH_DIR.snapshot
  {
    assert BACK.Keys == {"s", "d", "x"};
  }

  lemma DirEnabled(db: Db)
    requires Restored(db)
    ensures Enabled(db, TRASH_DIR)
  {
    DirSubtree();
    assert BACK.Keys == {"s", "d", "x"};
  }

  lemma DirAsked(db: Db, was: Db, op: Operation)
    requires Restored(was) && db == was.(ops := db.ops) && op == TRASH_DIR.(locks := op.locks)
    ensures UniquePaths(db.nodes) && Answer(db, Delete(PLACE, "c")) == Apply(Asked(op))
  {
    hide UniquePaths, Subtree;
    Unique();
    DirSubtree();
    assert Full("s", PLACE) == PLACE;
    assert BACK["s"].path + PLACE.path == ["d"] && BACK["d"].path == ["d"] && PathTaken(BACK, ["d"]);
    assert ByPath(BACK, ["d"]) == Ok("d") by { FoundDir(); }
    assert Resolve(BACK, PLACE) == Ok("d");
  }

  lemma FoundDir()
    ensures UniquePaths(BACK) && ByPath(BACK, ["d"]) == Ok("d")
  {
    Unique();
    assert BACK["d"].path == ["d"] && PathTaken(BACK, ["d"]);
  }

  /** Both deletions are in the journal. */
  lemma FifthPart() returns (h: Global, was: Db, sub: Operation, dir: Operation)
    ensures Reaches(STORY, h) && Restored(was) && h.db == was.(ops := map["a" := sub, "c" := dir])
    ensures sub == TRASH_SUB.(locks := sub.locks) && dir == TRASH_DIR.(locks := dir.locks)
    ensures h.actors.Keys == {0, 1, 2} && h.actors[0].pc == Publish(sub) && h.actors[2].pc == Publish(dir)
  {
    hide Run, Reaches, NodeKey, UniquePaths, Answer, Enabled, NewUuids, OpLocks, TreeOk, OpHolds, Conflict;
    var h0;
    h0, was, sub := FourthPart();
    DirEnabled(was);
    BackTree();
    Unique();
    dir := Planned(was, TRASH_DIR);
    EnabledOps(was, h0.db, dir);
    EnabledIds(h0.db, dir);
    DirAsked(h0.db, was, dir);
    assert Full("s", PLACE) == PLACE;
    h := JournalDo(STORY, h0, 2, Delete(PLACE, "c"), dir);
  }

  const SUB_ENTRY: Retained := Retained("x", ["d", "x"], TrashItem, 0, 0, map["x" := SUB.(etag := 1)])
  const DIR_ENTRY: Retained := Retained("d", ["d"], TrashItem, 0, 0,
      map["d" := DIR.(etag := 1), "x" := SUB.(etag := 1)])

  /** The inner directory has gone to the trash by itself. */
  predicate SubGone(db: Db, dir: Operation) {
    && db.ops == map["c" := dir] && db.space == "s" && db.nodes.Keys == {"s", "d", "x"} && db.uploads == map[]
    && db.retained == map["a" := SUB_ENTRY]
    && db.nodes["s"].path == [] && db.nodes["d"].path == ["d"] && db.nodes["x"].path == TrashPath("a")
    && Family(db.nodes)
  }

  /** Parents and kinds, which no deletion changes. */
  predicate Family(t: Table)
    requires t.Keys == {"s", "d", "x"}
  {
    && t["s"].parent == "" && t["d"].parent == "s" && t["x"].parent == "d"
    && forall i :: i in t ==> t[i].dir && t[i].missing == 0
  }

  lemma SubCommits(db: Db, was: Db, sub: Operation, dir: Operation)
    requires Restored(was) && db == was.(ops := map["a" := sub, "c" := dir])
    requires sub == TRASH_SUB.(locks := sub.locks) && dir.id == "c"
    ensures Commit(db, sub, 0, 0).Ok? && SubGone(Commit(db, sub, 0, 0).value, dir)
  {
    hide UniquePaths, RebaseRows, Refresh;
    var r := RebaseRows(BACK, ["d", "x"], TrashPath("a"));
    SubRows();
    RefreshedPaths(r, {["d", "x"], TrashPath("a")}, 2);
    assert KindRows(db, sub, 0, 0) == Ok(r);
  }

  lemma BackFamily()
    ensures BACK.Keys == {"s", "d", "x"} && Family(BACK)
  {
    assert BACK.Keys == {"s", "d", "x"};
  }

  lemma RebasedFamily(t: Table, from: Path, to: Path)
    requires t.Keys == {"s", "d", "x"} && Family(t)
    ensures RebaseRows(t, from, to).Keys == t.Keys && Family(RebaseRows(t, from, to))
  {
  }

  lemma SubRows()
    ensures var r := RebaseRows(BACK, ["d", "x"], TrashPath("a"));
            && r.Keys == {"s", "d", "x"} && UniquePaths(r)
            && r["s"].path == [] && r["d"].path == ["d"] && r["x"].path == TrashPath("a") && Family(r)
  {
    hide UniquePaths, Family;
    var r := RebaseRows(BACK, ["d", "x"], TrashPath("a"));
    assert BACK.Keys == {"s", "d", "x"};
    RebaseSelf(["d", "x"], TrashPath("a"));
    assert r["s"].path == [] && r["d"].path == ["d"] && r["x"].path == TrashPath("a");
    ThreePaths(r);
    BackFamily();
    RebasedFamily(BACK, ["d", "x"], TrashPath("a"));
  }

  lemma ThreePaths(t: Table)
    requires t.Keys == {"s", "d", "x"} && t["s"].path != t["d"].path && t["d"].path != t["x"].path
    requires t["s"].path != t["x"].path
    ensures UniquePaths(t)
  {
  }

  lemma DirRows(t: Table)
    requires t.Keys == {"s", "d", "x"} && Family(t)
    requires t["s"].path == [] && t["d"].path == ["d"] && t["x"].path == TrashPath("a")
    ensures var r := RebaseRows(t, ["d"], TrashPath("c"));
            && r.Keys == {"s", "d", "x"} && UniquePaths(r) && Family(r)
            && r["s"].path == [] && r["d"].path == TrashPath("c") && r["x"].path == TrashPath("a")
  {
    hide UniquePaths;
    var r := RebaseRows(t, ["d"], TrashPath("c"));
    RebaseSelf(["d"], TrashPath("c"));
    assert TrashPath("a")[0] == CONTROL && CONTROL[0] == '.' && "d"[0] == 'd';
    assert TrashPath("c")[2] == "c" && TrashPath("a")[2] == "a";
    ThreePaths(r);
  }

  lemma DirCommits(db: Db, dir: Operation)
    requires SubGone(db, dir) && dir == TRASH_DIR.(locks := dir.locks)
    ensures Commit(db, dir, 0, 0).Ok?
    ensures var last := Commit(db, dir, 0, 0).value;
            Torn(last) && TreeOk(last.nodes, last.space)
  {
    hide UniquePaths, Refresh, RebaseRows, TreeOk;
    var r := RebaseRows(db.nodes, ["d"], TrashPath("c"));
    DirRows(db.nodes);
    RefreshedPaths(r, {["d"], TrashPath("c")}, db.tag);
    assert KindRows(db, dir, 0, 0) == Ok(r);
    BothGone(Refresh(r, {["d"], TrashPath("c")}, db.tag));
  }

  /** Each in the trash by itself, and both in the entry of the outer one. */
  predicate Torn(db: Db) {
    && db.space == "s" && db.ops == map[] && db.uploads == map[] && db.nodes.Keys == {"s", "d", "x"} && Family(db.nodes)
    && db.nodes["s"].path == [] && db.nodes["d"].path == TrashPath("c") && db.nodes["x"].path == TrashPath("a")
    && db.retained == map["a" := SUB_ENTRY, "c" := DIR_ENTRY]
  }

  lemma BothGone(t: Table)
    requires t.Keys == {"s", "d", "x"} && Family(t)
    requires t["s"].path == [] && t["d"].path == TrashPath("c") && t["x"].path == TrashPath("a")
    ensures TreeOk(t, "s")
  {
    hide UniquePaths;
    assert TrashPath("c")[2] == "c" && TrashPath("a")[2] == "a";
    ThreePaths(t);
  }

  /** An intact trash entry has below it what it lists. */
  lemma Listed(db: Db, key: OpId, i: Id)
    requires RetainedOk(db) && key in db.retained && db.retained[key].kind == TrashItem
    requires i in db.retained[key].snapshot
    ensures i in db.nodes && TrashPath(key) <= db.nodes[i].path
  {
    assert TrashOk(db.nodes, key, db.retained[key]);
  }

  lemma NotBelow(db: Db)
    requires "x" in db.nodes && db.nodes["x"].path == TrashPath("a")
    requires "c" in db.retained && db.retained["c"].kind == TrashItem && "x" in db.retained["c"].snapshot
    ensures !RetainedOk(db)
  {
    hide RetainedOk;
    assert TrashPath("c")[2] == "c" && TrashPath("a")[2] == "a";
    if RetainedOk(db) {
      Listed(db, "c", "x");
    }
  }

  /** Both then commit. */
  lemma SixthPart() returns (h: Global)
    ensures Reaches(STORY, h) && Torn(h.db) && TreeOk(h.db.nodes, h.db.space) && h.actors.Keys == {0, 1, 2} && Quiet(h)
  {
    hide Run, Reaches, Restored, Commit, SubGone, TreeOk;
    var h0, was, sub, dir := FifthPart();
    SubCommits(h0.db, was, sub, dir);
    var h1 := CommitOwnDo(STORY, h0, 0);
    DirCommits(h1.db, dir);
    var h2 := CommitOwnDo(STORY, h1, 2);
    var h3 := AbortDo(STORY, h2, 0);
    var h4 := AbortDo(STORY, h3, 1);
    h := AbortDo(STORY, h4, 2);
  }

  /** The table is still a tree, but the trash is no longer intact: the directory's entry
      lists the inner one, which is elsewhere in the trash. */
  lemma BrokenTrash()
    ensures exists moves ::
              && Init(START) && Run(START, moves).Ok? && Calm(moves)
              && var db := Run(START, moves).value.db;
                 && "c" in db.retained && db.retained["c"].kind == TrashItem && "x" in db.retained["c"].snapshot
                 && "x" in db.nodes && db.nodes["x"].path == TrashPath("a")
                 && TreeOk(db.nodes, db.space) && !RetainedOk(db)
  {
    hide Run, Init, Calm, RetainedOk, TreeOk;
    StartInit();
    var h := SixthPart();
    NotBelow(h.db);
    var moves :| Run(START, moves) == Ok(h) && Calm(moves);
  }
}
