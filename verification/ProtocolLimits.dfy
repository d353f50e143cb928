/** Where the lock protocol's promise ends: a restore reuses the ID of the entry that
    trashed the node, and a recovery that read the older entry takes that one's locks. */
module ProtocolLimits {
  import opened Paths
  import opened Metadata
  import opened Trees
  import opened LockPlan
  import opened LockCoverage
  import opened LockOrder
  import opened Requests
  import opened Protocol
  import opened ProtocolBase
  import opened ProtocolCommits
  import opened ProtocolRuns
  import opened ProtocolReach

  const ROOT: Row := Row("", "", [], true, 0, 0, 0, 0)
  const FILE: Row := Row("s", "x", ["x"], false, 0, 0, 0, 0)
  const NODES: Table := map["s" := ROOT, "x" := FILE]
  const START: Global := Global(Db("s", NODES, map[], map[], map[], [], 0, map[], 1), 0, 0, 0,
      map[0 := FREE, 1 := FREE, 2 := FREE], [])

  const STORY: Story := Story(START, false)

  const DOOMED: Ref := Ref("s", ["x"], true)
  const TRASHED: Ref := Ref("x", [], true)
  const WANTED: Ref := Ref("s", ["y"], true)

  const TRASH_LOCKS: LockMap := map[NodeKey("s") := false, EntryKey("s", "x") := true, NodeKey("x") := true]
  const PLACE_LOCKS: LockMap := map[NodeKey("s") := false, EntryKey("s", "y") := true]
  const RESTORE_LOCKS: LockMap := map[NodeKey("s") := false, EntryKey("s", "y") := true, NodeKey("x") := true]

  const TRASHING: Operation := Operation("k", Trash, ["x"], TrashPath("k"), map[], map[], "", "x", FILE,
      map["x" := FILE], 0, TRASH_LOCKS)
  const RESTORE: Operation := Operation("k", Restore, TrashPath("k"), ["y"], map[], map[], "", "x",
      FILE.(name := "y"), map["x" := FILE], 0, RESTORE_LOCKS)

  lemma KeysApart()
    ensures NodeKey("s") != NodeKey("x") && EntryKey("s", "x") != EntryKey("s", "y")
    ensures NodeKey("s") != EntryKey("s", "x") && NodeKey("s") != EntryKey("s", "y")
    ensures NodeKey("x") != EntryKey("s", "x") && NodeKey("x") != EntryKey("s", "y")
  {
    assert EntryKey("s", "x")[8] == 'x' && EntryKey("s", "y")[8] == 'y';
    NodeKeysDiffer("s", "x", "s", "y");
    NodeKeysDiffer("s", "x", "s", "x");
    NodeKeysDiffer("x", "x", "s", "y");
    NodeKeysDiffer("x", "x", "s", "x");
  }

  lemma StartTree()
    ensures TreeOk(NODES, "s") && DbOk(START.db)
  {
    assert NODES.Keys == {"s", "x"};
    assert [] + ["x"] == ["x"];
  }

  lemma StartInit()
    ensures Init(START)
  {
    hide DbOk;
    StartTree();
  }

  /** The root's own chain, with whatever has been seen below it. */
  lemma RootChain(t: Table, seen: set<Id>)
    requires RootOk(t, "s") && "s" !in seen
    ensures AddNode(t, "s", "s", false, seen) == Ok(Plan(map[NodeKey("s") := false], multiset{Visit("s", "", [])}))
  {
  }

  /** The file's chain while it is in the root. */
  lemma FileChain()
    ensures AddNode(NODES, "s", "x", true, {}).Ok? && AddNode(NODES, "s", "x", true, {}).value.locks == TRASH_LOCKS
  {
    hide NodeKey, EntryKey, AddNode;
    StartTree();
    RootChain(NODES, {} + {"x"});
    KeysApart();
    ChainOnce("x");
  }

  lemma ChainOnce(i: Id)
    requires i == "x" && AddNode(NODES, "s", "s", false, {} + {i}).Ok?
    ensures AddNode(NODES, "s", i, true, {}).Ok?
    ensures AddNode(NODES, "s", i, true, {}).value.locks ==
            Merge(Merge(map[NodeKey(i) := true], map[EntryKey("s", "x") := true]),
                AddNode(NODES, "s", "s", false, {} + {i}).value.locks)
  {
    hide NodeKey, EntryKey, Merge;
  }

  /** The walk from the root to the file. */
  lemma DoomedWalk()
    ensures UniquePaths(NODES) && Walk(NODES, "s", "s", ["x"], true).Ok?
    ensures Walk(NODES, "s", "s", ["x"], true).value.locks ==
            Merge(Merge(map[EntryKey("s", "x") := true], TRASH_LOCKS), map[])
  {
    hide NodeKey, EntryKey, AddNode, UniquePaths;
    FileChain();
    FoundFile();
    assert ["x"][1..] == [];
    assert Walk(NODES, "s", "x", [], true) == Ok(NOTHING);
  }

  /** Planning for the file that is to be trashed. */
  lemma DoomedLocks()
    ensures Merge(map[NodeKey("s") := false],
                  Merge(Merge(map[EntryKey("s", "x") := true], TRASH_LOCKS), map[])) == TRASH_LOCKS
  {
    hide NodeKey, EntryKey;
    KeysApart();
  }

  lemma DoomedPlan()
    ensures UniquePaths(NODES) && PlanRef(NODES, "s", DOOMED).Ok?
    ensures PlanRef(NODES, "s", DOOMED).value.locks == TRASH_LOCKS
  {
    hide NodeKey, EntryKey, AddNode, Walk, UniquePaths, Merge;
    StartTree();
    RootChain(NODES, {});
    DoomedWalk();
    DoomedLocks();
  }

  lemma FoundFile()
    ensures UniquePaths(NODES) && ByPath(NODES, NODES["s"].path + ["x"]) == Ok("x")
  {
    StartTree();
    assert NODES["s"].path + ["x"] == ["x"];
    assert NODES["x"].path == ["x"];
    assert PathTaken(NODES, ["x"]);
  }

  /** The locks of an entry with one public path. */
  lemma OneLocked(t: Table, op: Operation, r: Ref)
    requires UniquePaths(t) && OpRefs("s", op) == [r] && PlanRef(t, "s", r).Ok?
    ensures OpLocks(t, "s", op) == Ok(Merge(PlanRef(t, "s", r).value.locks, map[NodeKey(op.node) := true]))
  {
    hide PlanRef, PlanRefs;
    OneRef(t, "s", r);
  }

  lemma TrashLocked()
    ensures UniquePaths(NODES) && OpLocks(NODES, "s", TRASHING) == Ok(TRASH_LOCKS)
  {
    hide PlanRef, OpLocks, NodeKey, EntryKey;
    DoomedPlan();
    KeysApart();
    OneLocked(NODES, TRASHING, DOOMED);
    assert Merge(TRASH_LOCKS, map[NodeKey("x") := true]) == TRASH_LOCKS;
  }

  lemma TrashSubtree()
    ensures Subtree(NODES, ["x"]) == map["x" := FILE]
  {
    assert NODES.Keys == {"s", "x"};
  }

  lemma TrashEnabled()
    ensures Enabled(START.db, TRASHING) && NewUuids(START.db, TRASHING)
  {
    TrashSubtree();
  }

  lemma TrashAsked()
    ensures UniquePaths(NODES) && Answer(START.db, Delete(DOOMED, "k")) == Apply(Asked(TRASHING))
  {
    FoundFile();
    TrashSubtree();
    assert Full("s", DOOMED) == DOOMED;
    assert CONTROL !in ["x"];
    assert Resolve(NODES, DOOMED) == Ok("x");
  }

  /** The database after the file has been trashed. */
  ghost predicate Trashed(db: Db) {
    && db.space == "s" && DbOk(db) && db.ops == map[] && db.uploads == map[]
    && db.nodes.Keys == {"s", "x"} && db.nodes["x"].path == TrashPath("k") && db.nodes["s"].path == []
    && db.retained == map["k" := Retained("x", ["x"], TrashItem, 0, 0, map["x" := FILE])]
  }

  lemma TrashCommits(db: Db)
    requires db == START.db.(ops := map["k" := TRASHING])
    ensures Commit(db, TRASHING, 0, 0).Ok? && Trashed(Commit(db, TRASHING, 0, 0).value)
  {
    hide NodeKey, EntryKey, DbOk, Enabled, RebaseRows, Refresh, UniquePaths;
    StartTree();
    TrashEnabled();
    EnabledOps(START.db, db, TRASHING);
    SameDbOk(START.db, db);
    CommitKeepsDb(db, TRASHING, 0, 0);
    TrashRows();
    RefreshedPaths(RebaseRows(NODES, ["x"], TrashPath("k")), {["x"], TrashPath("k")}, 1);
  }

  lemma TrashRows()
    ensures var r := RebaseRows(NODES, ["x"], TrashPath("k"));
            r.Keys == {"s", "x"} && r["s"].path == [] && r["x"].path == TrashPath("k")
  {
    RebaseSelf(["x"], TrashPath("k"));
    assert NODES.Keys == {"s", "x"};
  }

  lemma SameDbOk(db: Db, db': Db)
    requires DbOk(db) && db' == db.(ops := db'.ops)
    ensures DbOk(db')
  {
    hide TreeOk, TrashOk;
  }

  /** Planning for the place the file is to be restored to. */
  lemma PlacePlan(db: Db)
    requires Trashed(db)
    ensures UniquePaths(db.nodes) && PlanRef(db.nodes, "s", WANTED).Ok?
    ensures PlanRef(db.nodes, "s", WANTED).value.locks == PLACE_LOCKS
  {
    hide NodeKey, EntryKey, AddNode, AllLinked, AllLive, AllParented, TrashShaped, RetainedOk;
    KeysApart();
    RootChain(db.nodes, {});
    assert db.nodes["s"].path + ["y"] == ["y"];
    assert !PathTaken(db.nodes, ["y"]);
    assert Walk(db.nodes, "s", "s", ["y"], true) == Ok(Plan(map[EntryKey("s", "y") := true], multiset{}));
  }

  lemma TrashedPlan(db: Db)
    requires Trashed(db)
    ensures UniquePaths(db.nodes) && PlanRef(db.nodes, "s", TRASHED).Ok?
    ensures forall j :: j in PlanRef(db.nodes, "s", TRASHED).value.locks ==> j == NodeKey("x") || j == NodeKey("s")
  {
    hide NodeKey, EntryKey, AllLinked, AllLive, AllParented, TrashShaped, RetainedOk;
  }

  lemma RestorePlan(db: Db)
    requires Trashed(db)
    ensures UniquePaths(db.nodes) && PlanRefs(db.nodes, "s", [TRASHED, WANTED]).Ok?
  {
    hide PlanRef, Trashed;
    PlacePlan(db);
    TrashedPlan(db);
    OneRef(db.nodes, "s", WANTED);
    assert [TRASHED, WANTED][1..] == [WANTED];
  }

  lemma RestoreLocked(db: Db)
    requires Trashed(db)
    ensures UniquePaths(db.nodes) && OpLocks(db.nodes, "s", RESTORE) == Ok(RESTORE_LOCKS)
  {
    hide PlanRef, OpLocks, NodeKey, EntryKey, Trashed;
    PlacePlan(db);
    KeysApart();
    OneLocked(db.nodes, RESTORE, WANTED);
    assert Merge(PLACE_LOCKS, map[NodeKey("x") := true]) == RESTORE_LOCKS;
  }

  lemma RestoreEnabled(db: Db)
    requires Trashed(db)
    ensures Enabled(db, RESTORE) && NewUuids(db, RESTORE)
  {
    hide AllLinked, AllLive, AllParented, TrashShaped, RetainedOk;
    assert ["y"] == [] + ["y"];
  }

  lemma RestoreAsked(db: Db)
    requires Trashed(db)
    ensures UniquePaths(db.nodes) && Answer(db, RestoreItem("k", "x", WANTED)) == Apply(Asked(RESTORE))
  {
    hide AllLinked, AllLive, AllParented, TrashShaped, RetainedOk;
    assert Full("s", WANTED) == WANTED;
    assert CONTROL !in ["y"];
    assert WANTED.(path := []) == Ref("s", [], true);
    assert ["y"][..0] == [];
    assert Resolve(db.nodes, Ref("s", [], true)) == Ok("s");
    assert Parent(db.nodes, WANTED) == Ok("s");
    assert [] + ["y"] == ["y"];
  }

  lemma Restored(db: Db, was: Db)
    requires Trashed(was) && db == was.(ops := map["k" := RESTORE]) && Commit(db, RESTORE, 0, 0).Ok?
    ensures var u := Commit(db, RESTORE, 0, 0).value.nodes;
            LivePublic(u, "x") && u["x"].path == ["y"] && Public(u, "s") && u["s"].path == []
  {
    hide DbOk, NodeKey, EntryKey;
    assert Regraft(["x"], ["x"], ["y"]) == ["y"];
  }

  /** Once restored, the file is what the place's plan would have to name. */
  lemma RestoreCommits(db: Db, was: Db)
    requires Trashed(was) && db == was.(ops := map["k" := RESTORE])
    ensures Commit(db, RESTORE, 0, 0).Ok?
    ensures var after := Commit(db, RESTORE, 0, 0).value;
            && after.ops == map[] && after.space == "s" && UniquePaths(after.nodes) && UniquePaths(was.nodes)
            && PlanRef(after.nodes, "s", WANTED) != PlanRef(was.nodes, "s", WANTED)
  {
    hide PlanRef, OpLocks, Enabled, Commit, NodeKey, EntryKey, AllLinked, AllLive, AllParented, TrashShaped, RetainedOk;
    RestoreEnabled(was);
    EnabledOps(was, db, RESTORE);
    SameDbOk(was, db);
    CommitKeepsDb(db, RESTORE, 0, 0);
    CommitFrame(db, RESTORE, 0, 0);
    PlacePlan(was);
    KeysApart();
    Restored(db, was);
    var u := Commit(db, RESTORE, 0, 0).value.nodes;
    if PlanRef(u, "s", WANTED).Ok? {
      PlanReaches(u, "s", WANTED, "x");
    }
  }

  const AFTERWARDS: map<ActorId, Actor> := map[0 := FREE.(pc := WantClaim(TRASHING, ToIdle)), 1 := FREE, 2 := FREE]

  /** A process has locked and planned the deletion, and may write it down. */
  lemma TrashReady() returns (h: Global)
    ensures Reaches(STORY, h) && h.db == START.db && 1 in h.actors && h.actors == START.actors[1 := h.actors[1]]
    ensures h.actors[1].pc.Ready? && MayJournal(h, h.actors[1], Delete(DOOMED, "k"), TRASHING)
    ensures h.actors[1].own == ""
  {
    hide PlanRef, PlanRefs, Run, Reaches, NodeKey, EntryKey, Answer, Enabled, NewUuids, OpLocks, PublicPlans,
        UniquePaths;
    DoomedPlan();
    OneRef(NODES, "s", DOOMED);
    TrashEnabled();
    TrashLocked();
    TrashAsked();
    ReachesSelf(STORY);
    var h1 := Lock(STORY, START, 1, [DOOMED], PlanRefs(NODES, "s", [DOOMED]).value);
    h := ClearDo(STORY, h1, 1);
    assert Full("s", DOOMED) == DOOMED;
  }

  /** The first process has trashed the file, and the recovery has read that entry. */
  lemma TrashSeen() returns (h: Global)
    ensures Reaches(STORY, h) && h.db == START.db.(ops := map["k" := TRASHING])
    ensures 1 in h.actors && h.actors[1].pc == Publish(TRASHING) && h.actors == AFTERWARDS[1 := h.actors[1]]
  {
    hide Run, Reaches, NodeKey, EntryKey, MayJournal;
    var h2 := TrashReady();
    var h3 := JournalDo(STORY, h2, 1, Delete(DOOMED, "k"), TRASHING);
    h := RecoverDo(STORY, h3, 0, "k");
  }

  lemma FirstPart() returns (h: Global)
    ensures Reaches(STORY, h) && Trashed(h.db) && h.actors == AFTERWARDS
  {
    hide Run, Reaches, NodeKey, EntryKey, Trashed, Commit;
    var h4 := TrashSeen();
    TrashCommits(h4.db);
    var h5 := CommitOwnDo(STORY, h4, 1);
    h := AbortDo(STORY, h5, 1);
  }

  lemma RestoreReady() returns (h: Global)
    ensures Reaches(STORY, h) && Trashed(h.db) && 1 in h.actors && h.actors == AFTERWARDS[1 := h.actors[1]]
    ensures h.actors[1].pc.Ready? && MayJournal(h, h.actors[1], RestoreItem("k", "x", WANTED), RESTORE)
  {
    hide PlanRef, PlanRefs, Run, Reaches, NodeKey, EntryKey, Answer, Enabled, NewUuids, OpLocks, PublicPlans,
        UniquePaths, DbOk;
    var h0 := FirstPart();
    RestorePlan(h0.db);
    RestoreEnabled(h0.db);
    RestoreLocked(h0.db);
    RestoreAsked(h0.db);
    var h1 := Lock(STORY, h0, 1, [TRASHED, WANTED], PlanRefs(h0.db.nodes, "s", [TRASHED, WANTED]).value);
    h := ClearDo(STORY, h1, 1);
    assert Full("s", WANTED) == WANTED && Full("s", Ref("x", [], true)) == TRASHED;
  }

  /** It has then begun to restore it, under the same ID, and stopped. */
  lemma SecondPart() returns (h: Global, was: Db)
    ensures Reaches(STORY, h) && Trashed(was) && h.db == was.(ops := map["k" := RESTORE]) && h.actors == AFTERWARDS
  {
    hide Run, Reaches, NodeKey, EntryKey, DbOk, MayJournal;
    var h2 := RestoreReady();
    was := h2.db;
    var h3 := JournalDo(STORY, h2, 1, RestoreItem("k", "x", WANTED), RESTORE);
    h := AbortDo(STORY, h3, 1);
  }

  const RECOVERING: Actor := FREE.(claim := "k", held := TRASH_LOCKS,
      pc := Acquire([], TRASH_LOCKS, ForOp(TRASHING, ToIdle)))

  /** The recovery now holds the trash entry's locks. */
  lemma ThirdPart() returns (h: Global, was: Db)
    ensures Reaches(STORY, h) && Trashed(was) && h.db == was.(ops := map["k" := RESTORE])
    ensures h.actors == map[0 := RECOVERING, 1 := FREE, 2 := FREE]
  {
    hide Run, Reaches, NodeKey, EntryKey, Trashed, Orders, ListLocks;
    var h0;
    h0, was := SecondPart();
    var order := OrderOf(TRASH_LOCKS);
    AllListed(order, TRASH_LOCKS);
    var h1 := ClaimDo(STORY, h0, 0, TRASHING, order);
    h := TakeAll(STORY, h1, 0);
  }

  /** Another process has locked and replanned the place that the restore goes to. */
  lemma FourthPart() returns (h: Global, was: Db)
    ensures Reaches(STORY, h) && Trashed(was) && h.db == was.(ops := map["k" := RESTORE])
    ensures UniquePaths(was.nodes) && PlanRef(was.nodes, "s", WANTED).Ok?
    ensures h.actors.Keys == {0, 1, 2} && h.actors[0] == RECOVERING
    ensures h.actors[2].pc.Verified? && WANTED in h.actors[2].pc.pub
    ensures h.actors[2].pc.pub[WANTED] == PlanRef(was.nodes, "s", WANTED).value
  {
    hide PlanRef, PlanRefs, Run, Reaches, NodeKey, EntryKey, DbOk;
    var h0;
    h0, was := ThirdPart();
    PlacePlan(was);
    OneRef(was.nodes, "s", WANTED);
    PlaceFree(h0);
    h := Lock(STORY, h0, 2, [WANTED], PlanRefs(was.nodes, "s", [WANTED]).value);
    RootPublic(was);
  }

  lemma RootPublic(db: Db)
    requires Trashed(db)
    ensures Public(db.nodes, "s")
  {
  }

  lemma PlaceFree(h: Global)
    requires h.actors == map[0 := RECOVERING, 1 := FREE, 2 := FREE]
    ensures forall j :: j in PLACE_LOCKS ==> LockFree(h, j, PLACE_LOCKS[j])
  {
    hide NodeKey, EntryKey;
    KeysApart();
  }

  /** Plan stability fails from a consistent start: a process that has been told that
      nothing conflicts with its locks holds a plan that planning no longer gives. */
  lemma StalePlan()
    ensures exists moves ::
              && Init(START) && Run(START, moves).Ok?
              && var h := Run(START, moves).value;
                 && 2 in h.actors && h.actors[2].pc.Ready? && WANTED in h.actors[2].pc.pub && h.db.ops == map[]
                 && UniquePaths(h.db.nodes) && PlanRef(h.db.nodes, h.db.space, WANTED) != Ok(h.actors[2].pc.pub[WANTED])
  {
    hide PlanRef, Commit, NodeKey, EntryKey, Trashed, Run, Init;
    StartInit();
    var h0, was := FourthPart();
    RestoreCommits(h0.db, was);
    var h1 := CommitOtherDo(STORY, h0, 0);
    var h2 := ClearDo(STORY, h1, 2);
    var moves :| Run(START, moves) == Ok(h2);
  }
}
