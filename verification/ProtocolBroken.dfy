/** From a trash that is not intact, ordinary requests lead to a table that is no tree. */
module ProtocolBroken {
  import opened Paths
  import opened Metadata
  import opened Trees
  import opened TreeChanges
  import opened LockPlan
  import opened LockCoverage
  import opened Interference
  import opened Requests
  import opened Protocol
  import opened ProtocolRuns
  import opened ProtocolReach
  import opened ProtocolLate

  // ------------------------------------------------------------------ restoring to the root

  /** The entry that restoring a trashed node to the root asks for. */
  function ToRoot(db: Db, key: OpId, name: Name): Operation
    requires key in db.retained && db.retained[key].node in db.retained[key].snapshot
  {
    var r := db.retained[key];
    Bare(key, Restore, TrashPath(key), [name], "", r.node, r.snapshot[r.node].(parent := "s", name := name), r.snapshot)
  }

  ghost predicate Restorable(db: Db, key: OpId, name: Name) {
    && db.space == "s" && TreeOk(db.nodes, "s") && db.ops == map[] && key != "" && name != CONTROL &&
         FreeAt(db.nodes, [name])
    && key in db.retained && db.retained[key].kind == TrashItem &&
         Closed(db.retained[key].snapshot, db.retained[key].node)
    && db.retained[key].node in db.retained[key].snapshot &&
         db.retained[key].snapshot[db.retained[key].node].path == db.retained[key].path
    && db.retained[key].node in db.nodes && Reserved(db.nodes[db.retained[key].node].path)
  }

  lemma RootPlace(t: Table, name: Name)
    requires TreeOk(t, "s") && name != CONTROL && FreeAt(t, [name])
    ensures FreePlace(t, "s", name, [name])
  {
    hide FreeAt, UniquePaths;
    assert [] + [name] == [name];
  }

  lemma RestorableEnabled(db: Db, key: OpId, name: Name)
    requires Restorable(db, key, name)
    ensures Enabled(db, ToRoot(db, key, name))
  {
    hide TreeOk, FreePlace, FreeAt, Closed;
    RootPlace(db.nodes, name);
  }

  lemma RestorableAsked(db: Db, key: OpId, name: Name, op: Operation)
    requires Restorable(db, key, name) && op == ToRoot(db, key, name).(locks := op.locks)
    ensures UniquePaths(db.nodes) && Answer(db, RestoreItem(key, op.node, Ref("s", [name], true))) == Apply(Asked(op))
  {
    hide FreeAt, Closed, AllParented, AllLinked, AllLive, TrashShaped;
    var dst := Ref("s", [name], true);
    assert Full("s", dst) == dst;
    assert dst.(path := dst.path[..0]) == Ref("s", [], true);
    assert Resolve(db.nodes, Ref("s", [], true)) == Ok("s");
    assert CONTROL !in [name];
    assert Parent(db.nodes, dst) == Ok("s");
    assert [] + [name] == [name];
  }

  lemma RestorablePlan(db: Db, key: OpId, name: Name)
    requires Restorable(db, key, name)
    ensures UniquePaths(db.nodes)
    ensures PlanRefs(db.nodes, "s", [Ref(db.retained[key].node, [], true), Ref("s", [name], true)]).Ok?
  {
    hide FreeAt, Closed, AllParented, AllLinked, AllLive, TrashShaped, HeldTo, Walk;
    var item, dst := Ref(db.retained[key].node, [], true), Ref("s", [name], true);
    RootPlace(db.nodes, name);
    PlaceLocks(db.nodes, "s", "s", name, [name]);
    OneRef(db.nodes, "s", dst);
    assert [item, dst][1..] == [dst];
    assert PlanRef(db.nodes, "s", item).Ok?;
  }

  /** When nobody else is at work, a restore to the root is carried out. */
  lemma RestoreNow(h: Global, key: OpId, name: Name) returns (k: Global, op: Operation)
    requires Reaches(STORY, h) && Quiet(h) && 0 in h.actors && Restorable(h.db, key, name)
    requires Commit(h.db, ToRoot(h.db, key, name), 0, 0).Ok?
    ensures Reaches(STORY, k) && k.actors == h.actors && k.db == Commit(h.db, ToRoot(h.db, key, name), 0, 0).value
    ensures Quiet(k)
  {
    hide Run, Reaches, Restorable, Enabled, NewUuids, Commit, TreeOk, PlanRefs, Answer, OpLocks, OpHolds, UniquePaths;
    RestorableSays(h.db, key, name);
    RestorableEnabled(h.db, key, name);
    RestorablePlan(h.db, key, name);
    op := Planned(h.db, ToRoot(h.db, key, name));
    RestorableAsked(h.db, key, name, op);
    SameCommit(h.db, ToRoot(h.db, key, name), op);
    var dst := Ref("s", [name], true);
    assert Full("s", dst) == dst && Full("s", Ref(op.node, [], true)) == Ref(op.node, [], true);
    k := Carry(STORY, h, 0, RestoreItem(key, op.node, dst), op);
  }

  lemma RestorableSays(db: Db, key: OpId, name: Name)
    requires Restorable(db, key, name)
    ensures TreeOk(db.nodes, db.space) && UniquePaths(db.nodes) && db.space == "s" && key != "" && key in db.retained
    ensures db.retained[key].node in db.retained[key].snapshot && db.retained[key].node != ""
  {
  }

  /** The locks that an entry records and the journal have no part in its commit. */
  lemma SameCommit(db: Db, op: Operation, full: Operation)
    requires full == op.(locks := full.locks) && db.ops == map[] && Commit(db, op, 0, 0).Ok?
    ensures Commit(db.(ops := map[full.id := full]), full, 0, 0) == Commit(db, op, 0, 0)
  {
    hide Refresh, UniquePaths;
    assert KindRows(db.(ops := map[full.id := full]), full, 0, 0) == KindRows(db, op, 0, 0)
        by { SameRows(db, op, full); }
    assert map[full.id := full] - {full.id} == map[];
  }

  lemma SameRows(db: Db, op: Operation, full: Operation)
    requires full == op.(locks := full.locks)
    ensures KindRows(db.(ops := map[full.id := full]), full, 0, 0) == KindRows(db, op, 0, 0)
  {
    hide UniquePaths, Regraft;
    assert forall r, i, tag :: i in op.snapshot ==> RestoredRow(r, full, i, tag) == RestoredRow(r, op, i, tag);
    assert (map i | i in db.nodes ::
        if i in full.snapshot then RestoredRow(db.nodes[i], full, i, db.tag) else db.nodes[i]) ==
           (map i | i in db.nodes :: if i in op.snapshot then RestoredRow(db.nodes[i], op, i, db.tag) else db.nodes[i]);
  }

  // ------------------------------------------------------------------ the inner directory comes back

  /** The inner directory is at `y`, and still in the entry of the outer one. */
  predicate Apart(db: Db) {
    && db.space == "s" && db.ops == map[] && db.retained == map["c" := DIR_ENTRY] && db.nodes.Keys == {"s", "d", "x"}
    && db.nodes["s"].path == [] && db.nodes["s"].dir && db.nodes["s"].missing == 0 && db.nodes["s"].parent == ""
    && db.nodes["d"].path == TrashPath("c") && db.nodes["d"].dir && db.nodes["d"].parent == "s"
    && db.nodes["x"].path == ["y"] && db.nodes["x"].dir && db.nodes["x"].missing == 0
    && db.nodes["x"].parent == "s" && db.nodes["x"].name == "y"
  }

  lemma Elsewhere(name: Name, p: Path)
    ensures p == [] || p[0] != name ==> !([name] <= p)
  {
  }

  lemma TornRestorable(db: Db)
    requires Torn(db) && TreeOk(db.nodes, "s")
    ensures Restorable(db, "a", "y")
  {
    hide TreeOk;
    assert CONTROL[0] == '.' && "y"[0] == 'y';
    assert db.retained["a"] == SUB_ENTRY;
    forall i | i in db.nodes ensures !(["y"] <= db.nodes[i].path) { Elsewhere("y", db.nodes[i].path); }
  }

  lemma TornWritten(db: Db)
    requires Torn(db)
    ensures WellWritten("s", ToRoot(db, "a", "y"))
  {
    assert CONTROL[0] == '.' && "y"[0] == 'y';
  }

  lemma ApartRows(db: Db)
    requires Torn(db)
    ensures KindRows(db, ToRoot(db, "a", "y"), 0, 0).Ok?
    ensures var r := KindRows(db, ToRoot(db, "a", "y"), 0, 0).value;
            && r.Keys == {"s", "d", "x"} && r["s"] == db.nodes["s"] && r["d"] == db.nodes["d"]
            && r["x"].path == ["y"] && r["x"].dir && r["x"].missing == 0 && r["x"].parent == "s" && r["x"].name == "y"
  {
    hide UniquePaths;
    var op := ToRoot(db, "a", "y");
    assert Regraft(["d", "x"], ["d", "x"], ["y"]) == ["y"];
    var r := map i | i in db.nodes :: if i in op.snapshot then RestoredRow(db.nodes[i], op, i, db.tag) else db.nodes[i];
    assert r.Keys == {"s", "d", "x"};
    ThreePaths(r);
  }

  lemma ApartCommits(db: Db)
    requires Torn(db) && TreeOk(db.nodes, "s")
    ensures Commit(db, ToRoot(db, "a", "y"), 0, 0).Ok?
    ensures var after := Commit(db, ToRoot(db, "a", "y"), 0, 0).value; Apart(after) && TreeOk(after.nodes, "s")
  {
    hide KindRows, Refresh, TreeOk, WellWritten, Regraft;
    var op := ToRoot(db, "a", "y");
    ApartRows(db);
    RefreshedPaths(KindRows(db, op, 0, 0).value, {op.source, op.target}, db.tag);
    assert map["a" := SUB_ENTRY, "c" := DIR_ENTRY] - {"a"} == map["c" := DIR_ENTRY];
    TornWritten(db);
    CommitTreeIff(db, op, 0, 0);
    ApartFits(db, op);
  }

  lemma ApartFits(db: Db, op: Operation)
    requires Torn(db) && op == ToRoot(db, "a", "y")
    ensures RestoreFits(db.nodes, "s", op)
  {
    assert Regraft(["d", "x"], ["d", "x"], ["y"]) == ["y"] == [] + ["y"];
  }

  // ------------------------------------------------------------------ something is put into it

  const NEW_DIR: Operation := Bare("m", Create, TempPath("t"), ["y", "w"], "", "w",
      Row("x", "w", ["y", "w"], true, 0, 0, 0, 0), map[])
  const INSIDE: Ref := Ref("x", ["w"], true)

  lemma NewDirEnabled(db: Db)
    requires Apart(db)
    ensures Enabled(db, NEW_DIR) && NewUuids(db, NEW_DIR)
  {
    assert ["y"] + ["w"] == ["y", "w"] && CONTROL[0] == '.' && "y"[0] == 'y';
  }

  lemma NewDirAsked(db: Db, op: Operation)
    requires Apart(db) && UniquePaths(db.nodes) && op == NEW_DIR.(locks := op.locks)
    ensures Answer(db, CreateDir(INSIDE, "w", "m", "t")) == Apply(Asked(op))
  {
    hide UniquePaths;
    assert Full("s", INSIDE) == INSIDE;
    assert INSIDE.(path := INSIDE.path[..0]) == Ref("x", [], true);
    assert CONTROL[0] == '.' && "y"[0] == 'y' && "w"[0] == 'w';
    assert Resolve(db.nodes, Ref("x", [], true)) == Ok("x");
    assert Parent(db.nodes, INSIDE) == Ok("x");
    assert ["y"] + ["w"] == ["y", "w"];
  }

  lemma NewDirPlan(db: Db)
    requires Apart(db) && TreeOk(db.nodes, "s")
    ensures UniquePaths(db.nodes) && PlanRefs(db.nodes, "s", [INSIDE]).Ok?
    ensures NodeKey("w") !in PlanRefs(db.nodes, "s", [INSIDE]).value.locks
  {
    hide PlanRef, AllParented, AllLinked, AllLive, TrashShaped, HeldTo, Enabled, FreeAt;
    NewDirEnabled(db);
    assert FreePlace(db.nodes, "x", "w", ["y", "w"]) by { PlaceOf(db); }
    PlaceLocks(db.nodes, "s", "x", "w", ["y", "w"]);
    SpellingIrrelevant(db.nodes, "s", INSIDE);
    assert db.nodes["x"].path + ["w"] == ["y", "w"];
    OneRef(db.nodes, "s", INSIDE);
    if NodeKey("w") in PlanRef(db.nodes, "s", INSIDE).value.locks { PlanNames(db.nodes, "s", INSIDE, "w"); }
  }

  lemma PlaceOf(db: Db)
    requires Enabled(db, NEW_DIR)
    ensures FreePlace(db.nodes, "x", "w", ["y", "w"])
  {
  }

  /** The new directory is in the inner one. */
  predicate Inside(db: Db) {
    && db.space == "s" && db.ops == map[] && db.retained == map["c" := DIR_ENTRY] &&
         db.nodes.Keys == {"s", "d", "x", "w"}
    && db.nodes["s"].path == [] && db.nodes["d"].path == TrashPath("c") && db.nodes["x"].path == ["y"]
    && db.nodes["w"].path == ["y", "w"] && db.nodes["w"].parent == "x" && db.nodes["w"].name == "w"
  }

  lemma NewDirCommits(db: Db)
    requires Apart(db) && TreeOk(db.nodes, "s")
    ensures Commit(db, NEW_DIR, 0, 0).Ok?
    ensures var after := Commit(db, NEW_DIR, 0, 0).value; Inside(after) && TreeOk(after.nodes, "s")
  {
    hide Refresh, TreeOk, UniquePaths;
    assert CONTROL[0] == '.' && "y"[0] == 'y';
    assert !PathTaken(db.nodes, ["y", "w"]);
    RefreshedPaths(KindRows(db, NEW_DIR, 0, 0).value, {NEW_DIR.source, NEW_DIR.target}, db.tag);
    CommitTreeIff(db, NEW_DIR, 0, 0);
    assert CreateFits(db.nodes, NEW_DIR) by { assert ["y"] + ["w"] == ["y", "w"]; }
  }

  lemma NewDirNow(h: Global) returns (k: Global)
    requires Reaches(STORY, h) && Quiet(h) && 0 in h.actors && Apart(h.db) && TreeOk(h.db.nodes, "s")
    ensures Reaches(STORY, k) && k.actors == h.actors && Inside(k.db) && TreeOk(k.db.nodes, "s") && Quiet(k)
  {
    hide Run, Reaches, Enabled, NewUuids, Commit, TreeOk, PlanRefs, Answer, OpLocks, OpHolds, UniquePaths, Inside;
    NewDirEnabled(h.db);
    NewDirPlan(h.db);
    var op := Planned(h.db, NEW_DIR);
    NewDirAsked(h.db, op);
    NewDirCommits(h.db);
    SameCommit(h.db, NEW_DIR, op);
    assert Full("s", INSIDE) == INSIDE;
    k := Carry(STORY, h, 0, CreateDir(INSIDE, "w", "m", "t"), op);
  }

  // ------------------------------------------------------------------ the outer directory takes it away

  lemma InsideRestorable(db: Db)
    requires Inside(db) && TreeOk(db.nodes, "s")
    ensures Restorable(db, "c", "z")
  {
    hide TreeOk;
    assert CONTROL[0] == '.' && "z"[0] == 'z' && "y"[0] == 'y';
    assert db.retained["c"] == DIR_ENTRY;
    forall i | i in db.nodes ensures !(["z"] <= db.nodes[i].path) { Elsewhere("z", db.nodes[i].path); }
  }

  lemma FourPaths(t: Table)
    requires t.Keys == {"s", "d", "x", "w"}
    requires t["s"].path == [] && t["d"].path == ["z"] && t["x"].path == ["z", "x"] && t["w"].path == ["y", "w"]
    ensures UniquePaths(t)
  {
  }

  lemma InsideRows(db: Db)
    requires Inside(db)
    ensures KindRows(db, ToRoot(db, "c", "z"), 0, 0).Ok?
  {
    hide UniquePaths;
    var op := ToRoot(db, "c", "z");
    assert Regraft(["d"], ["d"], ["z"]) == ["z"] && Regraft(["d", "x"], ["d"], ["z"]) == ["z", "x"];
    var r := map i | i in db.nodes :: if i in op.snapshot then RestoredRow(db.nodes[i], op, i, db.tag) else db.nodes[i];
    assert r.Keys == {"s", "d", "x", "w"};
    FourPaths(r);
  }

  lemma InsideBreaks(db: Db)
    requires Inside(db) && TreeOk(db.nodes, "s")
    ensures Commit(db, ToRoot(db, "c", "z"), 0, 0).Ok?
    ensures !TreeOk(Commit(db, ToRoot(db, "c", "z"), 0, 0).value.nodes, "s")
  {
    hide KindRows, Refresh, TreeOk, WellWritten, Regraft;
    var op := ToRoot(db, "c", "z");
    InsideRows(db);
    InsideWritten(db);
    CommitTreeIff(db, op, 0, 0);
    LeftBehind(db, op);
  }

  lemma InsideWritten(db: Db)
    requires Inside(db)
    ensures WellWritten("s", ToRoot(db, "c", "z"))
  {
    assert CONTROL[0] == '.' && "z"[0] == 'z';
  }

  lemma LeftBehind(db: Db, op: Operation)
    requires Inside(db) && op == ToRoot(db, "c", "z")
    ensures !RestoreFits(db.nodes, "s", op)
  {
    assert Regraft(["d", "x"], ["d"], ["z"]) == ["z", "x"];
    assert db.nodes["w"].path != RestoredPath(db.nodes, op, "x") + ["w"];
  }

  /** The run goes on with a restore of the inner directory, a new directory in it, and a
      restore of the outer one, each by a request that finds what it needs. The new
      directory is then not where its parent is. */
  lemma BrokenTree()
    ensures exists moves ::
              && Init(START) && Run(START, moves).Ok? && Calm(moves)
              && var db := Run(START, moves).value.db; !TreeOk(db.nodes, db.space)
  {
    hide Run, Init, Calm, Commit, TreeOk, Torn, Apart, Inside, Restorable, Reaches, Quiet;
    StartInit();
    var h0 := SixthPart();
    assert h0.db.space == "s" by { TornSpace(h0.db); }
    TornRestorable(h0.db);
    ApartCommits(h0.db);
    var h1, _ := RestoreNow(h0, "a", "y");
    var h2 := NewDirNow(h1);
    InsideRestorable(h2.db);
    InsideBreaks(h2.db);
    var h3, _ := RestoreNow(h2, "c", "z");
    assert h3.db.space == "s" by { RestorableSays(h2.db, "c", "z"); CommitSpaceOf(h2.db, ToRoot(h2.db, "c", "z")); }
    ReachesBy(h3);
  }

  lemma ReachesBy(h: Global)
    requires Reaches(STORY, h)
    ensures exists moves :: Run(START, moves) == Ok(h) && Calm(moves)
  {
  }

  lemma TornSpace(db: Db)
    requires Torn(db)
    ensures db.space == "s"
  {
  }

  lemma CommitSpaceOf(db: Db, op: Operation)
    requires Commit(db, op, 0, 0).Ok?
    ensures Commit(db, op, 0, 0).value.space == db.space
  {
  }
}
