/** A request whose journal entry cannot be finished: what it asks for is free on the mount
    and taken in the table. */
module JournalStuck {
  import opened Paths
  import opened Metadata
  import opened Trees
  import opened LockPlan
  import opened Interference
  import opened Requests
  import opened Scans
  import opened Files
  import opened Journal

  /** While a row has its target path, a create entry is not committed, by however many
      attempts; each leaves the database as it was. */
  lemma {:induction false} NeverDone(s: State, op: Operation, effects: nat)
    requires op.kind == Create && PathTaken(s.db.nodes, op.target)
    ensures Attempt(s, op, effects).1 != Done && Attempt(s, op, effects).0.db == s.db
    decreases effects
  {
    hide Rename, TreeAt, Refresh;
    if effects > 0 && NextEffect(s, op).Renames? {
      NeverDone(s.(files := NextEffect(s, op).files), op, effects - 1);
    }
  }

  // ------------------------------------------------------------------ a request that gets there

  const ROOT: Row := Row("", "", [], true, 0, 0, 0, 0)
  const LOST: Row := Row("s", "x", ["x"], false, 0, 0, 0, 7)
  const NODES: Table := map["s" := ROOT, "m" := LOST]
  const DB: Db := Db("s", NODES, map[], map[], map[], [], 0, map[], 1)
  const DIR: Entry := Entry(Folder, 0, 0)

  /** The mount: a new directory is staged, and nothing is at the place it is to go to. */
  const FILES: Files := map[[] := DIR, [CONTROL] := DIR, [CONTROL, TMP] := DIR, TempPath("t") := DIR]

  const PLACE: Ref := Ref("s", ["x"], true)
  const NEW_DIR: Operation :=
    Bare("o", Create, TempPath("t"), ["x"], "", "n", Row("s", "x", ["x"], true, 0, 0, 0, 0), map[])

  lemma StartOk()
    ensures DbOk(DB) && FilesOk(FILES)
  {
    assert NODES.Keys == {"s", "m"} && [] + ["x"] == ["x"];
    assert Up([CONTROL]) == [] && Up([CONTROL, TMP]) == [CONTROL] && Up(TempPath("t")) == [CONTROL, TMP];
  }

  lemma PlaceAsked()
    ensures UniquePaths(NODES) && Answer(DB, CreateDir(PLACE, "n", "o", "t")) == Apply(NEW_DIR)
  {
    assert NODES.Keys == {"s", "m"};
    assert Full("s", PLACE) == PLACE;
    assert PLACE.(path := PLACE.path[..0]) == Ref("s", [], true);
    assert CONTROL[0] == '.' && "x"[0] == 'x';
    assert Resolve(NODES, Ref("s", [], true)) == Ok("s");
    assert Parent(NODES, PLACE) == Ok("s");
    assert [] + ["x"] == ["x"];
  }

  lemma PlacePlanned()
    ensures UniquePaths(NODES) && OpLocks(NODES, "s", NEW_DIR).Ok?
  {
    hide PlanRef, AllParented, AllLinked, AllLive, TrashShaped, HeldTo;
    StartOk();
    assert CONTROL[0] == '.' && "x"[0] == 'x';
    NodeLocks(NODES, "s", "m");
    assert OpRefs("s", NEW_DIR) == [PLACE];
    assert [PLACE][1..] == [];
    assert PlanRefs(NODES, "s", [PLACE][1..]) == Ok(NOTHING);
  }

  /** A request to make a directory passes all its checks and is written down, because
      nothing is at its place on the mount. A row that is marked missing has that place, so
      no recovery ever finishes the entry. */
  lemma CreateStuck(now: int)
    ensures DbOk(DB) && FilesOk(FILES) && Answer(DB, CreateDir(PLACE, "n", "o", "t")) == Apply(NEW_DIR)
    ensures Written(State(FILES, DB), NEW_DIR, now).Ok?
    ensures var entry := Written(State(FILES, DB), NEW_DIR, now).value;
            var s := State(FILES, DB.(ops := map["o" := entry]));
            forall effects: nat :: Attempt(s, entry, effects).1 != Done && Recover(s, "o", effects).db == s.db
  {
    hide TreeAt, OpLocks, UniquePaths, Attempt, Answer, DbOk, FilesOk;
    StartOk();
    PlaceAsked();
    PlacePlanned();
    assert CONTROL[0] == '.' && "x"[0] == 'x';
    var entry := Written(State(FILES, DB), NEW_DIR, now).value;
    var s := State(FILES, DB.(ops := map["o" := entry]));
    assert PathTaken(NODES, ["x"]) by { assert NODES["m"].path == ["x"]; }
    forall effects: nat ensures Attempt(s, entry, effects).1 != Done && Recover(s, "o", effects).db == s.db {
      NeverDone(s, entry, effects);
    }
  }
}
