/** The steps that change the node table or the mounted tree, and no journal entry. */
module ProtocolChanges {
  import opened Paths
  import opened Metadata
  import opened Trees
  import opened LockPlan
  import opened LockCoverage
  import opened Interference
  import opened Requests
  import opened Maintenance
  import opened Scans
  import opened Protocol
  import opened ProtocolLocks
  import opened ProtocolBase
  import opened ProtocolInv
  import opened ProtocolSteps

  lemma StartUploadInv(g: Global, a: ActorId, l: Label)
    requires Inv(g) && a in g.actors && l.StartUpload? && ChangeDo(g, a, l).Ok? && Base(ChangeDo(g, a, l).value)
    ensures Inv(ChangeDo(g, a, l).value)
  {
    hide Inv, Base;
    UploadsInv(g, a, g.actors[a], ChangeDo(g, a, l).value);
  }

  /** The driver renames only while a journal entry is pending. */
  lemma RenameInv(g: Global, a: ActorId, l: Label)
    requires Inv(g) && a in g.actors && l.Rename? && ChangeDo(g, a, l).Ok? && Base(ChangeDo(g, a, l).value)
    ensures Inv(ChangeDo(g, a, l).value)
    ensures g.db.ops != map[]
  {
    hide Inv, Base, OpsOk, PlansCurrent, Conflict, OwnLocks;
    InvActor(g, a);
    SoleInv(g, a, g.actors[a], ChangeDo(g, a, l).value);
  }

  // ------------------------------------------------------------------ what a change leaves alone

  /** A public base with a kept plan stays public, with the same plan. */
  lemma PlanStays(t: Table, u: Table, space: Id, q: Ref)
    requires TreeOk(t, space) && UniquePaths(u) && Public(t, q.base) && PlanRef(t, space, q).Ok?
    requires Keeps(t, u, PlanRef(t, space, q).value.locks)
    ensures Public(u, q.base) && PlanRef(u, space, q) == PlanRef(t, space, q)
  {
    hide AllParented, AllLinked, AllLive, TrashShaped, Walk, AddNode;
    var locks := PlanRef(t, space, q).value.locks;
    RefStable(t, u, space, q, locks);
    ChainHeld(t, space, q.base, if q.path == [] then q.write || t[q.base].dir else false, locks);
  }

  lemma PlansStay(db: Db, db': Db, held: LockMap, pub: map<Ref, Plan>)
    requires DbOk(db) && PlansCurrent(db, held, pub) && UniquePaths(db'.nodes) && db'.space == db.space
    requires forall q :: q in pub ==> Keeps(db.nodes, db'.nodes, pub[q].locks)
    ensures PlansCurrent(db', held, pub)
  {
    hide AllParented, AllLinked, AllLive, TrashShaped, RetainedOk, PlanRef, Keeps;
    forall q | q in pub ensures Public(db'.nodes, q.base) && PlanRef(db'.nodes, db'.space, q) == Ok(pub[q]) {
      PlanStays(db.nodes, db'.nodes, db.space, q);
    }
  }

  /** The journal has lost entries at most, and none that `y` is publishing. */
  ghost predicate FewerOps(db: Db, db': Db, y: Actor) {
    && (forall o :: o in db'.ops ==> o in db.ops && db'.ops[o] == db.ops[o])
    && (y.pc.Publish? ==> y.pc.op.id in db'.ops)
  }

  /** The public plans that `y` relies on keep their rows and free places. */
  ghost predicate PlansKept(db: Db, db': Db, y: Actor) {
    && (y.pc.Verified? ==> forall q :: q in y.pc.pub ==> Keeps(db.nodes, db'.nodes, y.pc.pub[q].locks))
    && (y.pc.Ready? ==> forall q :: q in y.pc.pub ==> Keeps(db.nodes, db'.nodes, y.pc.pub[q].locks))
  }

  lemma HoldStays(db: Db, db': Db, y: Actor)
    requires DbOk(db) && HoldOk(db, y) && UniquePaths(db'.nodes) && db'.space == db.space
    requires FewerOps(db, db', y) && PlansKept(db, db', y)
    ensures HoldOk(db', y)
  {
    hide DbOk, PlansCurrent, NamedHeld, OwnLocks, Conflict, Keeps;
    if y.pc.Verified? || y.pc.Ready? {
      PlansStay(db, db', y.held, y.pc.pub);
    }
  }

  // ------------------------------------------------------------------ editing, purging

  lemma OpsTree(db: Db)
    requires OpsOk(db)
    ensures DbOk(db) && UniquePaths(db.nodes)
  {
  }

  /** A change to rows alone, under the space lock, that keeps every plan's rows. */
  lemma RowsInv(g: Global, a: ActorId, db': Db)
    requires Inv(g) && a in g.actors && g.actors[a].pc.Ready? && Base(PutDb(g, a, g.actors[a], db'))
    requires db'.space == g.db.space && db'.ops == g.db.ops
    requires OpsOk(db') && forall locks :: Keeps(g.db.nodes, db'.nodes, locks)
    ensures Inv(PutDb(g, a, g.actors[a], db'))
  {
    hide Inv, Base, OpsOk, Keeps, HoldOk, Shape, DrainOk, MemoryOk, ScanOk;
    var h := PutDb(g, a, g.actors[a], db');
    OpsTree(db');
    forall b | b in g.actors ensures HoldOk(h.db, g.actors[b]) {
      InvActor(g, a);
      InvActor(g, b);
      OpsTree(g.db);
      BaseActor(g, a);
      RowsHold(g.db, db', g.actors[b]);
    }
    SharedInv(h);
  }

  lemma RowsHold(db: Db, db': Db, y: Actor)
    requires DbOk(db) && UniquePaths(db'.nodes) && HoldOk(db, y) && db'.space == db.space && db'.ops == db.ops
    requires forall locks :: Keeps(db.nodes, db'.nodes, locks)
    ensures HoldOk(db', y)
  {
    hide DbOk, PlansCurrent, NamedHeld, OwnLocks, Conflict, Keeps;
    HoldStays(db, db', y);
  }

  /** A write reference whose plan is held holds a lock on every node above its own. */
  lemma RefHolds(db: Db, held: LockMap, q: Ref, x: Id)
    requires DbOk(db) && q.write && LivePublic(db.nodes, q.base) && StillHeld(db, held, q)
    requires Housed(db.nodes, x) && db.nodes[x].path == db.nodes[q.base].path + q.path
    ensures HeldTo(db.nodes, held, x)
    ensures NodeKey(x) in held && held[NodeKey(x)]
  {
    hide AllParented, AllLinked, AllLive, TrashShaped, RetainedOk, PlanRef;
    var t, space := db.nodes, db.space;
    forall y | y in t && t[y].path <= t[x].path ensures NodeKey(y) in held {
      var z := AncestorAt(t, space, x, t[y].path);
      SamePathSameRow(t, space, y, z);
      PlanReaches(t, space, q, y);
    }
    PlanReaches(t, space, q, x);
  }

  lemma EditInv(g: Global, a: ActorId, l: Label)
    requires Inv(g) && a in g.actors && l.Edit? && ChangeDo(g, a, l).Ok? && Base(ChangeDo(g, a, l).value)
    requires StillHeld(g.db, g.actors[a].held, l.q)
    ensures Inv(ChangeDo(g, a, l).value)
  {
    hide Inv, Base, Keeps, Edited, PlansCurrent, NamedHeld, HeldTo, Enabled, OpLocks, TreeOk, RetainedOk, Resolve,
        StillHeld, Conflict;
    var me, db := g.actors[a], g.db;
    var x := Resolve(db.nodes, l.q).value;
    InvActor(g, a);
    ResolveRight(db.nodes, l.q);
    RefHolds(db, me.held, l.q, x);
    EditKeepsDb(db, x);
    EditFrame(db, x);
    forall o | o in db.ops
      ensures Enabled(Edited(db, x), db.ops[o]) && UniquePaths(Edited(db, x).nodes)
      ensures OpLocks(Edited(db, x).nodes, db.space, db.ops[o]) == Ok(db.ops[o].locks)
    {
      EditStable(db, x, me.held, db.ops[o]);
    }
    forall locks ensures Keeps(db.nodes, Edited(db, x).nodes, locks) {
      EditKeeps(db, x, locks);
    }
    RowsInv(g, a, Edited(db, x));
  }

  /** Under a write lock on a trash entry's node, or on the space, no pending operation
      writes that node. */
  lemma PurgeApart(db: Db, me: Actor, key: OpId, o: OpId)
    requires OpsOk(db) && HoldOk(db, me) && me.pc.Ready? && key in db.retained && db.retained[key].node != ""
    requires db.space != ""
    requires Ref(db.retained[key].node, [], true) in me.pc.refs || Ref(db.space, [], true) in me.pc.refs
    requires o in db.ops
    ensures db.ops[o].node != db.retained[key].node
  {
    hide Enabled, OpLocks, PlansCurrent, HeldTo, TreeOk, RetainedOk;
    OpLocksHold(db, db.ops[o]);
  }

  lemma PurgeEntryInv(g: Global, a: ActorId, l: Label)
    requires Inv(g) && a in g.actors && l.PurgeEntry? && ChangeDo(g, a, l).Ok? && Base(ChangeDo(g, a, l).value)
    ensures Inv(ChangeDo(g, a, l).value)
  {
    hide Inv, Base, Keeps, PlansCurrent, NamedHeld, HeldTo, Enabled, OpLocks, TreeOk, RetainedOk, HoldOk, VersionsOf;
    var me, db, db' := g.actors[a], g.db, Purged(g.db, l.key);
    InvActor(g, a);
    SpaceNamed(db);
    PurgeKeepsDb(db, l.key);
    forall o | o in db.ops
      ensures Enabled(db', db.ops[o]) && UniquePaths(db'.nodes)
      ensures OpLocks(db'.nodes, db.space, db.ops[o]) == Ok(db.ops[o].locks)
    {
      PurgeApart(db, me, l.key, o);
      PurgeStable(db, l.key, db.ops[o]);
    }
    forall locks ensures Keeps(db.nodes, db'.nodes, locks) {
      PurgeKeeps(db, l.key, locks);
    }
    RowsInv(g, a, db');
  }

  lemma SpaceNamed(db: Db)
    requires DbOk(db)
    ensures db.space != ""
  {
  }

  // ------------------------------------------------------------------ scans

  lemma ScanDb(db: Db, w: Walked, ids: map<Path, Id>, now: int, grace: int)
    requires DbOk(db) && ScanInput(db.nodes, db.space, w, ids, now)
    ensures DbOk(db.(nodes := Scanned(db.nodes, db.space, w, ids, db.tag, now, grace), tag := db.tag + 1))
  {
    hide TreeOk, TrashOk, Scanned;
    var u := Scanned(db.nodes, db.space, w, ids, db.tag, now, grace);
    ScanTree(db.nodes, db.space, w, ids, db.tag, now, grace);
    forall k | k in db.retained && db.retained[k].kind == TrashItem ensures TrashOk(u, k, db.retained[k]) {
      KeepTrash(db.nodes, u, k, db.retained[k]);
    }
  }

  /** While a scan commits, no other process relies on a plan. */
  lemma ScanAlone(g: Global, a: ActorId, b: ActorId)
    requires Base(g) && a in g.actors && b in g.actors && a != b && g.actors[a].pc.ScanHave?
    ensures !g.actors[b].pc.Verified? && !g.actors[b].pc.Ready? && !g.actors[b].pc.Publish?
  {
    hide Base, DrainOk, MemoryOk, Shape, ReadBefore;
    BaseActor(g, a);
    BaseActor(g, b);
    BasePairs(g, a, b);
  }

  lemma ScanCommitInv(g: Global, a: ActorId, l: Label)
    requires Inv(g) && a in g.actors && l.ScanCommit? && ScanDo(g, a, l).Ok? && Base(ScanDo(g, a, l).value)
    ensures Inv(ScanDo(g, a, l).value)
  {
    hide Inv, Base, Scanned, ScanInput, TreeOk, RetainedOk, Enabled, OpLocks, Conflict, Shape, DrainOk, MemoryOk;
    var h, d := ScanDo(g, a, l).value, g.actors[a].pc.data;
    InvActor(g, a);
    BaseActor(g, a);
    ScanDb(g.db, d.walked, l.ids, l.now, l.grace);
    forall b | b in h.actors ensures HoldOk(h.db, h.actors[b]) {
      if b == a {
        ElsewhereOk(h.db, FREE);
      } else {
        ScanAlone(g, a, b);
      }
    }
    SharedInv(h);
  }
}
