/** Every step keeps `Base`. */
module ProtocolBaseSteps {
  import opened Paths
  import opened Metadata
  import opened LockPlan
  import opened Scans
  import opened Protocol
  import opened ProtocolLocks
  import opened ProtocolBase

  // ------------------------------------------------------------------ sessions

  lemma BeginSessionBase(g: Global, a: ActorId, l: Label)
    requires Base(g) && a in g.actors && l.BeginSession? && SessionDo(g, a, l).Ok?
    ensures Base(SessionDo(g, a, l).value)
  {
    hide Base, LocksOk, Compatible, Fits, RowsOk, EntryOk;
    var x, h := g.actors[a], SessionDo(g, a, l).value;
    var me := h.actors[a];
    BaseOps(g);
    BaseActor(g, a);
    FewerFits(g, a, me);
    SoleStep(g, a, me, h);
  }

  lemma TakeOwnBase(g: Global, a: ActorId, l: Label)
    requires Base(g) && a in g.actors && l.TakeOwn? && SessionDo(g, a, l).Ok?
    ensures Base(SessionDo(g, a, l).value)
  {
    hide Base, LocksOk, Compatible, Fits, RowsOk, EntryOk;
    var x, h := g.actors[a], SessionDo(g, a, l).value;
    var me := h.actors[a];
    BaseOps(g);
    BaseActor(g, a);
    TakeFits(g, a, me);
    SoleStep(g, a, me, h);
  }

  lemma ReadOwnBase(g: Global, a: ActorId, l: Label)
    requires Base(g) && a in g.actors && l.ReadOwn? && SessionDo(g, a, l).Ok?
    ensures Base(SessionDo(g, a, l).value)
  {
    hide Base, LocksOk, Compatible, Fits, RowsOk, TreeChanges.WellWritten;
    var x, h := g.actors[a], SessionDo(g, a, l).value;
    var me := h.actors[a];
    BaseOps(g);
    BaseActor(g, a);
    FewerFits(g, a, me);
    SoleStep(g, a, me, h);
  }

  lemma DrainNextBase(g: Global, a: ActorId, l: Label)
    requires Base(g) && a in g.actors && l.DrainNext? && SessionDo(g, a, l).Ok?
    ensures Base(SessionDo(g, a, l).value)
  {
    hide Base, LocksOk, Compatible, Fits, RowsOk, EntryOk;
    var x, h := g.actors[a], SessionDo(g, a, l).value;
    var me := h.actors[a];
    BaseOps(g);
    BaseActor(g, a);
    FewerFits(g, a, me);
    SoleStep(g, a, me, h);
  }

  lemma DrainDoneBase(g: Global, a: ActorId, l: Label)
    requires Base(g) && a in g.actors && l.DrainDone? && SessionDo(g, a, l).Ok?
    ensures Base(SessionDo(g, a, l).value)
  {
    hide Base, LocksOk, Compatible, Fits, RowsOk, EntryOk;
    var x, h := g.actors[a], SessionDo(g, a, l).value;
    var me := h.actors[a];
    BaseOps(g);
    BaseActor(g, a);
    TakeFits(g, a, me);
    SoleStep(g, a, me, h);
  }

  lemma LoadSessionBase(g: Global, a: ActorId, l: Label)
    requires Base(g) && a in g.actors && l.LoadSession? && SessionDo(g, a, l).Ok?
    ensures Base(SessionDo(g, a, l).value)
  {
    hide Base, LocksOk, Compatible, Fits, RowsOk, EntryOk;
    var x, h := g.actors[a], SessionDo(g, a, l).value;
    var me := h.actors[a];
    BaseOps(g);
    BaseActor(g, a);
    FewerFits(g, a, me);
    SoleStep(g, a, me, h);
  }

  lemma SaveSessionBase(g: Global, a: ActorId, l: Label)
    requires Base(g) && a in g.actors && l.SaveSession? && SessionDo(g, a, l).Ok?
    ensures Base(SessionDo(g, a, l).value)
  {
    hide Base, LocksOk, Compatible, Fits, RowsOk, EntryOk;
    var x, h := g.actors[a], SessionDo(g, a, l).value;
    var me := h.actors[a];
    BaseOps(g);
    BaseActor(g, a);
    FewerFits(g, a, me);
    SoleStep(g, a, me, h);
  }

  lemma DropSessionBase(g: Global, a: ActorId, l: Label)
    requires Base(g) && a in g.actors && l.DropSession? && SessionDo(g, a, l).Ok?
    ensures Base(SessionDo(g, a, l).value)
  {
    hide Base, LocksOk, Compatible, Fits, RowsOk, EntryOk;
    var x, h := g.actors[a], SessionDo(g, a, l).value;
    var me := h.actors[a];
    BaseOps(g);
    BaseActor(g, a);
    FewerFits(g, a, me);
    SoleStep(g, a, me, h);
  }

  // ------------------------------------------------------------------ planning and locking

  lemma BeginRefsBase(g: Global, a: ActorId, l: Label)
    requires Base(g) && a in g.actors && l.BeginRefs? && RequestDo(g, a, l).Ok?
    ensures Base(RequestDo(g, a, l).value)
  {
    hide Base, LocksOk, Compatible, Fits, RowsOk, EntryOk;
    var x, h := g.actors[a], RequestDo(g, a, l).value;
    var me := h.actors[a];
    BaseOps(g);
    BaseActor(g, a);
    FewerFits(g, a, me);
    SoleStep(g, a, me, h);
  }

  lemma PlanThemBase(g: Global, a: ActorId, l: Label)
    requires Base(g) && a in g.actors && l.PlanThem? && RequestDo(g, a, l).Ok?
    ensures Base(RequestDo(g, a, l).value)
  {
    hide Base, LocksOk, Compatible, Fits, RowsOk, EntryOk, PlanRefs;
    var x, h := g.actors[a], RequestDo(g, a, l).value;
    var me := h.actors[a];
    BaseOps(g);
    BaseActor(g, a);
    InOrderStart(l.order, me.pc.goal);
    FewerFits(g, a, me);
    SoleStep(g, a, me, h);
  }

  lemma TakeBase(g: Global, a: ActorId, l: Label)
    requires Base(g) && a in g.actors && l.Take? && RequestDo(g, a, l).Ok?
    ensures Base(RequestDo(g, a, l).value)
  {
    hide Base, LocksOk, Compatible, Fits, RowsOk, EntryOk;
    var x, h := g.actors[a], RequestDo(g, a, l).value;
    var me := h.actors[a];
    BaseOps(g);
    BaseActor(g, a);
    InOrderTake(x.held, x.pc.order, x.pc.goal);
    TakeFits(g, a, me);
    SoleStep(g, a, me, h);
  }

  lemma ReplanBase(g: Global, a: ActorId, l: Label)
    requires Base(g) && a in g.actors && l.Replan? && RequestDo(g, a, l).Ok?
    ensures Base(RequestDo(g, a, l).value)
  {
    hide Base, LocksOk, Compatible, Fits, RowsOk, EntryOk, PlanRefs, Requests.PublicPlans;
    var x, h := g.actors[a], RequestDo(g, a, l).value;
    var me := h.actors[a];
    BaseOps(g);
    BaseActor(g, a);
    InOrderDone(x.held, x.pc.goal);
    if me.pc.Verified? { PlanSpace(g.db, me.pc.refs); }
    FewerFits(g, a, me);
    SoleStep(g, a, me, h);
  }

  lemma PlanSpace(db: Db, refs: seq<Ref>)
    requires RowsOk(db) && refs != [] && UniquePaths(db.nodes) && PlanRefs(db.nodes, db.space, refs).Ok?
    ensures NodeKey(db.space) in PlanRefs(db.nodes, db.space, refs).value.locks
  {
    hide PlanRefs;
    PlanHasSpace(db.nodes, db.space, refs);
  }

  lemma BlockedBase(g: Global, a: ActorId, l: Label)
    requires Base(g) && a in g.actors && l.Blocked? && RequestDo(g, a, l).Ok?
    ensures Base(RequestDo(g, a, l).value)
  {
    hide Base, LocksOk, Compatible, Fits, RowsOk, Conflict, TreeChanges.WellWritten, TableCurrent;
    var x, h := g.actors[a], RequestDo(g, a, l).value;
    var me := h.actors[a];
    BaseOps(g);
    BaseActor(g, a);
    if me.pc.WantOther? { WaitFits(g, a, l.o, me); } else { FewerFits(g, a, me); }
    SoleStep(g, a, me, h);
  }

  lemma ClearBase(g: Global, a: ActorId, l: Label)
    requires Base(g) && a in g.actors && l.Clear? && RequestDo(g, a, l).Ok?
    ensures Base(RequestDo(g, a, l).value)
  {
    hide Base, LocksOk, Compatible, Fits, RowsOk, EntryOk, Conflict;
    var x, h := g.actors[a], RequestDo(g, a, l).value;
    var me := h.actors[a];
    BaseOps(g);
    BaseActor(g, a);
    FewerFits(g, a, me);
    SoleStep(g, a, me, h);
  }

  // ------------------------------------------------------------------ changing metadata

  lemma JournalBase(g: Global, a: ActorId, l: Label)
    requires Base(g) && a in g.actors && l.Journal? && ChangeDo(g, a, l).Ok?
    ensures Base(ChangeDo(g, a, l).value)
  {
    hide Base, LocksOk, Compatible, Fits, Rooted, TreeChanges.SnapshotOk, EntryOk, Requests.NewUuids, OpLocks,
        Requests.Refs, Requests.Answer, UnseenKey;
    var x, h := g.actors[a], ChangeDo(g, a, l).value;
    var me := h.actors[a];
    BaseOps(g);
    BaseActor(g, a);
    AnsweredOk(g.db, l.req, l.op);
    FewerFits(g, a, me);
    SharedStep(g, a, me, h);
  }

  lemma RenameBase(g: Global, a: ActorId, l: Label)
    requires Base(g) && a in g.actors && l.Rename? && ChangeDo(g, a, l).Ok?
    ensures Base(ChangeDo(g, a, l).value)
  {
    hide Base, LocksOk, Compatible, Fits, RowsOk, EntryOk;
    var x, h := g.actors[a], ChangeDo(g, a, l).value;
    var me := h.actors[a];
    BaseOps(g);
    BaseActor(g, a);
    FewerFits(g, a, me);
    SoleStep(g, a, me, h);
  }

  lemma CommitOwnBase(g: Global, a: ActorId, l: Label)
    requires Base(g) && a in g.actors && l.CommitOwn? && ChangeDo(g, a, l).Ok?
    ensures Base(ChangeDo(g, a, l).value)
  {
    hide Base, LocksOk, Compatible, Fits, RowsOk, EntryOk, Commit;
    var x, h := g.actors[a], ChangeDo(g, a, l).value;
    var me := h.actors[a];
    BaseOps(g);
    BaseActor(g, a);
    CommitRows(g.db, x.pc.op, l.size, l.mtime);
    CommitFrame(g.db, x.pc.op, l.size, l.mtime);
    FewerFits(g, a, me);
    SharedStep(g, a, me, h);
  }

  lemma EditBase(g: Global, a: ActorId, l: Label)
    requires Base(g) && a in g.actors && l.Edit? && ChangeDo(g, a, l).Ok?
    ensures Base(ChangeDo(g, a, l).value)
  {
    hide Base, LocksOk, Compatible, Fits, RowsOk, EntryOk, Edited, Requests.Resolve;
    var x, h := g.actors[a], ChangeDo(g, a, l).value;
    var me := h.actors[a];
    BaseOps(g);
    BaseActor(g, a);
    Requests.ResolveRight(g.db.nodes, l.q);
    EditRows(g.db, Requests.Resolve(g.db.nodes, l.q).value);
    FewerFits(g, a, me);
    SharedStep(g, a, me, h);
  }

  lemma PurgeEntryBase(g: Global, a: ActorId, l: Label)
    requires Base(g) && a in g.actors && l.PurgeEntry? && ChangeDo(g, a, l).Ok?
    ensures Base(ChangeDo(g, a, l).value)
  {
    hide Base, LocksOk, Compatible, Fits, RowsOk, EntryOk, Purged;
    var x, h := g.actors[a], ChangeDo(g, a, l).value;
    var me := h.actors[a];
    BaseOps(g);
    BaseActor(g, a);
    PurgeRows(g.db, l.key);
    FewerFits(g, a, me);
    SharedStep(g, a, me, h);
  }

  lemma StartUploadBase(g: Global, a: ActorId, l: Label)
    requires Base(g) && a in g.actors && l.StartUpload? && ChangeDo(g, a, l).Ok?
    ensures Base(ChangeDo(g, a, l).value)
  {
    hide Base, LocksOk, Compatible, Fits, RowsOk, EntryOk;
    var x, h := g.actors[a], ChangeDo(g, a, l).value;
    var me := h.actors[a];
    BaseOps(g);
    BaseActor(g, a);
    FewerFits(g, a, me);
    SoleStep(g, a, me, h);
  }

  // ------------------------------------------------------------------ recovery

  lemma RecoverBase(g: Global, a: ActorId, l: Label)
    requires Base(g) && a in g.actors && l.Recover? && RecoveryDo(g, a, l).Ok?
    ensures Base(RecoveryDo(g, a, l).value)
  {
    hide Base, LocksOk, Compatible, Fits, RowsOk, TreeChanges.WellWritten, TableCurrent;
    var x, h := g.actors[a], RecoveryDo(g, a, l).value;
    var me := h.actors[a];
    BaseOps(g);
    BaseActor(g, a);
    if me.pc.WantOther? { WaitFits(g, a, l.o, me); } else { FewerFits(g, a, me); }
    SoleStep(g, a, me, h);
  }

  lemma TakeOtherBase(g: Global, a: ActorId, l: Label)
    requires Base(g) && a in g.actors && l.TakeOther? && RecoveryDo(g, a, l).Ok?
    ensures Base(RecoveryDo(g, a, l).value)
  {
    hide Base, LocksOk, Compatible, Fits, RowsOk, EntryOk;
    var x, h := g.actors[a], RecoveryDo(g, a, l).value;
    var me := h.actors[a];
    BaseOps(g);
    BaseActor(g, a);
    TakeFits(g, a, me);
    SoleStep(g, a, me, h);
  }

  lemma TakeClaimBase(g: Global, a: ActorId, l: Label)
    requires Base(g) && a in g.actors && l.TakeClaim? && RecoveryDo(g, a, l).Ok?
    ensures Base(RecoveryDo(g, a, l).value)
  {
    hide Base, LocksOk, Compatible, Fits, RowsOk, EntryOk;
    var x, h := g.actors[a], RecoveryDo(g, a, l).value;
    var me := h.actors[a];
    BaseOps(g);
    BaseActor(g, a);
    InOrderStart(l.order, me.pc.goal);
    TakeFits(g, a, me);
    SoleStep(g, a, me, h);
  }

  lemma CommitOtherBase(g: Global, a: ActorId, l: Label)
    requires Base(g) && a in g.actors && l.CommitOther? && RecoveryDo(g, a, l).Ok?
    ensures Base(RecoveryDo(g, a, l).value)
  {
    hide Base, LocksOk, Compatible, Fits, RowsOk, Commit, TreeChanges.WellWritten, TableCurrent;
    var x, h := g.actors[a], RecoveryDo(g, a, l).value;
    var me := h.actors[a];
    BaseOps(g);
    BaseActor(g, a);
    assert x.pc.after.op in Remembered(x);
    InOrderDone(x.held, x.pc.goal);
    CommitRows(g.db, g.db.ops[x.pc.after.op.id], l.size, l.mtime);
    CommitFrame(g.db, g.db.ops[x.pc.after.op.id], l.size, l.mtime);
    FewerFits(g, a, me);
    SharedStep(g, a, me, h);
  }

  lemma GoneBase(g: Global, a: ActorId, l: Label)
    requires Base(g) && a in g.actors && l.Gone? && RecoveryDo(g, a, l).Ok?
    ensures Base(RecoveryDo(g, a, l).value)
  {
    hide Base, LocksOk, Compatible, Fits, RowsOk, EntryOk;
    var x, h := g.actors[a], RecoveryDo(g, a, l).value;
    var me := h.actors[a];
    BaseOps(g);
    BaseActor(g, a);
    FewerFits(g, a, me);
    SoleStep(g, a, me, h);
  }

  // ------------------------------------------------------------------ scans

  lemma ScanStartBase(g: Global, a: ActorId, l: Label)
    requires Base(g) && a in g.actors && l.ScanStart? && ScanDo(g, a, l).Ok?
    ensures Base(ScanDo(g, a, l).value)
  {
    hide Base, LocksOk, Compatible, Fits, RowsOk, EntryOk;
    var x, h := g.actors[a], ScanDo(g, a, l).value;
    var me := h.actors[a];
    BaseOps(g);
    BaseActor(g, a);
    FewerFits(g, a, me);
    SoleStep(g, a, me, h);
  }

  lemma ScanPendingBase(g: Global, a: ActorId, l: Label)
    requires Base(g) && a in g.actors && l.ScanPending? && ScanDo(g, a, l).Ok?
    ensures Base(ScanDo(g, a, l).value)
  {
    hide Base, LocksOk, Compatible, Fits, RowsOk, EntryOk;
    var x, h := g.actors[a], ScanDo(g, a, l).value;
    var me := h.actors[a];
    BaseOps(g);
    BaseActor(g, a);
    FewerFits(g, a, me);
    SoleStep(g, a, me, h);
  }

  lemma ScanReadBase(g: Global, a: ActorId, l: Label)
    requires Base(g) && a in g.actors && l.ScanRead? && ScanDo(g, a, l).Ok?
    ensures Base(ScanDo(g, a, l).value)
  {
    hide Base, LocksOk, Compatible, Fits, RowsOk, EntryOk;
    var x, h := g.actors[a], ScanDo(g, a, l).value;
    var me := h.actors[a];
    BaseOps(g);
    BaseActor(g, a);
    FewerFits(g, a, me);
    SoleStep(g, a, me, h);
  }

  lemma ScanWalkedBase(g: Global, a: ActorId, l: Label)
    requires Base(g) && a in g.actors && l.ScanWalked? && ScanDo(g, a, l).Ok?
    ensures Base(ScanDo(g, a, l).value)
  {
    hide Base, LocksOk, Compatible, Fits, RowsOk, EntryOk;
    var x, h := g.actors[a], ScanDo(g, a, l).value;
    var me := h.actors[a];
    BaseOps(g);
    BaseActor(g, a);
    InOrderStart(me.pc.order, me.pc.goal);
    FewerFits(g, a, me);
    SoleStep(g, a, me, h);
  }

  lemma ScanCheckBase(g: Global, a: ActorId, l: Label)
    requires Base(g) && a in g.actors && l.ScanCheck? && ScanDo(g, a, l).Ok?
    ensures Base(ScanDo(g, a, l).value)
  {
    hide Base, LocksOk, Compatible, Fits, RowsOk, EntryOk;
    var x, h := g.actors[a], ScanDo(g, a, l).value;
    var me := h.actors[a];
    BaseOps(g);
    BaseActor(g, a);
    InOrderDone(x.held, x.pc.goal);
    FewerFits(g, a, me);
    SoleStep(g, a, me, h);
  }

  lemma ScanCommitBase(g: Global, a: ActorId, l: Label)
    requires Base(g) && a in g.actors && l.ScanCommit? && ScanDo(g, a, l).Ok?
    ensures Base(ScanDo(g, a, l).value)
  {
    hide Base, LocksOk, Compatible, Fits, RowsOk, EntryOk, Scanned, ScanInput;
    var x, h := g.actors[a], ScanDo(g, a, l).value;
    var me := h.actors[a];
    BaseOps(g);
    BaseActor(g, a);
    ScanRows(g.db, x.pc.data.before, x.pc.data.walked, l.ids, l.now, l.grace);
    FewerFits(g, a, me);
    SharedStep(g, a, me, h);
  }

  lemma ScanRows(db: Db, before: Table, w: Walked, ids: map<Path, Id>, now: int, grace: int)
    requires RowsOk(db) && ScanInput(before, db.space, w, ids, now)
    ensures RowsOk(db.(nodes := Scanned(before, db.space, w, ids, db.tag, now, grace), tag := db.tag + 1))
  {
    hide Scanned;
    ScanTree(before, db.space, w, ids, db.tag, now, grace);
  }
}
