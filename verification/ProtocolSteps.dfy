/** The steps that change only the acting process, or only upload sessions. */
module ProtocolSteps {
  import opened Metadata
  import opened Trees
  import opened LockPlan
  import opened LockCoverage
  import opened LockOrder
  import opened Requests
  import opened Protocol
  import opened ProtocolBase
  import opened ProtocolInv

  // ------------------------------------------------------------------ sessions

  /** Changing only session rows. */
  lemma UploadsOps(db: Db, db': Db)
    requires OpsOk(db) && db' == db.(uploads := db'.uploads)
    requires forall o :: o in db.ops && db.ops[o].session in db.uploads ==> db.ops[o].session in db'.uploads
    ensures OpsOk(db')
  {
    hide TreeOk, TrashOk, OpLocks, Conflict, FreePlace, FreeAt;
    assert DbOk(db');
  }

  lemma UploadsHold(db: Db, db': Db, me: Actor)
    requires HoldOk(db, me) && db' == db.(uploads := db'.uploads)
    ensures HoldOk(db', me)
  {
    hide TreeOk, PlanRef, Conflict;
  }

  lemma UploadsInv(g: Global, a: ActorId, me: Actor, h: Global)
    requires Inv(g) && Base(h) && a in g.actors && h.actors == g.actors[a := me] && me.pc == g.actors[a].pc
    requires me.held == g.actors[a].held
    requires h.db == g.db.(uploads := h.db.uploads)
    requires forall o :: o in g.db.ops && g.db.ops[o].session in g.db.uploads ==> g.db.ops[o].session in h.db.uploads
    ensures Inv(h)
  {
    hide Base, OpsOk;
    UploadsOps(g.db, h.db);
    forall b | b in h.actors ensures HoldOk(h.db, h.actors[b]) {
      UploadsHold(g.db, h.db, g.actors[b]);
    }
  }

  lemma SessionInv(g: Global, a: ActorId, l: Label)
    requires Inv(g) && a in g.actors && SessionDo(g, a, l).Ok? && Base(SessionDo(g, a, l).value)
    ensures Inv(SessionDo(g, a, l).value)
  {
    hide Inv, Base, HoldOk;
    var h := SessionDo(g, a, l).value;
    if l.SaveSession? {
      UploadsInv(g, a, h.actors[a], h);
    } else if l.DropSession? {
      InvActor(g, a);
      Drained(g, a);
      UploadsInv(g, a, h.actors[a], h);
    } else {
      ElsewhereOk(h.db, h.actors[a]);
      SoleInv(g, a, h.actors[a], h);
    }
  }

  // ------------------------------------------------------------------ planning and locking

  lemma RequestInv(g: Global, a: ActorId, l: Label)
    requires Inv(g) && a in g.actors && RequestDo(g, a, l).Ok? && Base(RequestDo(g, a, l).value)
    ensures Inv(RequestDo(g, a, l).value)
  {
    hide Inv, Base, HoldOk, PlanRefs, PublicPlans, LockFree, Conflict, Orders;
    var h := RequestDo(g, a, l).value;
    if l.Replan? {
      ReplanOk(g, a, l);
    } else if l.Clear? {
      InvActor(g, a);
      ClearOk(g.db, g.actors[a], h.actors[a]);
    } else {
      ElsewhereOk(h.db, h.actors[a]);
    }
    SoleInv(g, a, h.actors[a], h);
  }

  lemma ClearOk(db: Db, x: Actor, me: Actor)
    requires HoldOk(db, x) && x.pc.Verified? && me.held == x.held && me.pc == Ready(x.pc.plan, x.pc.refs, x.pc.pub)
    requires forall o :: o in db.ops ==> !Conflict(x.held, db.ops[o].locks)
    ensures HoldOk(db, me)
  {
    hide PlansCurrent, NamedHeld, Conflict;
  }

  lemma ReplanOk(g: Global, a: ActorId, l: Label)
    requires Inv(g) && a in g.actors && l.Replan? && RequestDo(g, a, l).Ok?
    ensures HoldOk(g.db, RequestDo(g, a, l).value.actors[a])
  {
    hide Inv, Base, DbOk, PlansCurrent, NamedHeld, PublicPlans, ScanOk, DrainOk, MemoryOk, PlanRefs;
    var x, me := g.actors[a], RequestDo(g, a, l).value.actors[a];
    InvActor(g, a);
    BaseActor(g, a);
    if me.pc.Verified? {
      InOrderDone(x.held, x.pc.goal);
      PlanHolds(g.db, me.pc.refs, me.pc.plan);
    }
  }

  /** What a plan holds of each of its references. */
  lemma PlanHolds(db: Db, refs: seq<Ref>, plan: Plan)
    requires DbOk(db) && UniquePaths(db.nodes) && PlanRefs(db.nodes, db.space, refs) == Ok(plan)
    ensures PlansCurrent(db, plan.locks, PublicPlans(db.nodes, db.space, refs)) && NamedHeld(refs, plan.locks)
  {
    hide RetainedOk, AllParented, AllLinked, AllLive, TrashShaped, PlanRef;
    var t, space := db.nodes, db.space;
    forall q | q in refs ensures PlanRef(t, space, q).Ok? && Within(PlanRef(t, space, q).value.locks, plan.locks) {
      RefWithin(t, space, refs, q);
    }
    forall q | q in refs && q.path == [] && q.write && q.base != ""
      ensures NodeKey(q.base) in plan.locks && plan.locks[NodeKey(q.base)]
    {
      RefNames(t, space, q);
    }
  }

  lemma {:induction false} RefWithin(t: Table, space: Id, refs: seq<Ref>, q: Ref)
    requires UniquePaths(t) && PlanRefs(t, space, refs).Ok? && q in refs
    ensures PlanRef(t, space, q).Ok? && Within(PlanRef(t, space, q).value.locks, PlanRefs(t, space, refs).value.locks)
    decreases |refs|
  {
    hide PlanRef;
    var rest := PlanRefs(t, space, refs[1..]).value.locks;
    MergeUpper(PlanRef(t, space, refs[0]).value.locks, rest);
    if q != refs[0] {
      RefWithin(t, space, refs[1..], q);
      WithinTrans(PlanRef(t, space, q).value.locks, rest, PlanRefs(t, space, refs).value.locks);
    }
  }

  lemma RefNames(t: Table, space: Id, q: Ref)
    requires UniquePaths(t) && PlanRef(t, space, q).Ok? && q.path == [] && q.write && q.base != ""
    ensures var locks := PlanRef(t, space, q).value.locks;
            NodeKey(q.base) in locks && locks[NodeKey(q.base)]
  {
  }

  // ------------------------------------------------------------------ recovery, scans, giving up

  lemma RecoveryInv(g: Global, a: ActorId, l: Label)
    requires Inv(g) && a in g.actors && RecoveryDo(g, a, l).Ok? && Base(RecoveryDo(g, a, l).value) && !l.CommitOther?
    ensures Inv(RecoveryDo(g, a, l).value)
  {
    hide Inv, Base, HoldOk, SessionFree, ClaimFree, Orders;
    var h := RecoveryDo(g, a, l).value;
    ElsewhereOk(h.db, h.actors[a]);
    SoleInv(g, a, h.actors[a], h);
  }

  lemma ScanInv(g: Global, a: ActorId, l: Label)
    requires Inv(g) && a in g.actors && ScanDo(g, a, l).Ok? && Base(ScanDo(g, a, l).value) && !l.ScanCommit?
    ensures Inv(ScanDo(g, a, l).value)
  {
    hide Inv, Base;
    var h := ScanDo(g, a, l).value;
    InvActor(g, a);
    SoleInv(g, a, h.actors[a], h);
  }

  lemma AbortInv(g: Global, a: ActorId)
    requires Inv(g) && a in g.actors && Base(Put(g, a, FREE))
    ensures Inv(Put(g, a, FREE))
  {
    hide Inv, Base;
    SoleInv(g, a, FREE, Put(g, a, FREE));
  }
}
