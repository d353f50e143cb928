/** Building runs step by step. */
module ProtocolReach {
  import opened Metadata
  import opened LockPlan
  import opened LockOrder
  import opened Requests
  import opened Protocol
  import opened ProtocolBase
  import opened ProtocolProgress
  import opened ProtocolRuns

  /** Where a run starts, and whether it goes without recoveries. */
  datatype Story = Story(start: Global, calm: bool)

  predicate Calm(moves: seq<Move>) {
    forall i :: 0 <= i < |moves| ==> !moves[i].what.Recover? && !moves[i].what.Blocked? && !moves[i].what.CommitOther?
  }

  ghost predicate Reaches(g: Story, h: Global) {
    exists moves :: Run(g.start, moves) == Ok(h) && (g.calm ==> Calm(moves))
  }

  lemma ReachesSelf(g: Story)
    ensures Reaches(g, g.start)
  {
    assert Run(g.start, []) == Ok(g.start);
  }

  lemma ReachesOn(g: Story, h: Global, a: ActorId, l: Label, k: Global)
    requires Reaches(g, h) && Do(h, a, l) == Ok(k)
    requires g.calm ==> !l.Recover? && !l.Blocked? && !l.CommitOther?
    ensures Reaches(g, k)
  {
    hide Do;
    var moves :| Run(g.start, moves) == Ok(h) && (g.calm ==> Calm(moves));
    var more := moves + [Move.Move(a, l)];
    assert more[..|more| - 1] == moves;
    assert Run(g.start, more) == Ok(k);
  }

  /** From `h` to `k` one process changes, and nothing in the database. */
  ghost predicate OnlyActor(h: Global, k: Global, a: ActorId, me: Actor) {
    k.db == h.db && k.actors == h.actors[a := me]
  }

  lemma BeginDo(g: Story, h: Global, a: ActorId, refs: seq<Ref>) returns (k: Global)
    requires Reaches(g, h) && a in h.actors && h.actors[a] == FREE && refs != []
    ensures Reaches(g, k) && OnlyActor(h, k, a, FREE.(pc := Begin(refs)))
  {
    hide Run, Reaches;
    k := Put(h, a, FREE.(pc := Begin(refs)));
    assert Do(h, a, BeginRefs(refs)) == Ok(k);
    ReachesOn(g, h, a, BeginRefs(refs), k);
  }

  lemma PlanDo(g: Story, h: Global, a: ActorId, refs: seq<Ref>, plan: Plan, order: seq<string>) returns (k: Global)
    requires Reaches(g, h) && a in h.actors && h.actors[a] == FREE.(pc := Begin(refs)) && Orders(order, plan.locks)
    requires UniquePaths(h.db.nodes) && PlanRefs(h.db.nodes, h.db.space, refs) == Ok(plan)
    ensures Reaches(g, k) && OnlyActor(h, k, a, FREE.(pc := Acquire(order, plan.locks, ForRefs(refs, plan))))
  {
    hide Run, Reaches, PlanRefs, UniquePaths, Orders;
    k := Put(h, a, FREE.(pc := Acquire(order, plan.locks, ForRefs(refs, plan))));
    assert Do(h, a, PlanThem(order)) == Ok(k);
    ReachesOn(g, h, a, PlanThem(order), k);
  }

  function Took(me: Actor): Actor
    requires me.pc.Acquire? && me.pc.order != [] && me.pc.order[0] in me.pc.goal
  {
    me.(held := me.held[me.pc.order[0] := me.pc.goal[me.pc.order[0]]], pc := me.pc.(order := me.pc.order[1..]))
  }

  lemma TakeDo(g: Story, h: Global, a: ActorId) returns (k: Global)
    requires Reaches(g, h) && a in h.actors && h.actors[a].pc.Acquire? && h.actors[a].pc.order != []
    requires var me := h.actors[a];
             me.pc.order[0] in me.pc.goal && LockFree(h, me.pc.order[0], me.pc.goal[me.pc.order[0]])
    ensures Reaches(g, k) && OnlyActor(h, k, a, Took(h.actors[a]))
  {
    hide Run, Reaches, LockFree;
    k := Put(h, a, Took(h.actors[a]));
    assert Do(h, a, Take) == Ok(k);
    ReachesOn(g, h, a, Take, k);
  }

  lemma ReplanDo(g: Story, h: Global, a: ActorId, refs: seq<Ref>, plan: Plan) returns (k: Global)
    requires Reaches(g, h) && a in h.actors
    requires h.actors[a] == FREE.(held := plan.locks, pc := Acquire([], plan.locks, ForRefs(refs, plan)))
    requires UniquePaths(h.db.nodes) && PlanRefs(h.db.nodes, h.db.space, refs) == Ok(plan)
    ensures Reaches(g, k)
    ensures OnlyActor(h, k, a, FREE.(held := plan.locks,
            pc := Verified(plan, refs, PublicPlans(h.db.nodes, h.db.space, refs))))
  {
    hide Run, Reaches, PlanRefs, UniquePaths, PublicPlans;
    k := Put(h, a, FREE.(held := plan.locks, pc := Verified(plan, refs, PublicPlans(h.db.nodes, h.db.space, refs))));
    assert Do(h, a, Replan) == Ok(k);
    ReachesOn(g, h, a, Replan, k);
  }

  lemma ClearDo(g: Story, h: Global, a: ActorId) returns (k: Global)
    requires Reaches(g, h) && a in h.actors && h.actors[a].pc.Verified? && h.db.ops == map[]
    ensures var me := h.actors[a];
            Reaches(g, k) && OnlyActor(h, k, a, me.(pc := Ready(me.pc.plan, me.pc.refs, me.pc.pub)))
  {
    hide Run, Reaches;
    var me := h.actors[a];
    k := Put(h, a, me.(pc := Ready(me.pc.plan, me.pc.refs, me.pc.pub)));
    assert Do(h, a, Clear) == Ok(k);
    ReachesOn(g, h, a, Clear, k);
  }

  lemma JournalDo(g: Story, h: Global, a: ActorId, req: Request, op: Operation) returns (k: Global)
    requires Reaches(g, h) && a in h.actors && h.actors[a].pc.Ready? && MayJournal(h, h.actors[a], req, op)
    ensures Reaches(g, k) && k.db == h.db.(ops := h.db.ops[op.id := op])
    ensures k.actors == h.actors[a := h.actors[a].(loaded := Err, pc := Publish(op))]
  {
    hide Run, Reaches, MayJournal;
    k := PutDb(h, a, h.actors[a].(loaded := Err, pc := Publish(op)), h.db.(ops := h.db.ops[op.id := op]));
    assert Do(h, a, Label.Journal(req, op)) == Ok(k);
    ReachesOn(g, h, a, Label.Journal(req, op), k);
  }

  lemma CommitOwnDo(g: Story, h: Global, a: ActorId) returns (k: Global)
    requires Reaches(g, h) && a in h.actors && h.actors[a].pc.Publish? && Commit(h.db, h.actors[a].pc.op, 0, 0).Ok?
    ensures Reaches(g, k) && k.db == Commit(h.db, h.actors[a].pc.op, 0, 0).value
    ensures k.actors == h.actors[a := h.actors[a].(pc := Leaving)]
  {
    hide Run, Reaches, Commit;
    var op := h.actors[a].pc.op;
    k := PutDb(h, a, h.actors[a].(pc := Leaving), Commit(h.db, op, 0, 0).value).(commits := h.commits +
        [(op.id, op.session)]);
    assert Do(h, a, CommitOwn(0, 0)) == Ok(k);
    ReachesOn(g, h, a, CommitOwn(0, 0), k);
  }

  lemma AbortDo(g: Story, h: Global, a: ActorId) returns (k: Global)
    requires Reaches(g, h) && a in h.actors
    ensures Reaches(g, k) && OnlyActor(h, k, a, FREE)
  {
    hide Run, Reaches;
    k := Put(h, a, FREE);
    assert Do(h, a, Abort) == Ok(k);
    ReachesOn(g, h, a, Abort, k);
  }

  lemma RecoverDo(g: Story, h: Global, a: ActorId, o: OpId) returns (k: Global)
    requires !g.calm && Reaches(g, h) && a in h.actors && h.actors[a] == FREE && o in h.db.ops
    requires h.db.ops[o].session == ""
    ensures Reaches(g, k) && OnlyActor(h, k, a, FREE.(pc := WantClaim(h.db.ops[o], ToIdle)))
  {
    hide Run, Reaches;
    k := Put(h, a, FREE.(pc := WantClaim(h.db.ops[o], ToIdle)));
    assert Do(h, a, Recover(o)) == Ok(k);
    ReachesOn(g, h, a, Recover(o), k);
  }

  lemma ClaimDo(g: Story, h: Global, a: ActorId, op: Operation, order: seq<string>) returns (k: Global)
    requires !g.calm && Reaches(g, h) && a in h.actors && h.actors[a] == FREE.(pc := WantClaim(op, ToIdle))
    requires ClaimFree(h, op.id) && Orders(order, op.locks)
    ensures Reaches(g, k)
    ensures OnlyActor(h, k, a, FREE.(claim := op.id, pc := Acquire(order, op.locks, ForOp(op, ToIdle))))
  {
    hide Run, Reaches, ClaimFree, Orders;
    k := Put(h, a, FREE.(claim := op.id, pc := Acquire(order, op.locks, ForOp(op, ToIdle))));
    assert Do(h, a, TakeClaim(order)) == Ok(k);
    ReachesOn(g, h, a, TakeClaim(order), k);
  }

  lemma CommitOtherDo(g: Story, h: Global, a: ActorId) returns (k: Global)
    requires !g.calm && Reaches(g, h) && a in h.actors && h.actors[a].pc.Acquire? && h.actors[a].pc.order == []
    requires h.actors[a].pc.after.ForOp?
    requires h.actors[a].pc.after.op.id in h.db.ops && Commit(h.db, h.db.ops[h.actors[a].pc.after.op.id], 0, 0).Ok?
    ensures Reaches(g, k) && k.db == Commit(h.db, h.db.ops[h.actors[a].pc.after.op.id], 0, 0).value
    ensures k.actors.Keys == h.actors.Keys && forall b :: b in h.actors && b != a ==> k.actors[b] == h.actors[b]
  {
    hide Run, Reaches, Commit;
    var me := h.actors[a];
    var found := h.db.ops[me.pc.after.op.id];
    k := PutDb(h, a, me.(held := map[], claim := "", other := "", pc := ReturnPc(me.pc.after.ret)),
        Commit(h.db, found, 0, 0).value)
         .(commits := h.commits + [(found.id, found.session)]);
    assert Do(h, a, CommitOther(0, 0)) == Ok(k);
    ReachesOn(g, h, a, CommitOther(0, 0), k);
  }

  // ------------------------------------------------------------------ taking a list of locks

  function ListLocks(order: seq<string>, goal: LockMap): LockMap {
    map k | k in order && k in goal :: goal[k]
  }

  lemma SortedOnce(order: seq<string>)
    requires Sorted(order) && order != []
    ensures order[0] !in order[1..] && Sorted(order[1..])
  {
    LessIrreflexive(order[0]);
    forall i | 0 < i < |order| ensures order[i] != order[0] {
      assert Less(order[0], order[i]);
    }
  }

  lemma StillFree(h: Global, k: Global, a: ActorId, key: string, j: string, w: bool)
    requires a in h.actors && LockFree(h, j, w) && j != key
    requires k.actors.Keys == h.actors.Keys && (forall b :: b in h.actors && b != a ==> k.actors[b] == h.actors[b])
    requires forall i :: i in k.actors[a].held && i != key ==>
             i in h.actors[a].held && h.actors[a].held[i] == k.actors[a].held[i]
    ensures LockFree(k, j, w)
  {
  }

  lemma ListStep(held: LockMap, order: seq<string>, goal: LockMap)
    requires Sorted(order) && order != [] && order[0] in goal
    ensures held[order[0] := goal[order[0]]] + ListLocks(order[1..], goal) == held + ListLocks(order, goal)
  {
    SortedOnce(order);
    assert order == [order[0]] + order[1..];
  }

  /** A process takes all locks on its list if they are free. */
  lemma {:induction false} TakeAll(g: Story, h: Global, a: ActorId) returns (k: Global)
    requires Reaches(g, h) && a in h.actors && h.actors[a].pc.Acquire? && Sorted(h.actors[a].pc.order)
    requires forall j :: j in h.actors[a].pc.order ==>
             j in h.actors[a].pc.goal && LockFree(h, j, h.actors[a].pc.goal[j])
    ensures Reaches(g, k)
    ensures var me := h.actors[a];
            OnlyActor(h, k, a, me.(held := me.held + ListLocks(me.pc.order, me.pc.goal), pc := me.pc.(order := [])))
    decreases |h.actors[a].pc.order|
  {
    hide Run, Reaches, LockFree, Sorted, ListLocks;
    var me := h.actors[a];
    var order, goal := me.pc.order, me.pc.goal;
    if order == [] {
      k := h;
      NoLocks(me.held, goal);
      assert h.actors[a := me] == h.actors;
    } else {
      SortedOnce(order);
      var next := TakeDo(g, h, a);
      forall j | j in order[1..] ensures j in goal && LockFree(next, j, goal[j]) {
        StillFree(h, next, a, order[0], j, goal[j]);
      }
      k := TakeAll(g, next, a);
      ListStep(me.held, order, goal);
    }
  }

  lemma NoLocks(held: LockMap, goal: LockMap)
    ensures held + ListLocks([], goal) == held
  {
  }

  lemma AllListed(order: seq<string>, goal: LockMap)
    requires Orders(order, goal)
    ensures map[] + ListLocks(order, goal) == goal && Sorted(order)
    ensures forall j :: j in order ==> j in goal
  {
    forall j ensures j in order <==> j in goal {
      assert j in (set k | k in order) <==> j in order;
    }
  }

  /** A free process plans, locks and replans. */
  lemma Lock(g: Story, h: Global, a: ActorId, refs: seq<Ref>, plan: Plan) returns (k: Global)
    requires Reaches(g, h) && a in h.actors && h.actors[a] == FREE && refs != []
    requires UniquePaths(h.db.nodes) && PlanRefs(h.db.nodes, h.db.space, refs) == Ok(plan)
    requires forall j :: j in plan.locks ==> LockFree(h, j, plan.locks[j])
    ensures Reaches(g, k)
    ensures OnlyActor(h, k, a, FREE.(held := plan.locks,
            pc := Verified(plan, refs, PublicPlans(h.db.nodes, h.db.space, refs))))
  {
    hide Run, Reaches, LockFree, PlanRefs, UniquePaths, PublicPlans, Orders, ListLocks;
    var order := OrderOf(plan.locks);
    AllListed(order, plan.locks);
    var h1 := BeginDo(g, h, a, refs);
    var h2 := PlanDo(g, h1, a, refs, plan, order);
    forall j | j in order ensures LockFree(h2, j, plan.locks[j]) {
      SameFree(h, h2, a, j, plan.locks[j]);
    }
    var h3 := TakeAll(g, h2, a);
    k := ReplanDo(g, h3, a, refs, plan);
  }

  lemma OrderOf(goal: LockMap) returns (order: seq<string>)
    ensures Orders(order, goal)
  {
    order := SomeOrder(goal.Keys);
  }

  lemma SameFree(h: Global, k: Global, a: ActorId, j: string, w: bool)
    requires LockFree(h, j, w) && a in h.actors && a in k.actors && k.actors == h.actors[a := k.actors[a]]
    requires k.actors[a].held == map[]
    ensures LockFree(k, j, w)
  {
  }

  /** One reference has the locks of its own plan. */
  lemma OneRef(t: Table, space: Id, r: Ref)
    requires UniquePaths(t) && PlanRef(t, space, r).Ok?
    ensures PlanRefs(t, space, [r]).Ok? && PlanRefs(t, space, [r]).value.locks == PlanRef(t, space, r).value.locks
  {
    hide PlanRef;
    assert [r][1..] == [];
    assert PlanRefs(t, space, [r][1..]) == Ok(NOTHING);
  }

  lemma RefreshedPaths(t: Table, changed: set<Paths.Path>, tag: Tag)
    ensures Refresh(t, changed, tag).Keys == t.Keys
    ensures forall i :: i in t ==> SameButEtag(Refresh(t, changed, tag)[i], t[i])
  {
  }

  /** Nobody is at work. */
  ghost predicate Quiet(h: Global) {
    h.db.ops == map[] && forall b :: b in h.actors ==> h.actors[b] == FREE
  }

  /** When nobody else is at work, a request that asks for an entry carries it out. */
  lemma Carry(g: Story, h: Global, a: ActorId, req: Request, op: Operation) returns (k: Global)
    requires Reaches(g, h) && Quiet(h) && a in h.actors && UniquePaths(h.db.nodes)
    requires Answer(h.db, req) == Apply(Asked(op)) && (req.RestoreItem? ==> req.item == op.node) && op.id != ""
    requires op.session == ""
    requires NewUuids(h.db, op) && OpLocks(h.db.nodes, h.db.space, op) == Ok(op.locks)
    requires PlanRefs(h.db.nodes, h.db.space, Refs(h.db.space, req)).Ok?
    requires op.kind == Create ==>
             NodeKey(op.node) !in PlanRefs(h.db.nodes, h.db.space, Refs(h.db.space, req)).value.locks
    requires Commit(h.db.(ops := map[op.id := op]), op, 0, 0).Ok?
    ensures Reaches(g, k) && k.actors == h.actors && k.db == Commit(h.db.(ops := map[op.id := op]), op, 0, 0).value
    ensures Quiet(k)
  {
    hide Run, Reaches, PlanRefs, PublicPlans, UniquePaths, Answer, NewUuids, OpLocks, Commit;
    var refs := Refs(h.db.space, req);
    var h1 := Lock(g, h, a, refs, PlanRefs(h.db.nodes, h.db.space, refs).value);
    var h2 := ClearDo(g, h1, a);
    var h3 := JournalDo(g, h2, a, req, op);
    var h4 := CommitOwnDo(g, h3, a);
    k := AbortDo(g, h4, a);
    assert h.actors[a := FREE] == h.actors;
    CommitFrame(h.db.(ops := map[op.id := op]), op, 0, 0);
    assert map[op.id := op] - {op.id} == map[];
  }
}
