/** Somebody can always move on. */
module ProtocolProgress {
  import opened LockOrder
  import opened Protocol
  import opened ProtocolLocks
  import opened ProtocolBase
  import opened ProtocolRuns

  lemma {:induction false} LeastKey(keys: set<string>) returns (k: string)
    requires keys != {}
    ensures k in keys && forall j :: j in keys && j != k ==> Less(k, j)
    decreases |keys|
  {
    k :| k in keys;
    if keys != {k} {
      var rest := keys - {k};
      assert rest != {};
      var m := LeastKey(rest);
      LessTotal(k, m);
      if Less(k, m) {
        forall j | j in keys && j != k ensures Less(k, j) {
          if j != m { LessTransitive(k, m, j); }
        }
      } else {
        k := m;
      }
    }
  }

  /** Every lock set can be listed in acquisition order. */
  lemma {:induction false} SomeOrder(keys: set<string>) returns (order: seq<string>)
    ensures Sorted(order) && (set k | k in order) == keys
    decreases |keys|
  {
    if keys == {} {
      order := [];
    } else {
      var k := LeastKey(keys);
      var rest := SomeOrder(keys - {k});
      order := [k] + rest;
      forall j | j in rest ensures Less(k, j) {
        assert j in (set i | i in rest);
        assert j in keys - {k};
      }
      assert (set i | i in order) == {k} + (set i | i in rest);
    }
  }

  /** A waiting process of the highest rank. */
  lemma {:induction false} Highest(g: Global, who: set<ActorId>) returns (m: ActorId)
    requires who != {} && forall a :: a in who ==> a in g.actors && Waiting(g.actors[a])
    ensures m in who && forall b :: b in who ==> !Before(g.actors[m], g.actors[b])
    decreases |who|
  {
    hide Before;
    var x :| x in who;
    NotBeforeItself(g.actors[x]);
    if who == {x} {
      m := x;
    } else {
      var rest := who - {x};
      assert rest != {};
      m := Highest(g, rest);
      if Before(g.actors[m], g.actors[x]) {
        forall b | b in rest ensures !Before(g.actors[x], g.actors[b]) {
          if Before(g.actors[x], g.actors[b]) { BeforeTransitive(g.actors[m], g.actors[x], g.actors[b]); }
        }
        m := x;
      }
    }
  }

  /** The process can take a step other than giving up. */
  ghost predicate CanMove(g: Global, a: ActorId) {
    exists l :: Do(g, a, l).Ok? && !l.Abort?
  }

  lemma Unblocked(g: Global, a: ActorId)
    requires LocksOk(g) && a in g.actors && Waiting(g.actors[a])
    requires forall b :: b in g.actors ==> !WaitsFor(g.actors[a], g.actors[b])
    ensures CanMove(g, a)
  {
    hide LocksOk, CanMove, WaitsFor;
    match g.actors[a].pc
    case WantOwn(_) => UnblockedOwn(g, a);
    case WantOther(_, _, _) => UnblockedOther(g, a);
    case WantClaim(_, _) => UnblockedClaim(g, a);
    case Acquire(_, _, _) => UnblockedKey(g, a);
  }

  lemma UnblockedOwn(g: Global, a: ActorId)
    requires a in g.actors && g.actors[a].pc.WantOwn?
    requires forall b :: b in g.actors ==> !WaitsFor(g.actors[a], g.actors[b])
    ensures CanMove(g, a)
  {
    hide RequestDo, ChangeDo, RecoveryDo, ScanDo;
    assert SessionFree(g, g.actors[a].pc.sid);
    assert Do(g, a, TakeOwn).Ok?;
  }

  lemma UnblockedOther(g: Global, a: ActorId)
    requires a in g.actors && g.actors[a].pc.WantOther?
    requires forall b :: b in g.actors ==> !WaitsFor(g.actors[a], g.actors[b])
    ensures CanMove(g, a)
  {
    hide SessionDo, RequestDo, ChangeDo, ScanDo;
    assert SessionFree(g, g.actors[a].pc.op.session);
    assert Do(g, a, TakeOther).Ok?;
  }

  lemma UnblockedClaim(g: Global, a: ActorId)
    requires a in g.actors && g.actors[a].pc.WantClaim?
    requires forall b :: b in g.actors ==> !WaitsFor(g.actors[a], g.actors[b])
    ensures CanMove(g, a)
  {
    hide SessionDo, RequestDo, ChangeDo, ScanDo, Sorted;
    var op := g.actors[a].pc.op;
    var order := SomeOrder(op.locks.Keys);
    assert ClaimFree(g, op.id);
    assert Do(g, a, TakeClaim(order)).Ok?;
  }

  lemma UnblockedKey(g: Global, a: ActorId)
    requires LocksOk(g) && a in g.actors && Waiting(g.actors[a]) && g.actors[a].pc.Acquire?
    requires forall b :: b in g.actors ==> !WaitsFor(g.actors[a], g.actors[b])
    ensures CanMove(g, a)
  {
    hide LocksOk, SessionDo, ChangeDo, RecoveryDo, ScanDo;
    ShapeOf(g, a);
    var order, goal := g.actors[a].pc.order, g.actors[a].pc.goal;
    assert order[0] in goal;
    assert LockFree(g, order[0], goal[order[0]]);
    assert Do(g, a, Take).Ok?;
  }

  /** Whenever a process waits, some waiting process can have its lock at once, or
      waits for one that is not itself waiting. */
  lemma SomebodyMoves(g: Global, a: ActorId)
    requires LocksOk(g) && a in g.actors && Waiting(g.actors[a])
    ensures exists m :: m in g.actors && Waiting(g.actors[m]) &&
              (CanMove(g, m) || exists b ::
                  b in g.actors && WaitsFor(g.actors[m], g.actors[b]) && !Waiting(g.actors[b]))
  {
    hide CanMove, Before, WaitsFor;
    var who := set b | b in g.actors && Waiting(g.actors[b]);
    assert a in who;
    var m := Highest(g, who);
    if forall b :: b in g.actors ==> !WaitsFor(g.actors[m], g.actors[b]) {
      Unblocked(g, m);
    } else {
      var b :| b in g.actors && WaitsFor(g.actors[m], g.actors[b]);
      if Waiting(g.actors[b]) {
        WaitGoesUp(g.clock, g.actors[m], g.actors[b]);
      }
    }
  }

  /** Progress in every run. */
  lemma Progress(g: Global, moves: seq<Move>, a: ActorId)
    requires Init(g) && Run(g, moves).Ok?
    requires var h := Run(g, moves).value; a in h.actors && Waiting(h.actors[a])
    ensures var h := Run(g, moves).value;
            exists m :: m in h.actors && Waiting(h.actors[m]) &&
              (CanMove(h, m) || exists b ::
                  b in h.actors && WaitsFor(h.actors[m], h.actors[b]) && !Waiting(h.actors[b]))
  {
    hide Init, Run, Base, LocksOk, CanMove, WaitsFor, Waiting;
    RunBase(g, moves);
    BaseOps(Run(g, moves).value);
    SomebodyMoves(Run(g, moves).value, a);
  }
}
