/** Who holds what: the lock discipline of the driver's processes, and why they
    never wait for each other in a circle. */
module ProtocolLocks {
  import opened Metadata
  import opened LockPlan
  import opened LockOrder
  import opened Protocol

  // ------------------------------------------------------------------ shapes

  ghost predicate Bare(me: Actor) {
    me.other == "" && me.claim == "" && me.held == map[]
  }

  ghost predicate OutOfDrain(me: Actor) {
    me.own == "" || me.drained
  }

  ghost predicate RetOk(me: Actor, ret: Return) {
    match ret
    case ToIdle => me.own == ""
    case ToRefs(refs) => refs != [] && OutOfDrain(me)
    case ToDrain(todo) =>
      && me.own != "" && !me.drained && me.other == ""
      && forall o :: o in todo ==> todo[o].session == me.own && todo[o].id == o && o != ""
  }

  ghost predicate SessionHeld(me: Actor, op: Operation) {
    op.session != "" ==> op.session == me.own || op.session == me.other
  }

  /** Locks are taken in order: those held come before those still wanted. */
  ghost predicate InOrder(held: LockMap, order: seq<string>, goal: LockMap) {
    && Sorted(order)
    && (forall k :: k in goal <==> k in held || k in order)
    && (forall k :: k in held ==> k !in order && k in goal && held[k] == goal[k])
    && (forall k, j :: k in held && j in order ==> Less(k, j))
  }

  /** What an actor holds and knows at each point of its program. */
  ghost predicate Shape(now: nat, me: Actor) {
    && (me.own == "" ==> !me.drained)
    && (me.loaded.Ok? ==> me.drained)
    && (me.drained ==> me.drainedAt < now)
    && (me.own != "" ==> me.own != me.other)
    && match me.pc
       case Idle => Bare(me) && OutOfDrain(me)
       case WantOwn(sid) => Bare(me) && me.own == "" && sid != ""
       case OwnTaken => Bare(me) && me.own != "" && !me.drained
       case Drain(todo) => Bare(me) && RetOk(me, ToDrain(todo))
       case Begin(refs) => Bare(me) && OutOfDrain(me) && refs != []
       case Acquire(order, goal, after) =>
         && InOrder(me.held, order, goal)
         && (match after
             case ForRefs(refs, plan) => me.other == "" && me.claim == "" && OutOfDrain(me) && refs != [] &&
                 goal == plan.locks
             case ForOp(op, ret) => me.claim == op.id != "" && goal == op.locks && SessionHeld(me, op) && RetOk(me, ret)
             case ForScan(data) => me.own == "" && me.other == "" && me.claim == "")
       case Verified(plan, refs, pub) => me.other == "" && me.claim == "" && OutOfDrain(me) &&
           me.held == plan.locks && refs != []
       case Ready(plan, refs, pub) => me.other == "" && me.claim == "" && OutOfDrain(me) && me.held == plan.locks &&
           refs != []
       case Publish(op) => me.other == "" && me.claim == "" && OutOfDrain(me) && SessionHeld(me, op) && me.loaded.Err?
       case Leaving => me.other == "" && me.claim == "" && OutOfDrain(me)
       case WantOther(op, ret, readAt) =>
         && Bare(me) && op.session != "" && op.session != me.own && op.id != ""
         && RetOk(me, ret) && !ret.ToDrain?
         && readAt < now && (me.drained ==> me.drainedAt < readAt)
       case WantClaim(op, ret) => me.held == map[] && me.claim == "" && op.id != "" && SessionHeld(me, op) &&
           RetOk(me, ret)
       case ScanEpoch(_) => Bare(me) && me.own == ""
       case ScanClear(_) => Bare(me) && me.own == ""
       case ScanWalk(_) => Bare(me) && me.own == ""
       case ScanHave(_) => me.own == "" && me.other == "" && me.claim == ""
  }

  /** Two actors hold compatible locks. */
  ghost predicate Compatible(x: Actor, y: Actor) {
    && !Conflict(x.held, y.held)
    && (x.own != "" ==> x.own != y.own && x.own != y.other)
    && (x.other != "" ==> x.other != y.other && x.other != y.own)
    && (x.claim != "" ==> x.claim != y.claim)
  }

  /** A wait for another session rests on a journal entry read before that session's
      present owner had finished the session's entries, unless the owner is about to leave. */
  ghost predicate ReadBefore(x: Actor, y: Actor) {
    x.pc.WantOther? && y.drained && y.own == x.pc.op.session && !y.pc.Publish? && !y.pc.Leaving? ==>
      x.pc.readAt < y.drainedAt
  }

  ghost predicate LocksOk(g: Global) {
    && (forall a :: a in g.actors ==> Shape(g.clock, g.actors[a]))
    && (forall a, b :: a in g.actors && b in g.actors && a != b ==> Compatible(g.actors[a], g.actors[b]))
    && (forall a, b :: a in g.actors && b in g.actors ==> ReadBefore(g.actors[a], g.actors[b]))
  }

  // ------------------------------------------------------------------ waiting

  predicate Waiting(me: Actor) {
    me.pc.WantOwn? || me.pc.WantOther? || me.pc.WantClaim? || (me.pc.Acquire? && me.pc.order != [])
  }

  /** `x` cannot take its next lock because of a lock that `y` holds. A process can
      block itself: each acquisition opens the lock file anew. */
  ghost predicate WaitsFor(x: Actor, y: Actor) {
    match x.pc
    case WantOwn(sid) => y.own == sid || y.other == sid
    case WantOther(op, _, _) => y.own == op.session || y.other == op.session
    case WantClaim(op, _) => y.claim == op.id
    case Acquire(order, goal, _) =>
      order != [] && order[0] in goal && order[0] in y.held && (goal[order[0]] || y.held[order[0]])
    case _ => false
  }

  /** Processes, each waiting for the next and the last for the first. */
  ghost predicate Circle(g: Global, ring: seq<ActorId>) {
    && ring != []
    && (forall i :: 0 <= i < |ring| ==> ring[i] in g.actors)
    && (forall i :: 0 <= i < |ring| - 1 ==> WaitsFor(g.actors[ring[i]], g.actors[ring[i + 1]]))
    && WaitsFor(g.actors[ring[|ring| - 1]], g.actors[ring[0]])
  }

  /** The rank of a waiting process: what it waits for, session locks first, then
      operation claims, then resource locks in key order; waits for another
      session in the order of the reads that caused them. */
  function Level(me: Actor): nat {
    match me.pc
    case WantOther(_, _, _) => 1
    case WantClaim(_, _) => 2
    case Acquire(_, _, _) => 3
    case _ => 0
  }

  ghost predicate Before(x: Actor, y: Actor)
    requires Waiting(x) && Waiting(y)
  {
    || Level(x) < Level(y)
    || (Level(x) == Level(y) == 1 && x.pc.readAt < y.pc.readAt)
    || (Level(x) == Level(y) == 3 && Less(x.pc.order[0], y.pc.order[0]))
  }

  lemma BeforeTransitive(x: Actor, y: Actor, z: Actor)
    requires Waiting(x) && Waiting(y) && Waiting(z) && Before(x, y) && Before(y, z)
    ensures Before(x, z)
  {
    if Level(x) == Level(y) == Level(z) == 3 {
      LessTransitive(x.pc.order[0], y.pc.order[0], z.pc.order[0]);
    }
  }

  lemma NotBeforeItself(x: Actor)
    requires Waiting(x)
    ensures !Before(x, x)
  {
    if Level(x) == 3 {
      LessIrreflexive(x.pc.order[0]);
    }
  }

  /** Each wait on a process that is itself waiting goes up in rank. */
  lemma WaitGoesUp(now: nat, x: Actor, y: Actor)
    requires Shape(now, x) && Shape(now, y) && ReadBefore(x, y)
    requires Waiting(x) && Waiting(y) && WaitsFor(x, y)
    ensures Before(x, y)
  {
  }

  lemma {:induction false} ClimbsTo(g: Global, ring: seq<ActorId>, i: nat, j: nat)
    requires LocksOk(g) && Circle(g, ring) && i < j < |ring|
    ensures Waiting(g.actors[ring[i]]) && Waiting(g.actors[ring[j]])
    ensures Before(g.actors[ring[i]], g.actors[ring[j]])
    decreases j - i
  {
    var x, y := g.actors[ring[j - 1]], g.actors[ring[j]];
    assert WaitsFor(x, y);
    assert if j + 1 < |ring| then WaitsFor(y, g.actors[ring[j + 1]]) else WaitsFor(y, g.actors[ring[0]]);
    WaitGoesUp(g.clock, x, y);
    if i < j - 1 {
      ClimbsTo(g, ring, i, j - 1);
      BeforeTransitive(g.actors[ring[i]], x, y);
    }
  }

  /** Deadlock freedom: no processes wait for each other in a circle. */
  lemma NoCircle(g: Global, ring: seq<ActorId>)
    requires LocksOk(g)
    ensures !Circle(g, ring)
  {
    if Circle(g, ring) {
      var n := |ring| - 1;
      var first, last := g.actors[ring[0]], g.actors[ring[n]];
      assert WaitsFor(last, first);
      if n > 0 {
        ClimbsTo(g, ring, 0, n);
        WaitGoesUp(g.clock, last, first);
        BeforeTransitive(first, last, first);
      } else {
        WaitGoesUp(g.clock, last, first);
      }
      NotBeforeItself(first);
    }
  }
}
