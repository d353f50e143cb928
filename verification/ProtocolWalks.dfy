/** What a scan's walk of the mounted tree has missed. */
module ProtocolWalks {
  import opened Metadata
  import opened Protocol
  import opened ProtocolBase
  import opened ProtocolRuns

  /** A scan that has begun to walk the tree and not committed. */
  predicate Walking(me: Actor) {
    me.pc.ScanWalk? || me.pc.ScanHave? || (me.pc.Acquire? && me.pc.after.ForScan?)
  }

  function WalkOf(me: Actor): ScanData
    requires Walking(me)
  {
    if me.pc.Acquire? then me.pc.after.data else me.pc.data
  }

  /** A walk that the epoch does not yet show to be out of date. */
  predicate Current(g: Global, me: Actor) {
    Walking(me) && WalkOf(me).epoch == g.epoch
  }

  /** The driver has renamed nothing since a current walk began. */
  ghost predicate WalksOk(g: Global) {
    forall a :: a in g.actors && Current(g, g.actors[a]) ==> WalkOf(g.actors[a]).renames == g.renames
  }

  lemma WalkBase(g: Global, a: ActorId)
    requires Base(g) && a in g.actors && Walking(g.actors[a])
    ensures WalkOf(g.actors[a]).epoch <= g.epoch && (Current(g, g.actors[a]) ==> g.db.ops == map[])
    ensures g.actors[a].pc.ScanHave? ==> Current(g, g.actors[a])
  {
    hide Base, ProtocolLocks.Shape, DrainOk, MemoryOk, SpaceHeld;
    BaseActor(g, a);
  }

  /** The step leaves renames and the epoch alone, or moves the epoch. */
  ghost predicate Gentle(g: Global, a: ActorId, h: Global) {
    && a in g.actors && h.actors.Keys == g.actors.Keys &&
         (forall b :: b in g.actors && b != a ==> h.actors[b] == g.actors[b])
    && h.renames == g.renames
    && ((h.epoch == g.epoch && (Walking(h.actors[a]) ==>
           || (Walking(g.actors[a]) && WalkOf(h.actors[a]).epoch == WalkOf(g.actors[a]).epoch &&
                WalkOf(h.actors[a]).renames == WalkOf(g.actors[a]).renames)
           || WalkOf(h.actors[a]).renames == g.renames))
        || (h.epoch == g.epoch + 1 && (Walking(h.actors[a]) ==> h.actors[a] == g.actors[a])))
  }

  lemma GentleWalks(g: Global, a: ActorId, h: Global)
    requires Base(g) && WalksOk(g) && Gentle(g, a, h)
    ensures WalksOk(h)
  {
    hide Base;
    forall b | b in h.actors && Current(h, h.actors[b]) ensures WalkOf(h.actors[b]).renames == h.renames {
      if Walking(g.actors[b]) { WalkBase(g, b); }
    }
  }

  lemma SessionGentle(g: Global, a: ActorId, l: Label)
    requires a in g.actors && SessionDo(g, a, l).Ok?
    ensures Gentle(g, a, SessionDo(g, a, l).value)
  {
    hide SessionFree;
  }

  lemma RequestGentle(g: Global, a: ActorId, l: Label)
    requires a in g.actors && RequestDo(g, a, l).Ok?
    ensures Gentle(g, a, RequestDo(g, a, l).value)
  {
    hide LockPlan.PlanRefs, Requests.PublicPlans, LockFree, LockPlan.Conflict, LockOrder.Orders;
  }

  lemma ChangeGentle(g: Global, a: ActorId, l: Label)
    requires a in g.actors && ChangeDo(g, a, l).Ok? && !l.Rename?
    ensures Gentle(g, a, ChangeDo(g, a, l).value)
  {
    hide Commit, MayJournal, Requests.Resolve, Edited, Purged;
    if l.Edit? { Requests.ResolveRight(g.db.nodes, l.q); }
  }

  lemma RecoveryGentle(g: Global, a: ActorId, l: Label)
    requires a in g.actors && RecoveryDo(g, a, l).Ok?
    ensures Gentle(g, a, RecoveryDo(g, a, l).value)
  {
    hide Commit, SessionFree, ClaimFree, LockOrder.Orders;
  }

  lemma ScanGentle(g: Global, a: ActorId, l: Label)
    requires a in g.actors && ScanDo(g, a, l).Ok?
    ensures Gentle(g, a, ScanDo(g, a, l).value)
  {
    hide Scans.Scanned, Scans.ScanInput;
  }

  lemma StepGentle(g: Global, a: ActorId, l: Label)
    requires Do(g, a, l).Ok? && !l.Rename?
    ensures Gentle(g, a, Do(g, a, l).value)
  {
    hide Gentle, SessionDo, RequestDo, ChangeDo, RecoveryDo, ScanDo;
    if l.Abort? { AbortGentle(g, a); }
    else if Do(g, a, l) == SessionDo(g, a, l) { SessionGentle(g, a, l); }
    else if Do(g, a, l) == RequestDo(g, a, l) { RequestGentle(g, a, l); }
    else if Do(g, a, l) == ChangeDo(g, a, l) { ChangeGentle(g, a, l); }
    else if Do(g, a, l) == RecoveryDo(g, a, l) { RecoveryGentle(g, a, l); }
    else { ScanGentle(g, a, l); }
  }

  lemma AbortGentle(g: Global, a: ActorId)
    requires a in g.actors
    ensures Gentle(g, a, Put(g, a, FREE))
  {
  }

  ghost predicate NoneCurrent(g: Global) {
    forall a :: a in g.actors ==> !Current(g, g.actors[a])
  }

  /** A rename spoils a walk exactly if there is a current one, and there is none while an
      entry is pending. */
  lemma RenameSpoilsIff(g: Global, a: ActorId)
    requires Base(g) && WalksOk(g) && Do(g, a, Rename).Ok?
    ensures WalksOk(Do(g, a, Rename).value) <==> NoneCurrent(g)
    ensures g.db.ops != map[] ==> WalksOk(Do(g, a, Rename).value)
  {
    hide Base, MayJournal;
    var h := Do(g, a, Rename).value;
    forall b | b in g.actors && Current(g, g.actors[b]) ensures g.db.ops == map[] && !WalksOk(h) {
      WalkBase(g, b);
      assert h.actors[b] == g.actors[b] && Current(h, h.actors[b]);
    }
  }

  lemma NoWalks(g: Global)
    requires Init(g)
    ensures WalksOk(g)
  {
  }

  /** No rename of the run happens while a walk is current. */
  ghost predicate UnseenRenames(g: Global, moves: seq<Move>)
    decreases |moves|
  {
    moves != [] ==>
      && UnseenRenames(g, moves[..|moves| - 1])
      && var before := Run(g, moves[..|moves| - 1]);
         before.Ok? && moves[|moves| - 1].what.Rename? ==> NoneCurrent(before.value)
  }

  ghost predicate WalksThroughout(g: Global, moves: seq<Move>)
    requires Run(g, moves).Ok?
    decreases |moves|
  {
    WalksOk(Run(g, moves).value) && (moves != [] ==> WalksThroughout(g, moves[..|moves| - 1]))
  }

  /** The driver renames nothing behind a current walk, throughout a run, exactly if no
      rename of the run happens while there is one. */
  lemma {:induction false} RunWalksIff(g: Global, moves: seq<Move>)
    requires Init(g) && Run(g, moves).Ok?
    ensures WalksThroughout(g, moves) <==> UnseenRenames(g, moves)
    decreases |moves|
  {
    hide Base, Do, WalksOk, Gentle, Init, NoneCurrent;
    if moves == [] {
      NoWalks(g);
    } else {
      var less, last := moves[..|moves| - 1], moves[|moves| - 1];
      RunWalksIff(g, less);
      RunBase(g, less);
      var h := Run(g, less).value;
      if WalksThroughout(g, less) {
        if last.what.Rename? {
          RenameSpoilsIff(h, last.who);
        } else {
          StepGentle(h, last.who, last.what);
          GentleWalks(h, last.who, Run(g, moves).value);
        }
      }
    }
  }

  /** Every rename of the run happens while an entry is pending. */
  ghost predicate PendingRenames(g: Global, moves: seq<Move>)
    decreases |moves|
  {
    moves != [] ==>
      && PendingRenames(g, moves[..|moves| - 1])
      && var before := Run(g, moves[..|moves| - 1]);
         before.Ok? && moves[|moves| - 1].what.Rename? ==> before.value.db.ops != map[]
  }

  /** Such renames are not seen by a walk that is current. */
  lemma {:induction false} PendingUnseen(g: Global, moves: seq<Move>)
    requires Init(g) && Run(g, moves).Ok? && PendingRenames(g, moves)
    ensures UnseenRenames(g, moves)
    decreases |moves|
  {
    hide Base, Do, WalksOk, Init;
    if moves != [] {
      var less, last := moves[..|moves| - 1], moves[|moves| - 1];
      PendingUnseen(g, less);
      RunWalksIff(g, less);
      RunBase(g, less);
      if last.what.Rename? { RenameSpoilsIff(Run(g, less).value, last.who); }
    }
  }

  /** While a scan walked the tree that it is about to reconcile, the driver renamed nothing. */
  lemma WalkAlways(g: Global, moves: seq<Move>, a: ActorId)
    requires Init(g) && Run(g, moves).Ok? && UnseenRenames(g, moves)
    requires var h := Run(g, moves).value; a in h.actors && h.actors[a].pc.ScanHave?
    ensures var h := Run(g, moves).value; h.actors[a].pc.data.renames == h.renames
  {
    hide Init, Run, Base, UnseenRenames;
    RunWalksIff(g, moves);
    RunBase(g, moves);
    WalkBase(Run(g, moves).value, a);
  }
}
