/** The runs in which every change is backed by locks. */
module ProtocolBacked {
  import opened Metadata
  import opened Trees
  import opened LockPlan
  import opened Protocol
  import opened ProtocolBase
  import opened ProtocolRuns
  import opened ProtocolInv
  import opened ProtocolSteps
  import opened ProtocolChanges
  import opened ProtocolCommits
  import opened ProtocolWalks

  ghost predicate AllBacked(g: Global, moves: seq<Move>)
    decreases |moves|
  {
    moves != [] ==>
      && AllBacked(g, moves[..|moves| - 1])
      && var before, last := Run(g, moves[..|moves| - 1]), moves[|moves| - 1];
         before.Ok? && last.who in before.value.actors ==>
             Backed(before.value.db, before.value.actors[last.who], last.what)
  }

  /** A run from a consistent start in which every change is backed. */
  ghost predicate BackedRun(g: Global, moves: seq<Move>) {
    Init(g) && Run(g, moves).Ok? && AllBacked(g, moves)
  }

  lemma InitInv(g: Global)
    requires Init(g)
    ensures Inv(g)
  {
    hide DbOk, Base;
    InitBase(g);
  }

  lemma ChangeInv(g: Global, a: ActorId, l: Label)
    requires Inv(g) && a in g.actors && ChangeDo(g, a, l).Ok? && Backed(g.db, g.actors[a], l)
    requires Base(ChangeDo(g, a, l).value)
    ensures Inv(ChangeDo(g, a, l).value)
  {
    hide Inv, Base, MayJournal, OwnLocks, StillHeld, Enabled;
    match l
    case Journal(_, _) => JournalInv(g, a, l);
    case Rename => RenameInv(g, a, l);
    case CommitOwn(_, _) => CommitOwnInv(g, a, l);
    case Edit(_) => EditInv(g, a, l);
    case PurgeEntry(_) => PurgeEntryInv(g, a, l);
    case StartUpload(_, _) => StartUploadInv(g, a, l);
    case _ =>
  }

  lemma StepInv(g: Global, a: ActorId, l: Label)
    requires Inv(g) && Do(g, a, l).Ok? && Backed(g.db, g.actors[a], l)
    ensures Inv(Do(g, a, l).value)
  {
    hide Inv, Base, SessionDo, RequestDo, ChangeDo, RecoveryDo, ScanDo, Covered, StillHeld, OwnLocks, Enabled;
    InvActor(g, a);
    StepBase(g, a, l);
    if l.Abort? { AbortInv(g, a); }
    else if Do(g, a, l) == SessionDo(g, a, l) { SessionInv(g, a, l); }
    else if Do(g, a, l) == RequestDo(g, a, l) { RequestInv(g, a, l); }
    else if Do(g, a, l) == ChangeDo(g, a, l) { ChangeInv(g, a, l); }
    else if l.CommitOther? { CommitOtherInv(g, a, l); }
    else if Do(g, a, l) == RecoveryDo(g, a, l) { RecoveryInv(g, a, l); }
    else if l.ScanCommit? { ScanCommitInv(g, a, l); }
    else { ScanInv(g, a, l); }
  }

  lemma {:induction false} RunInv(g: Global, moves: seq<Move>)
    requires BackedRun(g, moves)
    ensures Inv(Run(g, moves).value)
    decreases |moves|
  {
    hide Inv, Do, Init, Backed;
    if moves == [] {
      InitInv(g);
    } else {
      var h, last := Run(g, moves[..|moves| - 1]).value, moves[|moves| - 1];
      RunInv(g, moves[..|moves| - 1]);
      assert last.who in h.actors by { Actors(h, last.who, last.what); }
      StepInv(h, last.who, last.what);
    }
  }

  lemma Actors(g: Global, a: ActorId, l: Label)
    requires Do(g, a, l).Ok?
    ensures a in g.actors
  {
  }

  // ------------------------------------------------------------------ in every reachable state

  /** The node table is a tree, the trash is intact, and every pending journal entry can
      still be committed. */
  ghost predicate Consistent(db: Db) {
    && DbOk(db)
    && forall o, size, mtime :: o in db.ops ==> Commit(db, db.ops[o], size, mtime).Ok?
  }

  lemma InvConsistent(h: Global)
    requires Inv(h)
    ensures Consistent(h.db)
  {
    hide TreeOk, RetainedOk, Base, HoldOk, Enabled, OpLocks, Commit;
    forall o, size, mtime | o in h.db.ops ensures Commit(h.db, h.db.ops[o], size, mtime).Ok? {
      CommitKeepsDb(h.db, h.db.ops[o], size, mtime);
    }
  }

  lemma TreeAlways(g: Global, moves: seq<Move>)
    requires BackedRun(g, moves)
    ensures Consistent(Run(g, moves).value.db)
  {
    hide Init, AllBacked, Run, Inv, Consistent;
    RunInv(g, moves);
    InvConsistent(Run(g, moves).value);
  }

  /** Whatever the other processes did since it was planned, a request that has found its
      locks free of journal entries would plan the same locks and the same stamp for each
      public reference, and no pending entry conflicts with it. */
  ghost predicate PlanStable(db: Db, me: Actor)
    requires me.pc.Ready?
  {
    && UniquePaths(db.nodes)
    && (forall q :: q in me.pc.pub ==>
          PlanRef(db.nodes, db.space, q) == Ok(me.pc.pub[q]) && Within(me.pc.pub[q].locks, me.held))
    && forall o :: o in db.ops ==> !Conflict(me.held, db.ops[o].locks)
  }

  lemma InvPlanStable(h: Global, a: ActorId)
    requires Inv(h) && a in h.actors && h.actors[a].pc.Ready?
    ensures PlanStable(h.db, h.actors[a])
  {
    hide Inv, Base, OpsOk, Conflict, PlanRef;
    InvActor(h, a);
  }

  /** Lock-plan stability. */
  lemma PlanAlways(g: Global, moves: seq<Move>, a: ActorId)
    requires BackedRun(g, moves)
    requires var h := Run(g, moves).value; a in h.actors && h.actors[a].pc.Ready?
    ensures PlanStable(Run(g, moves).value.db, Run(g, moves).value.actors[a])
  {
    hide Init, AllBacked, Run, Inv, PlanStable;
    RunInv(g, moves);
    InvPlanStable(Run(g, moves).value, a);
  }

  /** Every rename happens while an entry is pending, so no scan has walked past one. */
  lemma {:induction false} RenamesPend(g: Global, moves: seq<Move>)
    requires BackedRun(g, moves)
    ensures PendingRenames(g, moves)
    decreases |moves|
  {
    hide Inv, Init, Do, Backed;
    if moves != [] {
      var less, last := moves[..|moves| - 1], moves[|moves| - 1];
      RenamesPend(g, less);
      if last.what.Rename? {
        RunInv(g, less);
        PendingNow(Run(g, less).value, last.who);
      }
    }
  }

  lemma PendingNow(g: Global, a: ActorId)
    requires Inv(g) && Do(g, a, Rename).Ok?
    ensures g.db.ops != map[]
  {
    hide Inv, Base, ChangeDo;
    InvActor(g, a);
    StepBase(g, a, Rename);
    RenameInv(g, a, Rename);
  }
}
