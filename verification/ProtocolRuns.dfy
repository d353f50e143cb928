/** Every run of the driver's processes, and what holds in all of them. */
module ProtocolRuns {
  import opened Paths
  import opened Metadata
  import opened Trees
  import opened TreeChanges
  import opened Protocol
  import opened ProtocolLocks
  import opened ProtocolBase
  import opened ProtocolBaseSteps

  /** A consistent database with an empty journal and no uploads, and idle processes. */
  ghost predicate Init(g: Global) {
    && DbOk(g.db) && g.db.ops == map[] && g.db.uploads == map[] && g.commits == []
    && forall a :: a in g.actors ==> g.actors[a] == FREE
  }

  datatype Move = Move(who: ActorId, what: Label)

  /** The state after a sequence of steps, if each is possible when it is taken. */
  ghost function Run(g: Global, moves: seq<Move>): Outcome<Global>
    decreases |moves|
  {
    if moves == [] then Ok(g)
    else
      var before := Run(g, moves[..|moves| - 1]);
      if before.Err? then Err
      else Do(before.value, moves[|moves| - 1].who, moves[|moves| - 1].what)
  }

  lemma TrashSnapshot(db: Db, k: OpId)
    requires DbOk(db) && k in db.retained && db.retained[k].kind == TrashItem
    ensures SnapshotOk(db.space, db.retained[k].snapshot)
  {
    hide AllLinked, AllLive, TrashShaped, UniquePaths;
    var r := db.retained[k];
    assert TrashOk(db.nodes, k, r);
    forall i | i in r.snapshot ensures i != db.space && r.snapshot[i].parent != "" {
      assert db.nodes[i].path == Rebase(r.snapshot[i].path, r.path, TrashPath(k));
    }
  }

  lemma InitBase(g: Global)
    requires Init(g)
    ensures Base(g)
  {
    hide RetainedOk, SnapshotOk;
    forall k | k in g.db.retained && g.db.retained[k].kind == TrashItem
      ensures SnapshotOk(g.db.space, g.db.retained[k].snapshot)
    {
      TrashSnapshot(g.db, k);
    }
  }

  lemma SessionBase(g: Global, a: ActorId, l: Label)
    requires Base(g) && a in g.actors && SessionDo(g, a, l).Ok?
    ensures Base(SessionDo(g, a, l).value)
  {
    hide Base;
    match l
    case BeginSession(_) => BeginSessionBase(g, a, l);
    case TakeOwn => TakeOwnBase(g, a, l);
    case ReadOwn => ReadOwnBase(g, a, l);
    case DrainNext(_) => DrainNextBase(g, a, l);
    case DrainDone => DrainDoneBase(g, a, l);
    case LoadSession => LoadSessionBase(g, a, l);
    case SaveSession(_) => SaveSessionBase(g, a, l);
    case DropSession => DropSessionBase(g, a, l);
    case _ =>
  }

  lemma RequestBase(g: Global, a: ActorId, l: Label)
    requires Base(g) && a in g.actors && RequestDo(g, a, l).Ok?
    ensures Base(RequestDo(g, a, l).value)
  {
    hide Base;
    match l
    case BeginRefs(_) => BeginRefsBase(g, a, l);
    case PlanThem(_) => PlanThemBase(g, a, l);
    case Take => TakeBase(g, a, l);
    case Replan => ReplanBase(g, a, l);
    case Blocked(_) => BlockedBase(g, a, l);
    case Clear => ClearBase(g, a, l);
    case _ =>
  }

  lemma ChangeBase(g: Global, a: ActorId, l: Label)
    requires Base(g) && a in g.actors && ChangeDo(g, a, l).Ok?
    ensures Base(ChangeDo(g, a, l).value)
  {
    hide Base, MayJournal;
    match l
    case Journal(_, _) => JournalBase(g, a, l);
    case Rename => RenameBase(g, a, l);
    case CommitOwn(_, _) => CommitOwnBase(g, a, l);
    case Edit(_) => EditBase(g, a, l);
    case PurgeEntry(_) => PurgeEntryBase(g, a, l);
    case StartUpload(_, _) => StartUploadBase(g, a, l);
    case _ =>
  }

  lemma RecoveryBase(g: Global, a: ActorId, l: Label)
    requires Base(g) && a in g.actors && RecoveryDo(g, a, l).Ok?
    ensures Base(RecoveryDo(g, a, l).value)
  {
    hide Base;
    match l
    case Recover(_) => RecoverBase(g, a, l);
    case TakeOther => TakeOtherBase(g, a, l);
    case TakeClaim(_) => TakeClaimBase(g, a, l);
    case CommitOther(_, _) => CommitOtherBase(g, a, l);
    case Gone => GoneBase(g, a, l);
    case _ =>
  }

  lemma ScanBase(g: Global, a: ActorId, l: Label)
    requires Base(g) && a in g.actors && ScanDo(g, a, l).Ok?
    ensures Base(ScanDo(g, a, l).value)
  {
    hide Base;
    match l
    case ScanStart => ScanStartBase(g, a, l);
    case ScanPending => ScanPendingBase(g, a, l);
    case ScanRead => ScanReadBase(g, a, l);
    case ScanWalked(_) => ScanWalkedBase(g, a, l);
    case ScanCheck => ScanCheckBase(g, a, l);
    case ScanCommit(_, _, _) => ScanCommitBase(g, a, l);
    case _ =>
  }

  lemma AbortBase(g: Global, a: ActorId)
    requires Base(g) && a in g.actors
    ensures Base(Put(g, a, FREE))
  {
    hide Base, LocksOk, Fits;
    BaseOps(g);
    FewerFits(g, a, FREE);
    SoleStep(g, a, FREE, Put(g, a, FREE));
  }

  lemma StepBase(g: Global, a: ActorId, l: Label)
    requires Base(g) && Do(g, a, l).Ok?
    ensures Base(Do(g, a, l).value)
  {
    hide Base, SessionDo, RequestDo, ChangeDo, RecoveryDo, ScanDo;
    if l.Abort? { AbortBase(g, a); }
    else if Do(g, a, l) == SessionDo(g, a, l) { SessionBase(g, a, l); }
    else if Do(g, a, l) == RequestDo(g, a, l) { RequestBase(g, a, l); }
    else if Do(g, a, l) == ChangeDo(g, a, l) { ChangeBase(g, a, l); }
    else if Do(g, a, l) == RecoveryDo(g, a, l) { RecoveryBase(g, a, l); }
    else { ScanBase(g, a, l); }
  }

  /** Every run keeps `Base`. */
  lemma {:induction false} RunBase(g: Global, moves: seq<Move>)
    requires Init(g) && Run(g, moves).Ok?
    ensures Base(Run(g, moves).value)
    decreases |moves|
  {
    hide Base, Do, Init;
    if moves == [] {
      InitBase(g);
    } else {
      RunBase(g, moves[..|moves| - 1]);
      StepBase(Run(g, moves[..|moves| - 1]).value, moves[|moves| - 1].who, moves[|moves| - 1].what);
    }
  }

  // ------------------------------------------------------------------ in every reachable state

  /** Deadlock freedom. */
  lemma NoDeadlock(g: Global, moves: seq<Move>, ring: seq<ActorId>)
    requires Init(g) && Run(g, moves).Ok?
    ensures !Circle(Run(g, moves).value, ring)
  {
    hide Init, Run, Base, LocksOk, Circle;
    RunBase(g, moves);
    BaseOps(Run(g, moves).value);
    NoCircle(Run(g, moves).value, ring);
  }

  /** No two rows share a path, there is one root, and every other row has a parent. */
  lemma RootedAlways(g: Global, moves: seq<Move>)
    requires Init(g) && Run(g, moves).Ok?
    ensures Rooted(Run(g, moves).value.db.nodes, Run(g, moves).value.db.space)
  {
    hide Init, Run, Base, LocksOk;
    RunBase(g, moves);
    BaseOps(Run(g, moves).value);
  }

  /** A session row is dropped only when no journal entry names the session. */
  lemma DropAlways(g: Global, moves: seq<Move>, a: ActorId)
    requires Init(g) && Run(g, moves).Ok? && Do(Run(g, moves).value, a, DropSession).Ok?
    ensures var h := Run(g, moves).value;
            a in h.actors && forall o :: o in h.db.ops ==> h.db.ops[o].session != h.actors[a].own
  {
    hide Init, Run, Base;
    RunBase(g, moves);
    Drained(Run(g, moves).value, a);
  }

  /** A scan that found the epoch unmoved under the space lock reconciles against the
      present table, with an empty journal. */
  lemma ScanAlways(g: Global, moves: seq<Move>, a: ActorId)
    requires Init(g) && Run(g, moves).Ok?
    requires var h := Run(g, moves).value; a in h.actors && h.actors[a].pc.ScanHave?
    ensures var h := Run(g, moves).value;
            h.actors[a].pc.data.before == h.db.nodes && h.db.ops == map[]
  {
    hide Init, Run, Base, Shape;
    RunBase(g, moves);
    BaseActor(Run(g, moves).value, a);
  }
}
