/** Exactly which steps break what other processes rely on. */
module ProtocolExact {
  import opened Paths
  import opened Metadata
  import opened Trees
  import opened LockPlan
  import opened LockCoverage
  import opened Interference
  import opened PlanChanges
  import opened Maintenance
  import opened Requests
  import opened Revisions
  import opened Protocol
  import opened ProtocolBase
  import opened ProtocolRuns
  import opened ProtocolInv
  import opened ProtocolSteps
  import opened ProtocolChanges
  import opened ProtocolCommits
  import opened ProtocolBacked
  import opened ProtocolRevisions
  import opened ProtocolWalks

  // ------------------------------------------------------------------ committing

  /** What a commit of `op` leaves `y` with: a request that has not yet looked for
      journal entries is hit if the operation touches one of its ways, and a publisher
      if it is the publisher of this very entry; nobody else is. */
  ghost predicate Spared(db: Db, y: Actor, op: Operation) {
    match y.pc
    case Verified(_, _, pub) =>
      forall q :: q in pub ==> q.base in db.nodes && !Touches(op, db.nodes[q.base].path + q.path)
    case Publish(own) => own.id != op.id
    case _ => true
  }

  /** Whoever commits a pending entry, and under whatever locks: what another process
      relies on survives exactly if the process is spared. */
  lemma SparedIff(db: Db, o: OpId, size: int, mtime: int, y: Actor)
    requires OpsOk(db) && o in db.ops && Commit(db, db.ops[o], size, mtime).Ok? && HoldOk(db, y)
    ensures HoldOk(Commit(db, db.ops[o], size, mtime).value, y) <==> Spared(db, y, db.ops[o])
  {
    hide OpsOk, Commit, HoldOk, Touches;
    match y.pc
    case Verified(_, _, _) => VerifiedSpared(db, o, size, mtime, y);
    case Ready(_, _, _) => ReadySpared(db, o, size, mtime, y);
    case Publish(_) => PublishSpared(db, o, size, mtime, y);
    case _ => ElsewhereOk(Commit(db, db.ops[o], size, mtime).value, y);
  }

  lemma VerifiedSpared(db: Db, o: OpId, size: int, mtime: int, y: Actor)
    requires OpsOk(db) && o in db.ops && Commit(db, db.ops[o], size, mtime).Ok? && HoldOk(db, y) && y.pc.Verified?
    ensures HoldOk(Commit(db, db.ops[o], size, mtime).value, y) <==> Spared(db, y, db.ops[o])
  {
    hide OpsOk, Commit, PlansCurrent, NamedHeld, Touches;
    PlansSparedIff(db, o, size, mtime, y.held, y.pc.pub);
  }

  lemma PublishSpared(db: Db, o: OpId, size: int, mtime: int, y: Actor)
    requires OpsOk(db) && o in db.ops && Commit(db, db.ops[o], size, mtime).Ok? && HoldOk(db, y) && y.pc.Publish?
    ensures HoldOk(Commit(db, db.ops[o], size, mtime).value, y) <==> y.pc.op.id != o
    ensures db.ops[o].id == o
  {
    hide OpsOk, Commit, OwnLocks, Conflict;
    OpKeyed(db, o);
    CommitFrame(db, db.ops[o], size, mtime);
  }

  lemma OpKeyed(db: Db, o: OpId)
    requires OpsOk(db) && o in db.ops
    ensures db.ops[o].id == o && DbOk(db) && Enabled(db, db.ops[o])
    ensures OpLocks(db.nodes, db.space, db.ops[o]) == Ok(db.ops[o].locks)
  {
  }

  lemma PlansSparedIff(db: Db, o: OpId, size: int, mtime: int, held: LockMap, pub: map<Ref, Plan>)
    requires OpsOk(db) && o in db.ops && Commit(db, db.ops[o], size, mtime).Ok? && PlansCurrent(db, held, pub)
    ensures PlansCurrent(Commit(db, db.ops[o], size, mtime).value, held, pub) <==>
            forall q :: q in pub ==> q.base in db.nodes && !Touches(db.ops[o], db.nodes[q.base].path + q.path)
  {
    hide OpsOk, DbOk, Commit, Enabled, OpLocks, Touches, PlanRef, Within;
    var op, db' := db.ops[o], Commit(db, db.ops[o], size, mtime).value;
    OpKeyed(db, o);
    CommitFrame(db, op, size, mtime);
    CommitOps(db, o, size, mtime);
    OpsTree(db');
    forall q | q in pub
      ensures PlanRef(db'.nodes, db.space, q) != Ok(pub[q]) <==> Touches(op, db.nodes[q.base].path + q.path)
      ensures !Touches(op, db.nodes[q.base].path + q.path) ==> Public(db'.nodes, q.base)
    {
      PlanChangesIff(db, op, size, mtime, q);
    }
  }

  /** A request that has found its locks free of journal entries conflicts with none. */
  lemma ReadySpared(db: Db, o: OpId, size: int, mtime: int, y: Actor)
    requires OpsOk(db) && o in db.ops && Commit(db, db.ops[o], size, mtime).Ok? && HoldOk(db, y) && y.pc.Ready?
    ensures HoldOk(Commit(db, db.ops[o], size, mtime).value, y)
  {
    hide OpsOk, DbOk, Commit, Enabled, OpLocks, PlansCurrent, NamedHeld, Conflict, Keeps, Within;
    var op, db' := db.ops[o], Commit(db, db.ops[o], size, mtime).value;
    OpKeyed(db, o);
    CommitFrame(db, op, size, mtime);
    CommitOps(db, o, size, mtime);
    OpsTree(db');
    forall q | q in y.pc.pub ensures Keeps(db.nodes, db'.nodes, y.pc.pub[q].locks) {
      PubWithin(db, y.held, y.pc.pub, q);
      ApartPart(y.pc.pub[q].locks, y.held, op.locks);
      OpKeeps(db, op, size, mtime, y.pc.pub[q].locks);
    }
    HoldStays(db, db', y);
  }

  lemma PubWithin(db: Db, held: LockMap, pub: map<Ref, Plan>, q: Ref)
    requires PlansCurrent(db, held, pub) && q in pub
    ensures Within(pub[q].locks, held)
  {
  }

  lemma ApartPart(part: LockMap, held: LockMap, other: LockMap)
    requires Within(part, held) && !Conflict(held, other)
    ensures !Conflict(part, other)
  {
  }

  /** The same, of the entry that the recovery of `x` finds in the journal. */
  ghost predicate SparedBy(db: Db, y: Actor, x: Actor) {
    x.pc.Acquire? && x.pc.after.ForOp? && x.pc.after.op.id in db.ops ==> Spared(db, y, db.ops[x.pc.after.op.id])
  }

  /** A recovery keeps the invariant exactly if it spares every other process; locks
      that cover the entry see to that. */
  lemma RecoveryKeepsIff(g: Global, a: ActorId, l: Label)
    requires Inv(g) && l.CommitOther? && Do(g, a, l).Ok?
    ensures Inv(Do(g, a, l).value) <==>
            forall b :: b in g.actors && b != a ==> SparedBy(g.db, g.actors[b], g.actors[a])
  {
    hide Inv, Base, OpsOk, Commit, HoldOk, Spared, DrainOk, ScanOk;
    var x, h := g.actors[a], Do(g, a, l).value;
    var o := x.pc.after.op.id;
    InvActor(g, a);
    StepBase(g, a, l);
    CommitOps(g.db, o, l.size, l.mtime);
    ElsewhereOk(h.db, h.actors[a]);
    forall b | b in g.actors && b != a ensures HoldOk(h.db, h.actors[b]) <==> Spared(g.db, g.actors[b], g.db.ops[o]) {
      InvActor(g, b);
      SparedIff(g.db, o, l.size, l.mtime, g.actors[b]);
    }
    InvIff(h);
  }

  lemma InvIff(h: Global)
    requires Base(h) && OpsOk(h.db)
    ensures Inv(h) <==> forall b :: b in h.actors ==> HoldOk(h.db, h.actors[b])
  {
  }

  // ------------------------------------------------------------------ journalling

  /** The references of a request that start at live nodes ask, planned again, for
      nothing that is not held. */
  ghost predicate RefsStillHeld(db: Db, held: LockMap, refs: seq<Ref>) {
    forall q :: q in refs && LivePublic(db.nodes, q.base) ==> StillHeld(db, held, q)
  }

  /** However the request spelled a path, it holds the locks of the full path. */
  lemma NamedWithin(db: Db, held: LockMap, refs: seq<Ref>, p: Path)
    requires DbOk(db) && RefsStillHeld(db, held, refs) && Named(db.nodes, refs, p)
    ensures StillHeld(db, held, Ref(db.space, p, true))
  {
    hide TreeOk, RetainedOk, PlanRef;
    var q :| q in refs && LeadsTo(db.nodes, q, p);
    SpellingIrrelevant(db.nodes, db.space, q);
  }

  lemma {:induction false} RefsWithin(t: Table, space: Id, refs: seq<Ref>, held: LockMap)
    requires UniquePaths(t) && PlanRefs(t, space, refs).Ok?
    requires forall q :: q in refs ==> PlanRef(t, space, q).Ok? && Within(PlanRef(t, space, q).value.locks, held)
    ensures Within(PlanRefs(t, space, refs).value.locks, held)
    decreases |refs|
  {
    hide PlanRef;
    if refs != [] {
      RefsWithin(t, space, refs[1..], held);
      MergeLeast(PlanRef(t, space, refs[0]).value.locks, PlanRefs(t, space, refs[1..]).value.locks, held);
    }
  }

  /** A request that still holds its references holds the locks its entry records. */
  lemma StillHeldOwns(db: Db, held: LockMap, refs: seq<Ref>, op: Operation)
    requires DbOk(db) && Enabled(db, op) && UniquePaths(db.nodes) && OpLocks(db.nodes, db.space, op) == Ok(op.locks)
    requires NamedBy(db, refs, op) && NamedHeld(refs, held) && RefsStillHeld(db, held, refs)
    ensures OwnLocks(op, held)
  {
    hide TreeOk, RetainedOk, PlanRef, Enabled, HeldTo, Named, RefsStillHeld;
    var t, space := db.nodes, db.space;
    EnabledPaths(db, op);
    var all := OpRefs(space, op);
    forall q | q in all ensures PlanRef(t, space, q).Ok? && Within(PlanRef(t, space, q).value.locks, held) {
      NamedWithin(db, held, refs, q.path);
    }
    RefsWithin(t, space, all, held);
    if HasSource(op) {
      SourceHeld(db, held, refs, op);
    }
  }

  lemma SourceHeld(db: Db, held: LockMap, refs: seq<Ref>, op: Operation)
    requires DbOk(db) && Housed(db.nodes, op.node) && Named(db.nodes, refs, db.nodes[op.node].path)
    requires RefsStillHeld(db, held, refs)
    ensures NodeKey(op.node) in held && held[NodeKey(op.node)]
  {
    hide DbOk, StillHeld, HeldTo;
    var q :| q in refs && LeadsTo(db.nodes, q, db.nodes[op.node].path);
    RefHolds(db, held, q, op.node);
  }

  /** A request that holds the locks its entry records still holds its references. */
  lemma OwnsStillHeld(db: Db, held: LockMap, refs: seq<Ref>, op: Operation, q: Ref)
    requires DbOk(db) && Enabled(db, op) && UniquePaths(db.nodes) && OpLocks(db.nodes, db.space, op) == Ok(op.locks)
    requires NamedBy(db, refs, op) && OwnLocks(op, held) && q in refs && LivePublic(db.nodes, q.base)
    ensures StillHeld(db, held, q)
  {
    hide TreeOk, RetainedOk, PlanRef, HeldTo, Named, Enabled;
    var t, space := db.nodes, db.space;
    var full := Ref(space, t[q.base].path + q.path, true);
    SpellingIrrelevant(t, space, q);
    var all := OpRefs(space, op);
    assert full in all;
    RefWithin(t, space, all, full);
    var plan := PlanRefs(t, space, all).value.locks;
    MergeUpper(plan, map[NodeKey(op.node) := true]);
    WithinTrans(PlanRef(t, space, full).value.locks, plan, op.locks);
    if op.kind == Create && NodeKey(op.node) in PlanRef(t, space, full).value.locks {
      SpacePublic(db);
      PlanNames(t, space, full, op.node);
      NewNode(db, op);
    }
  }

  lemma SpacePublic(db: Db)
    requires DbOk(db)
    ensures Public(db.nodes, db.space)
  {
  }

  lemma NewNode(db: Db, op: Operation)
    requires Enabled(db, op) && op.kind == Create
    ensures op.node !in db.nodes
  {
  }

  /** When a request holds the locks that its journal entry records: exactly if planning
      its references again would ask for nothing new. */
  lemma JournalBackedIff(db: Db, held: LockMap, req: Request, op: Operation)
    requires DbOk(db) && UniquePaths(db.nodes) && Answer(db, req) == Apply(Asked(op))
    requires (req.RestoreItem? ==> req.item == op.node)
    requires Enabled(db, op) && OpLocks(db.nodes, db.space, op) == Ok(op.locks) && NamedHeld(Refs(db.space, req), held)
    ensures OwnLocks(op, held) <==> RefsStillHeld(db, held, Refs(db.space, req))
  {
    hide DbOk, Answer, Refs, Enabled, OpLocks, NamedBy, StillHeld, OwnLocks, NamedHeld;
    var refs := Refs(db.space, req);
    AskedNamed(db, req, op);
    if RefsStillHeld(db, held, refs) {
      StillHeldOwns(db, held, refs, op);
    }
    if OwnLocks(op, held) {
      forall q | q in refs && LivePublic(db.nodes, q.base) ensures StillHeld(db, held, q) {
        OwnsStillHeld(db, held, refs, op, q);
      }
    }
  }

  lemma AskedNamed(db: Db, req: Request, op: Operation)
    requires DbOk(db) && UniquePaths(db.nodes) && Answer(db, req) == Apply(Asked(op))
    requires (req.RestoreItem? ==> req.item == op.node)
    ensures NamedBy(db, Refs(db.space, req), op)
  {
    hide Answer, Refs, Named, LeadsTo, TreeOk;
    AnswerNamed(db, req);
  }

  /** Journalling an entry keeps the invariant exactly if it can be carried out and the
      process holds the locks that it records. */
  lemma JournalKeepsIff(g: Global, a: ActorId, l: Label)
    requires Inv(g) && l.Journal? && Do(g, a, l).Ok?
    ensures Inv(Do(g, a, l).value) <==> Enabled(g.db, l.op) && OwnLocks(l.op, g.actors[a].held)
  {
    hide Inv, Base, OwnLocks, MayJournal, Enabled, DbOk, OpLocks, Conflict;
    var h := Do(g, a, l).value;
    InvActor(g, a);
    StepBase(g, a, l);
    if Enabled(g.db, l.op) && OwnLocks(l.op, g.actors[a].held) {
      JournalInv(g, a, l);
    }
    if Inv(h) {
      InvActor(h, a);
      EnabledOps(g.db, h.db, l.op);
    }
  }

  /** In a state that the run theorems speak of, a request whose bases have not become
      public since it planned may journal what it asks for. */
  lemma KnownBasesBack(g: Global, a: ActorId, l: Label)
    requires Inv(g) && l.Journal? && Do(g, a, l).Ok? && Enabled(g.db, l.op)
    requires forall q :: q in g.actors[a].pc.refs && LivePublic(g.db.nodes, q.base) ==> q in g.actors[a].pc.pub
    ensures Backed(g.db, g.actors[a], l)
  {
    hide Inv, Base, DbOk, Answer, Refs, Enabled, OpLocks, NamedHeld, OwnLocks, PlanRef;
    var me := g.actors[a];
    InvActor(g, a);
    OpsTree(g.db);
    forall q | q in me.pc.refs && LivePublic(g.db.nodes, q.base) ensures StillHeld(g.db, me.held, q) {
      assert q in me.pc.pub;
    }
    JournalBackedIff(g.db, me.held, l.req, l.op);
  }

  // ------------------------------------------------------------------ editing

  lemma EditFinds(g: Global, a: ActorId, l: Label)
    requires l.Edit? && Do(g, a, l).Ok?
    ensures UniquePaths(g.db.nodes) && Resolve(g.db.nodes, l.q).Ok?
    ensures LivePublic(g.db.nodes, Resolve(g.db.nodes, l.q).value)
  {
    hide Resolve, Edited;
    ResolveRight(g.db.nodes, l.q);
  }

  /** A metadata edit keeps the invariant exactly if it runs into no pending entry. */
  lemma EditKeepsIff(g: Global, a: ActorId, l: Label)
    requires Inv(g) && TagsOk(g.db) && l.Edit? && Do(g, a, l).Ok? && UniquePaths(g.db.nodes)
    requires Resolve(g.db.nodes, l.q).Ok?
    requires Resolve(g.db.nodes, l.q).value in g.db.nodes
    ensures Inv(Do(g, a, l).value) <==>
            forall o :: o in g.db.ops ==> !EditHits(g.db, Resolve(g.db.nodes, l.q).value, g.db.ops[o])
  {
    hide Inv, Base, Edited, Resolve, Enabled, OpLocks, DbOk, Keeps, HoldOk, EditHits, Conflict;
    var db, x, h := g.db, Resolve(g.db.nodes, l.q).value, Do(g, a, l).value;
    InvActor(g, a);
    StepBase(g, a, l);
    EditFinds(g, a, l);
    EditFrame(db, x);
    EditKeepsDb(db, x);
    forall o | o in db.ops
      ensures !EditHits(db, x, db.ops[o]) <==> Enabled(h.db, db.ops[o])
      ensures UniquePaths(h.db.nodes) && OpLocks(h.db.nodes, db.space, db.ops[o]) == Ok(db.ops[o].locks)
    {
      EditEnabledIff(db, x, db.ops[o]);
      EditLocks(db, x, db.ops[o]);
    }
    if forall o :: o in db.ops ==> !EditHits(db, x, db.ops[o]) {
      forall locks ensures Keeps(db.nodes, h.db.nodes, locks) {
        EditKeeps(db, x, locks);
      }
      RowsInv(g, a, h.db);
    }
    if Inv(h) {
      InvActor(h, a);
    }
  }

  lemma EditLocks(db: Db, x: Id, op: Operation)
    requires DbOk(db) && Public(db.nodes, x) && UniquePaths(db.nodes) && OpLocks(db.nodes, db.space, op).Ok?
    ensures UniquePaths(Edited(db, x).nodes)
    ensures OpLocks(Edited(db, x).nodes, db.space, op) == OpLocks(db.nodes, db.space, op)
  {
    hide AllParented, AllLinked, AllLive, TrashShaped, OpLocks, Edited, Keeps, TrashOk;
    EditFrame(db, x);
    EditKeepsDb(db, x);
    EditKeeps(db, x, OpLocks(db.nodes, db.space, op).value);
    OpLocksStable(db.nodes, Edited(db, x).nodes, db.space, op);
  }

  // ------------------------------------------------------------------ whole runs

  /** What a step must not do: hit a process that relies on a plan, write down an entry
      for more than is held, or change a revision that an entry rests on. */
  ghost predicate Harmless(g: Global, a: ActorId, l: Label)
    requires Do(g, a, l).Ok?
  {
    match l
    case Journal(_, op) => Enabled(g.db, op) && OwnLocks(op, g.actors[a].held)
    case Edit(q) =>
      UniquePaths(g.db.nodes) && Resolve(g.db.nodes, q).Ok? && Resolve(g.db.nodes, q).value in g.db.nodes &&
      forall o :: o in g.db.ops ==> !EditHits(g.db, Resolve(g.db.nodes, q).value, g.db.ops[o])
    case CommitOther(_, _) =>
      forall b :: b in g.actors && b != a ==> SparedBy(g.db, g.actors[b], g.actors[a])
    case _ => true
  }

  lemma StepInvIff(g: Global, a: ActorId, l: Label)
    requires Inv(g) && TagsOk(g.db) && Do(g, a, l).Ok?
    ensures Inv(Do(g, a, l).value) <==> Harmless(g, a, l)
  {
    hide Inv, Do, TagsOk, OwnLocks, Spared, EditHits, Resolve;
    Actors(g, a, l);
    match l
    case Journal(_, _) => JournalKeepsIff(g, a, l);
    case Edit(_) =>
      EditFinds(g, a, l);
      EditKeepsIff(g, a, l);
    case CommitOther(_, _) => RecoveryKeepsIff(g, a, l);
    case _ => StepInv(g, a, l);
  }

  ghost predicate AllHarmless(g: Global, moves: seq<Move>)
    requires Run(g, moves).Ok?
    decreases |moves|
  {
    moves != [] ==>
      && AllHarmless(g, moves[..|moves| - 1])
      && Harmless(Run(g, moves[..|moves| - 1]).value, moves[|moves| - 1].who, moves[|moves| - 1].what)
  }

  ghost predicate InvThroughout(g: Global, moves: seq<Move>)
    decreases |moves|
  {
    && Run(g, moves).Ok? && Inv(Run(g, moves).value)
    && (moves != [] ==> InvThroughout(g, moves[..|moves| - 1]))
  }

  /** The invariant holds throughout a run exactly if every step of it is harmless. */
  lemma {:induction false} RunInvIff(g: Global, moves: seq<Move>)
    requires Init(g) && TagsOk(g.db) && Run(g, moves).Ok?
    ensures InvThroughout(g, moves) <==> AllHarmless(g, moves)
    decreases |moves|
  {
    hide Inv, Do, TagsOk, Harmless, Init;
    if moves == [] {
      InitInv(g);
    } else {
      var less, last := moves[..|moves| - 1], moves[|moves| - 1];
      RunInvIff(g, less);
      if InvThroughout(g, less) {
        TagsAlways(g, less);
        StepInvIff(Run(g, less).value, last.who, last.what);
      }
    }
  }

  /** So harmless steps are enough for a consistent database and stable plans. */
  lemma HarmlessAlways(g: Global, moves: seq<Move>, a: ActorId)
    requires Init(g) && TagsOk(g.db) && Run(g, moves).Ok? && AllHarmless(g, moves)
    ensures var h := Run(g, moves).value;
            && Consistent(h.db)
            && (a in h.actors && h.actors[a].pc.Ready? ==> PlanStable(h.db, h.actors[a]))
  {
    hide Init, TagsOk, Run, Inv, Consistent, PlanStable;
    RunInvIff(g, moves);
    var h := Run(g, moves).value;
    InvConsistent(h);
    if a in h.actors && h.actors[a].pc.Ready? { InvPlanStable(h, a); }
  }

  /** And for renames that no scan has walked past. */
  lemma {:induction false} HarmlessPends(g: Global, moves: seq<Move>)
    requires Init(g) && TagsOk(g.db) && Run(g, moves).Ok? && AllHarmless(g, moves)
    ensures PendingRenames(g, moves)
    decreases |moves|
  {
    hide Inv, Init, Do, Harmless, TagsOk;
    if moves != [] {
      var less, last := moves[..|moves| - 1], moves[|moves| - 1];
      HarmlessPends(g, less);
      RunInvIff(g, less);
      if last.what.Rename? { PendingNow(Run(g, less).value, last.who); }
    }
  }

  // ------------------------------------------------------------------ runs that are backed

  /** A request acts on nothing that was not public when it planned, and writes down what can
      be carried out; a recovery finishes the entry it had read. */
  ghost predicate Steady(db: Db, me: Actor, l: Label) {
    match l
    case Journal(_, op) =>
      && Enabled(db, op)
      && (me.pc.Ready? ==> forall q :: q in me.pc.refs && LivePublic(db.nodes, q.base) ==> q in me.pc.pub)
    case Edit(q) => me.pc.Ready? ==> q in me.pc.pub
    case CommitOther(_, _) =>
      me.pc.Acquire? && me.pc.after.ForOp? && me.pc.after.op.id in db.ops ==>
          db.ops[me.pc.after.op.id] == me.pc.after.op
    case _ => true
  }

  lemma SteadyBacked(g: Global, a: ActorId, l: Label)
    requires Inv(g) && Do(g, a, l).Ok? && Steady(g.db, g.actors[a], l)
    ensures Backed(g.db, g.actors[a], l)
  {
    hide Inv, Base, OpsOk, Enabled, OwnLocks, Covered, MayJournal, Commit, PlanRef, Resolve, Edited, NamedHeld,
        Conflict;
    InvActor(g, a);
    if l.Journal? {
      KnownBasesBack(g, a, l);
    } else if l.CommitOther? {
      SameEntryCovered(g, a);
    }
  }

  ghost predicate AllSteady(g: Global, moves: seq<Move>)
    decreases |moves|
  {
    moves != [] ==>
      && AllSteady(g, moves[..|moves| - 1])
      && var before, last := Run(g, moves[..|moves| - 1]), moves[|moves| - 1];
         before.Ok? && last.who in before.value.actors ==>
             Steady(before.value.db, before.value.actors[last.who], last.what)
  }

  /** A run of steady steps is one in which every change is backed by locks. */
  lemma {:induction false} SteadyRun(g: Global, moves: seq<Move>)
    requires Init(g) && Run(g, moves).Ok? && AllSteady(g, moves)
    ensures BackedRun(g, moves)
    decreases |moves|
  {
    hide Inv, Do, Init, Steady, Backed;
    if moves != [] {
      var less, last := moves[..|moves| - 1], moves[|moves| - 1];
      SteadyRun(g, less);
      RunInv(g, less);
      Actors(Run(g, less).value, last.who, last.what);
      SteadyBacked(Run(g, less).value, last.who, last.what);
    }
  }

  // ------------------------------------------------------------------ why the locks of an entry matter

  /** Whoever shares no conflicting lock with the process shares none with the entry, except
      for the new node's. */
  ghost predicate Guards(held: LockMap, op: Operation) {
    forall other: LockMap ::
      !Conflict(held, other) && (op.kind == Create ==> NodeKey(op.node) !in other) ==> !Conflict(op.locks, other)
  }

  /** A process holds what its entry records exactly if it keeps everybody away from it. */
  lemma OwnLocksIff(op: Operation, held: LockMap)
    ensures OwnLocks(op, held) <==> Guards(held, op)
  {
    if OwnLocks(op, held) {
      forall other: LockMap | !Conflict(held, other) && (op.kind == Create ==> NodeKey(op.node) !in other)
        ensures !Conflict(op.locks, other)
      {
        OwnApart(op, held, other);
      }
    } else {
      var k :| k in op.locks && !(op.kind == Create && k == NodeKey(op.node)) &&
          !(k in held && (op.locks[k] ==> held[k]));
      var other: LockMap := map[k := k !in held];
      assert !Conflict(held, other) && Conflict(op.locks, other);
    }
  }
}
