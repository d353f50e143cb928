/** The steps that write and finish journal entries. */
module ProtocolCommits {
  import opened Metadata
  import opened Trees
  import opened LockPlan
  import opened LockCoverage
  import opened Interference
  import opened Requests
  import opened Protocol
  import opened ProtocolLocks
  import opened ProtocolBase
  import opened ProtocolInv
  import opened ProtocolChanges

  // ------------------------------------------------------------------ writing an entry

  /** Whoever shares no conflicting lock with the request shares none with its entry. */
  lemma OwnApart(op: Operation, held: LockMap, other: LockMap)
    requires OwnLocks(op, held) && !Conflict(held, other)
    requires op.kind == Create ==> NodeKey(op.node) !in other
    ensures !Conflict(other, op.locks) && !Conflict(op.locks, other)
  {
  }

  lemma JournalOps(db: Db, op: Operation, held: LockMap)
    requires OpsOk(db) && op.id !in db.ops && op.id != "" && Enabled(db, op)
    requires OpLocks(db.nodes, db.space, op) == Ok(op.locks) && OwnLocks(op, held)
    requires forall o :: o in db.ops ==> !Conflict(held, db.ops[o].locks)
    requires op.kind == Create ==> forall o :: o in db.ops ==> NodeKey(op.node) !in db.ops[o].locks
    ensures OpsOk(db.(ops := db.ops[op.id := op]))
  {
    hide Enabled, OpLocks, OwnLocks, TreeOk, Conflict;
    var db' := db.(ops := db.ops[op.id := op]);
    assert DbOk(db') by { hide TrashOk; }
    forall o | o in db.ops ensures !Conflict(db.ops[o].locks, op.locks) && !Conflict(op.locks, db.ops[o].locks) {
      OwnApart(op, held, db.ops[o].locks);
    }
    forall o | o in db'.ops ensures Enabled(db', db'.ops[o]) {
      EnabledOps(db, db', db'.ops[o]);
    }
  }

  lemma EnabledOps(db: Db, db': Db, op: Operation)
    requires db' == db.(ops := db'.ops)
    ensures Enabled(db', op) == Enabled(db, op)
  {
  }

  lemma OneMoreOp(db: Db, op: Operation, y: Actor)
    requires HoldOk(db, y) && op.id !in db.ops && !Conflict(y.held, op.locks)
    ensures HoldOk(db.(ops := db.ops[op.id := op]), y)
  {
    hide PlanRef, Conflict, OwnLocks;
  }

  lemma JournalOthers(g: Global, a: ActorId, op: Operation, b: ActorId, h: Global)
    requires Inv(g) && a in g.actors && b in g.actors && a != b && g.actors[a].pc.Ready?
    requires op.id !in g.db.ops && OwnLocks(op, g.actors[a].held) && (op.kind == Create ==> UnseenKey(g, op))
    requires h.db == g.db.(ops := g.db.ops[op.id := op])
    ensures HoldOk(h.db, g.actors[b])
  {
    hide Inv, Base, HoldOk, OpsOk, Shape, OwnLocks, DrainOk, MemoryOk, ScanOk;
    var x, y := g.actors[a], g.actors[b];
    InvActor(g, b);
    BaseActor(g, a);
    BasePairs(g, a, b);
    OwnApart(op, x.held, y.held);
    OneMoreOp(g.db, op, y);
  }

  lemma JournalInv(g: Global, a: ActorId, l: Label)
    requires Inv(g) && a in g.actors && l.Journal? && ChangeDo(g, a, l).Ok? && Base(ChangeDo(g, a, l).value)
    requires Enabled(g.db, l.op) && OwnLocks(l.op, g.actors[a].held)
    ensures Inv(ChangeDo(g, a, l).value)
  {
    hide Inv, Base, PlansCurrent, NamedHeld, OwnLocks, Conflict, Enabled, OpLocks, DbOk, Answer, Refs;
    var x, db, op, h := g.actors[a], g.db, l.op, ChangeDo(g, a, l).value;
    InvActor(g, a);
    JournalOps(db, op, x.held);
    forall b | b in h.actors ensures HoldOk(h.db, h.actors[b]) {
      if b != a { JournalOthers(g, a, op, b, h); }
    }
    SharedInv(h);
  }

  // ------------------------------------------------------------------ committing an entry

  lemma CommitOps(db: Db, o: OpId, size: int, mtime: int)
    requires OpsOk(db) && o in db.ops && Commit(db, db.ops[o], size, mtime).Ok?
    ensures OpsOk(Commit(db, db.ops[o], size, mtime).value)
  {
    hide Enabled, OpLocks, TreeOk, RetainedOk, Conflict, KindRows, KindRetained, Refresh;
    var op, db' := db.ops[o], Commit(db, db.ops[o], size, mtime).value;
    CommitKeepsDb(db, op, size, mtime);
    forall p | p in db'.ops
      ensures Enabled(db', db'.ops[p]) && UniquePaths(db'.nodes)
      ensures OpLocks(db'.nodes, db'.space, db'.ops[p]) == Ok(db'.ops[p].locks)
    {
      EnabledStable(db, op, db.ops[p], size, mtime);
    }
  }

  /** The locks under which an entry is committed cover it. */
  ghost predicate Committer(db: Db, held: LockMap, op: Operation) {
    op.id in db.ops && db.ops[op.id] == op && OwnLocks(op, held)
  }

  /** No two processes hold the locks of the same entry. */
  lemma OnePublisher(db: Db, op: Operation, held: LockMap, other: LockMap)
    requires DbOk(db) && Enabled(db, op) && OpLocks(db.nodes, db.space, op) == Ok(op.locks)
    requires OwnLocks(op, held) && OwnLocks(op, other)
    ensures Conflict(held, other)
  {
    hide TreeOk, RetainedOk, OpLocks, Enabled, HeldTo;
    OpLocksHold(db, op);
    if op.kind == Create {
      NodeKeysDiffer(op.node, op.node, op.row.parent, op.row.name);
    }
  }

  lemma ApartWithin(held: LockMap, other: LockMap, part: LockMap)
    requires !Conflict(held, other) && Within(part, other)
    ensures !Conflict(held, part)
  {
  }

  lemma CommitKeepsPlan(db: Db, held: LockMap, op: Operation, size: int, mtime: int, y: Actor, pub: map<Ref, Plan>,
      q: Ref)
    requires OpsOk(db) && Committer(db, held, op) && Commit(db, op, size, mtime).Ok?
    requires !Conflict(held, y.held) && PlansCurrent(db, y.held, pub) && q in pub
    ensures Keeps(db.nodes, Commit(db, op, size, mtime).value.nodes, pub[q].locks)
  {
    hide TreeOk, RetainedOk, OpLocks, PlanRef, Keeps, OwnLocks, Conflict, Commit, FreePlace, Within;
    ApartWithin(held, y.held, pub[q].locks);
    if op.kind == Create && NodeKey(op.node) in pub[q].locks {
      PlanNames(db.nodes, db.space, q, op.node);
    }
    OwnApart(op, held, pub[q].locks);
    OpKeeps(db, op, size, mtime, pub[q].locks);
  }

  lemma CommitPlans(db: Db, held: LockMap, op: Operation, size: int, mtime: int, y: Actor)
    requires OpsOk(db) && Committer(db, held, op) && Commit(db, op, size, mtime).Ok?
    requires HoldOk(db, y) && !Conflict(held, y.held)
    ensures FewerOps(db, Commit(db, op, size, mtime).value, y)
    ensures PlansKept(db, Commit(db, op, size, mtime).value, y)
  {
    hide Commit, Enabled, OpLocks, DbOk, Keeps, PlansCurrent, NamedHeld, OwnLocks, Conflict;
    var db' := Commit(db, op, size, mtime).value;
    CommitFrame(db, op, size, mtime);
    if y.pc.Verified? || y.pc.Ready? {
      forall q | q in y.pc.pub ensures Keeps(db.nodes, db'.nodes, y.pc.pub[q].locks) {
        CommitKeepsPlan(db, held, op, size, mtime, y, y.pc.pub, q);
      }
    }
    if y.pc.Publish? && y.pc.op.id == op.id {
      OnePublisher(db, op, held, y.held);
    }
  }

  lemma CommitOthers(g: Global, a: ActorId, op: Operation, size: int, mtime: int, b: ActorId, h: Global)
    requires Inv(g) && a in g.actors && Committer(g.db, g.actors[a].held, op) && b in g.actors && b != a
    requires Commit(g.db, op, size, mtime).Ok? && h.db == Commit(g.db, op, size, mtime).value
    ensures HoldOk(h.db, g.actors[b])
  {
    hide Inv, Base, Shape, Commit, Enabled, OpLocks, DbOk, Keeps, PlansCurrent, NamedHeld, OwnLocks, Conflict,
        ReadBefore, HoldOk;
    var y := g.actors[b];
    InvActor(g, b);
    BasePairs(g, a, b);
    CommitOps(g.db, op.id, size, mtime);
    CommitFrame(g.db, op, size, mtime);
    CommitPlans(g.db, g.actors[a].held, op, size, mtime, y);
    OpsTree(h.db);
    HoldStays(g.db, h.db, y);
  }

  lemma CommitOwnInv(g: Global, a: ActorId, l: Label)
    requires Inv(g) && a in g.actors && l.CommitOwn? && ChangeDo(g, a, l).Ok? && Base(ChangeDo(g, a, l).value)
    ensures Inv(ChangeDo(g, a, l).value)
  {
    hide Inv, Base, OwnLocks, Conflict, Enabled, OpLocks, DbOk, Commit, MayJournal, DrainOk, MemoryOk, ScanOk, Shape;
    var x, h := g.actors[a], ChangeDo(g, a, l).value;
    InvActor(g, a);
    BaseActor(g, a);
    CommitOps(g.db, x.pc.op.id, l.size, l.mtime);
    forall b | b in h.actors ensures HoldOk(h.db, h.actors[b]) {
      if b != a {
        CommitOthers(g, a, x.pc.op, l.size, l.mtime, b, h);
      } else {
        ElsewhereOk(h.db, h.actors[b]);
      }
    }
    SharedInv(h);
  }

  lemma CommitOtherInv(g: Global, a: ActorId, l: Label)
    requires Inv(g) && a in g.actors && l.CommitOther? && RecoveryDo(g, a, l).Ok? && Base(RecoveryDo(g, a, l).value)
    requires Covered(g.db, g.actors[a])
    ensures Inv(RecoveryDo(g, a, l).value)
  {
    hide Inv, Base, Conflict, Enabled, OpLocks, DbOk, Commit, HoldOk;
    var x, h := g.actors[a], RecoveryDo(g, a, l).value;
    var op := g.db.ops[x.pc.after.op.id];
    InvActor(g, a);
    assert op.id == x.pc.after.op.id;
    CommitOps(g.db, op.id, l.size, l.mtime);
    forall b | b in h.actors ensures HoldOk(h.db, h.actors[b]) {
      if b != a {
        CommitOthers(g, a, op, l.size, l.mtime, b, h);
      } else {
        ElsewhereOk(h.db, h.actors[b]);
      }
    }
    SharedInv(h);
  }

  /** An entry that is still the one that was read is covered. */
  lemma SameEntryCovered(g: Global, a: ActorId)
    requires Base(g) && a in g.actors && g.actors[a].pc.Acquire? && g.actors[a].pc.order == []
    requires g.actors[a].pc.after.ForOp?
    requires g.actors[a].pc.after.op.id in g.db.ops && g.db.ops[g.actors[a].pc.after.op.id] == g.actors[a].pc.after.op
    ensures Covered(g.db, g.actors[a])
  {
    hide Base, DrainOk, ScanOk;
    BaseActor(g, a);
    InOrderDone(g.actors[a].held, g.actors[a].pc.goal);
  }
}
