/** What processes remember of the journal. An ID that is given out once stands for one
    entry; a restore takes the ID of the deletion it undoes. */
module ProtocolMemory {
  import opened Metadata
  import opened Protocol
  import opened ProtocolBase
  import opened ProtocolRuns

  /** A marked entry in the journal is the one that whoever remembers its ID has read. */
  ghost predicate Kept(g: Global, marked: Operation -> bool) {
    forall a, op :: a in g.actors && op in Remembered(g.actors[a]) && op.id in g.db.ops && marked(g.db.ops[op.id]) ==>
      g.db.ops[op.id] == op
  }

  function Journalled(moves: seq<Move>): set<OpId> {
    set i | 0 <= i < |moves| && moves[i].what.Journal? :: moves[i].what.op.id
  }

  /** Every ID that is in the journal or remembered has been journalled. */
  ghost predicate Past(g: Global, ids: set<OpId>) {
    && (forall a, op :: a in g.actors && op in Remembered(g.actors[a]) ==> op.id in ids)
    && (forall o :: o in g.db.ops ==> o in ids)
  }

  /** Marked entries are journalled under new UUIDs: no earlier entry had the same. */
  ghost predicate NewIds(moves: seq<Move>, marked: Operation -> bool) {
    forall i, j ::
        0 <= i < j < |moves| && moves[i].what.Journal? && moves[j].what.Journal? && marked(moves[j].what.op) ==>
      moves[i].what.op.id != moves[j].what.op.id
  }

  /** The step adds no entry but the one it journals, and its process remembers no more
      than before and what is in the journal. */
  ghost predicate Learns(g: Global, a: ActorId, l: Label, h: Global) {
    && a in g.actors && h.actors.Keys == g.actors.Keys
    && (forall b :: b in g.actors && b != a ==> h.actors[b] == g.actors[b])
    && (l.Journal? ==> l.op.id in h.db.ops && h.db.ops[l.op.id] == l.op)
    && (forall op :: op in Remembered(h.actors[a]) ==>
          || op in Remembered(g.actors[a]) || (l.Journal? && op == l.op)
          || (op.id in g.db.ops && g.db.ops[op.id] == op))
    && (forall o :: o in h.db.ops ==> (o in g.db.ops && h.db.ops[o] == g.db.ops[o]) || (l.Journal? && o == l.op.id))
  }

  lemma LearnsKept(g: Global, a: ActorId, l: Label, h: Global, marked: Operation -> bool, ids: set<OpId>)
    requires Kept(g, marked) && Past(g, ids) && Learns(g, a, l, h)
    requires l.Journal? && marked(l.op) ==> l.op.id !in ids
    ensures Kept(h, marked) && Past(h, ids + if l.Journal? then {l.op.id} else {})
  {
    hide Remembered;
    var more := ids + if l.Journal? then {l.op.id} else {};
    forall b, op | b in h.actors && op in Remembered(h.actors[b])
      ensures op.id in more
      ensures op.id in h.db.ops && marked(h.db.ops[op.id]) ==> h.db.ops[op.id] == op
    {
      if b != a {
        assert h.actors[b] == g.actors[b];
      }
    }
  }

  lemma SessionLearns(g: Global, a: ActorId, l: Label)
    requires JournalOk(g.db) && a in g.actors && SessionDo(g, a, l).Ok?
    ensures Learns(g, a, l, SessionDo(g, a, l).value)
  {
    hide EntryOk;
  }

  lemma RequestLearns(g: Global, a: ActorId, l: Label)
    requires JournalOk(g.db) && a in g.actors && RequestDo(g, a, l).Ok?
    ensures Learns(g, a, l, RequestDo(g, a, l).value)
  {
    hide LockPlan.PlanRefs, Requests.PublicPlans, LockFree, LockPlan.Conflict, EntryOk, LockOrder.Orders, UniquePaths;
  }

  lemma ChangeLearns(g: Global, a: ActorId, l: Label)
    requires RowsOk(g.db) && a in g.actors && ChangeDo(g, a, l).Ok?
    ensures Learns(g, a, l, ChangeDo(g, a, l).value)
  {
    hide Commit, MayJournal, Requests.Resolve, Edited, Purged, RowsOk;
    if l.CommitOwn? { CommitFrame(g.db, g.actors[a].pc.op, l.size, l.mtime); }
    else if l.Edit? {
      Requests.ResolveRight(g.db.nodes, l.q);
      EditRows(g.db, Requests.Resolve(g.db.nodes, l.q).value);
    }
    else if l.PurgeEntry? { PurgeRows(g.db, l.key); }
  }

  lemma RecoveryLearns(g: Global, a: ActorId, l: Label)
    requires JournalOk(g.db) && a in g.actors && RecoveryDo(g, a, l).Ok?
    ensures Learns(g, a, l, RecoveryDo(g, a, l).value)
  {
    hide RecoveryDo, Learns, JournalOk;
    if l.CommitOther? { CommitLearns(g, a, l); }
    else if l.Recover? { FoundLearns(g, a, l); }
    else { WaitLearns(g, a, l); }
  }

  lemma CommitLearns(g: Global, a: ActorId, l: Label)
    requires JournalOk(g.db) && a in g.actors && l.CommitOther? && RecoveryDo(g, a, l).Ok?
    ensures Learns(g, a, l, RecoveryDo(g, a, l).value)
  {
    hide Commit, EntryOk;
    CommitFrame(g.db, g.db.ops[g.actors[a].pc.after.op.id], l.size, l.mtime);
  }

  lemma FoundLearns(g: Global, a: ActorId, l: Label)
    requires JournalOk(g.db) && a in g.actors && l.Recover? && RecoveryDo(g, a, l).Ok?
    ensures Learns(g, a, l, RecoveryDo(g, a, l).value)
  {
    hide EntryOk;
  }

  lemma WaitLearns(g: Global, a: ActorId, l: Label)
    requires a in g.actors && !l.CommitOther? && !l.Recover? && RecoveryDo(g, a, l).Ok?
    ensures Learns(g, a, l, RecoveryDo(g, a, l).value)
  {
    hide SessionFree, ClaimFree, LockOrder.Orders;
  }

  lemma ScanLearns(g: Global, a: ActorId, l: Label)
    requires a in g.actors && ScanDo(g, a, l).Ok?
    ensures Learns(g, a, l, ScanDo(g, a, l).value)
  {
    hide Scans.Scanned, Scans.ScanInput;
  }

  lemma StepLearns(g: Global, a: ActorId, l: Label)
    requires Base(g) && Do(g, a, l).Ok?
    ensures Learns(g, a, l, Do(g, a, l).value)
  {
    hide Base, SessionDo, RequestDo, ChangeDo, RecoveryDo, ScanDo;
    BaseOps(g);
    if l.Abort? { }
    else if Do(g, a, l) == SessionDo(g, a, l) { SessionLearns(g, a, l); }
    else if Do(g, a, l) == RequestDo(g, a, l) { RequestLearns(g, a, l); }
    else if Do(g, a, l) == ChangeDo(g, a, l) { ChangeLearns(g, a, l); }
    else if Do(g, a, l) == RecoveryDo(g, a, l) { RecoveryLearns(g, a, l); }
    else { ScanLearns(g, a, l); }
  }

  /** What is journalled under a new UUID is remembered right, in every run. */
  lemma {:induction false} KeptAlways(g: Global, moves: seq<Move>, marked: Operation -> bool)
    requires Init(g) && Run(g, moves).Ok? && NewIds(moves, marked)
    ensures Kept(Run(g, moves).value, marked) && Past(Run(g, moves).value, Journalled(moves))
    decreases |moves|
  {
    hide Base, Do, Kept, Past, Learns, Init;
    if moves == [] {
      NothingKept(g, marked);
    } else {
      var less, last := moves[..|moves| - 1], moves[|moves| - 1];
      KeptAlways(g, less, marked);
      RunBase(g, less);
      var h := Run(g, less).value;
      StepLearns(h, last.who, last.what);
      LearnsKept(h, last.who, last.what, Run(g, moves).value, marked, Journalled(less));
      JournalledMore(moves);
    }
  }

  lemma NothingKept(g: Global, marked: Operation -> bool)
    requires Init(g)
    ensures Kept(g, marked) && Past(g, Journalled([]))
  {
  }

  lemma JournalledMore(moves: seq<Move>)
    requires moves != []
    ensures var last := moves[|moves| - 1].what;
            Journalled(moves) == Journalled(moves[..|moves| - 1]) + if last.Journal? then {last.op.id} else {}
  {
    var less, last := moves[..|moves| - 1], moves[|moves| - 1].what;
    forall o | o in Journalled(moves) ensures o in Journalled(less) || (last.Journal? && o == last.op.id) {
      var i :| 0 <= i < |moves| && moves[i].what.Journal? && moves[i].what.op.id == o;
      if i < |less| { assert less[i] == moves[i]; }
    }
    forall o | o in Journalled(less) ensures o in Journalled(moves) {
      var i :| 0 <= i < |less| && less[i].what.Journal? && less[i].what.op.id == o;
      assert moves[i] == less[i];
    }
  }

  predicate NoRestore(op: Operation) {
    op.kind != Restore
  }

  /** If all entries but restores get new UUIDs, a recovery finishes the entry it had
      read, or a restore that took the entry's ID. */
  lemma RecoveryFinds(g: Global, moves: seq<Move>, a: ActorId, l: Label)
    requires Init(g) && Run(g, moves).Ok? && NewIds(moves, NoRestore)
    requires l.CommitOther? && Do(Run(g, moves).value, a, l).Ok?
    ensures var h := Run(g, moves).value;
            var read := h.actors[a].pc.after.op;
            h.db.ops[read.id] == read || h.db.ops[read.id].kind == Restore
  {
    hide Init, Run, NewIds, Commit;
    var h := Run(g, moves).value;
    KeptAlways(g, moves, NoRestore);
    assert h.actors[a].pc.after.op in Remembered(h.actors[a]);
  }
}
