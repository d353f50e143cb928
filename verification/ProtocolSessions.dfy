/** Upload sessions: at most one operation of a session commits, and a finished upload
    stays finished. Nothing is asked of a run but that an upload's journal entry gets
    a new UUID. */
module ProtocolSessions {
  import opened Metadata
  import opened Protocol
  import opened ProtocolLocks
  import opened ProtocolBase
  import opened ProtocolRuns
  import opened ProtocolMemory

  predicate OfUpload(op: Operation) {
    op.session != ""
  }

  // ------------------------------------------------------------------ what is kept

  ghost predicate Committed(commits: seq<(OpId, Id)>, sid: Id) {
    exists i :: 0 <= i < |commits| && commits[i].1 == sid
  }

  /** At most one operation of a session is pending or committed; the session row is
      there while one is pending, and has a result exactly if one has committed. */
  ghost predicate SessionsOk(db: Db, commits: seq<(OpId, Id)>) {
    && "" !in db.uploads
    && (forall o :: o in db.ops && db.ops[o].session != "" ==>
          && db.ops[o].session in db.uploads
          && !Committed(commits, db.ops[o].session))
    && (forall o, p :: o in db.ops && p in db.ops && db.ops[o].session == db.ops[p].session != "" ==> o == p)
    && (forall s :: s in db.uploads ==> (db.uploads[s].result != "" <==> Committed(commits, s)))
    && (forall i, j :: 0 <= i < j < |commits| && commits[i].1 == commits[j].1 ==> commits[i].1 == "")
  }

  /** What a process has read of its session's result stays so until it journals the upload
      or drops the session, and an upload that is being published is in the journal. */
  ghost predicate UploadOk(db: Db, me: Actor) {
    && (me.loaded.Ok? ==> me.own in db.uploads && db.uploads[me.own].result == me.loaded.value.result)
    && (me.pc.Publish? && me.pc.op.session != "" ==> me.pc.op.id in db.ops && db.ops[me.pc.op.id] == me.pc.op)
  }

  ghost predicate UploadsOk(g: Global) {
    SessionsOk(g.db, g.commits) && forall a :: a in g.actors ==> UploadOk(g.db, g.actors[a])
  }

  // ------------------------------------------------------------------ steps

  lemma SessionUploads(g: Global, a: ActorId, l: Label)
    requires Base(g) && UploadsOk(g) && a in g.actors && SessionDo(g, a, l).Ok?
    ensures UploadsOk(SessionDo(g, a, l).value)
  {
    hide Base, ScanOk, MemoryOk, SpaceHeld, LockPlan.Conflict, InOrder, SessionsOk, UploadsOk;
    var h := SessionDo(g, a, l).value;
    BaseActor(g, a);
    UploadOf(g, a);
    if l.SaveSession? {
      SaveUploads(g, a, l.s, h);
    } else if l.DropSession? {
      DropUploads(g, a, h);
    } else {
      SameUploads(g, a, h);
    }
  }

  lemma SaveUploads(g: Global, a: ActorId, s: Session, h: Global)
    requires UploadsOk(g) && a in g.actors && g.actors[a].loaded.Ok? && s.result == g.actors[a].loaded.value.result
    requires h.db == g.db.(uploads := g.db.uploads[g.actors[a].own := s]) && h.commits == g.commits
    requires h.actors == g.actors[a := g.actors[a].(loaded := Err)]
    ensures UploadsOk(h)
  {
  }

  lemma DropUploads(g: Global, a: ActorId, h: Global)
    requires Base(g) && UploadsOk(g) && a in g.actors && g.actors[a].pc.Idle? && g.actors[a].drained
    requires h.db == g.db.(uploads := g.db.uploads - {g.actors[a].own})
    requires h.actors == g.actors[a := g.actors[a].(loaded := Err)]
    requires h.commits == g.commits
    ensures UploadsOk(h)
  {
    hide Base;
    Drained(g, a);
    assert g.actors[a].own != "" by { hide ScanOk, MemoryOk, SpaceHeld, DrainOk; BaseActor(g, a); }
    forall b | b in g.actors && b != a ensures UploadOk(h.db, g.actors[b]) {
      BasePairs(g, a, b);
    }
  }

  lemma RequestUploads(g: Global, a: ActorId, l: Label)
    requires UploadsOk(g) && a in g.actors && RequestDo(g, a, l).Ok?
    ensures UploadsOk(RequestDo(g, a, l).value)
  {
    hide SessionsOk, LockPlan.PlanRefs, Requests.PublicPlans, LockOrder.Orders, LockFree, LockPlan.Conflict;
  }

  lemma ScanUploads(g: Global, a: ActorId, l: Label)
    requires UploadsOk(g) && a in g.actors && ScanDo(g, a, l).Ok?
    ensures UploadsOk(ScanDo(g, a, l).value)
  {
    hide Scans.Scanned, Scans.ScanInput;
  }

  lemma JournalUploads(g: Global, a: ActorId, l: Label)
    requires Base(g) && UploadsOk(g) && a in g.actors && l.Journal? && ChangeDo(g, a, l).Ok?
    ensures UploadsOk(ChangeDo(g, a, l).value)
  {
    hide Base, ScanOk, MemoryOk, SpaceHeld, SessionsOk, MayJournal;
    BaseActor(g, a);
    assert l.op.id !in g.db.ops && (l.op.session != "" ==> l.op.session == g.actors[a].own && FoundOpen(g.actors[a]))
        by { JournalOwn(g, a, l); }
    JournalSessions(g.db, g.commits, g.actors[a], l.op);
  }

  lemma JournalOwn(g: Global, a: ActorId, l: Label)
    requires a in g.actors && l.Journal? && ChangeDo(g, a, l).Ok?
    ensures l.op.id !in g.db.ops && (l.op.session != "" ==> l.op.session == g.actors[a].own && FoundOpen(g.actors[a]))
  {
  }

  lemma JournalSessions(db: Db, commits: seq<(OpId, Id)>, me: Actor, op: Operation)
    requires SessionsOk(db, commits) && DrainOk(db, me) && UploadOk(db, me) && me.pc.Ready?
    requires me.loaded.Ok? ==> me.drained && me.own != ""
    requires op.id !in db.ops && (op.session != "" ==> op.session == me.own && FoundOpen(me))
    ensures SessionsOk(db.(ops := db.ops[op.id := op]), commits)
  {
  }

  lemma StartUploads(g: Global, a: ActorId, l: Label)
    requires UploadsOk(g) && a in g.actors && l.StartUpload? && ChangeDo(g, a, l).Ok?
    ensures UploadsOk(ChangeDo(g, a, l).value)
  {
  }

  /** The process that commits `op` does so for the entry in the journal, if an upload is
      behind it or behind the entry with that ID, and then holds the session. */
  ghost predicate Commits(g: Global, a: ActorId, op: Operation) {
    && a in g.actors && EntryOk(g.db.space, op)
    && (op.session != "" || (op.id in g.db.ops && g.db.ops[op.id].session != "") ==>
          op.id in g.db.ops && g.db.ops[op.id] == op && SessionHeld(g.actors[a], op))
  }

  lemma CommitSessions(db: Db, commits: seq<(OpId, Id)>, op: Operation, size: int, mtime: int)
    requires SessionsOk(db, commits) && (op.session != "" ==> op.id in db.ops && db.ops[op.id] == op && op.node != "")
    requires Commit(db, op, size, mtime).Ok?
    ensures SessionsOk(Commit(db, op, size, mtime).value, commits + [(op.id, op.session)])
  {
    hide Commit;
    CommitFrame(db, op, size, mtime);
    var more := commits + [(op.id, op.session)];
    forall s: Id ensures Committed(more, s) <==> Committed(commits, s) || s == op.session {
      if s == op.session {
        assert more[|commits|].1 == s;
      }
      if Committed(commits, s) {
        var i :| 0 <= i < |commits| && commits[i].1 == s;
        assert more[i].1 == s;
      }
    }
    assert op.session != "" ==> forall i :: 0 <= i < |commits| ==> commits[i].1 != op.session;
  }

  lemma CommitUploads(g: Global, a: ActorId, op: Operation, size: int, mtime: int, me: Actor, h: Global)
    requires Base(g) && UploadsOk(g) && Kept(g, OfUpload) && Commits(g, a, op) && Commit(g.db, op, size, mtime).Ok?
    requires h.db == Commit(g.db, op, size, mtime).value && h.commits == g.commits + [(op.id, op.session)]
    requires h.actors == g.actors[a := me] && UploadOk(h.db, me)
    ensures UploadsOk(h)
  {
    hide Base, SessionsOk, Commit, ScanOk, MemoryOk, SpaceHeld;
    CommitFrame(g.db, op, size, mtime);
    CommitSessions(g.db, g.commits, op, size, mtime);
    forall b | b in g.actors && b != a ensures UploadOk(h.db, g.actors[b]) {
      BaseActor(g, a);
      BaseActor(g, b);
      BasePairs(g, a, b);
      CommitElsewhere(g, a, op, b, size, mtime);
    }
  }

  lemma CommitElsewhere(g: Global, a: ActorId, op: Operation, b: ActorId, size: int, mtime: int)
    requires UploadsOk(g) && Commits(g, a, op) && Commit(g.db, op, size, mtime).Ok? && b in g.actors && b != a
    requires Shape(g.clock, g.actors[a]) && Shape(g.clock, g.actors[b]) && Compatible(g.actors[a], g.actors[b])
    ensures UploadOk(Commit(g.db, op, size, mtime).value, g.actors[b])
  {
    hide Commit, SessionsOk, InOrder;
    CommitFrame(g.db, op, size, mtime);
  }

  lemma CommitOwnUploads(g: Global, a: ActorId, l: Label)
    requires Base(g) && UploadsOk(g) && Kept(g, OfUpload) && a in g.actors && l.CommitOwn? && ChangeDo(g, a, l).Ok?
    ensures UploadsOk(ChangeDo(g, a, l).value)
  {
    hide Base, SessionsOk, Commit, ScanOk, SpaceHeld, InOrder, UploadsOk, MayJournal;
    var x, h := g.actors[a], ChangeDo(g, a, l).value;
    BaseActor(g, a);
    assert x.pc.op in Remembered(x);
    assert UploadOk(g.db, x) by { UploadOf(g, a); }
    CommitUploads(g, a, x.pc.op, l.size, l.mtime, h.actors[a], h);
  }

  lemma UploadOf(g: Global, a: ActorId)
    requires UploadsOk(g) && a in g.actors
    ensures UploadOk(g.db, g.actors[a]) && SessionsOk(g.db, g.commits)
  {
    hide SessionsOk;
  }

  lemma CommitOtherUploads(g: Global, a: ActorId, l: Label)
    requires Base(g) && UploadsOk(g) && Kept(g, OfUpload) && a in g.actors && l.CommitOther? && RecoveryDo(g, a, l).Ok?
    ensures UploadsOk(RecoveryDo(g, a, l).value)
  {
    hide Base, SessionsOk, Commit, ScanOk, SpaceHeld, InOrder, UploadsOk;
    var x, h := g.actors[a], RecoveryDo(g, a, l).value;
    var op := g.db.ops[x.pc.after.op.id];
    BaseActor(g, a);
    BaseOps(g);
    assert x.pc.after.op in Remembered(x);
    CommitFrame(g.db, op, l.size, l.mtime);
    assert UploadOk(h.db, h.actors[a]) by { UploadOf(g, a); }
    CommitUploads(g, a, op, l.size, l.mtime, h.actors[a], h);
  }

  lemma ChangeUploads(g: Global, a: ActorId, l: Label)
    requires Base(g) && UploadsOk(g) && Kept(g, OfUpload) && a in g.actors && ChangeDo(g, a, l).Ok?
    ensures UploadsOk(ChangeDo(g, a, l).value)
  {
    hide Base, Commit, MayJournal, Requests.Resolve, Edited, Purged, UploadsOk, Kept;
    BaseOps(g);
    UploadOf(g, a);
    match l
    case Journal(_, _) => JournalUploads(g, a, l);
    case CommitOwn(_, _) => CommitOwnUploads(g, a, l);
    case StartUpload(_, _) => StartUploads(g, a, l);
    case Edit(q) =>
      Requests.ResolveRight(g.db.nodes, q);
      EditRows(g.db, Requests.Resolve(g.db.nodes, q).value);
      SameUploads(g, a, ChangeDo(g, a, l).value);
    case PurgeEntry(key) =>
      PurgeRows(g.db, key);
      SameUploads(g, a, ChangeDo(g, a, l).value);
    case Rename => SameUploads(g, a, ChangeDo(g, a, l).value);
    case _ =>
  }

  lemma SameUploads(g: Global, a: ActorId, h: Global)
    requires UploadsOk(g) && h.db.ops == g.db.ops && h.db.uploads == g.db.uploads && h.commits == g.commits
    requires a in g.actors && h.actors.Keys == g.actors.Keys
    requires (forall b :: b in g.actors && b != a ==> h.actors[b] == g.actors[b])
    requires UploadOk(g.db, h.actors[a])
    ensures UploadsOk(h)
  {
  }

  lemma RecoveryUploads(g: Global, a: ActorId, l: Label)
    requires Base(g) && UploadsOk(g) && Kept(g, OfUpload) && a in g.actors && RecoveryDo(g, a, l).Ok?
    ensures UploadsOk(RecoveryDo(g, a, l).value)
  {
    hide Base, Commit, UploadsOk, Kept, SessionFree, ClaimFree, LockOrder.Orders;
    if l.CommitOther? {
      CommitOtherUploads(g, a, l);
    } else {
      UploadOf(g, a);
      SameUploads(g, a, RecoveryDo(g, a, l).value);
    }
  }

  lemma StepUploads(g: Global, a: ActorId, l: Label)
    requires Base(g) && UploadsOk(g) && Kept(g, OfUpload) && Do(g, a, l).Ok?
    ensures UploadsOk(Do(g, a, l).value)
  {
    hide Base, UploadsOk, Kept, SessionDo, RequestDo, ChangeDo, RecoveryDo, ScanDo;
    if l.Abort? { SameUploads(g, a, Do(g, a, l).value); }
    else if Do(g, a, l) == SessionDo(g, a, l) { SessionUploads(g, a, l); }
    else if Do(g, a, l) == RequestDo(g, a, l) { RequestUploads(g, a, l); }
    else if Do(g, a, l) == ChangeDo(g, a, l) { ChangeUploads(g, a, l); }
    else if Do(g, a, l) == RecoveryDo(g, a, l) { RecoveryUploads(g, a, l); }
    else { ScanUploads(g, a, l); }
  }

  /** A possible run, in which upload entries are journalled under new UUIDs. */
  ghost predicate UploadRun(g: Global, moves: seq<Move>) {
    Init(g) && Run(g, moves).Ok? && NewIds(moves, OfUpload)
  }

  lemma {:induction false} RunUploads(g: Global, moves: seq<Move>)
    requires UploadRun(g, moves)
    ensures UploadsOk(Run(g, moves).value)
    decreases |moves|
  {
    hide Base, Do, Kept, UploadsOk, Init;
    if moves == [] {
      NoUploads(g);
    } else {
      var less, last := moves[..|moves| - 1], moves[|moves| - 1];
      RunUploads(g, less);
      RunBase(g, less);
      KeptAlways(g, less, OfUpload);
      StepUploads(Run(g, less).value, last.who, last.what);
    }
  }

  lemma NoUploads(g: Global)
    requires Init(g)
    ensures UploadsOk(g)
  {
  }

  // ------------------------------------------------------------------ in every run

  /** An upload session is finished at most once, and says so exactly when it was. */
  lemma OnceAlways(g: Global, moves: seq<Move>, s: Id)
    requires UploadRun(g, moves)
    ensures var h := Run(g, moves).value;
            && (forall i, j :: 0 <= i < j < |h.commits| && h.commits[i].1 == h.commits[j].1 ==> h.commits[i].1 == "")
            && (s in h.db.uploads ==> (h.db.uploads[s].result != "" <==> Committed(h.commits, s)))
            && (forall o :: o in h.db.ops && h.db.ops[o].session != "" ==>
                  h.db.ops[o].session in h.db.uploads && !Committed(h.commits, h.db.ops[o].session))
  {
    hide Run, UploadRun;
    RunUploads(g, moves);
  }

  /** The session's upload has been published as node `r`, once and for all. */
  ghost predicate Finished(g: Global, s: Id, r: Id) {
    Committed(g.commits, s) && (s in g.db.uploads ==> g.db.uploads[s].result == r)
  }

  lemma FinishedCommit(g: Global, a: ActorId, op: Operation, size: int, mtime: int, s: Id, r: Id)
    requires SessionsOk(g.db, g.commits) && Finished(g, s, r) && s != "" && Commits(g, a, op)
    requires Commit(g.db, op, size, mtime).Ok?
    ensures Committed(g.commits + [(op.id, op.session)], s)
    ensures var up := Commit(g.db, op, size, mtime).value.uploads; s in up ==> up[s].result == r
  {
    CommitFrame(g.db, op, size, mtime);
    var i :| 0 <= i < |g.commits| && g.commits[i].1 == s;
    assert (g.commits + [(op.id, op.session)])[i].1 == s;
  }

  lemma SessionFinished(g: Global, a: ActorId, l: Label, s: Id, r: Id)
    requires UploadsOk(g) && Finished(g, s, r) && a in g.actors && SessionDo(g, a, l).Ok?
    ensures Finished(SessionDo(g, a, l).value, s, r)
  {
    hide UploadsOk, SessionsOk;
    UploadOf(g, a);
  }

  lemma RequestFinished(g: Global, a: ActorId, l: Label, s: Id, r: Id)
    requires Finished(g, s, r) && a in g.actors && RequestDo(g, a, l).Ok?
    ensures Finished(RequestDo(g, a, l).value, s, r)
  {
    hide LockPlan.PlanRefs, Requests.PublicPlans, LockOrder.Orders, LockFree, LockPlan.Conflict, RecoverPc;
  }

  lemma ScanFinished(g: Global, a: ActorId, l: Label, s: Id, r: Id)
    requires Finished(g, s, r) && a in g.actors && ScanDo(g, a, l).Ok?
    ensures Finished(ScanDo(g, a, l).value, s, r)
  {
    hide Scans.Scanned, Scans.ScanInput;
  }

  lemma ChangeFinished(g: Global, a: ActorId, l: Label, s: Id, r: Id)
    requires Base(g) && UploadsOk(g) && Kept(g, OfUpload) && Finished(g, s, r) && s != "" && a in g.actors
    requires ChangeDo(g, a, l).Ok?
    ensures Finished(ChangeDo(g, a, l).value, s, r)
  {
    hide Base, Commit, MayJournal, Requests.Resolve, ScanOk, SpaceHeld, InOrder, Edited, Purged, SessionsOk, UploadsOk;
    BaseActor(g, a);
    BaseOps(g);
    UploadOf(g, a);
    if l.CommitOwn? {
      assert g.actors[a].pc.op in Remembered(g.actors[a]);
      FinishedCommit(g, a, g.actors[a].pc.op, l.size, l.mtime, s, r);
    } else if l.Edit? {
      Requests.ResolveRight(g.db.nodes, l.q);
      EditRows(g.db, Requests.Resolve(g.db.nodes, l.q).value);
    } else if l.PurgeEntry? {
      PurgeRows(g.db, l.key);
    }
  }

  lemma RecoveryFinished(g: Global, a: ActorId, l: Label, s: Id, r: Id)
    requires Base(g) && UploadsOk(g) && Kept(g, OfUpload) && Finished(g, s, r) && s != "" && a in g.actors
    requires RecoveryDo(g, a, l).Ok?
    ensures Finished(RecoveryDo(g, a, l).value, s, r)
  {
    hide Base, Commit, RecoverPc, ReturnPc, SessionFree, ClaimFree, LockOrder.Orders, SessionsOk, UploadsOk, ScanOk,
        SpaceHeld, InOrder;
    UploadOf(g, a);
    BaseActor(g, a);
    BaseOps(g);
    if l.CommitOther? {
      assert g.actors[a].pc.after.op in Remembered(g.actors[a]);
      FinishedCommit(g, a, g.db.ops[g.actors[a].pc.after.op.id], l.size, l.mtime, s, r);
    }
  }

  lemma StepFinished(g: Global, a: ActorId, l: Label, s: Id, r: Id)
    requires Base(g) && UploadsOk(g) && Kept(g, OfUpload) && Finished(g, s, r) && s != "" && Do(g, a, l).Ok?
    ensures Finished(Do(g, a, l).value, s, r)
  {
    hide Base, UploadsOk, Kept, SessionDo, RequestDo, ChangeDo, RecoveryDo, ScanDo;
    if !l.Abort? {
      if Do(g, a, l) == SessionDo(g, a, l) { SessionFinished(g, a, l, s, r); }
      else if Do(g, a, l) == RequestDo(g, a, l) { RequestFinished(g, a, l, s, r); }
      else if Do(g, a, l) == ChangeDo(g, a, l) { ChangeFinished(g, a, l, s, r); }
      else if Do(g, a, l) == RecoveryDo(g, a, l) { RecoveryFinished(g, a, l, s, r); }
      else { ScanFinished(g, a, l, s, r); }
    }
  }

  lemma {:induction false} RunFinished(g: Global, before: seq<Move>, after: seq<Move>, s: Id)
    requires UploadRun(g, before) && UploadRun(g, before + after)
    requires var h := Run(g, before).value; s in h.db.uploads && h.db.uploads[s].result != ""
    ensures s != "" && Finished(Run(g, before + after).value, s, Run(g, before).value.db.uploads[s].result)
    decreases |after|
  {
    hide Init, Base, Do, Kept, Finished;
    if after == [] {
      assert before + after == before;
      RunUploads(g, before);
      AlreadyFinished(Run(g, before).value, s);
    } else {
      hide UploadsOk;
      var n := |after| - 1;
      var less := before + after[..n];
      assert (before + after)[..|before + after| - 1] == less;
      RunFinished(g, before, after[..n], s);
      RunUploads(g, less);
      RunBase(g, less);
      KeptAlways(g, less, OfUpload);
      StepFinished(Run(g, less).value, after[n].who, after[n].what, s, Run(g, before).value.db.uploads[s].result);
    }
  }

  lemma AlreadyFinished(g: Global, s: Id)
    requires UploadsOk(g) && s in g.db.uploads && g.db.uploads[s].result != ""
    ensures s != "" && Finished(g, s, g.db.uploads[s].result)
  {
  }

  /** A session's result is never changed: in every later state of the run the row is
      gone or says the same. */
  lemma ResultStays(g: Global, before: seq<Move>, after: seq<Move>, s: Id)
    requires UploadRun(g, before) && UploadRun(g, before + after)
    requires var h := Run(g, before).value; s in h.db.uploads && h.db.uploads[s].result != ""
    ensures var h, k := Run(g, before).value, Run(g, before + after).value;
            s in k.db.uploads ==> k.db.uploads[s].result == h.db.uploads[s].result
  {
    hide Init, UploadRun, Run;
    RunFinished(g, before, after, s);
  }
}
