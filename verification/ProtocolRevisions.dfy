/** Revisions over whole runs. */
module ProtocolRevisions {
  import opened Metadata
  import opened Protocol
  import opened ProtocolBase
  import opened ProtocolRuns
  import opened Revisions

  lemma SameAdvances(db: Db, db': Db)
    requires TagsOk(db) && db'.nodes == db.nodes && db'.tag == db.tag
    ensures Advances(db, db')
  {
  }

  lemma ChangeAdvances(g: Global, a: ActorId, l: Label)
    requires TagsOk(g.db) && a in g.actors && ChangeDo(g, a, l).Ok?
    ensures Advances(g.db, ChangeDo(g, a, l).value.db)
  {
    hide TagsOk, Advances, Commit, Edited, Purged, MayJournal, Requests.Resolve;
    if l.CommitOwn? { CommitAdvances(g.db, g.actors[a].pc.op, l.size, l.mtime); }
    else if l.Edit? {
      Requests.ResolveRight(g.db.nodes, l.q);
      EditAdvances(g.db, Requests.Resolve(g.db.nodes, l.q).value);
    }
    else if l.PurgeEntry? { PurgeAdvances(g.db, l.key); }
    else { SameAdvances(g.db, ChangeDo(g, a, l).value.db); }
  }

  lemma RecoveryAdvances(g: Global, a: ActorId, l: Label)
    requires TagsOk(g.db) && a in g.actors && RecoveryDo(g, a, l).Ok?
    ensures Advances(g.db, RecoveryDo(g, a, l).value.db)
  {
    hide TagsOk, Advances, Commit, ReturnPc, RecoverPc;
    if l.CommitOther? {
      CommitAdvances(g.db, g.db.ops[g.actors[a].pc.after.op.id], l.size, l.mtime);
    } else {
      SameAdvances(g.db, RecoveryDo(g, a, l).value.db);
    }
  }

  lemma ScanDoAdvances(g: Global, a: ActorId, l: Label)
    requires Base(g) && TagsOk(g.db) && a in g.actors && ScanDo(g, a, l).Ok?
    ensures Advances(g.db, ScanDo(g, a, l).value.db)
  {
    hide Base, TagsOk, Advances, DrainOk, MemoryOk, SpaceHeld, ProtocolLocks.Shape, Scans.Scanned, Scans.ScanInput;
    if l.ScanCommit? {
      BaseActor(g, a);
      var w := g.actors[a].pc.data.walked;
      ScanAdvances(g.db, w, l.ids, l.now, l.grace);
    } else {
      SameAdvances(g.db, ScanDo(g, a, l).value.db);
    }
  }

  lemma SessionAdvances(g: Global, a: ActorId, l: Label)
    requires TagsOk(g.db) && a in g.actors && SessionDo(g, a, l).Ok?
    ensures Advances(g.db, SessionDo(g, a, l).value.db)
  {
    hide TagsOk, Advances;
    SameAdvances(g.db, SessionDo(g, a, l).value.db);
  }

  lemma RequestAdvances(g: Global, a: ActorId, l: Label)
    requires TagsOk(g.db) && a in g.actors && RequestDo(g, a, l).Ok?
    ensures Advances(g.db, RequestDo(g, a, l).value.db)
  {
    hide TagsOk, Advances, LockPlan.PlanRefs, Requests.PublicPlans, LockFree, LockPlan.Conflict;
    SameAdvances(g.db, RequestDo(g, a, l).value.db);
  }

  lemma StepAdvances(g: Global, a: ActorId, l: Label)
    requires Base(g) && TagsOk(g.db) && Do(g, a, l).Ok?
    ensures Advances(g.db, Do(g, a, l).value.db)
  {
    hide Base, TagsOk, Advances, SessionDo, RequestDo, ChangeDo, RecoveryDo, ScanDo;
    if l.Abort? { SameAdvances(g.db, Do(g, a, l).value.db); }
    else if Do(g, a, l) == SessionDo(g, a, l) { SessionAdvances(g, a, l); }
    else if Do(g, a, l) == RequestDo(g, a, l) { RequestAdvances(g, a, l); }
    else if Do(g, a, l) == ChangeDo(g, a, l) { ChangeAdvances(g, a, l); }
    else if Do(g, a, l) == RecoveryDo(g, a, l) { RecoveryAdvances(g, a, l); }
    else { ScanDoAdvances(g, a, l); }
  }

  lemma {:induction false} TagsAlways(g: Global, moves: seq<Move>)
    requires Init(g) && Run(g, moves).Ok? && TagsOk(g.db)
    ensures TagsOk(Run(g, moves).value.db)
    decreases |moves|
  {
    hide Base, Do, Init, TagsOk;
    if moves != [] {
      var less := moves[..|moves| - 1];
      TagsAlways(g, less);
      RunBase(g, less);
      StepAdvances(Run(g, less).value, moves[|moves| - 1].who, moves[|moves| - 1].what);
      AdvancesTags(Run(g, less).value.db, Run(g, moves).value.db);
    }
  }

  lemma AdvancesTags(db: Db, db': Db)
    requires Advances(db, db')
    ensures TagsOk(db')
  {
  }

  /** The node has been in the table since `before`. */
  ghost predicate There(g: Global, before: seq<Move>, after: seq<Move>, i: Id) {
    forall k :: 0 <= k <= |after| ==> Run(g, before + after[..k]).Ok? && i in Run(g, before + after[..k]).value.db.nodes
  }

  /** What holds of a row's revision between two databases of a run. */
  ghost predicate RevisionKept(db: Db, db': Db, i: Id) {
    && i in db.nodes && i in db'.nodes && db.tag <= db'.tag
    && (db'.nodes[i].etag == db.nodes[i].etag || db'.nodes[i].etag >= db.tag)
    && (db'.nodes[i].etag == db.nodes[i].etag ==> SameContent(db.nodes[i], db'.nodes[i]))
  }

  lemma KeptOn(db: Db, mid: Db, last: Db, i: Id)
    requires TagsOk(db) && RevisionKept(db, mid, i) && Advances(mid, last) && i in last.nodes
    ensures RevisionKept(db, last, i)
  {
  }

  lemma KeptStart(db: Db, i: Id)
    requires i in db.nodes
    ensures RevisionKept(db, db, i)
  {
  }

  /** No lost update: over every run, a node that has been there all the time and has the
      revision it had before has the size and time it had before. */
  lemma {:induction false} NoLostUpdate(g: Global, before: seq<Move>, after: seq<Move>, i: Id)
    requires Init(g) && Run(g, before).Ok? && TagsOk(g.db) && There(g, before, after, i)
    ensures Run(g, before + after).Ok? && RevisionKept(Run(g, before).value.db, Run(g, before + after).value.db, i)
    decreases |after|
  {
    hide Base, Do, Init, TagsOk, Advances, RevisionKept;
    assert after[..|after|] == after;
    if after == [] {
      assert before + after == before;
      KeptStart(Run(g, before).value.db, i);
    } else {
      var n, all := |after| - 1, before + after;
      var less := before + after[..n];
      assert all[..|all| - 1] == less;
      ThereBefore(g, before, after, i);
      NoLostUpdate(g, before, after[..n], i);
      TagsAlways(g, before);
      TagsAlways(g, less);
      RunBase(g, less);
      StepAdvances(Run(g, less).value, after[n].who, after[n].what);
      KeptOn(Run(g, before).value.db, Run(g, less).value.db, Run(g, all).value.db, i);
    }
  }

  lemma ThereBefore(g: Global, before: seq<Move>, after: seq<Move>, i: Id)
    requires There(g, before, after, i) && after != []
    ensures There(g, before, after[..|after| - 1], i)
  {
    hide Run;
    var n := |after| - 1;
    forall k | 0 <= k <= n
      ensures Run(g, before + after[..n][..k]).Ok? && i in Run(g, before + after[..n][..k]).value.db.nodes
    {
      assert after[..n][..k] == after[..k];
    }
  }
}
