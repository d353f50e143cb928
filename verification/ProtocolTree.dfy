/** The node table over whole runs: exactly which commits leave it a tree. */
module ProtocolTree {
  import opened Paths
  import opened Metadata
  import opened Trees
  import opened TreeChanges
  import opened Maintenance
  import opened Scans
  import opened Protocol
  import opened ProtocolBase
  import opened ProtocolRuns

  // ------------------------------------------------------------------ steps

  lemma PurgeTree(db: Db, key: OpId)
    requires TreeOk(db.nodes, db.space) && key in db.retained
    ensures TreeOk(Purged(db, key).nodes, db.space) && Purged(db, key).space == db.space
  {
    hide VersionsOf;
    var t, u := db.nodes, Purged(db, key).nodes;
    forall i | i in u && i != db.space && !TrashRoot(u[i].path) && u[i].parent in u ensures Linked(u, i) {
      assert Linked(t, i);
    }
    forall i | i in u && i != db.space && !Reserved(u[i].path) && u[i].missing == 0 ensures LiveDir(u, u[i].parent) {
      assert LiveDir(t, t[i].parent);
    }
  }

  lemma EditTree(db: Db, x: Id)
    requires TreeOk(db.nodes, db.space) && x in db.nodes
    ensures TreeOk(Edited(db, x).nodes, db.space) && Edited(db, x).space == db.space
  {
    hide TreeOk, Edited, SameShape;
    EditShape(db, x);
    EditFrame(db, x);
    ShapeTree(db.nodes, Edited(db, x).nodes, db.space);
  }

  /** A step that commits an entry finds that it still fits the table. */
  ghost predicate StepFits(g: Global, a: ActorId, l: Label)
    requires Do(g, a, l).Ok?
  {
    match l
    case CommitOwn(_, _) => StillFits(g.db.nodes, g.db.space, g.actors[a].pc.op)
    case CommitOther(_, _) => StillFits(g.db.nodes, g.db.space, g.db.ops[g.actors[a].pc.after.op.id])
    case _ => true
  }

  /** A step that writes no row. */
  predicate SameRows(g: Global, h: Global) {
    h.db.nodes == g.db.nodes && h.db.space == g.db.space
  }

  lemma SessionRows(g: Global, a: ActorId, l: Label)
    requires a in g.actors && SessionDo(g, a, l).Ok?
    ensures SameRows(g, SessionDo(g, a, l).value)
  {
    hide SessionFree;
  }

  lemma RequestRows(g: Global, a: ActorId, l: Label)
    requires a in g.actors && RequestDo(g, a, l).Ok?
    ensures SameRows(g, RequestDo(g, a, l).value)
  {
    hide LockPlan.PlanRefs, Requests.PublicPlans, LockFree, LockPlan.Conflict, LockOrder.Orders;
  }

  lemma ChangeRows(g: Global, a: ActorId, l: Label)
    requires a in g.actors && ChangeDo(g, a, l).Ok? && !l.CommitOwn? && !l.Edit? && !l.PurgeEntry?
    ensures SameRows(g, ChangeDo(g, a, l).value)
  {
    hide MayJournal;
  }

  lemma RecoveryRows(g: Global, a: ActorId, l: Label)
    requires a in g.actors && RecoveryDo(g, a, l).Ok? && !l.CommitOther?
    ensures SameRows(g, RecoveryDo(g, a, l).value)
  {
    hide SessionFree, ClaimFree, LockOrder.Orders;
  }

  lemma ScanRows(g: Global, a: ActorId, l: Label)
    requires a in g.actors && ScanDo(g, a, l).Ok? && !l.ScanCommit?
    ensures SameRows(g, ScanDo(g, a, l).value)
  {
  }

  lemma OtherRows(g: Global, a: ActorId, l: Label)
    requires Do(g, a, l).Ok? && !l.CommitOwn? && !l.CommitOther? && !l.Edit? && !l.PurgeEntry? && !l.ScanCommit?
    ensures SameRows(g, Do(g, a, l).value)
  {
    hide SessionDo, RequestDo, ChangeDo, RecoveryDo, ScanDo;
    if l.Abort? {}
    else if Do(g, a, l) == SessionDo(g, a, l) { SessionRows(g, a, l); }
    else if Do(g, a, l) == RequestDo(g, a, l) { RequestRows(g, a, l); }
    else if Do(g, a, l) == ChangeDo(g, a, l) { ChangeRows(g, a, l); }
    else if Do(g, a, l) == RecoveryDo(g, a, l) { RecoveryRows(g, a, l); }
    else { ScanRows(g, a, l); }
  }

  lemma CommitOwnTree(g: Global, a: ActorId, l: Label)
    requires Base(g) && TreeOk(g.db.nodes, g.db.space) && l.CommitOwn? && Do(g, a, l).Ok?
    ensures TreeOk(Do(g, a, l).value.db.nodes, g.db.space) <==> StepFits(g, a, l)
    ensures Do(g, a, l).value.db.space == g.db.space
  {
    hide Base, TreeOk, Commit, StillFits, ScanOk, DrainOk, SpaceHeld, MayJournal, WellWritten;
    BaseActor(g, a);
    assert g.actors[a].pc.op in Remembered(g.actors[a]);
    CommitTreeIff(g.db, g.actors[a].pc.op, l.size, l.mtime);
    CommitFrame(g.db, g.actors[a].pc.op, l.size, l.mtime);
  }

  lemma CommitOtherTree(g: Global, a: ActorId, l: Label)
    requires Base(g) && TreeOk(g.db.nodes, g.db.space) && l.CommitOther? && Do(g, a, l).Ok?
    ensures TreeOk(Do(g, a, l).value.db.nodes, g.db.space) <==> StepFits(g, a, l)
    ensures Do(g, a, l).value.db.space == g.db.space
  {
    hide Base, TreeOk, Commit, StillFits, WellWritten;
    BaseOps(g);
    CommitTreeIff(g.db, g.db.ops[g.actors[a].pc.after.op.id], l.size, l.mtime);
    CommitFrame(g.db, g.db.ops[g.actors[a].pc.after.op.id], l.size, l.mtime);
  }

  lemma RowsTree(g: Global, a: ActorId, l: Label)
    requires TreeOk(g.db.nodes, g.db.space) && (l.Edit? || l.PurgeEntry? || l.ScanCommit?) && Do(g, a, l).Ok?
    ensures TreeOk(Do(g, a, l).value.db.nodes, g.db.space) && Do(g, a, l).value.db.space == g.db.space
  {
    hide TreeOk, Edited, Purged, Scanned, ScanInput, Requests.Resolve, MayJournal;
    if l.Edit? {
      Requests.ResolveRight(g.db.nodes, l.q);
      EditTree(g.db, Requests.Resolve(g.db.nodes, l.q).value);
    } else if l.PurgeEntry? {
      PurgeTree(g.db, l.key);
    } else {
      var d := g.actors[a].pc.data;
      ScanTree(d.before, g.db.space, d.walked, l.ids, g.db.tag, l.now, l.grace);
    }
  }

  lemma StepTreeIff(g: Global, a: ActorId, l: Label)
    requires Base(g) && TreeOk(g.db.nodes, g.db.space) && Do(g, a, l).Ok?
    ensures var db := Do(g, a, l).value.db; TreeOk(db.nodes, db.space) <==> StepFits(g, a, l)
  {
    hide Base, Do, TreeOk, StillFits;
    if l.CommitOwn? { CommitOwnTree(g, a, l); }
    else if l.CommitOther? { CommitOtherTree(g, a, l); }
    else if l.Edit? || l.PurgeEntry? || l.ScanCommit? { RowsTree(g, a, l); }
    else { OtherRows(g, a, l); }
  }

  // ------------------------------------------------------------------ runs

  ghost predicate TreeThroughout(g: Global, moves: seq<Move>)
    decreases |moves|
  {
    && Run(g, moves).Ok? && TreeOk(Run(g, moves).value.db.nodes, Run(g, moves).value.db.space)
    && (moves != [] ==> TreeThroughout(g, moves[..|moves| - 1]))
  }

  ghost predicate AllFit(g: Global, moves: seq<Move>)
    requires Run(g, moves).Ok?
    decreases |moves|
  {
    moves != [] ==>
      && AllFit(g, moves[..|moves| - 1])
      && StepFits(Run(g, moves[..|moves| - 1]).value, moves[|moves| - 1].who, moves[|moves| - 1].what)
  }

  /** The table is a tree throughout a run exactly if every entry that is committed in it
      still fits the table then. Nothing else is asked of the run. */
  lemma {:induction false} RunTreeIff(g: Global, moves: seq<Move>)
    requires Init(g) && Run(g, moves).Ok?
    ensures TreeThroughout(g, moves) <==> AllFit(g, moves)
    decreases |moves|
  {
    hide Base, Do, TreeOk, StepFits;
    if moves == [] {
      assert DbOk(g.db);
    } else {
      var less, last := moves[..|moves| - 1], moves[|moves| - 1];
      RunTreeIff(g, less);
      if TreeThroughout(g, less) {
        RunBase(g, less);
        StepTreeIff(Run(g, less).value, last.who, last.what);
      }
    }
  }
}
