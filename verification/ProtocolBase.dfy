/** What every step keeps, whatever the processes do: the lock discipline, the entries
    that processes remember, rows that hang together, and what a scan has read. */
module ProtocolBase {
  import opened Paths
  import opened Metadata
  import opened Trees
  import opened TreeChanges
  import opened Requests
  import opened LockPlan
  import opened LockOrder
  import opened Protocol
  import opened ProtocolLocks

  // ------------------------------------------------------------------ rows and entries

  /** One root, a path of its own for every row, and a parent for every other row. */
  ghost predicate Rooted(t: Table, space: Id) {
    RootOk(t, space) && UniquePaths(t) && AllParented(t, space)
  }

  /** What every journal entry says, in whatever state it is committed. */
  ghost predicate EntryOk(space: Id, op: Operation) {
    && op.id != "" && NodeKey(space) in op.locks && WellWritten(space, op)
    && (op.kind == Restore ==> op.session == "")
  }

  ghost predicate RowsOk(db: Db) {
    && Rooted(db.nodes, db.space)
    && forall k :: k in db.retained && db.retained[k].kind == TrashItem ==>
         SnapshotOk(db.space, db.retained[k].snapshot)
  }

  ghost predicate JournalOk(db: Db) {
    forall o :: o in db.ops ==> db.ops[o].id == o && EntryOk(db.space, db.ops[o])
  }

  // ------------------------------------------------------------------ processes

  /** The entries that a recovery means to come to later. */
  function Later(ret: Return): set<Operation> {
    if ret.ToDrain? then ret.todo.Values else {}
  }

  /** The journal entries that a process has read or written and not finished with. */
  function Remembered(me: Actor): set<Operation> {
    match me.pc
    case Drain(todo) => todo.Values
    case WantOther(op, ret, _) => {op} + Later(ret)
    case WantClaim(op, ret) => {op} + Later(ret)
    case Acquire(_, _, after) => if after.ForOp? then {after.op} + Later(after.ret) else {}
    case Publish(op) => {op}
    case _ => {}
  }

  ghost predicate MemoryOk(space: Id, me: Actor) {
    forall op :: op in Remembered(me) ==> EntryOk(space, op)
  }

  /** The journal entries of its own session that an actor still has on its list. */
  function Known(me: Actor): set<OpId> {
    match me.pc
    case Drain(todo) => todo.Keys
    case WantClaim(op, ret) => if ret.ToDrain? then ret.todo.Keys + {op.id} else {}
    case Acquire(_, _, after) =>
      if after.ForOp? && after.ret.ToDrain? then after.ret.todo.Keys + {after.op.id} else {}
    case _ => {}
  }

  /** A session's entries are known to the owner that is finishing them; afterwards
      there is none but the one the owner itself has just written. */
  ghost predicate DrainOk(db: Db, me: Actor) {
    me.own != "" ==>
      forall o :: o in db.ops && db.ops[o].session == me.own ==>
        if me.drained then me.pc == Publish(db.ops[o]) else me.pc.OwnTaken? || o in Known(me)
  }

  /** Who has planned holds the space. */
  ghost predicate SpaceHeld(space: Id, me: Actor) {
    me.pc.Verified? || me.pc.Ready? || me.pc.Publish? ==> NodeKey(space) in me.held
  }

  /** If the epoch has not moved, the table and the journal are what the scan read. */
  ghost predicate TableCurrent(g: Global, d: ScanData) {
    d.epoch <= g.epoch && (d.epoch == g.epoch ==> g.db.nodes == d.before && g.db.ops == map[])
  }

  ghost predicate ScanOk(g: Global, me: Actor) {
    match me.pc
    case ScanEpoch(e) => e <= g.epoch
    case ScanClear(e) => e <= g.epoch && (e == g.epoch ==> g.db.ops == map[])
    case ScanWalk(d) => TableCurrent(g, d)
    case Acquire(_, goal, after) => after.ForScan? ==>
        goal == map[NodeKey(g.db.space) := true] && TableCurrent(g, after.data)
    case ScanHave(d) => d.epoch == g.epoch && TableCurrent(g, d) && me.held == map[NodeKey(g.db.space) := true]
    case _ => true
  }

  ghost predicate ActorBase(g: Global, me: Actor) {
    DrainOk(g.db, me) && MemoryOk(g.db.space, me) && SpaceHeld(g.db.space, me) && ScanOk(g, me)
  }

  ghost predicate Base(g: Global) {
    && LocksOk(g) && RowsOk(g.db) && JournalOk(g.db)
    && forall a :: a in g.actors ==> ActorBase(g, g.actors[a])
  }

  lemma BaseActor(g: Global, a: ActorId)
    requires Base(g) && a in g.actors
    ensures Shape(g.clock, g.actors[a]) && ActorBase(g, g.actors[a])
  {
    hide Shape, Compatible, ReadBefore, ActorBase, RowsOk, JournalOk;
  }

  lemma BasePair(g: Global, a: ActorId, b: ActorId)
    requires LocksOk(g) && a in g.actors && b in g.actors && a != b
    ensures Compatible(g.actors[a], g.actors[b]) && Compatible(g.actors[b], g.actors[a])
    ensures ReadBefore(g.actors[a], g.actors[b]) && ReadBefore(g.actors[b], g.actors[a])
  {
    hide Shape, Compatible, ReadBefore;
  }

  /** No journal entry of a session is left when its owner has finished them. */
  lemma Drained(g: Global, a: ActorId)
    requires Base(g) && a in g.actors && g.actors[a].pc.Idle? && g.actors[a].drained
    ensures forall o :: o in g.db.ops ==> g.db.ops[o].session != g.actors[a].own
  {
    hide Base, MemoryOk, SpaceHeld, ScanOk;
    BaseActor(g, a);
  }

  // ------------------------------------------------------------------ one actor moves

  /** An actor's new state fits with every other actor. */
  ghost predicate Fits(g: Global, a: ActorId, me: Actor) {
    && ReadBefore(me, me)
    && forall b :: b in g.actors && b != a ==>
         && Compatible(me, g.actors[b]) && Compatible(g.actors[b], me)
         && ReadBefore(me, g.actors[b]) && ReadBefore(g.actors[b], me)
  }

  lemma LaterShape(now: nat, me: Actor)
    requires Shape(now, me)
    ensures Shape(now + 1, me)
  {
  }

  lemma LocksStep(g: Global, a: ActorId, me: Actor, h: Global)
    requires LocksOk(g) && a in g.actors && h.actors == g.actors[a := me] && h.clock == g.clock + 1
    requires Shape(h.clock, me) && Fits(g, a, me)
    ensures LocksOk(h)
  {
    hide Shape, Compatible, ReadBefore;
    forall b | b in h.actors ensures Shape(h.clock, h.actors[b]) {
      if b != a { LaterShape(g.clock, g.actors[b]); }
    }
  }

  /** The step leaves the table and the journal alone. */
  lemma SoleStep(g: Global, a: ActorId, me: Actor, h: Global)
    requires Base(g) && a in g.actors && h.actors == g.actors[a := me] && h.clock == g.clock + 1
    requires h.db == g.db.(uploads := h.db.uploads) && h.epoch == g.epoch
    requires Shape(h.clock, me) && Fits(g, a, me) && ActorBase(h, me)
    ensures Base(h)
  {
    hide LocksOk, Shape, Fits, Rooted, EntryOk, Known;
    LocksStep(g, a, me, h);
  }

  /** The step changes the table or the journal, under a lock on the space. */
  lemma SharedStep(g: Global, a: ActorId, me: Actor, h: Global)
    requires Base(g) && a in g.actors && h.actors == g.actors[a := me] && h.clock == g.clock + 1
    requires h.db.space == g.db.space && h.epoch == g.epoch + 1 && NodeKey(g.db.space) in g.actors[a].held
    requires forall o :: o in h.db.ops ==>
               || (o in g.db.ops && h.db.ops[o] == g.db.ops[o])
               || h.db.ops[o].session == "" || h.db.ops[o].session == g.actors[a].own
    requires Shape(h.clock, me) && Fits(g, a, me) && ActorBase(h, me) && RowsOk(h.db) && JournalOk(h.db)
    ensures Base(h)
  {
    hide LocksOk, Shape, Fits, RowsOk, JournalOk, EntryOk, Known;
    LocksStep(g, a, me, h);
    forall b | b in g.actors && b != a ensures ActorBase(h, g.actors[b]) {
      BasePair(g, a, b);
    }
  }

  /** `y` holds no lock that `x` did not hold. */
  ghost predicate Fewer(x: Actor, y: Actor) {
    && (y.own == x.own || y.own == "") && (y.other == x.other || y.other == "")
    && (y.claim == x.claim || y.claim == "") && (y.held == x.held || y.held == map[])
    && (y.drained ==> x.drained && y.own == x.own && y.drainedAt == x.drainedAt)
    && (x.pc.Publish? || x.pc.Leaving? ==> !y.drained || y.pc.Publish? || y.pc.Leaving?)
  }

  lemma FewerFits(g: Global, a: ActorId, me: Actor)
    requires LocksOk(g) && a in g.actors && Fewer(g.actors[a], me) && !me.pc.WantOther?
    ensures Fits(g, a, me)
  {
    hide LocksOk;
    forall b | b in g.actors && b != a
      ensures Compatible(me, g.actors[b]) && Compatible(g.actors[b], me) && ReadBefore(g.actors[b], me)
    {
      BasePair(g, a, b);
    }
  }

  /** `y` is `x` with one more free lock, or with its session's entries now finished. */
  ghost predicate Adds(g: Global, x: Actor, y: Actor) {
    && !x.pc.Publish? && !x.pc.Leaving?
    && (y.own == x.own || SessionFree(g, y.own)) && (y.other == x.other || SessionFree(g, y.other))
    && (y.claim == x.claim || ClaimFree(g, y.claim))
    && (forall k :: k in y.held ==> (k in x.held && x.held[k] == y.held[k]) || LockFree(g, k, y.held[k]))
    && (y.drained ==> (x.drained && y.own == x.own && y.drainedAt == x.drainedAt) || y.drainedAt == g.clock)
  }

  /** A lock that nobody holds in a conflicting mode can be added. */
  lemma TakeFits(g: Global, a: ActorId, me: Actor)
    requires LocksOk(g) && a in g.actors && !me.pc.WantOther? && Adds(g, g.actors[a], me)
    ensures Fits(g, a, me)
  {
    forall b | b in g.actors && b != a
      ensures Compatible(me, g.actors[b]) && Compatible(g.actors[b], me) && ReadBefore(g.actors[b], me)
    {
      hide LocksOk;
      assert Shape(g.clock, g.actors[b]) by { ShapeOf(g, b); }
      BasePair(g, a, b);
    }
  }

  lemma ShapeOf(g: Global, a: ActorId)
    requires LocksOk(g) && a in g.actors
    ensures Shape(g.clock, g.actors[a])
  {
    hide Shape, Compatible, ReadBefore;
  }

  /** An actor that sets out to recover another session's entry: whoever has finished
      that session's entries and holds its lock is publishing this one. */
  lemma WaitFits(g: Global, a: ActorId, o: OpId, me: Actor)
    requires Base(g) && a in g.actors && o in g.db.ops && me.pc.WantOther? && me.pc.op == g.db.ops[o]
    requires me.own == g.actors[a].own != g.db.ops[o].session && g.db.ops[o].session != ""
    requires me.other == "" && me.claim == "" && me.held == map[]
    requires me.drained == g.actors[a].drained && me.drainedAt == g.actors[a].drainedAt
    requires !g.actors[a].pc.Publish? && !g.actors[a].pc.Leaving?
    ensures Fits(g, a, me)
  {
    hide Base, Shape, ScanOk, MemoryOk, SpaceHeld;
    forall b | b in g.actors && b != a
      ensures Compatible(me, g.actors[b]) && Compatible(g.actors[b], me)
      ensures ReadBefore(me, g.actors[b]) && ReadBefore(g.actors[b], me)
    {
      BasePairs(g, a, b);
      BaseActor(g, b);
    }
  }

  lemma BasePairs(g: Global, a: ActorId, b: ActorId)
    requires Base(g) && a in g.actors && b in g.actors && a != b
    ensures Compatible(g.actors[a], g.actors[b]) && Compatible(g.actors[b], g.actors[a])
    ensures ReadBefore(g.actors[a], g.actors[b]) && ReadBefore(g.actors[b], g.actors[a])
  {
    hide LocksOk;
    BasePair(g, a, b);
  }

  lemma BaseOps(g: Global)
    requires Base(g)
    ensures LocksOk(g) && RowsOk(g.db) && JournalOk(g.db)
  {
  }

  lemma InOrderStart(order: seq<string>, goal: LockMap)
    requires Orders(order, goal)
    ensures InOrder(map[], order, goal)
  {
    assert forall k :: k in goal.Keys <==> k in order;
  }

  lemma InOrderTake(held: LockMap, order: seq<string>, goal: LockMap)
    requires InOrder(held, order, goal) && order != []
    ensures order[0] in goal && InOrder(held[order[0] := goal[order[0]]], order[1..], goal)
  {
    assert forall k :: k in order <==> k == order[0] || k in order[1..];
    forall j | j in order[1..] ensures Less(order[0], j) {
      var n :| 0 <= n < |order| - 1 && order[1..][n] == j;
      assert order[n + 1] == j;
    }
    LessIrreflexive(order[0]);
  }

  lemma InOrderDone(held: LockMap, goal: LockMap)
    requires InOrder(held, [], goal)
    ensures held == goal
  {
  }

  // ------------------------------------------------------------------ rows

  /** A plan that starts at a row ends at the space. */
  lemma {:induction false} ChainHasSpace(t: Table, space: Id, i: Id, w: bool, seen: set<Id>)
    requires Rooted(t, space) && i in t && AddNode(t, space, i, w, seen).Ok?
    ensures NodeKey(space) in AddNode(t, space, i, w, seen).value.locks
    decreases t.Keys - seen
  {
    if !Reserved(t[i].path) && t[i].parent != "" {
      ChainHasSpace(t, space, t[i].parent, false, seen + {i});
    }
  }

  lemma RefHasSpace(t: Table, space: Id, q: Ref)
    requires Rooted(t, space) && PlanRef(t, space, q).Ok?
    ensures NodeKey(space) in PlanRef(t, space, q).value.locks
  {
    hide AddNode, Walk;
    var base := if q.base == "" then space else q.base;
    if base in t {
      ChainHasSpace(t, space, base, if q.path == [] then q.write || t[base].dir else false, {});
    }
  }

  lemma PlanHasSpace(t: Table, space: Id, refs: seq<Ref>)
    requires Rooted(t, space) && refs != [] && PlanRefs(t, space, refs).Ok?
    ensures NodeKey(space) in PlanRefs(t, space, refs).value.locks
  {
    hide PlanRef;
    RefHasSpace(t, space, refs[0]);
  }

  /** Whatever a request asks for is written well. */
  lemma AnsweredWell(db: Db, req: Request, op: Operation)
    requires RowsOk(db) && Answer(db, req) == Apply(Asked(op)) && NewUuids(db, op)
    ensures WellWritten(db.space, op) && (op.kind == Restore ==> op.session == "")
    ensures !(Reserved(op.source) && Reserved(op.target))
  {
    hide *;
    if Writes(req) { WriteAnswered(db, req, op); } else { ChangeAnswered(db, req, op); }
  }

  predicate Writes(req: Request) {
    req.TouchFile? || req.RestoreRevision? || req.FinishUpload?
  }

  lemma WriteAnswered(db: Db, req: Request, op: Operation)
    requires RowsOk(db) && Answer(db, req) == Apply(Asked(op)) && NewUuids(db, op) && Writes(req)
    ensures WellWritten(db.space, op) && (op.kind == Restore ==> op.session == "")
    ensures !(Reserved(op.source) && Reserved(op.target))
  {
    hide Resolve, Parent, WriteFile, FreeAt;
    var t, refs := db.nodes, Refs(db.space, req);
    match req
    case TouchFile(_, node, id, tmp) =>
      ParentRight(t, refs[0]);
      WrittenWell(t, db.space, Parent(t, refs[0]).value, Last(refs[0]), "", 0, node, id, tmp, "", Err);
    case RestoreRevision(_, key, id, tmp, disk) =>
      ResolveRight(t, refs[0]);
      var n := Resolve(t, refs[0]).value;
      WrittenWell(t, db.space, t[n].parent, t[n].name, n, t[n].etag, "", id, tmp, "", disk);
    case FinishUpload(parent, name, expected, revision, node, id, tmp, session, disk) =>
      WrittenWell(t, db.space, parent, name, expected, revision, node, id, tmp, session, disk);
  }

  lemma ChangeAnswered(db: Db, req: Request, op: Operation)
    requires RowsOk(db) && Answer(db, req) == Apply(Asked(op)) && NewUuids(db, op) && !Writes(req)
    ensures WellWritten(db.space, op) && (op.kind == Restore ==> op.session == "")
    ensures !(Reserved(op.source) && Reserved(op.target))
  {
    hide Resolve, Parent, WriteFile, FreeAt;
    var t, refs := db.nodes, Refs(db.space, req);
    match req
    case CreateDir(_, _, _, _) => ParentRight(t, refs[0]);
    case MoveNode(_, _, _) =>
      ResolveRight(t, refs[0]);
      ParentRight(t, refs[1]);
    case Delete(_, _) => ResolveRight(t, refs[0]);
    case RestoreItem(_, _, _) => ParentRight(t, refs[1]);
  }

  lemma WrittenWell(t: Table, space: Id, parent: Id, name: Name, expected: Id, revision: Tag, node: Id, id: OpId,
      tmp: string,
                    session: Id, disk: Outcome<Stat>)
    requires Rooted(t, space) && parent in t
    requires WriteFile(t, parent, name, expected, revision, node, id, tmp, session, disk).Apply?
    ensures var op := WriteFile(t, parent, name, expected, revision, node, id, tmp, session, disk).op;
            && op.kind in {Create, Replace} && op.target == t[parent].path + [name] && Reserved(op.source)
            && (op.kind == Create ==> op.row.parent == parent != "" && op.node == node && expected == "")
            && (op.kind == Replace ==>
                 op.node == expected && expected in t && op.node != space && op.node != "" &&
                     op.target == t[op.node].path)
  {
  }

  lemma AnsweredOk(db: Db, req: Request, op: Operation)
    requires RowsOk(db) && op.id != "" && Answer(db, req) == Apply(Asked(op)) && NewUuids(db, op)
    requires OpLocks(db.nodes, db.space, op) == Ok(op.locks)
    ensures EntryOk(db.space, op)
  {
    hide PlanRefs, Answer, NewUuids, WellWritten;
    AnsweredWell(db, req, op);
    PlanHasSpace(db.nodes, db.space, OpRefs(db.space, op));
  }

  lemma RefreshRooted(t: Table, space: Id, changed: set<Path>, tag: Tag)
    requires Rooted(t, space)
    ensures Rooted(Refresh(t, changed, tag), space)
  {
  }

  lemma KindRooted(db: Db, op: Operation, size: int, mtime: int)
    requires RowsOk(db) && EntryOk(db.space, op) && KindRows(db, op, size, mtime).Ok?
    ensures Rooted(KindRows(db, op, size, mtime).value, db.space)
  {
    hide RebaseRows, RestoredRow;
    match op.kind
    case Create =>
    case Replace =>
    case Move => RebaseRooted(db.nodes, db.space, op.source, op.target);
    case Trash => RebaseRooted(db.nodes, db.space, op.source, op.target);
    case Restore => RestoreRooted(db.nodes, db.space, op, db.tag);
  }

  lemma RebaseRooted(t: Table, space: Id, src: Path, dst: Path)
    requires Rooted(t, space) && src != [] && UniquePaths(RebaseRows(t, src, dst))
    ensures Rooted(RebaseRows(t, src, dst), space)
  {
    hide UniquePaths;
  }

  lemma RestoreRooted(t: Table, space: Id, op: Operation, tag: Tag)
    requires Rooted(t, space) && SnapshotOk(space, op.snapshot) && op.row.parent != ""
    requires UniquePaths(map i | i in t :: if i in op.snapshot then RestoredRow(t[i], op, i, tag) else t[i])
    ensures Rooted(map i | i in t :: if i in op.snapshot then RestoredRow(t[i], op, i, tag) else t[i], space)
  {
    hide UniquePaths, Regraft;
  }

  lemma CommitFrame(db: Db, op: Operation, size: int, mtime: int)
    requires Commit(db, op, size, mtime).Ok?
    ensures var db' := Commit(db, op, size, mtime).value;
            && db'.space == db.space && db'.ops == db.ops - {op.id}
            && (op.session == "" ==> db'.uploads == db.uploads)
            && (op.session != "" ==>
                 op.session in db.uploads &&
                     db'.uploads == db.uploads[op.session := db.uploads[op.session].(result := op.node)])
  {
    hide KindRows, KindRetained, Refresh;
  }

  lemma CommitRows(db: Db, op: Operation, size: int, mtime: int)
    requires RowsOk(db) && EntryOk(db.space, op) && Commit(db, op, size, mtime).Ok?
    ensures RowsOk(Commit(db, op, size, mtime).value)
  {
    hide KindRows, Refresh, Rooted;
    KindRooted(db, op, size, mtime);
    RefreshRooted(KindRows(db, op, size, mtime).value, db.space, {op.source, op.target}, db.tag);
  }

  lemma EditRows(db: Db, x: Id)
    requires RowsOk(db) && x in db.nodes
    ensures RowsOk(Edited(db, x)) && Edited(db, x).ops == db.ops && Edited(db, x).space == db.space
    ensures Edited(db, x).uploads == db.uploads
  {
    hide Refresh;
    var t := db.nodes[x := db.nodes[x].(etag := db.tag)];
    RefreshRooted(t, db.space, {t[x].path}, db.tag);
  }

  lemma PurgeRows(db: Db, key: OpId)
    requires RowsOk(db) && key in db.retained
    ensures RowsOk(Purged(db, key)) && Purged(db, key).ops == db.ops && Purged(db, key).space == db.space
    ensures Purged(db, key).uploads == db.uploads
  {
    hide VersionsOf;
  }
}
