/** The driver's processes as one transition system: session, operation and resource
    locks, the journal, the node table and the upload sessions. Every step is one
    effect on shared state; `Abort` is the end of a request, by return, timeout or crash. */
module Protocol {
  import opened Paths
  import opened Metadata
  import opened Trees
  import opened LockPlan
  import opened LockOrder
  import opened Scans
  import opened Requests

  type ActorId = nat

  /** Where an actor goes on after recovering an operation. */
  datatype Return = ToIdle | ToRefs(refs: seq<Ref>) | ToDrain(todo: map<OpId, Operation>)

  /** What a scan has read: the epoch, the node table, the walk, and how many
      renames the driver had made when the walk began. */
  datatype ScanData = ScanData(epoch: nat, before: Table, walked: Walked, renames: nat)

  /** Why a list of resource locks is being acquired. */
  datatype After =
    | ForRefs(refs: seq<Ref>, plan: Plan)
    | ForOp(op: Operation, ret: Return)
    | ForScan(data: ScanData)

  datatype Pc =
    | Idle
    | WantOwn(sid: Id)
    | OwnTaken
    | Drain(todo: map<OpId, Operation>)
    | Begin(refs: seq<Ref>)
    | Acquire(order: seq<string>, goal: LockMap, after: After)
    | Verified(plan: Plan, refs: seq<Ref>, pub: map<Ref, Plan>)
    | Ready(plan: Plan, refs: seq<Ref>, pub: map<Ref, Plan>)
    | Publish(op: Operation)
    | Leaving
    | WantOther(op: Operation, ret: Return, readAt: nat)
    | WantClaim(op: Operation, ret: Return)
    | ScanEpoch(epoch: nat)
    | ScanClear(epoch: nat)
    | ScanWalk(data: ScanData)
    | ScanHave(data: ScanData)

  /** A request or maintenance thread. `own` is the session lock it began with, `other`
      one taken to recover another session's operation, `claim` an operation lock; ""
      is none. `drained` says that the session's journal entries have been finished,
      at time `drainedAt`; `loaded` is the session row as it was then read. */
  datatype Actor = Actor(
    own: Id, drained: bool, drainedAt: nat, loaded: Outcome<Session>,
    other: Id, claim: OpId, held: LockMap, pc: Pc)

  const FREE: Actor := Actor("", false, 0, Err, "", "", map[], Idle)

  datatype Global = Global(
    db: Db, clock: nat, epoch: nat, renames: nat,
    actors: map<ActorId, Actor>, commits: seq<(OpId, Id)>)

  datatype Label =
    | BeginSession(sid: Id) | TakeOwn | ReadOwn | DrainNext(o: OpId) | DrainDone
    | LoadSession | SaveSession(s: Session) | DropSession
    | BeginRefs(refs: seq<Ref>) | PlanThem(order: seq<string>) | Take
    | Replan | Blocked(o: OpId) | Clear
    | Journal(req: Request, op: Operation) | Rename | CommitOwn(size: int, mtime: int)
    | Edit(q: Ref) | PurgeEntry(key: OpId) | StartUpload(sid: Id, s: Session)
    | Recover(o: OpId) | TakeOther | TakeClaim(order: seq<string>)
    | CommitOther(size: int, mtime: int) | Gone
    | ScanStart | ScanPending | ScanRead | ScanWalked(w: Walked) | ScanCheck
    | ScanCommit(ids: map<Path, Id>, now: int, grace: int)
    | Abort

  // ------------------------------------------------------------------ locks

  ghost predicate LockFree(g: Global, k: string, w: bool) {
    forall b :: b in g.actors && k in g.actors[b].held ==> !w && !g.actors[b].held[k]
  }

  ghost predicate SessionFree(g: Global, sid: Id) {
    forall b :: b in g.actors ==> g.actors[b].own != sid && g.actors[b].other != sid
  }

  ghost predicate ClaimFree(g: Global, o: OpId) {
    forall b :: b in g.actors ==> g.actors[b].claim != o
  }

  // ------------------------------------------------------------------ steps

  function RecoverPc(me: Actor, op: Operation, ret: Return, now: nat): Pc {
    if op.session != "" && op.session != me.own then WantOther(op, ret, now) else WantClaim(op, ret)
  }

  function ReturnPc(ret: Return): Pc {
    match ret
    case ToIdle => Idle
    case ToRefs(refs) => Begin(refs)
    case ToDrain(todo) => Drain(todo)
  }

  /** A new node's UUID occurs in no lock. */
  ghost predicate UnseenKey(g: Global, op: Operation) {
    && (forall b :: b in g.actors ==> NodeKey(op.node) !in g.actors[b].held)
    && (forall o :: o in g.db.ops ==> NodeKey(op.node) !in g.db.ops[o].locks)
  }

  /** The session was read and had no result. */
  predicate FoundOpen(me: Actor) {
    me.loaded.Ok? && me.loaded.value.result == ""
  }

  /** The request that was planned asks for this entry, and its UUIDs are new; a trash key
      always stands for the same node. */
  ghost predicate MayJournal(g: Global, me: Actor, req: Request, op: Operation)
    requires me.pc.Ready?
  {
    && UniquePaths(g.db.nodes) && Refs(g.db.space, req) == me.pc.refs && Answer(g.db, req) == Apply(Asked(op))
    && (req.RestoreItem? ==> req.item == op.node)
    && op.id != "" && op.id !in g.db.ops
    && NewUuids(g.db, op) && OpLocks(g.db.nodes, g.db.space, op) == Ok(op.locks)
    && (op.session != "" ==> op.session == me.own && FoundOpen(me))
    && (op.kind == Create ==> UnseenKey(g, op))
  }

  function Put(g: Global, a: ActorId, me: Actor): Global {
    g.(clock := g.clock + 1, actors := g.actors[a := me])
  }

  /** A step that changes the metadata or the journal. */
  function PutDb(g: Global, a: ActorId, me: Actor, db: Db): Global {
    Put(g, a, me).(db := db, epoch := g.epoch + 1)
  }

  /** Upload sessions. */
  ghost function SessionDo(g: Global, a: ActorId, l: Label): Outcome<Global>
    requires a in g.actors
  {
    var me, db := g.actors[a], g.db;
    match l
    case BeginSession(sid) =>
      if me == FREE && sid != "" then Ok(Put(g, a, me.(pc := WantOwn(sid)))) else Err
    case TakeOwn =>
      if me.pc.WantOwn? && SessionFree(g, me.pc.sid)
      then Ok(Put(g, a, me.(own := me.pc.sid, pc := OwnTaken))) else Err
    case ReadOwn =>
      if me.pc.OwnTaken?
      then Ok(Put(g, a, me.(pc := Drain(map o | o in db.ops && db.ops[o].session == me.own :: db.ops[o])))) else Err
    case DrainNext(o) =>
      if me.pc.Drain? && o in me.pc.todo
      then Ok(Put(g, a, me.(pc := WantClaim(me.pc.todo[o], ToDrain(me.pc.todo - {o}))))) else Err
    case DrainDone =>
      if me.pc.Drain? && me.pc.todo == map[]
      then Ok(Put(g, a, me.(drained := true, drainedAt := g.clock, pc := Idle))) else Err
    case LoadSession =>
      if me.pc.Idle? && me.drained && me.own in db.uploads
      then Ok(Put(g, a, me.(loaded := Ok(db.uploads[me.own])))) else Err
    case SaveSession(s) =>
      if me.pc.Idle? && me.drained && me.loaded.Ok? && s.result == me.loaded.value.result
      then Ok(Put(g, a, me.(loaded := Err)).(db := db.(uploads := db.uploads[me.own := s]))) else Err
    case DropSession =>
      if me.pc.Idle? && me.drained
      then Ok(Put(g, a, me.(loaded := Err)).(db := db.(uploads := db.uploads - {me.own}))) else Err
    case _ => Err
  }

  /** Planning and locking for a request. */
  ghost function RequestDo(g: Global, a: ActorId, l: Label): Outcome<Global>
    requires a in g.actors
  {
    var me, db := g.actors[a], g.db;
    match l
    case BeginRefs(refs) =>
      if me.pc.Idle? && (me.own == "" || me.drained) && refs != []
      then Ok(Put(g, a, me.(pc := Begin(refs)))) else Err
    case PlanThem(order) =>
      if me.pc.Begin? && UniquePaths(db.nodes) && PlanRefs(db.nodes, db.space, me.pc.refs).Ok? then
        var plan := PlanRefs(db.nodes, db.space, me.pc.refs).value;
        if Orders(order, plan.locks)
        then Ok(Put(g, a, me.(pc := Acquire(order, plan.locks, ForRefs(me.pc.refs, plan))))) else Err
      else Err
    case Take =>
      if me.pc.Acquire? && me.pc.order != [] && me.pc.order[0] in me.pc.goal
         && LockFree(g, me.pc.order[0], me.pc.goal[me.pc.order[0]])
      then Ok(Put(g, a, me.(held := me.held[me.pc.order[0] := me.pc.goal[me.pc.order[0]]],
                            pc := me.pc.(order := me.pc.order[1..])))) else Err
    case Replan =>
      if me.pc.Acquire? && me.pc.order == [] && me.pc.after.ForRefs? && UniquePaths(db.nodes) then
        var refs, plan := me.pc.after.refs, me.pc.after.plan;
        var now := PlanRefs(db.nodes, db.space, refs);
        if now.Err? then Err
        else if now.value == plan
        then Ok(Put(g, a, me.(pc := Verified(plan, refs, PublicPlans(db.nodes, db.space, refs)))))
        else Ok(Put(g, a, me.(held := map[], pc := Begin(refs))))
      else Err
    case Blocked(o) =>
      if me.pc.Verified? && o in db.ops && Conflict(me.held, db.ops[o].locks)
      then Ok(Put(g, a, me.(held := map[], pc := RecoverPc(me, db.ops[o], ToRefs(me.pc.refs), g.clock)))) else Err
    case Clear =>
      if me.pc.Verified? && forall o :: o in db.ops ==> !Conflict(me.held, db.ops[o].locks)
      then Ok(Put(g, a, me.(pc := Ready(me.pc.plan, me.pc.refs, me.pc.pub)))) else Err
    case _ => Err
  }

  /** Changing metadata under a request's locks. */
  ghost function ChangeDo(g: Global, a: ActorId, l: Label): Outcome<Global>
    requires a in g.actors
  {
    var me, db := g.actors[a], g.db;
    match l
    case Journal(req, op) =>
      if me.pc.Ready? && MayJournal(g, me, req, op)
      then Ok(PutDb(g, a, me.(loaded := Err, pc := Publish(op)), db.(ops := db.ops[op.id := op]))) else Err
    case Rename =>
      if me.pc.Publish? || (me.pc.Acquire? && me.pc.order == [] && me.pc.after.ForOp? && me.pc.after.op.id in db.ops)
      then Ok(Put(g, a, me).(renames := g.renames + 1)) else Err
    case CommitOwn(size, mtime) =>
      if me.pc.Publish? && Commit(db, me.pc.op, size, mtime).Ok?
      then Ok(PutDb(g, a, me.(pc := Leaving), Commit(db, me.pc.op, size, mtime).value)
              .(commits := g.commits + [(me.pc.op.id, me.pc.op.session)])) else Err
    case Edit(q) =>
      if me.pc.Ready? && q in me.pc.refs && q.write && UniquePaths(db.nodes) && Resolve(db.nodes, q).Ok?
      then Ok(PutDb(g, a, me, Edited(db, Resolve(db.nodes, q).value))) else Err
    case PurgeEntry(key) =>
      if me.pc.Ready? && key in db.retained && db.retained[key].kind == TrashItem
         && db.retained[key].node != ""
         && (Ref(db.retained[key].node, [], true) in me.pc.refs || Ref(db.space, [], true) in me.pc.refs)
      then Ok(PutDb(g, a, me, Purged(db, key))) else Err
    case StartUpload(sid, s) =>
      if me.pc.Ready? && sid != "" && sid !in db.uploads && s.result == ""
         && (forall o :: o in db.ops ==> db.ops[o].session != sid)
         && (forall i :: 0 <= i < |g.commits| ==> g.commits[i].1 != sid)
         && (forall b :: b in g.actors ==> g.actors[b].own != sid)
      then Ok(Put(g, a, me).(db := db.(uploads := db.uploads[sid := s]))) else Err
    case _ => Err
  }

  /** Finishing a journal entry that was left behind: the entry with the ID that was
      read, as it is in the journal by then. */
  ghost function RecoveryDo(g: Global, a: ActorId, l: Label): Outcome<Global>
    requires a in g.actors
  {
    var me, db := g.actors[a], g.db;
    match l
    case Recover(o) =>
      if me == FREE && o in db.ops then Ok(Put(g, a, me.(pc := RecoverPc(me, db.ops[o], ToIdle, g.clock)))) else Err
    case TakeOther =>
      if me.pc.WantOther? && SessionFree(g, me.pc.op.session)
      then Ok(Put(g, a, me.(other := me.pc.op.session, pc := WantClaim(me.pc.op, me.pc.ret)))) else Err
    case TakeClaim(order) =>
      if me.pc.WantClaim? && ClaimFree(g, me.pc.op.id) && Orders(order, me.pc.op.locks)
      then Ok(Put(g, a, me.(claim := me.pc.op.id, pc := Acquire(order, me.pc.op.locks, ForOp(me.pc.op, me.pc.ret)))))
          else Err
    case CommitOther(size, mtime) =>
      if me.pc.Acquire? && me.pc.order == [] && me.pc.after.ForOp? && me.pc.after.op.id in db.ops
         && Commit(db, db.ops[me.pc.after.op.id], size, mtime).Ok? then
        var found := db.ops[me.pc.after.op.id];
        Ok(PutDb(g, a, me.(held := map[], claim := "", other := "", pc := ReturnPc(me.pc.after.ret)),
                 Commit(db, found, size, mtime).value)
           .(commits := g.commits + [(found.id, found.session)]))
      else Err
    case Gone =>
      if me.pc.Acquire? && me.pc.order == [] && me.pc.after.ForOp? && me.pc.after.op.id !in db.ops
      then Ok(Put(g, a, me.(held := map[], claim := "", other := "", pc := ReturnPc(me.pc.after.ret)))) else Err
    case _ => Err
  }

  /** Reconciling with the mounted tree. */
  ghost function ScanDo(g: Global, a: ActorId, l: Label): Outcome<Global>
    requires a in g.actors
  {
    var me, db := g.actors[a], g.db;
    match l
    case ScanStart =>
      if me == FREE then Ok(Put(g, a, me.(pc := ScanEpoch(g.epoch)))) else Err
    case ScanPending =>
      if me.pc.ScanEpoch? && db.ops == map[] then Ok(Put(g, a, me.(pc := ScanClear(me.pc.epoch)))) else Err
    case ScanRead =>
      if me.pc.ScanClear?
      then Ok(Put(g, a, me.(pc := ScanWalk(ScanData(me.pc.epoch, db.nodes, map[], g.renames))))) else Err
    case ScanWalked(w) =>
      if me.pc.ScanWalk? && g.epoch == me.pc.data.epoch
      then Ok(Put(g, a, me.(pc := Acquire([NodeKey(db.space)], map[NodeKey(db.space) := true],
                                          ForScan(me.pc.data.(walked := w)))))) else Err
    case ScanCheck =>
      if me.pc.Acquire? && me.pc.order == [] && me.pc.after.ForScan? && g.epoch == me.pc.after.data.epoch
      then Ok(Put(g, a, me.(pc := ScanHave(me.pc.after.data)))) else Err
    case ScanCommit(ids, now, grace) =>
      if me.pc.ScanHave? && db.ops == map[] && ScanInput(me.pc.data.before, db.space, me.pc.data.walked, ids, now)
      then Ok(PutDb(g, a, FREE,
                    db.(nodes := Scanned(me.pc.data.before, db.space, me.pc.data.walked, ids, db.tag, now, grace),
                        tag := db.tag + 1)))
      else Err
    case _ => Err
  }

  /** One step of actor `a`, or Err if it is not possible in `g`. */
  ghost function Do(g: Global, a: ActorId, l: Label): Outcome<Global> {
    if a !in g.actors then Err
    else if l.Abort? then Ok(Put(g, a, FREE))
    else if l.BeginSession? || l.TakeOwn? || l.ReadOwn? || l.DrainNext? || l.DrainDone? || l.LoadSession? ||
        l.SaveSession? || l.DropSession? then SessionDo(g, a, l)
    else if l.BeginRefs? || l.PlanThem? || l.Take? || l.Replan? || l.Blocked? || l.Clear? then RequestDo(g, a, l)
    else if l.Journal? || l.Rename? || l.CommitOwn? || l.Edit? || l.PurgeEntry? || l.StartUpload? then ChangeDo(g, a, l)
    else if l.Recover? || l.TakeOther? || l.TakeClaim? || l.CommitOther? || l.Gone? then RecoveryDo(g, a, l)
    else ScanDo(g, a, l)
  }

  // ------------------------------------------------------------------ what a process can see for itself

  /** The locks an entry records are among those held, but for the lock of a node it creates. */
  ghost predicate OwnLocks(op: Operation, held: LockMap) {
    forall k :: k in op.locks ==>
      || (op.kind == Create && k == NodeKey(op.node))
      || (k in held && (op.locks[k] ==> held[k]))
  }

  /** Planned again, a reference asks for nothing that is not held. */
  ghost predicate StillHeld(db: Db, held: LockMap, q: Ref) {
    UniquePaths(db.nodes) && PlanRef(db.nodes, db.space, q).Ok? &&
        Within(PlanRef(db.nodes, db.space, q).value.locks, held)
  }

  /** The entry that a recovery finds, when it reads the journal again, is covered by the
      locks it took for the entry it had read. */
  ghost predicate Covered(db: Db, me: Actor) {
    me.pc.Acquire? && me.pc.after.ForOp? && me.pc.after.op.id in db.ops &&
    var found := db.ops[me.pc.after.op.id];
    && Within(found.locks, me.held)
    && (found.session != "" ==> found.session == me.own || found.session == me.other)
  }

  /** A step that changes something for which the process holds the locks, and writes down
      nothing that cannot be carried out, as it could find out by itself: the driver makes
      no such check at these points. */
  ghost predicate Backed(db: Db, me: Actor, l: Label) {
    match l
    case Journal(_, op) => Enabled(db, op) && OwnLocks(op, me.held)
    case Edit(q) => StillHeld(db, me.held, q)
    case CommitOther(_, _) => Covered(db, me)
    case _ => true
  }
}
