/** What the protocol keeps as long as every change is backed by locks. */
module ProtocolInv {
  import opened Metadata
  import opened Trees
  import opened LockPlan
  import opened LockCoverage
  import opened Protocol
  import opened ProtocolBase

  /** The journal: every entry can commit, has recorded the locks a plan gives it
      today, and conflicts with no other entry. */
  ghost predicate OpsOk(db: Db) {
    && DbOk(db)
    && (forall o :: o in db.ops ==>
          && db.ops[o].id == o && o != "" && Enabled(db, db.ops[o])
          && OpLocks(db.nodes, db.space, db.ops[o]) == Ok(db.ops[o].locks))
    && (forall o, p :: o in db.ops && p in db.ops && o != p ==> !Conflict(db.ops[o].locks, db.ops[p].locks))
  }

  /** The plans of a request's public references are still what planning gives. */
  ghost predicate PlansCurrent(db: Db, held: LockMap, pub: map<Ref, Plan>) {
    UniquePaths(db.nodes) &&
    forall q :: q in pub ==>
      && Public(db.nodes, q.base)
      && PlanRef(db.nodes, db.space, q) == Ok(pub[q])
      && Within(pub[q].locks, held)
  }

  /** Nodes that a request names for writing by their ID are write-locked. */
  ghost predicate NamedHeld(refs: seq<Ref>, held: LockMap) {
    forall q :: q in refs && q.path == [] && q.write && q.base != "" ==>
      NodeKey(q.base) in held && held[NodeKey(q.base)]
  }

  ghost predicate HoldOk(db: Db, me: Actor) {
    match me.pc
    case Verified(plan, refs, pub) => PlansCurrent(db, me.held, pub) && NamedHeld(refs, me.held)
    case Ready(plan, refs, pub) =>
      && PlansCurrent(db, me.held, pub) && NamedHeld(refs, me.held)
      && forall o :: o in db.ops ==> !Conflict(me.held, db.ops[o].locks)
    case Publish(op) =>
      && op.id in db.ops && db.ops[op.id] == op && OwnLocks(op, me.held)
      && forall o :: o in db.ops && o != op.id ==> !Conflict(me.held, db.ops[o].locks)
    case _ => true
  }

  ghost predicate Inv(g: Global) {
    Base(g) && OpsOk(g.db) && forall a :: a in g.actors ==> HoldOk(g.db, g.actors[a])
  }

  lemma InvActor(g: Global, a: ActorId)
    requires Inv(g) && a in g.actors
    ensures Base(g) && OpsOk(g.db) && HoldOk(g.db, g.actors[a])
  {
    hide Base, OpsOk, HoldOk;
  }

  /** A step that leaves the metadata and the journal alone. */
  lemma SoleInv(g: Global, a: ActorId, me: Actor, h: Global)
    requires Inv(g) && Base(h) && a in g.actors && h.actors == g.actors[a := me] && h.db == g.db && HoldOk(g.db, me)
    ensures Inv(h)
  {
    hide Base, OpsOk, HoldOk;
  }

  /** A process that relies on no plan. */
  predicate Elsewhere(me: Actor) {
    !me.pc.Verified? && !me.pc.Ready? && !me.pc.Publish?
  }

  lemma ElsewhereOk(db: Db, me: Actor)
    requires Elsewhere(me)
    ensures HoldOk(db, me)
  {
  }

  lemma SharedInv(h: Global)
    requires Base(h) && OpsOk(h.db) && forall b :: b in h.actors ==> HoldOk(h.db, h.actors[b])
    ensures Inv(h)
  {
  }
}
