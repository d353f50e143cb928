/** Lock planning: which resource locks a request takes for its references, how
    lock lists are merged, and when two of them conflict. */
module LockPlan {
  import opened Paths
  import opened Metadata

  function NodeKey(i: Id): string {
    "node/" + i
  }

  function EntryKey(parent: Id, name: Name): string {
    "entry/" + parent + "/" + name
  }

  lemma NodeKeysDiffer(x: Id, y: Id, parent: Id, name: Name)
    ensures NodeKey(x) == NodeKey(y) ==> x == y
    ensures NodeKey(x) != EntryKey(parent, name)
  {
    assert NodeKey(x)[5..] == x && NodeKey(y)[5..] == y;
    assert NodeKey(x)[0] == 'n' && EntryKey(parent, name)[0] == 'e';
  }

  // ------------------------------------------------------------------ lock maps

  function Merge(a: LockMap, b: LockMap): LockMap {
    map k | k in a.Keys + b.Keys :: (k in a && a[k]) || (k in b && b[k])
  }

  /** Two lock sets conflict when they share a key that one of them wants to write. */
  predicate Conflict(a: LockMap, b: LockMap) {
    exists k :: k in a && k in b && (a[k] || b[k])
  }

  /** Every lock of `a` is in `b`, at least as strong. */
  predicate Within(a: LockMap, b: LockMap) {
    forall k :: k in a ==> k in b && (a[k] ==> b[k])
  }

  // ------------------------------------------------------------------ plans

  /** A reference: a base node and a path below it, as the request names it. */
  datatype Ref = Ref(base: Id, path: Path, write: bool)

  /** The part of a row a plan is stamped with. */
  datatype Visit = Visit(id: Id, parent: Id, path: Path) | Absent(id: Id)

  datatype Plan = Plan(locks: LockMap, stamp: multiset<Visit>)

  const NOTHING: Plan := Plan(map[], multiset{})

  function Join(a: Plan, b: Plan): Plan {
    Plan(Merge(a.locks, b.locks), a.stamp + b.stamp)
  }

  function JoinOk(a: Plan, b: Outcome<Plan>): Outcome<Plan> {
    if b.Err? then Err else Ok(Join(a, b.value))
  }

  /** A node and its ancestors: the node at `w`, the ancestors shared. The walk stops
      at the root or in the trash, and fails on a lost parent or a parent cycle. */
  function AddNode(t: Table, space: Id, i: Id, w: bool, seen: set<Id>): Outcome<Plan>
    requires i in t
    decreases t.Keys - seen
  {
    if i in seen then Err
    else
      var n := t[i];
      var self := Plan(map[NodeKey(i) := w], multiset{Visit(i, n.parent, n.path)});
      if Reserved(n.path) then Ok(Join(self, Plan(map[NodeKey(space) := false], multiset{})))
      else if n.parent == "" then Ok(self)
      else if n.parent !in t then Err
      else JoinOk(Join(self, Plan(map[EntryKey(n.parent, n.name) := w], multiset{})),
                  AddNode(t, space, n.parent, false, seen + {i}))
  }

  /** The entries named by `parts` below node `i`, up to the first that does not exist. */
  function Walk(t: Table, space: Id, i: Id, parts: Path, write: bool): Outcome<Plan>
    requires i in t && UniquePaths(t)
    decreases |parts|
  {
    if parts == [] then Ok(NOTHING)
    else
      var last := |parts| == 1;
      var w := write && last;
      var entry := Plan(map[EntryKey(i, parts[0]) := w], multiset{});
      var child := ByPath(t, t[i].path + [parts[0]]);
      if child.Err? then Ok(entry)
      else
        var c := AddNode(t, space, child.value, w || (t[child.value].dir && last), {});
        if c.Err? then Err
        else JoinOk(Join(entry, c.value), Walk(t, space, child.value, parts[1..], write))
  }

  function PlanRef(t: Table, space: Id, r: Ref): Outcome<Plan>
    requires UniquePaths(t)
  {
    var base := if r.base == "" then space else r.base;
    if base !in t then
      Ok(Plan(Merge(map[NodeKey(base) := r.write], map[NodeKey(space) := false]), multiset{Absent(base)}))
    else if r.path == [] then AddNode(t, space, base, r.write || t[base].dir, {})
    else
      var b := AddNode(t, space, base, false, {});
      if b.Err? then Err else JoinOk(b.value, Walk(t, space, base, r.path, r.write))
  }

  function PlanRefs(t: Table, space: Id, refs: seq<Ref>): Outcome<Plan>
    requires UniquePaths(t)
  {
    if refs == [] then Ok(NOTHING)
    else
      var p := PlanRef(t, space, refs[0]);
      if p.Err? then Err else JoinOk(p.value, PlanRefs(t, space, refs[1..]))
  }

  /** The locks a journal entry records: its public paths, and its own node. */
  function OpRefs(space: Id, op: Operation): seq<Ref> {
    (if Reserved(op.source) then [] else [Ref(space, op.source, true)]) +
    (if Reserved(op.target) then [] else [Ref(space, op.target, true)])
  }

  function OpLocks(t: Table, space: Id, op: Operation): Outcome<LockMap>
    requires UniquePaths(t)
  {
    var p := PlanRefs(t, space, OpRefs(space, op));
    if p.Err? then Err else Ok(Merge(p.value.locks, map[NodeKey(op.node) := true]))
  }
}
