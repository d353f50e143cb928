/** The planning loops: locks and stamps are appended while walking from each
    reference's base to the root and along its path. */
module Planner {
  import opened Paths
  import opened Metadata
  import opened LockPlan
  import opened LockLists

  lemma MergeAssociative(a: LockMap, b: LockMap, c: LockMap)
    ensures Merge(a, Merge(b, c)) == Merge(Merge(a, b), c)
  {
  }

  lemma JoinAssociative(a: Plan, b: Plan, c: Plan)
    ensures Join(a, Join(b, c)) == Join(Join(a, b), c)
  {
    MergeAssociative(a.locks, b.locks, c.locks);
  }

  lemma JoinNothing(a: Plan)
    ensures Join(a, NOTHING) == a && Join(NOTHING, a) == a
  {
  }

  /** Doing `b` and then `rest` after `a` is doing `rest` after `a` and `b`. */
  lemma JoinNext(a: Plan, b: Plan, rest: Outcome<Plan>)
    ensures JoinOk(a, JoinOk(b, rest)) == JoinOk(Join(a, b), rest)
  {
    if rest.Ok? {
      JoinAssociative(a, b, rest.value);
    }
  }

  function Entry(key: string, w: bool): Plan {
    Plan(map[key := w], multiset{})
  }

  lemma Stamped(was: Plan, p: Plan, v: Visit)
    ensures Join(Join(was, p), Plan(map[], multiset{v})) == Join(was, Plan(p.locks, p.stamp + multiset{v}))
  {
    MergeAssociative(was.locks, p.locks, map[]);
    assert Merge(p.locks, map[]) == p.locks;
  }

  /** One step of a walk, as an equation. */
  lemma WalkNext(t: Table, space: Id, n: Id, parts: Path, write: bool)
    requires n in t && UniquePaths(t) && parts != []
    ensures var w, last := write && |parts| == 1, |parts| == 1;
            var entry, child := Entry(EntryKey(n, parts[0]), w), ByPath(t, t[n].path + [parts[0]]);
            LockPlan.Walk(t, space, n, parts, write) ==
              if child.Err? then Ok(entry)
              else
                var chain := LockPlan.AddNode(t, space, child.value, w || (t[child.value].dir && last), {});
                if chain.Err? then Err
                else JoinOk(Join(entry, chain.value), LockPlan.Walk(t, space, child.value, parts[1..], write))
  {
  }

  lemma WalkEnd(t: Table, space: Id, n: Id, parts: Path, write: bool)
    requires n in t && UniquePaths(t) && parts == []
    ensures LockPlan.Walk(t, space, n, parts, write) == Ok(NOTHING)
  {
  }

  lemma JoinStart(p: Outcome<Plan>)
    ensures JoinOk(NOTHING, p) == p
  {
    if p.Ok? { JoinNothing(p.value); }
  }

  class Planning {
    const t: Table
    const space: Id
    var locks: seq<Lock>
    var stamp: seq<Visit>

    constructor (t: Table, space: Id)
      ensures this.t == t && this.space == space && Now() == NOTHING
    {
      this.t, this.space, locks, stamp := t, space, [], [];
      new;
      Nothing();
    }

    /** What has been collected so far. */
    function Now(): Plan
      reads this
    {
      Plan(MapOf(locks), multiset(stamp))
    }

    method AddLock(key: string, w: bool)
      modifies this
      ensures Now() == Join(old(Now()), Entry(key, w))
    {
      MapOfAppend(locks, [Lock(key, w)]);
      MapOfOne(Lock(key, w));
      locks := locks + [Lock(key, w)];
    }

    method AddStamp(v: Visit)
      modifies this
      ensures Now() == Join(old(Now()), Plan(map[], multiset{v}))
    {
      assert Merge(MapOf(locks), map[]) == MapOf(locks);
      stamp := stamp + [v];
    }

    /** A node and its ancestors. */
    method AddNode(i: Id, write: bool) returns (ok: bool)
      requires i in t
      modifies this
      ensures ok == LockPlan.AddNode(t, space, i, write, {}).Ok?
      ensures ok ==> JoinOk(old(Now()), LockPlan.AddNode(t, space, i, write, {})) == Ok(Now())
    {
      hide MapOf, Merge;
      var n, w, seen := i, write, {};
      while true
        invariant n in t && LockPlan.AddNode(t, space, i, write, {}).Ok? == LockPlan.AddNode(t, space, n, w, seen).Ok?
        invariant JoinOk(old(Now()), LockPlan.AddNode(t, space, i, write, {})) ==
                  JoinOk(Now(), LockPlan.AddNode(t, space, n, w, seen))
        decreases t.Keys - seen
      {
        if n in seen { return false; }
        ghost var was, before := Now(), seen;
        var row := t[n];
        seen := seen + {n};
        AddLock(NodeKey(n), w);
        AddStamp(Visit(n, row.parent, row.path));
        ghost var self := Plan(map[NodeKey(n) := w], multiset{Visit(n, row.parent, row.path)});
        assert Now() == Join(was, self) by { Stamped(was, Entry(NodeKey(n), w), Visit(n, row.parent, row.path)); }
        if Reserved(row.path) {
          AddLock(NodeKey(space), false);
          JoinAssociative(was, self, Entry(NodeKey(space), false));
          return true;
        }
        if row.parent == "" { return true; }
        AddLock(EntryKey(row.parent, row.name), w);
        if row.parent !in t { return false; }
        ghost var both := Join(self, Entry(EntryKey(row.parent, row.name), w));
        JoinAssociative(was, self, Entry(EntryKey(row.parent, row.name), w));
        JoinNext(was, both, LockPlan.AddNode(t, space, row.parent, false, seen));
        n, w := row.parent, false;
      }
    }

    /** The entries along `parts` below node `i`. */
    method Walk(i: Id, parts: Path, write: bool) returns (ok: bool)
      requires i in t && UniquePaths(t)
      modifies this
      ensures ok == LockPlan.Walk(t, space, i, parts, write).Ok?
      ensures ok ==> JoinOk(old(Now()), LockPlan.Walk(t, space, i, parts, write)) == Ok(Now())
    {
      hide MapOf, Merge, LockPlan.AddNode, LockPlan.Walk;
      var n := i;
      var k := 0;
      while k < |parts|
        invariant 0 <= k <= |parts| && n in t
        invariant LockPlan.Walk(t, space, i, parts, write).Ok? == LockPlan.Walk(t, space, n, parts[k..], write).Ok?
        invariant JoinOk(old(Now()), LockPlan.Walk(t, space, i, parts, write)) ==
                  JoinOk(Now(), LockPlan.Walk(t, space, n, parts[k..], write))
      {
        ghost var was := Now();
        WalkNext(t, space, n, parts[k..], write);
        var w := write && k == |parts| - 1;
        ghost var entry := Entry(EntryKey(n, parts[k]), w);
        AddLock(EntryKey(n, parts[k]), w);
        var child := ByPath(t, t[n].path + [parts[k]]);
        if child.Err? { return true; }
        ghost var chain := LockPlan.AddNode(t, space, child.value, w || (t[child.value].dir && k == |parts| - 1), {});
        var added := AddNode(child.value, w || (t[child.value].dir && k == |parts| - 1));
        if !added { return false; }
        assert parts[k..][1..] == parts[k + 1..];
        JoinAssociative(was, entry, chain.value);
        JoinNext(was, Join(entry, chain.value), LockPlan.Walk(t, space, child.value, parts[k + 1..], write));
        n, k := child.value, k + 1;
      }
      WalkEnd(t, space, n, parts[k..], write);
      JoinNothing(Now());
      return true;
    }

    method PlanOne(r: Ref) returns (ok: bool)
      requires UniquePaths(t)
      modifies this
      ensures ok == PlanRef(t, space, r).Ok?
      ensures ok ==> JoinOk(old(Now()), PlanRef(t, space, r)) == Ok(Now())
    {
      hide MapOf, LockPlan.AddNode, LockPlan.Walk;
      ghost var was := Now();
      var base := if r.base == "" then space else r.base;
      if base !in t {
        AddLock(NodeKey(base), r.write);
        AddLock(NodeKey(space), false);
        AddStamp(Absent(base));
        JoinAssociative(was, Entry(NodeKey(base), r.write), Entry(NodeKey(space), false));
        Stamped(was, Join(Entry(NodeKey(base), r.write), Entry(NodeKey(space), false)), Absent(base));
        assert multiset{} + multiset{} + multiset{Absent(base)} == multiset{Absent(base)};
        return true;
      }
      if r.path == [] {
        ok := AddNode(base, r.write || t[base].dir);
        return;
      }
      ok := AddNode(base, false);
      if ok {
        ghost var chain := LockPlan.AddNode(t, space, base, false, {}).value;
        ok := Walk(base, r.path, r.write);
        JoinNext(was, chain, LockPlan.Walk(t, space, base, r.path, r.write));
      }
    }

    /** The plan of a request's references: normalized locks, and the rows seen. */
    method PlanAll(refs: seq<Ref>) returns (ok: bool, out: seq<Lock>)
      requires UniquePaths(t) && Now() == NOTHING
      modifies this
      ensures ok == PlanRefs(t, space, refs).Ok?
      ensures ok ==> Ascending(out) && PlanRefs(t, space, refs).value == Plan(MapOf(out), multiset(stamp))
    {
      hide MapOf, Merge, PlanRef;
      out := [];
      var k := 0;
      JoinStart(PlanRefs(t, space, refs));
      while k < |refs|
        invariant 0 <= k <= |refs|
        invariant PlanRefs(t, space, refs) == JoinOk(Now(), PlanRefs(t, space, refs[k..]))
      {
        ghost var was := Now();
        var planned := PlanOne(refs[k]);
        if !planned { return false, []; }
        assert refs[k..][1..] == refs[k + 1..];
        JoinNext(was, PlanRef(t, space, refs[k]).value, PlanRefs(t, space, refs[k + 1..]));
        k := k + 1;
      }
      JoinNothing(Now());
      out := NormalizeLocks(locks);
      ok := true;
    }
  }
}
