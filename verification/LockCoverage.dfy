/** What a plan covers. */
module LockCoverage {
  import opened Paths
  import opened Metadata
  import opened Trees
  import opened LockPlan

  predicate Public(t: Table, i: Id) {
    i in t && !Reserved(t[i].path)
  }

  /** Rows already walked are below `i`, so they cannot come up again. */
  ghost predicate Below(t: Table, seen: set<Id>, i: Id)
    requires i in t
  {
    forall s :: s in seen ==> s in t && |t[s].path| > |t[i].path|
  }

  lemma UpOne(t: Table, space: Id, i: Id, seen: set<Id>)
    requires TreeOk(t, space) && Public(t, i) && t[i].parent != "" && t[i].parent in t && Below(t, seen, i)
    ensures Public(t, t[i].parent) && Below(t, seen + {i}, t[i].parent)
    ensures t[i].path == t[t[i].parent].path + [t[i].name]
  {
    assert i != space;
    assert Linked(t, i);
  }

  /** The walk up does not depend on the rows already walked. */
  lemma {:induction false} SeenIrrelevant(t: Table, space: Id, i: Id, w: bool, seen: set<Id>, seen': set<Id>)
    requires TreeOk(t, space) && Public(t, i) && Below(t, seen, i) && Below(t, seen', i)
    ensures AddNode(t, space, i, w, seen) == AddNode(t, space, i, w, seen')
    decreases |t[i].path|
  {
    if t[i].parent != "" && t[i].parent in t {
      UpOne(t, space, i, seen);
      UpOne(t, space, i, seen');
      SeenIrrelevant(t, space, t[i].parent, false, seen + {i}, seen' + {i});
    }
  }

  lemma {:induction false} LiveChain(t: Table, space: Id, i: Id, w: bool, seen: set<Id>)
    requires TreeOk(t, space) && LivePublic(t, i) && Below(t, seen, i)
    ensures AddNode(t, space, i, w, seen).Ok?
    decreases |t[i].path|
  {
    if i != space {
      assert LiveDir(t, t[i].parent);
      UpOne(t, space, i, seen);
      LiveChain(t, space, t[i].parent, false, seen + {i});
    }
  }

  /** A plan for a node holds a lock on every node above it. */
  lemma {:induction false} ChainCovers(t: Table, space: Id, i: Id, w: bool, seen: set<Id>, z: Id)
    requires TreeOk(t, space) && Public(t, i) && Below(t, seen, i)
    requires AddNode(t, space, i, w, seen).Ok?
    requires z in t && t[z].path <= t[i].path
    ensures NodeKey(z) in AddNode(t, space, i, w, seen).value.locks
    ensures z == i && w ==> AddNode(t, space, i, w, seen).value.locks[NodeKey(z)]
    decreases |t[i].path|
  {
    if t[z].path == t[i].path {
      assert z == i;
    } else {
      assert i != space;
      UpOne(t, space, i, seen);
      PrefixesCompare(t[z].path, t[t[i].parent].path, t[i].path);
      ChainCovers(t, space, t[i].parent, false, seen + {i}, z);
    }
  }

  // ------------------------------------------------------------------ spelling

  lemma MergeUpper(a: LockMap, b: LockMap)
    ensures Within(a, Merge(a, b)) && Within(b, Merge(a, b))
  {
  }

  lemma MergeLeast(a: LockMap, b: LockMap, c: LockMap)
    requires Within(a, c) && Within(b, c)
    ensures Within(Merge(a, b), c)
  {
  }

  lemma WithinTrans(a: LockMap, b: LockMap, c: LockMap)
    requires Within(a, b) && Within(b, c)
    ensures Within(a, c)
  {
  }

  lemma WithinBoth(a: LockMap, b: LockMap)
    requires Within(a, b) && Within(b, a)
    ensures a == b
  {
  }

  lemma AbsorbStep(a: LockMap, e: LockMap, c: LockMap, rest: LockMap)
    requires Within(a, c) && Within(e, c)
    ensures Merge(a, Merge(Merge(e, c), rest)) == Merge(c, rest)
  {
    var all, ec := Merge(c, rest), Merge(e, c);
    MergeUpper(c, rest);
    MergeUpper(e, c);
    MergeUpper(ec, rest);
    MergeUpper(a, Merge(ec, rest));
    MergeLeast(e, c, c);
    WithinTrans(ec, c, all);
    MergeLeast(ec, rest, all);
    WithinTrans(a, c, all);
    MergeLeast(a, Merge(ec, rest), all);
    WithinTrans(c, ec, Merge(ec, rest));
    MergeLeast(c, rest, Merge(ec, rest));
    WithinTrans(all, Merge(ec, rest), Merge(a, Merge(ec, rest)));
    WithinBoth(all, Merge(a, Merge(ec, rest)));
  }

  lemma SamePathSameRow(t: Table, space: Id, i: Id, j: Id)
    requires TreeOk(t, space) && i in t && j in t && t[i].path == t[j].path
    ensures i == j
  {
  }

  /** Every proper prefix of a row's path is the path of a live directory. */
  lemma {:induction false} AncestorAt(t: Table, space: Id, b: Id, q: Path) returns (a: Id)
    requires TreeOk(t, space) && Housed(t, b) && q <= t[b].path
    ensures Housed(t, a) && t[a].path == q && (if q == t[b].path then a == b else LiveDir(t, a))
    decreases |t[b].path|
  {
    if q == t[b].path {
      a := b;
    } else {
      assert b != space;
      assert LiveDir(t, t[b].parent);
      UpOne(t, space, b, {});
      PrefixesCompare(q, t[t[b].parent].path, t[b].path);
      a := AncestorAt(t, space, t[b].parent, q);
    }
  }

  /** The locks of a reference whose base has been reached and stamped. */
  function From(t: Table, space: Id, i: Id, parts: Path, write: bool): Outcome<LockMap>
    requires i in t && UniquePaths(t)
  {
    var a, b := AddNode(t, space, i, false, {}), Walk(t, space, i, parts, write);
    if a.Err? || b.Err? then Err else Ok(Merge(a.value.locks, b.value.locks))
  }

  /** The lock map of a plan that is known to succeed. */
  function Chain(t: Table, space: Id, i: Id, w: bool): LockMap
    requires i in t
  {
    var a := AddNode(t, space, i, w, {});
    if a.Ok? then a.value.locks else map[]
  }

  /** A child's chain holds its parent's chain and the entry between them. */
  lemma ChainStep(t: Table, space: Id, c: Id, w: bool)
    requires TreeOk(t, space) && LivePublic(t, c) && c != space
    ensures t[c].parent in t
    ensures AddNode(t, space, c, w, {}).Ok? && AddNode(t, space, t[c].parent, false, {}).Ok?
    ensures Within(Chain(t, space, t[c].parent, false), Chain(t, space, c, w))
    ensures Within(map[EntryKey(t[c].parent, t[c].name) := w], Chain(t, space, c, w))
  {
    assert LiveDir(t, t[c].parent);
    var i := t[c].parent;
    UpOne(t, space, c, {});
    SeenIrrelevant(t, space, i, false, {}, {} + {c});
    LiveChain(t, space, i, false, {});
    LiveChain(t, space, c, w, {});
    var self := map[NodeKey(c) := w];
    var entry := map[EntryKey(i, t[c].name) := w];
    var up := Chain(t, space, i, false);
    assert Chain(t, space, c, w) == Merge(Merge(self, entry), up);
    MergeUpper(self, entry);
    MergeUpper(Merge(self, entry), up);
    WithinTrans(entry, Merge(self, entry), Chain(t, space, c, w));
  }

  /** The child of `i` on the way to `b`. */
  lemma NextOnWay(t: Table, space: Id, i: Id, b: Id) returns (c: Id)
    requires TreeOk(t, space) && LivePublic(t, i) && LivePublic(t, b) && t[i].path <= t[b].path && i != b
    ensures |t[i].path| < |t[b].path|
    ensures LivePublic(t, c) && c != space && t[c].path <= t[b].path
    ensures t[c].parent == i && t[c].name == t[b].path[|t[i].path|]
    ensures t[c].path == t[i].path + [t[c].name]
  {
    assert t[i].path != t[b].path;
    var q := t[i].path + [t[b].path[|t[i].path|]];
    NextPrefix(t[i].path, t[b].path);
    c := AncestorAt(t, space, b, q);
    assert c != space && LiveDir(t, t[c].parent);
    UpOne(t, space, c, {});
    LastEqual(t[i].path, t[b].path[|t[i].path|], t[t[c].parent].path, t[c].name);
    assert t[c].parent == i;
  }

  /** The locks of the same reference with its full path spelled from node `i`. */
  lemma {:induction false} SpelledFrom(t: Table, space: Id, i: Id, b: Id, p: Path, write: bool)
    requires TreeOk(t, space) && LivePublic(t, i) && LivePublic(t, b) && t[i].path <= t[b].path
    requires i != b || p != []
    ensures From(t, space, i, t[b].path[|t[i].path|..] + p, write) ==
            if p == [] then Ok(Chain(t, space, b, write || t[b].dir))
            else From(t, space, b, p, write)
    decreases |t[b].path| - |t[i].path|
  {
    hide TreeOk;
    var rest := t[b].path[|t[i].path|..];
    if i == b {
      assert rest + p == p;
    } else {
      var c := NextOnWay(t, space, i, b);
      var parts := rest + p;
      assert parts[0] == t[c].name;
      assert parts[1..] == t[b].path[|t[c].path|..] + p;
      if |parts| == 1 {
        assert t[c].path == t[b].path;
        assert c == b && p == [] && parts[1..] == [] by { SamePathSameRow(t, space, c, b); }
        SpelledLast(t, space, b, parts, write);
      } else {
        if c == b { assert p != []; }
        SpelledFrom(t, space, c, b, p, write);
        SpelledStep(t, space, c, parts, write);
      }
    }
  }

  lemma SpelledLast(t: Table, space: Id, b: Id, parts: Path, write: bool)
    requires TreeOk(t, space) && LivePublic(t, b) && b != space && parts == [t[b].name]
    requires t[b].parent in t && t[b].path == t[t[b].parent].path + [t[b].name]
    ensures From(t, space, t[b].parent, parts, write) == Ok(Chain(t, space, b, write || t[b].dir))
  {
    var i, m := t[b].parent, write || t[b].dir;
    var entry := map[EntryKey(i, t[b].name) := write];
    ChainStep(t, space, b, m);
    assert ByPath(t, t[i].path + [parts[0]]) == Ok(b);
    assert Walk(t, space, b, parts[1..], write) == Ok(NOTHING);
    assert Walk(t, space, i, parts, write).value.locks == Merge(Merge(entry, Chain(t, space, b, m)), map[]);
    WithinTrans(entry, map[EntryKey(i, t[b].name) := m], Chain(t, space, b, m));
    AbsorbStep(Chain(t, space, i, false), entry, Chain(t, space, b, m), map[]);
    WithinBoth(Merge(Chain(t, space, b, m), map[]), Chain(t, space, b, m));
  }

  lemma SpelledStep(t: Table, space: Id, c: Id, parts: Path, write: bool)
    requires TreeOk(t, space) && LivePublic(t, c) && c != space && |parts| > 1 && parts[0] == t[c].name
    requires t[c].parent in t && t[c].path == t[t[c].parent].path + [t[c].name]
    ensures From(t, space, t[c].parent, parts, write) == From(t, space, c, parts[1..], write)
  {
    var i := t[c].parent;
    var entry := map[EntryKey(i, t[c].name) := false];
    ChainStep(t, space, c, false);
    assert ByPath(t, t[i].path + [parts[0]]) == Ok(c);
    var walk := Walk(t, space, c, parts[1..], write);
    if walk.Ok? {
      assert Walk(t, space, i, parts, write).value.locks ==
          Merge(Merge(entry, Chain(t, space, c, false)), walk.value.locks);
      AbsorbStep(Chain(t, space, i, false), entry, Chain(t, space, c, false), walk.value.locks);
    } else {
      assert Walk(t, space, i, parts, write).Err?;
    }
  }

  /** However a reference to a live node, or to a place below one, is spelled, it
      gets the locks of its full path from the space root. */
  lemma SpellingIrrelevant(t: Table, space: Id, r: Ref)
    requires TreeOk(t, space) && LivePublic(t, r.base)
    ensures var full := PlanRef(t, space, Ref(space, t[r.base].path + r.path, r.write));
            var own := PlanRef(t, space, r);
            full.Ok? == own.Ok? && (own.Ok? ==> full.value.locks == own.value.locks)
  {
    var b, p := r.base, r.path;
    assert t[space].path == [];
    assert Ref(space, t[b].path + p, r.write).base == space;
    LiveChain(t, space, b, r.write || t[b].dir, {});
    if p != [] {
      SpelledBelow(t, space, b, p, r.write);
    }
    if b == space {
      assert t[b].path + p == p;
    } else {
      SpelledFrom(t, space, space, b, p, r.write);
      assert t[b].path[|t[space].path|..] + p == t[b].path + p;
      assert t[b].path != [];
      SpelledBelow(t, space, space, t[b].path + p, r.write);
    }
  }

  lemma SpelledBelow(t: Table, space: Id, b: Id, p: Path, write: bool)
    requires TreeOk(t, space) && LivePublic(t, b) && p != []
    ensures var own := PlanRef(t, space, Ref(b, p, write));
            var from := From(t, space, b, p, write);
            own.Ok? == from.Ok? && (own.Ok? ==> own.value.locks == from.value)
  {
    LiveChain(t, space, b, false, {});
  }

  // ------------------------------------------------------------------ coverage

  /** A walk that passes through a node locks it; a writing walk that ends there
      locks it exclusively. */
  lemma {:induction false} WalkReaches(t: Table, space: Id, i: Id, parts: Path, write: bool, x: Id)
    requires TreeOk(t, space) && Public(t, i) && Housed(t, x)
    requires t[i].path <= t[x].path && t[i].path != t[x].path && t[x].path <= t[i].path + parts
    requires Walk(t, space, i, parts, write).Ok?
    ensures var locks := Walk(t, space, i, parts, write).value.locks;
            && NodeKey(x) in locks
            && (t[x].path == t[i].path + parts && write ==> locks[NodeKey(x)])
    decreases |parts|
  {
    WayThrough(t[i].path, parts, t[x].path);
    var c := AncestorAt(t, space, x, t[i].path + [parts[0]]);
    WalkOne(t, space, i, parts, write, c);
    if c == x {
      ChainCovers(t, space, c, LastWrite(t, c, parts, write), {}, x);
    } else {
      assert t[c].path != t[x].path;
      WalkReaches(t, space, c, parts[1..], write, x);
    }
  }

  lemma WayThrough(p: Path, parts: Path, q: Path)
    requires p <= q && p != q && q <= p + parts
    ensures parts != [] && p + [parts[0]] <= q && (p + [parts[0]]) + parts[1..] == p + parts
    ensures q == p + parts && p + [parts[0]] == q ==> |parts| == 1
  {
    NextPrefix(p, q);
    assert q[|p|] == (p + parts)[|p|] == parts[0];
  }

  predicate LastWrite(t: Table, c: Id, parts: Path, write: bool)
    requires c in t
  {
    |parts| == 1 && (write || t[c].dir)
  }

  /** One step of a walk, onto an existing child. */
  lemma WalkOne(t: Table, space: Id, i: Id, parts: Path, write: bool, c: Id)
    requires UniquePaths(t) && i in t && parts != [] && c in t && t[c].path == t[i].path + [parts[0]]
    requires Walk(t, space, i, parts, write).Ok?
    ensures var chain := AddNode(t, space, c, LastWrite(t, c, parts, write), {});
            var rest := Walk(t, space, c, parts[1..], write);
            && chain.Ok? && rest.Ok?
            && Within(chain.value.locks, Walk(t, space, i, parts, write).value.locks)
            && Within(rest.value.locks, Walk(t, space, i, parts, write).value.locks)
            && Within(map[EntryKey(i, parts[0]) := write && |parts| == 1], Walk(t, space, i, parts, write).value.locks)
  {
    assert ByPath(t, t[i].path + [parts[0]]) == Ok(c);
    var entry := map[EntryKey(i, parts[0]) := write && |parts| == 1];
    var chain := AddNode(t, space, c, LastWrite(t, c, parts, write), {}).value.locks;
    var rest := Walk(t, space, c, parts[1..], write).value.locks;
    MergeUpper(entry, chain);
    MergeUpper(Merge(entry, chain), rest);
    WithinTrans(chain, Merge(entry, chain), Merge(Merge(entry, chain), rest));
    WithinTrans(entry, Merge(entry, chain), Merge(Merge(entry, chain), rest));
  }

  /** A planned reference leading to or through a node locks that node. */
  lemma PlanReaches(t: Table, space: Id, r: Ref, x: Id)
    requires TreeOk(t, space) && Public(t, r.base) && Housed(t, x)
    requires t[x].path <= t[r.base].path + r.path
    requires PlanRef(t, space, r).Ok?
    ensures var locks := PlanRef(t, space, r).value.locks;
            && NodeKey(x) in locks
            && (t[x].path == t[r.base].path + r.path && r.write ==> locks[NodeKey(x)])
  {
    var b := r.base;
    if r.path == [] {
      assert t[b].path + r.path == t[b].path;
      ChainCovers(t, space, b, r.write || t[b].dir, {}, x);
    } else {
      PrefixesCompare(t[x].path, t[b].path, t[b].path + r.path);
      if t[x].path <= t[b].path {
        ChainCovers(t, space, b, false, {}, x);
      } else {
        WalkReaches(t, space, b, r.path, r.write, x);
      }
    }
  }

  /** A node's chain locks no nodes but those above it, and none but the node itself
      for writing. */
  lemma {:induction false} ChainNames(t: Table, space: Id, i: Id, w: bool, seen: set<Id>, x: Id)
    requires TreeOk(t, space) && Public(t, i) && Below(t, seen, i) && AddNode(t, space, i, w, seen).Ok?
    requires NodeKey(x) in AddNode(t, space, i, w, seen).value.locks
    ensures x in t && t[x].path <= t[i].path
    ensures AddNode(t, space, i, w, seen).value.locks[NodeKey(x)] ==> x == i && w
    decreases |t[i].path|
  {
    NodeKeysDiffer(x, i, t[i].parent, t[i].name);
    if t[i].parent != "" {
      UpOne(t, space, i, seen);
      if NodeKey(x) in AddNode(t, space, t[i].parent, false, seen + {i}).value.locks {
        ChainNames(t, space, t[i].parent, false, seen + {i}, x);
      }
    }
  }

  /** Where a node key in a walk comes from. */
  lemma WalkKeys(t: Table, space: Id, i: Id, parts: Path, write: bool, x: Id)
    requires UniquePaths(t) && i in t && Walk(t, space, i, parts, write).Ok?
    requires NodeKey(x) in Walk(t, space, i, parts, write).value.locks
    ensures parts != [] && ByPath(t, t[i].path + [parts[0]]).Ok?
    ensures var c := ByPath(t, t[i].path + [parts[0]]).value;
            var chain, rest := AddNode(t, space, c, LastWrite(t, c, parts, write), {}),
                Walk(t, space, c, parts[1..], write);
            && chain.Ok? && rest.Ok? && (NodeKey(x) in chain.value.locks || NodeKey(x) in rest.value.locks)
            && (Walk(t, space, i, parts, write).value.locks[NodeKey(x)] ==>
                  || (NodeKey(x) in chain.value.locks && chain.value.locks[NodeKey(x)])
                  || (NodeKey(x) in rest.value.locks && rest.value.locks[NodeKey(x)]))
  {
    hide AddNode, UniquePaths;
    if parts != [] { NodeKeysDiffer(x, x, i, parts[0]); }
  }

  lemma {:induction false} WalkNames(t: Table, space: Id, i: Id, parts: Path, write: bool, x: Id)
    requires TreeOk(t, space) && Public(t, i) && Walk(t, space, i, parts, write).Ok?
    requires NodeKey(x) in Walk(t, space, i, parts, write).value.locks
    ensures x in t && t[x].path <= t[i].path + parts
    ensures Walk(t, space, i, parts, write).value.locks[NodeKey(x)] ==> t[x].path == t[i].path + parts
    decreases |parts|
  {
    hide AllParented, AllLinked, AllLive, AddNode, Walk;
    WalkKeys(t, space, i, parts, write, x);
    if parts != [] {
      var child := ByPath(t, t[i].path + [parts[0]]);
      if child.Ok? {
        var c := child.value;
        WalkOne(t, space, i, parts, write, c);
        assert t[c].path + parts[1..] == t[i].path + parts;
        if NodeKey(x) in AddNode(t, space, c, LastWrite(t, c, parts, write), {}).value.locks {
          ChainNames(t, space, c, LastWrite(t, c, parts, write), {}, x);
        }
        if NodeKey(x) in Walk(t, space, c, parts[1..], write).value.locks {
          WalkNames(t, space, c, parts[1..], write, x);
        }
      }
    }
  }

  /** A plan locks no nodes but those on its way, and none but the one it leads to for
      writing. */
  lemma PlanNames(t: Table, space: Id, q: Ref, x: Id)
    requires TreeOk(t, space) && Public(t, q.base) && PlanRef(t, space, q).Ok?
    requires NodeKey(x) in PlanRef(t, space, q).value.locks
    ensures x in t && t[x].path <= t[q.base].path + q.path
    ensures PlanRef(t, space, q).value.locks[NodeKey(x)] ==> t[x].path == t[q.base].path + q.path
  {
    hide AllParented, AllLinked, AllLive, TrashShaped, AddNode, Walk;
    var b := q.base;
    var w := if q.path == [] then q.write || t[b].dir else false;
    if NodeKey(x) in AddNode(t, space, b, w, {}).value.locks {
      ChainNames(t, space, b, w, {}, x);
    }
    if q.path != [] && NodeKey(x) in Walk(t, space, b, q.path, q.write).value.locks {
      WalkNames(t, space, b, q.path, q.write, x);
    }
  }

  /** Lock coverage. A write plan for a public node, and a plan for any reference
      that leads to the node or below it, existing or not, share a key that one of
      them wants to write. */
  lemma Coverage(t: Table, space: Id, x: Id, writer: Ref, other: Ref)
    requires TreeOk(t, space) && Housed(t, x)
    requires Public(t, writer.base) && Public(t, other.base)
    requires writer.write && t[writer.base].path + writer.path == t[x].path
    requires t[x].path <= t[other.base].path + other.path
    requires PlanRef(t, space, writer).Ok? && PlanRef(t, space, other).Ok?
    ensures Conflict(PlanRef(t, space, writer).value.locks, PlanRef(t, space, other).value.locks)
  {
    PlanReaches(t, space, writer, x);
    PlanReaches(t, space, other, x);
  }

  /** In the trash there is no such coverage: plans for two trashed nodes conflict exactly
      when they are for the same node, so a write plan for a trashed directory leaves
      everything below it free. */
  lemma TrashNotCovered(t: Table, space: Id, x: Id, y: Id, w: bool)
    requires TreeOk(t, space) && x in t && y in t && Reserved(t[x].path) && Reserved(t[y].path)
    ensures PlanRef(t, space, Ref(x, [], true)).Ok? && PlanRef(t, space, Ref(y, [], w)).Ok?
    ensures var a, b := PlanRef(t, space, Ref(x, [], true)).value.locks, PlanRef(t, space, Ref(y, [], w)).value.locks;
            Conflict(a, b) <==> x == y
  {
    hide AllParented, AllLinked, AllLive, TrashShaped;
    assert x != space && y != space && x != "" && y != "";
    NodeKeysDiffer(x, y, "", "");
    NodeKeysDiffer(x, space, "", "");
    NodeKeysDiffer(y, space, "", "");
    var a, b := PlanRef(t, space, Ref(x, [], true)).value.locks, PlanRef(t, space, Ref(y, [], w)).value.locks;
    assert a == Merge(map[NodeKey(x) := true], map[NodeKey(space) := false]);
    assert b == Merge(map[NodeKey(y) := w || t[y].dir], map[NodeKey(space) := false]);
    if x == y {
      assert NodeKey(x) in a && NodeKey(x) in b && a[NodeKey(x)];
    }
  }
}
