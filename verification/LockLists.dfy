/** Lock lists as the planner builds them: appended to in loops, then merged by key
    and sorted. */
module LockLists {
  import opened Metadata
  import opened LockPlan
  import opened LockOrder

  datatype Lock = Lock(key: string, write: bool)

  function KeysOf(list: seq<Lock>): set<string> {
    set l | l in list :: l.key
  }

  /** The lock map a list stands for: one mode per key, the strongest asked for. */
  function MapOf(list: seq<Lock>): LockMap {
    map k | k in KeysOf(list) :: Lock(k, true) in list
  }

  predicate Ascending(list: seq<Lock>) {
    forall i, j :: 0 <= i < j < |list| ==> Less(list[i].key, list[j].key)
  }

  lemma KeyIn(list: seq<Lock>, l: Lock)
    requires l in list
    ensures l.key in KeysOf(list)
  {
  }

  lemma KeyAt(list: seq<Lock>, k: string) returns (i: nat)
    requires k in KeysOf(list)
    ensures i < |list| && list[i].key == k
  {
    var l :| l in list && l.key == k;
    i :| 0 <= i < |list| && list[i] == l;
  }

  lemma MapOfAppend(a: seq<Lock>, b: seq<Lock>)
    ensures MapOf(a + b) == Merge(MapOf(a), MapOf(b))
  {
    assert KeysOf(a + b) == KeysOf(a) + KeysOf(b);
    forall k ensures Lock(k, true) in a + b <==> Lock(k, true) in a || Lock(k, true) in b {}
    forall k | Lock(k, true) in a ensures k in KeysOf(a) { KeyIn(a, Lock(k, true)); }
    forall k | Lock(k, true) in b ensures k in KeysOf(b) { KeyIn(b, Lock(k, true)); }
  }

  lemma MapOfOne(l: Lock)
    ensures MapOf([l]) == map[l.key := l.write]
  {
    assert KeysOf([l]) == {l.key};
  }

  lemma MapOfMore(list: seq<Lock>, l: Lock)
    ensures MapOf(list + [l]) == MapOf(list)[l.key := (l.key in MapOf(list) && MapOf(list)[l.key]) || l.write]
  {
    MapOfAppend(list, [l]);
    MapOfOne(l);
  }

  // ------------------------------------------------------------------ sorted lists

  lemma AscendingMode(list: seq<Lock>, i: nat)
    requires Ascending(list) && i < |list|
    ensures list[i].key in MapOf(list) && MapOf(list)[list[i].key] == list[i].write
  {
    KeyIn(list, list[i]);
    if Lock(list[i].key, true) in list {
      var j :| 0 <= j < |list| && list[j] == Lock(list[i].key, true);
      LessIrreflexive(list[i].key);
    }
  }

  lemma LastIsNew(list: seq<Lock>)
    requires Ascending(list) && list != []
    ensures list[|list| - 1].key !in MapOf(list[..|list| - 1])
  {
    var n := |list| - 1;
    if list[n].key in KeysOf(list[..n]) {
      var i := KeyAt(list[..n], list[n].key);
      LessIrreflexive(list[n].key);
    }
  }

  lemma ButLast(list: seq<Lock>)
    requires Ascending(list) && list != []
    ensures MapOf(list[..|list| - 1]) == MapOf(list) - {list[|list| - 1].key}
  {
    hide MapOf, Ascending;
    var n, l := |list| - 1, list[|list| - 1];
    assert list == list[..n] + [l];
    MapOfMore(list[..n], l);
    LastIsNew(list);
  }

  lemma LastKey(a: seq<Lock>, b: seq<Lock>)
    requires Ascending(b) && a != [] && MapOf(a) == MapOf(b)
    ensures b != [] && (a[|a| - 1].key == b[|b| - 1].key || Less(a[|a| - 1].key, b[|b| - 1].key))
  {
    var k := a[|a| - 1].key;
    KeyIn(a, a[|a| - 1]);
    assert k in MapOf(a) && k in MapOf(b);
    var i := KeyAt(b, k);
  }

  /** Sorted lists with the same map are the same list, so neither the order of the
      input nor the order in which the map is read shows in the result. */
  lemma {:induction false} NormalUnique(a: seq<Lock>, b: seq<Lock>)
    requires Ascending(a) && Ascending(b) && MapOf(a) == MapOf(b)
    ensures a == b
    decreases |a|
  {
    hide MapOf;
    if b != [] { LastKey(b, a); }
    if a != [] {
      LastKey(a, b);
      var m, n := |a| - 1, |b| - 1;
      assert a[m].key == b[n].key by {
        if Less(a[m].key, b[n].key) && Less(b[n].key, a[m].key) {
          LessTransitive(a[m].key, b[n].key, a[m].key);
          LessIrreflexive(a[m].key);
        }
      }
      AscendingMode(a, m);
      AscendingMode(b, n);
      ButLast(a);
      ButLast(b);
      NormalUnique(a[..m], b[..n]);
      assert a == a[..m] + [a[m]] && b == b[..n] + [b[n]];
    }
  }

  // ------------------------------------------------------------------ normalizing

  /** Sorts one more lock into a sorted list. */
  method Insert(list: seq<Lock>, l: Lock) returns (out: seq<Lock>)
    requires Ascending(list) && l.key !in MapOf(list)
    ensures Ascending(out) && MapOf(out) == MapOf(list)[l.key := l.write]
  {
    hide MapOf, Less;
    var n := |list|;
    while n > 0 && Less(l.key, list[n - 1].key)
      invariant 0 <= n <= |list|
      invariant forall i :: n <= i < |list| ==> Less(l.key, list[i].key)
    {
      n := n - 1;
    }
    Below(list, l, n);
    out := list[..n] + [l] + list[n..];
    InsertedMap(list, l, n);
  }

  lemma InsertedMap(list: seq<Lock>, l: Lock, n: nat)
    requires n <= |list| && l.key !in MapOf(list)
    ensures MapOf(list[..n] + [l] + list[n..]) == MapOf(list)[l.key := l.write]
  {
    hide MapOf;
    assert list == list[..n] + list[n..];
    MapOfAppend(list[..n], list[n..]);
    MapOfMore(list[..n], l);
    MapOfAppend(list[..n] + [l], list[n..]);
  }

  lemma Below(list: seq<Lock>, l: Lock, n: nat)
    requires Ascending(list) && l.key !in MapOf(list) && n <= |list|
    requires n > 0 ==> !Less(l.key, list[n - 1].key)
    ensures forall i :: 0 <= i < n ==> Less(list[i].key, l.key)
  {
    if n > 0 {
      KeyIn(list, list[n - 1]);
      LessTotal(l.key, list[n - 1].key);
      forall i | 0 <= i < n ensures Less(list[i].key, l.key) {
        if i < n - 1 { LessTransitive(list[i].key, list[n - 1].key, l.key); }
      }
    }
  }

  /** One entry per key, in key order, with the strongest mode asked for. */
  method NormalizeLocks(list: seq<Lock>) returns (out: seq<Lock>)
    ensures Ascending(out) && MapOf(out) == MapOf(list)
  {
    hide MapOf, Ascending;
    var m: LockMap := map[];
    Nothing();
    for i := 0 to |list|
      invariant m == MapOf(list[..i])
    {
      var l := list[i];
      assert list[..i + 1] == list[..i] + [l];
      MapOfMore(list[..i], l);
      m := m[l.key := (l.key in m && m[l.key]) || l.write];
    }
    assert list[..|list|] == list;
    out := [];
    var todo := m.Keys;
    while todo != {}
      invariant todo <= m.Keys && Ascending(out) && MapOf(out) == m - todo
    {
      var k :| k in todo;
      out := Insert(out, Lock(k, m[k]));
      todo := todo - {k};
    }
  }

  lemma Nothing()
    ensures MapOf([]) == map[] && Ascending([])
  {
  }

  /** Whether two lock lists want some key in conflicting modes. */
  method Overlap(a: seq<Lock>, b: seq<Lock>) returns (r: bool)
    ensures r == Conflict(MapOf(a), MapOf(b))
  {
    for i := 0 to |a|
      invariant forall x, y :: 0 <= x < i && 0 <= y < |b| && a[x].key == b[y].key ==> !a[x].write && !b[y].write
    {
      for j := 0 to |b|
        invariant forall y :: 0 <= y < j && a[i].key == b[y].key ==> !a[i].write && !b[y].write
      {
        if a[i].key == b[j].key && (a[i].write || b[j].write) {
          Clash(a, b, i, j);
          return true;
        }
      }
    }
    NoClash(a, b);
    return false;
  }

  lemma Clash(a: seq<Lock>, b: seq<Lock>, i: nat, j: nat)
    requires i < |a| && j < |b| && a[i].key == b[j].key && (a[i].write || b[j].write)
    ensures Conflict(MapOf(a), MapOf(b))
  {
    KeyIn(a, a[i]);
    KeyIn(b, b[j]);
    assert a[i].write ==> a[i] == Lock(a[i].key, true);
    assert b[j].write ==> b[j] == Lock(a[i].key, true);
    assert a[i].key in MapOf(a) && a[i].key in MapOf(b);
  }

  lemma NoClash(a: seq<Lock>, b: seq<Lock>)
    requires forall x, y :: 0 <= x < |a| && 0 <= y < |b| && a[x].key == b[y].key ==> !a[x].write && !b[y].write
    ensures !Conflict(MapOf(a), MapOf(b))
  {
    forall k | k in MapOf(a) && k in MapOf(b) ensures !MapOf(a)[k] && !MapOf(b)[k] {
      var i := KeyAt(a, k);
      var j := KeyAt(b, k);
    }
  }
}
