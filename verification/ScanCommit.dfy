/** The transaction that commits a scan, statement by statement. */
module ScanCommit {
  import opened Collections
  import opened Paths
  import opened Metadata
  import opened Trees
  import opened Scans

  // ------------------------------------------------------------------ revisions of directories

  /** UPDATE nodes SET etag WHERE dir AND path = p */
  function Touch(t: Table, p: Path, tag: Tag): Table {
    map i | i in t :: if t[i].dir && t[i].path == p then t[i].(etag := tag) else t[i]
  }

  function Stamped(t: Table, ps: set<Path>, tag: Tag): Table {
    map i | i in t :: if t[i].dir && t[i].path in ps then t[i].(etag := tag) else t[i]
  }

  lemma TouchMore(t: Table, ps: set<Path>, p: Path, tag: Tag)
    ensures Touch(Stamped(t, ps, tag), p, tag) == Stamped(t, ps + {p}, tag)
  {
  }

  function PublicIds(t: Table): set<Id> {
    set i | i in t && !Reserved(t[i].path)
  }

  /** `q` is at or above one of the public paths. */
  ghost predicate Above(q: Path, paths: seq<Path>) {
    exists j :: 0 <= j < |paths| && !Reserved(paths[j]) && q <= paths[j]
  }

  lemma AboveMore(q: Path, paths: seq<Path>, k: nat)
    requires k < |paths|
    ensures Above(q, paths[..k + 1]) <==> Above(q, paths[..k]) || (!Reserved(paths[k]) && q <= paths[k])
  {
    if Above(q, paths[..k + 1]) {
      var j :| 0 <= j < k + 1 && !Reserved(paths[..k + 1][j]) && q <= paths[..k + 1][j];
      if j < k { assert paths[..k][j] == paths[j]; }
    }
    if Above(q, paths[..k]) {
      var j :| 0 <= j < k && !Reserved(paths[..k][j]) && q <= paths[..k][j];
      assert paths[..k + 1][j] == paths[j];
    }
    if !Reserved(paths[k]) && q <= paths[k] {
      assert paths[..k + 1][k] == paths[k];
    }
  }

  lemma StampedIsRefresh(t: Table, paths: seq<Path>, seen: set<Path>, tag: Tag)
    requires forall q :: q in seen <==> Above(q, paths)
    ensures Stamped(t, seen, tag) == Refresh(t, Elements(paths), tag)
  {
    var changed := Elements(paths);
    forall q ensures q in seen <==> exists p :: p in changed && !Reserved(p) && q <= p {
      if q in seen {
        var j :| 0 <= j < |paths| && !Reserved(paths[j]) && q <= paths[j];
        assert paths[j] in changed;
      }
      if exists p :: p in changed && !Reserved(p) && q <= p {
        var p :| p in changed && !Reserved(p) && q <= p;
        var j :| 0 <= j < |paths| && paths[j] == p;
        assert Above(q, paths);
      }
    }
  }

  // ------------------------------------------------------------------ the rows, one at a time

  /** What a scan works on. */
  datatype Scan = Scan(t: Table, space: Id, w: Walked, ids: map<Path, Id>, tag: Tag, now: int, grace: int)

  ghost predicate Sound(x: Scan) {
    ScanInput(x.t, x.space, x.w, x.ids, x.now)
  }

  predicate Handled(x: Scan, done: set<Path>, gone: set<Id>, i: Id)
    requires i in x.t
  {
    x.t[i].path in done || i in gone
  }

  lemma ParentKnown(x: Scan, p: Path)
    requires Sound(x) && p in x.w && p != []
    ensures LiveAt(x.t, Up(p)) || Up(p) in x.ids
  {
    hide TreeOk, SameKinds;
  }

  /** The row of a known node after the scan. */
  ghost function RowAfter(x: Scan, i: Id): Row
    requires Sound(x) && i in x.t
  {
    if x.t[i].path in x.w && x.t[i].path != [] then ParentKnown(x, x.t[i].path);
        ScannedRow(x.t, x.w, x.ids, i, x.tag, x.now)
    else ScannedRow(x.t, x.w, x.ids, i, x.tag, x.now)
  }

  ghost function RowNew(x: Scan, p: Path): Row
    requires Sound(x) && p in x.w && p != []
  {
    ParentKnown(x, p);
    NewRow(x.t, x.w, x.ids, p, x.tag)
  }

  ghost predicate OldRows(m: Table, x: Scan, done: set<Path>, gone: set<Id>)
    requires Sound(x)
  {
    forall i :: i in x.t ==>
      && (i in m <==> !(Handled(x, done, gone, i) && Dropped(x.t, x.w, i, x.now, x.grace)))
      && (i in m ==> m[i] == if Handled(x, done, gone, i) then RowAfter(x, i) else x.t[i])
  }

  ghost predicate NewRows(m: Table, x: Scan, done: set<Path>)
    requires Sound(x) && done <= x.w.Keys
  {
    && (forall p :: p in done && !LiveAt(x.t, p) ==>
         p != [] && p in x.ids && x.ids[p] in m && m[x.ids[p]] == RowNew(x, p))
    && (forall j :: j in m && j !in x.t ==> exists p :: p in done && !LiveAt(x.t, p) && p in x.ids && x.ids[p] == j)
  }

  /** The table when the paths in `done` and the nodes in `gone` have been dealt with. */
  ghost predicate Midway(m: Table, x: Scan, done: set<Path>, gone: set<Id>)
    requires Sound(x)
  {
    done <= x.w.Keys && OldRows(m, x, done, gone) && NewRows(m, x, done)
  }

  lemma Start(x: Scan)
    requires Sound(x)
    ensures Midway(x.t, x, {}, {})
  {
  }

  lemma LiveOld(m: Table, x: Scan, done: set<Path>, p: Path, i: Id)
    requires Sound(x) && Midway(m, x, done, {}) && p in x.w && p !in done
    requires i in x.t && x.t[i].path == p && x.t[i].missing == 0
    ensures OldRows(m[i := RowAfter(x, i)], x, done + {p}, {})
  {
    hide TreeOk, WalkOk, SameKinds, FreshIds, RowAfter, NewRows;
    SamePath(x, p, i);
  }

  lemma LiveNew(m: Table, x: Scan, done: set<Path>, p: Path, i: Id)
    requires Sound(x) && Midway(m, x, done, {}) && p in x.w && p !in done
    requires i in x.t && x.t[i].path == p && x.t[i].missing == 0
    ensures NewRows(m[i := RowAfter(x, i)], x, done + {p})
  {
    hide TreeOk, WalkOk, SameKinds, FreshIds, RowAfter, NewRow, OldRows;
    FreshNew(x, done);
    assert LiveAt(x.t, p);
    var u := m[i := RowAfter(x, i)];
    forall j | j in u && j !in x.t
      ensures exists q :: q in done + {p} && !LiveAt(x.t, q) && q in x.ids && x.ids[q] == j
    {
      var q :| q in done && !LiveAt(x.t, q) && q in x.ids && x.ids[q] == j;
      assert q in done + {p};
    }
  }

  /** A seen path whose row is live: the row is updated if size or time differ. */
  lemma LiveStep(m: Table, x: Scan, done: set<Path>, p: Path, i: Id)
    requires Sound(x) && Midway(m, x, done, {}) && p in x.w && p !in done
    requires i in x.t && x.t[i].path == p && x.t[i].missing == 0
    ensures Midway(m[i := RowAfter(x, i)], x, done + {p}, {})
  {
    hide Sound, OldRows, NewRows, RowAfter;
    LiveOld(m, x, done, p, i);
    LiveNew(m, x, done, p, i);
  }

  lemma SamePath(x: Scan, p: Path, i: Id)
    requires Sound(x) && i in x.t && x.t[i].path == p
    ensures forall j :: j in x.t && x.t[j].path == p ==> j == i
  {
  }

  lemma FreshNew(x: Scan, done: set<Path>)
    requires Sound(x) && done <= x.w.Keys
    ensures forall p :: p in done && !LiveAt(x.t, p) ==> p in x.ids && x.ids[p] !in x.t
  {
    hide TreeOk, WalkOk, SameKinds;
  }

  lemma NewStepOld(m: Table, x: Scan, done: set<Path>, p: Path, gone: set<Id>)
    requires Sound(x) && Midway(m, x, done, {}) && p in x.w && p !in done && !LiveAt(x.t, p) && p != []
    requires gone == set i | i in x.t && x.t[i].path == p
    ensures p in x.ids && OldRows((m - gone)[x.ids[p] := RowNew(x, p)], x, done + {p}, {})
  {
    hide TreeOk, WalkOk, SameKinds, ScannedRow, NewRow, NewRows, FreshIds, RowAfter;
    FreshNew(x, {p});
    MissingDropped(x, p);
  }

  lemma NewStepNew(m: Table, x: Scan, done: set<Path>, p: Path, gone: set<Id>)
    requires Sound(x) && Midway(m, x, done, {}) && p in x.w && p !in done && !LiveAt(x.t, p) && p != []
    requires gone == set i | i in x.t && x.t[i].path == p
    ensures p in x.ids && NewRows((m - gone)[x.ids[p] := RowNew(x, p)], x, done + {p})
  {
    hide TreeOk, WalkOk, SameKinds, ScannedRow, NewRow, OldRows, LiveAt;
    FreshNew(x, {p});
    FreshNew(x, done);
    var u := (m - gone)[x.ids[p] := RowNew(x, p)];
    forall j | j in u && j !in x.t
      ensures exists q :: q in done + {p} && !LiveAt(x.t, q) && q in x.ids && x.ids[q] == j
    {
      if j == x.ids[p] {
        assert p in done + {p};
      } else {
        var q :| q in done && !LiveAt(x.t, q) && q in x.ids && x.ids[q] == j;
        assert q in done + {p};
      }
    }
  }

  /** A seen path without a live row: a missing row there goes, and a new one comes. */
  lemma NewStep(m: Table, x: Scan, done: set<Path>, p: Path, gone: set<Id>)
    requires Sound(x) && Midway(m, x, done, {}) && p in x.w && p !in done && !LiveAt(x.t, p) && p != []
    requires gone == set i | i in x.t && x.t[i].path == p
    ensures p in x.ids && Midway((m - gone)[x.ids[p] := RowNew(x, p)], x, done + {p}, {})
  {
    hide Sound, OldRows, NewRows, RowNew;
    NewStepOld(m, x, done, p, gone);
    NewStepNew(m, x, done, p, gone);
  }

  lemma MissingDropped(x: Scan, p: Path)
    requires Sound(x) && p in x.w && p != [] && !LiveAt(x.t, p)
    ensures forall i :: i in x.t && x.t[i].path == p ==> Dropped(x.t, x.w, i, x.now, x.grace)
  {
    hide TreeOk, SameKinds, FreshIds;
  }

  /** The table after a public node was found unseen. */
  ghost function Missed(m: Table, x: Scan, i: Id): Table
    requires Sound(x) && i in x.t
  {
    if Dropped(x.t, x.w, i, x.now, x.grace) then m - {i} else m[i := RowAfter(x, i)]
  }

  lemma UnseenOld(m: Table, x: Scan, gone: set<Id>, i: Id)
    requires Sound(x) && Midway(m, x, x.w.Keys, gone) && i in x.t && x.t[i].path !in x.w && i !in gone
    ensures OldRows(Missed(m, x, i), x, x.w.Keys, gone + {i})
  {
    hide TreeOk, WalkOk, SameKinds, FreshIds, RowAfter, NewRows, Dropped;
  }

  lemma UnseenNew(m: Table, x: Scan, gone: set<Id>, i: Id)
    requires Sound(x) && Midway(m, x, x.w.Keys, gone) && i in x.t
    ensures NewRows(Missed(m, x, i), x, x.w.Keys)
  {
    hide TreeOk, WalkOk, SameKinds, FreshIds, RowAfter, NewRow, OldRows, Dropped;
    FreshNew(x, x.w.Keys);
  }

  /** A public node that the walk has not seen. */
  lemma UnseenStep(m: Table, x: Scan, gone: set<Id>, i: Id)
    requires Sound(x) && Midway(m, x, x.w.Keys, gone) && i in x.t && x.t[i].path !in x.w && i !in gone
    ensures Midway(Missed(m, x, i), x, x.w.Keys, gone + {i})
  {
    hide Sound, OldRows, NewRows, Missed;
    UnseenOld(m, x, gone, i);
    UnseenNew(m, x, gone, i);
  }

  lemma SeenAnyway(m: Table, x: Scan, gone: set<Id>, i: Id)
    requires Sound(x) && Midway(m, x, x.w.Keys, gone) && i in x.t && x.t[i].path in x.w
    ensures Midway(m, x, x.w.Keys, gone + {i})
  {
    hide TreeOk, WalkOk, SameKinds, ScannedRow, NewRow;
  }

  lemma FinishedOld(m: Table, x: Scan, gone: set<Id>, i: Id)
    requires Sound(x) && Midway(m, x, x.w.Keys, gone) && gone == PublicIds(x.t) && i in x.t
    ensures var kept := Kept(x.t, x.space, x.w, x.ids, x.tag, x.now, x.grace);
            (i in m <==> i in kept) && (i in m ==> m[i] == kept[i])
  {
    hide TreeOk, WalkOk, SameKinds, NewRow, FreshIds, ScannedRow, NewRows;
    if Reserved(x.t[i].path) { ReservedKept(x, i); }
  }

  lemma FinishedNew(m: Table, x: Scan, gone: set<Id>, j: Id)
    requires Sound(x) && Midway(m, x, x.w.Keys, gone) && j !in x.t
    ensures var added := Added(x.t, x.space, x.w, x.ids, x.tag);
            (j in m <==> j in added) && (j in m ==> m[j] == added[j])
  {
    hide TreeOk, WalkOk, SameKinds, NewRow, FreshIds, OldRows, Added;
    var added := Added(x.t, x.space, x.w, x.ids, x.tag);
    if j in added {
      var p := AddedFrom(x.t, x.space, x.w, x.ids, x.tag, j);
      AddedRow(x.t, x.space, x.w, x.ids, x.tag, p);
    }
    if j in m {
      var p :| p in x.w.Keys && !LiveAt(x.t, p) && p in x.ids && x.ids[p] == j;
      AddedRow(x.t, x.space, x.w, x.ids, x.tag, p);
    }
  }

  lemma AddedApart(x: Scan, i: Id)
    requires Sound(x) && i in x.t
    ensures i !in Added(x.t, x.space, x.w, x.ids, x.tag)
  {
    hide TreeOk, WalkOk, SameKinds, NewRow, FreshIds, Added;
    if i in Added(x.t, x.space, x.w, x.ids, x.tag) {
      var p := AddedFrom(x.t, x.space, x.w, x.ids, x.tag, i);
    }
  }

  /** When all have been dealt with, the table is the scan's. */
  lemma Finished(m: Table, x: Scan, gone: set<Id>)
    requires Sound(x) && Midway(m, x, x.w.Keys, gone) && gone == PublicIds(x.t)
    ensures m == Kept(x.t, x.space, x.w, x.ids, x.tag, x.now, x.grace) + Added(x.t, x.space, x.w, x.ids, x.tag)
  {
    hide Midway, TreeOk, WalkOk, FreshIds, SameKinds, Added;
    var kept, added := Kept(x.t, x.space, x.w, x.ids, x.tag, x.now, x.grace), Added(x.t, x.space, x.w, x.ids, x.tag);
    forall i ensures (i in m <==> i in kept + added) && (i in m ==> m[i] == (kept + added)[i]) {
      if i in x.t {
        FinishedOld(m, x, gone, i);
        AddedApart(x, i);
      } else {
        FinishedNew(m, x, gone, i);
      }
    }
  }

  lemma ReservedKept(x: Scan, i: Id)
    requires Sound(x) && i in x.t && Reserved(x.t[i].path)
    ensures RowAfter(x, i) == x.t[i] && !Dropped(x.t, x.w, i, x.now, x.grace)
  {
    hide TreeOk, SameKinds, FreshIds;
  }

  /** The paths whose directories get new revisions: rows written, and rows not seen. */
  ghost predicate ChangedSoFar(changed: seq<Path>, x: Scan, done: set<Path>, gone: set<Id>) {
    forall p :: p in changed <==>
      || (p in done && !LiveAt(x.t, p))
      || (p in done && exists i :: i in x.t && x.t[i].path == p && p in x.w && !Reserved(p) && Changed(x.t[i], x.w[p]))
      || (exists i :: i in gone && i in x.t && !Reserved(x.t[i].path) && x.t[i].path !in x.w && x.t[i].path == p)
  }

  lemma AllChanged(changed: seq<Path>, x: Scan, gone: set<Id>)
    requires ChangedSoFar(changed, x, x.w.Keys, gone) && gone == PublicIds(x.t)
    ensures Elements(changed) == ChangedPaths(x.t, x.w)
  {
  }

  lemma NothingChanged(x: Scan)
    ensures ChangedSoFar([], x, {}, {})
  {
  }

  lemma UniqueInput(x: Scan)
    requires Sound(x)
    ensures UniquePaths(x.t)
  {
  }

  /** The ID of the directory that a walked path is in. */
  function ParentAt(x: Scan, p: Path): Id
    requires UniquePaths(x.t) && p != [] && (LiveAt(x.t, Up(p)) || Up(p) in x.ids)
  {
    IdAt(x.t, x.ids, Up(p))
  }

  lemma LiveKept(m: Table, x: Scan, done: set<Path>, p: Path, i: Id)
    requires Sound(x) && Midway(m, x, done, {}) && p in x.w && p !in done && i in x.t && x.t[i].path == p
    requires x.t[i].missing == 0
    ensures i in m && m[i] == x.t[i] && UniquePaths(x.t)
    ensures p != [] ==> LiveAt(x.t, Up(p)) || Up(p) in x.ids
    ensures !Changed(x.t[i], x.w[p]) ==> RowAfter(x, i) == x.t[i]
    ensures Changed(x.t[i], x.w[p]) ==>
              RowAfter(x, i) == x.t[i].(parent := if p == [] then x.t[i].parent else ParentAt(x, p),
                                        size := x.w[p].size, mtime := x.w[p].mtime, etag := x.tag)
  {
    hide AllParented, AllLinked, AllLive, SameKinds, FreshIds, NewRows, TrashShaped;
    if p != [] { ParentKnown(x, p); }
  }

  lemma NotLive(x: Scan, p: Path)
    requires Sound(x) && p in x.w && UniquePaths(x.t)
    requires ByPath(x.t, p).Ok? ==> x.t[ByPath(x.t, p).value].missing != 0
    ensures !LiveAt(x.t, p) && p != [] && p in x.ids && (LiveAt(x.t, Up(p)) || Up(p) in x.ids)
    ensures RowNew(x, p) == Row(ParentAt(x, p), p[|p| - 1], p, x.w[p].dir, x.w[p].size, x.w[p].mtime, x.tag, 0)
  {
    hide AllParented, AllLinked, AllLive, SameKinds, TrashShaped;
    RootLive(x.t, x.space, x.w);
    ParentKnown(x, p);
  }

  lemma OnlyThere(x: Scan, p: Path, there: set<Id>, prev: Outcome<Id>, m: Table)
    requires UniquePaths(x.t) && prev == ByPath(x.t, p) && there == set i | i in x.t && x.t[i].path == p
    ensures m - there == if prev.Ok? then m - {prev.value} else m
  {
    if prev.Ok? { assert there == {prev.value}; } else { assert there == {}; }
  }

  lemma ChangedLive(changed: seq<Path>, x: Scan, done: set<Path>, p: Path, i: Id)
    requires ChangedSoFar(changed, x, done, {}) && p in x.w && i in x.t && x.t[i].path == p && x.t[i].missing == 0
    requires Sound(x)
    ensures ChangedSoFar(if Changed(x.t[i], x.w[p]) then changed + [p] else changed, x, done + {p}, {})
  {
    hide AllParented, AllLinked, AllLive, SameKinds, FreshIds, TrashShaped;
    SamePath(x, p, i);
    assert LiveAt(x.t, p);
    assert !Reserved(p);
  }

  lemma ChangedNew(changed: seq<Path>, x: Scan, done: set<Path>, p: Path)
    requires ChangedSoFar(changed, x, done, {}) && p in x.w && !LiveAt(x.t, p)
    ensures ChangedSoFar(changed + [p], x, done + {p}, {})
  {
  }

  lemma ChangedUnseen(changed: seq<Path>, x: Scan, gone: set<Id>, i: Id)
    requires ChangedSoFar(changed, x, x.w.Keys, gone) && i in x.t && !Reserved(x.t[i].path)
    ensures ChangedSoFar(if x.t[i].path in x.w then changed else changed + [x.t[i].path], x, x.w.Keys, gone + {i})
  {
  }

  lemma UnseenKept(m: Table, x: Scan, gone: set<Id>, i: Id)
    requires Sound(x) && Midway(m, x, x.w.Keys, gone) && i in x.t && !Reserved(x.t[i].path) && x.t[i].path !in x.w
    requires i !in gone
    ensures i in m && m[i] == x.t[i]
    ensures RowAfter(x, i) == if x.t[i].missing == 0 then x.t[i].(missing := x.now) else x.t[i]
    ensures Dropped(x.t, x.w, i, x.now, x.grace) <==> x.t[i].missing != 0 && x.now - x.t[i].missing >= x.grace
  {
    hide TreeOk, WalkOk, SameKinds, FreshIds, NewRows;
  }

  // ------------------------------------------------------------------ events

  /** An event before it has a number. */
  type Notice = (Id, EventKind)

  function KindOf(dir: bool): EventKind {
    if dir then DirectoryEvent else FileEvent
  }

  function Numbered(n: nat, notices: seq<Notice>): seq<Event> {
    seq(|notices|, k requires 0 <= k < |notices| => Event(n + k, notices[k].0, notices[k].1))
  }

  lemma NumberedNone(n: nat)
    ensures Numbered(n, []) == []
  {
  }

  lemma NumberedMore(n: nat, a: seq<Notice>, b: seq<Notice>)
    ensures Numbered(n, a + b) == Numbered(n, a) + Numbered(n + |a|, b)
  {
  }

  /** What is told of a walked path: a row that differs, or a new one. */
  function SeenNotice(x: Scan, p: Path): seq<Notice>
    requires UniquePaths(x.t) && p in x.w
  {
    var prev := ByPath(x.t, p);
    if prev.Ok? && x.t[prev.value].missing == 0 then
      if Changed(x.t[prev.value], x.w[p]) then [(prev.value, KindOf(x.t[prev.value].dir))] else []
    else if p in x.ids then [(x.ids[p], KindOf(x.w[p].dir))]
    else []
  }

  /** What is told of a known node: that it has been missing for too long. */
  function MissNotice(x: Scan, i: Id): seq<Notice>
    requires i in x.t
  {
    if x.t[i].path !in x.w && x.t[i].missing != 0 && x.now - x.t[i].missing >= x.grace then [(i, DeletedEvent)] else []
  }

  function SeenNotices(x: Scan, ordered: seq<Path>): seq<Notice>
    requires UniquePaths(x.t) && forall p :: p in ordered ==> p in x.w
  {
    if ordered == [] then []
    else SeenNotices(x, ordered[..|ordered| - 1]) + SeenNotice(x, ordered[|ordered| - 1])
  }

  function MissNotices(x: Scan, known: seq<Id>): seq<Notice>
    requires forall i :: i in known ==> i in x.t
  {
    if known == [] then []
    else MissNotices(x, known[..|known| - 1]) + MissNotice(x, known[|known| - 1])
  }

  predicate Tells(notices: seq<Notice>, i: Id) {
    exists k :: 0 <= k < |notices| && notices[k].0 == i
  }

  lemma TellsBoth(a: seq<Notice>, b: seq<Notice>, i: Id)
    ensures Tells(a + b, i) <==> Tells(a, i) || Tells(b, i)
  {
    if Tells(a, i) {
      var k :| 0 <= k < |a| && a[k].0 == i;
      assert (a + b)[k].0 == i;
    }
    if Tells(b, i) {
      var k :| 0 <= k < |b| && b[k].0 == i;
      assert (a + b)[|a| + k].0 == i;
    }
  }

  lemma {:induction false} SeenTells(x: Scan, ordered: seq<Path>, i: Id)
    requires UniquePaths(x.t) && forall p :: p in ordered ==> p in x.w
    ensures Tells(SeenNotices(x, ordered), i) <==> exists p :: p in ordered && Tells(SeenNotice(x, p), i)
    decreases |ordered|
  {
    hide SeenNotice, Tells;
    if ordered == [] {
      assert !Tells([], i) by { TellsNothing(i); }
    } else {
      var n := |ordered| - 1;
      SeenTells(x, ordered[..n], i);
      TellsBoth(SeenNotices(x, ordered[..n]), SeenNotice(x, ordered[n]), i);
      assert ordered == ordered[..n] + [ordered[n]];
    }
  }

  lemma TellsNothing(i: Id)
    ensures !Tells([], i)
  {
  }

  lemma {:induction false} MissTells(x: Scan, known: seq<Id>, i: Id)
    requires forall j :: j in known ==> j in x.t
    ensures Tells(MissNotices(x, known), i) <==> i in known && Tells(MissNotice(x, i), i)
    decreases |known|
  {
    hide Tells;
    if known == [] {
      TellsNothing(i);
    } else {
      var n := |known| - 1;
      MissTells(x, known[..n], i);
      TellsBoth(MissNotices(x, known[..n]), MissNotice(x, known[n]), i);
      assert known == known[..n] + [known[n]];
      MissSelf(x, known[n], i);
    }
  }

  lemma MissSelf(x: Scan, j: Id, i: Id)
    requires j in x.t
    ensures Tells(MissNotice(x, j), i) ==> i == j
  {
  }

  /** What a scan is expected to announce of a node: that it is new or has other content,
      or that it is gone and nothing has taken its path. */
  ghost predicate Newsworthy(x: Scan, i: Id)
    requires Sound(x)
  {
    var u := Scanned(x.t, x.space, x.w, x.ids, x.tag, x.now, x.grace);
    if i in u then i !in x.t || u[i].size != x.t[i].size || u[i].mtime != x.t[i].mtime
    else i in x.t && x.t[i].path !in x.w
  }

  lemma SeenNews(x: Scan, p: Path, i: Id)
    requires Sound(x) && p in x.w && UniquePaths(x.t) && Tells(SeenNotice(x, p), i)
    ensures if LiveAt(x.t, p) then i in x.t && x.t[i].path == p && x.t[i].missing == 0 && Changed(x.t[i], x.w[p])
            else NewAt(x.t, x.w, x.ids, p, i) && i !in x.t
  {
    hide TreeOk, SameKinds;
  }

  lemma OldNews(x: Scan, i: Id)
    requires Sound(x) && i in x.t && !Dropped(x.t, x.w, i, x.now, x.grace)
    ensures Newsworthy(x, i) <==> !Reserved(x.t[i].path) && x.t[i].path in x.w && Changed(x.t[i], x.w[x.t[i].path])
    ensures UniquePaths(x.t)
    ensures x.t[i].path in x.w ==> x.t[i].missing == 0 && !Reserved(x.t[i].path)
  {
    hide SameKinds, FreshIds, Scanned, AllParented, AllLinked, AllLive, TrashShaped;
    ScannedKept(x.t, x.space, x.w, x.ids, x.tag, x.now, x.grace, i);
  }

  lemma DroppedNews(x: Scan, i: Id)
    requires Sound(x) && i in x.t && Dropped(x.t, x.w, i, x.now, x.grace)
    ensures Newsworthy(x, i) <==> x.t[i].path !in x.w
  {
    hide Scanned, TreeOk, WalkOk, SameKinds, FreshIds;
    if i in Scanned(x.t, x.space, x.w, x.ids, x.tag, x.now, x.grace) {
      var p := ScannedOnly(x.t, x.space, x.w, x.ids, x.tag, x.now, x.grace, i);
      NewIsFresh(x, p);
    }
  }

  lemma NewIsFresh(x: Scan, p: Path)
    requires Sound(x) && p in x.w && !LiveAt(x.t, p)
    ensures p in x.ids && x.ids[p] !in x.t
  {
    hide TreeOk, WalkOk, SameKinds;
  }

  /** A scan announces exactly the nodes there is something to announce of. */
  lemma NoticesRight(x: Scan, ordered: seq<Path>, known: seq<Id>, i: Id)
    requires Sound(x) && Elements(ordered) == x.w.Keys && Elements(known) == PublicIds(x.t)
    ensures UniquePaths(x.t) && (forall p :: p in ordered ==> p in x.w) && (forall j :: j in known ==> j in x.t)
    ensures Tells(SeenNotices(x, ordered) + MissNotices(x, known), i) <==> Newsworthy(x, i)
  {
    hide ScanInput, SeenNotice, Newsworthy, Tells, Dropped, SeenNotices, MissNotices;
    UniqueInput(x);
    forall p ensures p in ordered <==> p in x.w { assert p in Elements(ordered) <==> p in ordered; }
    forall j ensures j in known <==> j in x.t && !Reserved(x.t[j].path) { assert j in Elements(known) <==> j in known; }
    TellsBoth(SeenNotices(x, ordered), MissNotices(x, known), i);
    SeenTells(x, ordered, i);
    MissTells(x, known, i);
    if i in x.t {
      KnownNews(x, known, i);
    } else {
      NewNews(x, i);
    }
  }

  lemma KnownNews(x: Scan, known: seq<Id>, i: Id)
    requires Sound(x) && i in x.t && UniquePaths(x.t) && (i in known <==> !Reserved(x.t[i].path))
    ensures Newsworthy(x, i) <==>
              (exists p :: p in x.w && Tells(SeenNotice(x, p), i)) || (i in known && Tells(MissNotice(x, i), i))
  {
    hide ScanInput, SeenNotice, Newsworthy, LiveAt;
    forall p | p in x.w && Tells(SeenNotice(x, p), i)
      ensures p == x.t[i].path && x.t[i].missing == 0 && Changed(x.t[i], x.w[p])
    {
      SeenNews(x, p, i);
    }
    if Dropped(x.t, x.w, i, x.now, x.grace) {
      DroppedNews(x, i);
      assert x.t[i].path !in x.w ==> MissNotice(x, i)[0].0 == i;
    } else {
      OldNews(x, i);
      if x.t[i].path in x.w && Changed(x.t[i], x.w[x.t[i].path]) { ChangedTold(x, i); }
    }
  }

  lemma ChangedTold(x: Scan, i: Id)
    requires UniquePaths(x.t) && i in x.t && x.t[i].path in x.w && x.t[i].missing == 0
    requires Changed(x.t[i], x.w[x.t[i].path])
    ensures Tells(SeenNotice(x, x.t[i].path), i)
  {
    assert ByPath(x.t, x.t[i].path) == Ok(i);
    assert SeenNotice(x, x.t[i].path)[0].0 == i;
  }

  lemma NewNews(x: Scan, i: Id)
    requires Sound(x) && i !in x.t && UniquePaths(x.t)
    ensures Newsworthy(x, i) <==> exists p :: p in x.w && Tells(SeenNotice(x, p), i)
  {
    hide ScanInput, SeenNotice, Scanned, LiveAt;
    if Newsworthy(x, i) {
      var p := ScannedOnly(x.t, x.space, x.w, x.ids, x.tag, x.now, x.grace, i) by { UnfoldSound(x); }
      NewTold(x, p);
    }
    if exists p :: p in x.w && Tells(SeenNotice(x, p), i) {
      var p :| p in x.w && Tells(SeenNotice(x, p), i);
      SeenNews(x, p, i);
      NewThere(x, p);
    }
  }

  lemma UnfoldSound(x: Scan)
    requires Sound(x)
    ensures ScanInput(x.t, x.space, x.w, x.ids, x.now)
  {
  }

  lemma NewTold(x: Scan, p: Path)
    requires UniquePaths(x.t) && p in x.w && !LiveAt(x.t, p) && p in x.ids
    ensures Tells(SeenNotice(x, p), x.ids[p])
  {
    assert SeenNotice(x, p)[0].0 == x.ids[p];
  }

  lemma NewThere(x: Scan, p: Path)
    requires Sound(x) && p in x.w && !LiveAt(x.t, p) && p in x.ids
    ensures x.ids[p] in Scanned(x.t, x.space, x.w, x.ids, x.tag, x.now, x.grace)
  {
    hide TreeOk, WalkOk, SameKinds, FreshIds, Added, Kept;
    AddedRow(x.t, x.space, x.w, x.ids, x.tag, p);
  }
}
