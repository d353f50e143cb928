/** The driver's two large transactions, statement by statement: the one that finishes a
    journal entry and the one that commits a scan. */
module Transactions {
  import opened Collections
  import opened Paths
  import opened Metadata
  import opened Trees
  import opened Scans
  import opened ScanCommit
  import opened RowUpdates
  import opened Files

  /** The places an entry's rows come from and go to do not run into one another on the
      way: what `apply` and the driver's own namespace give. */
  predicate ClearWay(t: Table, op: Operation) {
    match op.kind
    case Move => Apart(op.source, op.target)
    case Trash => Apart(op.source, op.target)
    case Restore => forall i :: i in t && i in op.snapshot ==> !(op.target <= t[i].path)
    case _ => true
  }

  class Transaction {
    var nodes: Table
    var retained: map<OpId, Retained>
    var ops: map<OpId, Operation>
    var uploads: map<Id, Session>
    var outbox: seq<Event>
    var nextEvent: nat
    var completed: map<(OpId, Kind), Id>
    const space: Id
    const tag: Tag

    /** The database as the transaction sees it; its revisions are all one. */
    ghost function View(): Db
      reads this
    {
      Db(space, nodes, retained, ops, uploads, outbox, nextEvent, completed, tag)
    }

    /** INSERT INTO outbox */
    method Tell(node: Id, kind: EventKind)
      modifies this`outbox, this`nextEvent
      ensures outbox == old(outbox) + Numbered(old(nextEvent), [(node, kind)]) && nextEvent == old(nextEvent) + 1
    {
      outbox := outbox + [Event(nextEvent, node, kind)];
      nextEvent := nextEvent + 1;
    }

    /** New revisions for the directories from each changed public path up to the root,
        each updated once. */
    method RefreshDirectories(paths: seq<Path>)
      modifies this`nodes
      ensures nodes == Refresh(old(nodes), Elements(paths), tag)
    {
      var seen: set<Path> := {};
      assert nodes == Stamped(old(nodes), seen, tag);
      for k := 0 to |paths|
        invariant nodes == Stamped(old(nodes), seen, tag)
        invariant forall q :: q in seen <==> Above(q, paths[..k])
      {
        forall q ensures Above(q, paths[..k + 1]) <==> Above(q, paths[..k]) || (!Reserved(paths[k]) && q <= paths[k]) {
          AboveMore(q, paths, k);
        }
        if !Reserved(paths[k]) {
          seen := Climb(paths[k], seen, old(nodes));
        }
      }
      assert paths[..|paths|] == paths;
      StampedIsRefresh(old(nodes), paths, seen, tag);
    }

    method Climb(full: Path, before: set<Path>, ghost start: Table) returns (seen: set<Path>)
      requires nodes == Stamped(start, before, tag)
      modifies this`nodes
      ensures nodes == Stamped(start, seen, tag)
      ensures forall q :: q in seen <==> q in before || q <= full
    {
      var p := full;
      seen := before;
      while true
        invariant p <= full && nodes == Stamped(start, seen, tag)
        invariant forall q :: q in seen <==> q in before || (q <= full && |q| > |p|)
        decreases |p|
      {
        ghost var was := seen;
        if p !in seen {
          TouchMore(start, seen, p, tag);
          nodes := Touch(nodes, p, tag);
          seen := seen + {p};
        }
        forall q ensures q in seen <==> q in before || (q <= full && |q| >= |p|) {
          if q <= full && |q| == |p| { assert q == full[..|q|] == p; }
        }
        if p == [] { return; }
        p := p[..|p| - 1];
      }
    }

    /** One walked path: update its live row if it differs, or put a new row there. */
    method See(x: Scan, ghost done: set<Path>, p: Path, changed: seq<Path>) returns (more: seq<Path>)
      requires Sound(x) && x.tag == tag && p in x.w && p !in done && Midway(nodes, x, done, {})
      requires ChangedSoFar(changed, x, done, {})
      modifies this`nodes, this`outbox, this`nextEvent
      ensures Midway(nodes, x, done + {p}, {}) && ChangedSoFar(more, x, done + {p}, {})
      ensures UniquePaths(x.t) && outbox == old(outbox) + Numbered(old(nextEvent), SeenNotice(x, p))
      ensures nextEvent == old(nextEvent) + |SeenNotice(x, p)|
    {
      hide TreeOk, WalkOk, SameKinds, FreshIds, Midway, ChangedSoFar, LiveAt;
      UniqueInput(x);
      more := changed;
      var prev := ByPath(x.t, p);
      if prev.Ok? && x.t[prev.value].missing == 0 {
        var i, r, s := prev.value, x.t[prev.value], x.w[p];
        LiveKept(nodes, x, done, p, i);
        LiveStep(nodes, x, done, p, i);
        ChangedLive(changed, x, done, p, i);
        assert nodes[i := x.t[i]] == nodes;
        if r.size != s.size || r.mtime != s.mtime {
          var parent := if p == [] then r.parent else ParentAt(x, p);
          nodes := nodes[i := r.(parent := parent, size := s.size, mtime := s.mtime, etag := tag)];
          more := changed + [p];
          Tell(i, KindOf(r.dir));
        }
      } else {
        NotLive(x, p);
        ghost var there := set i | i in x.t && x.t[i].path == p;
        NewStep(nodes, x, done, p, there);
        ChangedNew(changed, x, done, p);
        ghost var start := nodes;
        if prev.Ok? { nodes := nodes - {prev.value}; }
        assert nodes == start - there by { OnlyThere(x, p, there, prev, start); }
        nodes := nodes[x.ids[p] := Row(ParentAt(x, p), p[|p| - 1], p, x.w[p].dir, x.w[p].size, x.w[p].mtime, tag, 0)];
        more := changed + [p];
        Tell(x.ids[p], KindOf(x.w[p].dir));
      }
    }

    /** One public node: if the walk has not seen it, mark it missing or drop it. */
    method Miss(x: Scan, ghost gone: set<Id>, i: Id, changed: seq<Path>) returns (more: seq<Path>)
      requires Sound(x) && i in x.t && !Reserved(x.t[i].path) && i !in gone
      requires Midway(nodes, x, x.w.Keys, gone) && ChangedSoFar(changed, x, x.w.Keys, gone)
      modifies this`nodes, this`outbox, this`nextEvent
      ensures outbox == old(outbox) + Numbered(old(nextEvent), MissNotice(x, i))
      ensures nextEvent == old(nextEvent) + |MissNotice(x, i)|
      ensures Midway(nodes, x, x.w.Keys, gone + {i}) && ChangedSoFar(more, x, x.w.Keys, gone + {i})
    {
      hide TreeOk, WalkOk, SameKinds, FreshIds, Midway, ChangedSoFar;
      more := changed;
      ChangedUnseen(changed, x, gone, i);
      if x.t[i].path in x.w {
        SeenAnyway(nodes, x, gone, i);
        return;
      }
      more := changed + [x.t[i].path];
      UnseenKept(nodes, x, gone, i);
      UnseenStep(nodes, x, gone, i);
      assert nodes[i := x.t[i]] == nodes;
      if x.t[i].missing == 0 {
        nodes := nodes[i := nodes[i].(missing := x.now)];
      } else if x.now - x.t[i].missing >= x.grace {
        nodes := nodes - {i};
        Tell(i, DeletedEvent);
      }
    }

    /** All walked paths, in any order. */
    method SeeAll(x: Scan, ordered: seq<Path>) returns (changed: seq<Path>)
      requires Sound(x) && nodes == x.t && x.tag == tag && Elements(ordered) == x.w.Keys
      requires forall i, j :: 0 <= i < j < |ordered| ==> ordered[i] != ordered[j]
      modifies this`nodes, this`outbox, this`nextEvent
      ensures Midway(nodes, x, x.w.Keys, {}) && ChangedSoFar(changed, x, x.w.Keys, {})
      ensures UniquePaths(x.t) && forall p :: p in ordered ==> p in x.w
      ensures outbox == old(outbox) + Numbered(old(nextEvent), SeenNotices(x, ordered))
      ensures nextEvent == old(nextEvent) + |SeenNotices(x, ordered)|
    {
      hide Sound, Midway, ChangedSoFar, SeenNotice, Numbered;
      UniqueInput(x);
      forall p | p in ordered ensures p in x.w { assert p in Elements(ordered); }
      Start(x);
      ghost var done: set<Path> := {};
      changed := [];
      NothingChanged(x);
      NumberedNone(nextEvent);
      for k := 0 to |ordered|
        invariant outbox == old(outbox) + Numbered(old(nextEvent), SeenNotices(x, ordered[..k]))
        invariant nextEvent == old(nextEvent) + |SeenNotices(x, ordered[..k])|
        invariant done == Elements(ordered[..k]) && Midway(nodes, x, done, {}) && ChangedSoFar(changed, x, done, {})
      {
        var p := ordered[k];
        assert p in Elements(ordered);
        assert Elements(ordered[..k + 1]) == done + {p} by { assert ordered[..k + 1] == ordered[..k] + [p]; }
        assert p !in ordered[..k];
        changed := See(x, done, p, changed);
        assert ordered[..k + 1][..k] == ordered[..k];
        NumberedMore(old(nextEvent), SeenNotices(x, ordered[..k]), SeenNotice(x, p));
        done := done + {p};
      }
      assert ordered[..|ordered|] == ordered;
    }

    /** All public nodes that were known, in any order. */
    method MissAll(x: Scan, known: seq<Id>, before: seq<Path>) returns (changed: seq<Path>)
      requires Sound(x) && Elements(known) == PublicIds(x.t)
      requires Midway(nodes, x, x.w.Keys, {}) && ChangedSoFar(before, x, x.w.Keys, {})
      requires forall i, j :: 0 <= i < j < |known| ==> known[i] != known[j]
      modifies this`nodes, this`outbox, this`nextEvent
      ensures Midway(nodes, x, x.w.Keys, PublicIds(x.t)) && ChangedSoFar(changed, x, x.w.Keys, PublicIds(x.t))
      ensures forall i :: i in known ==> i in x.t
      ensures outbox == old(outbox) + Numbered(old(nextEvent), MissNotices(x, known))
    {
      hide Sound, Midway, ChangedSoFar, MissNotice, Numbered;
      forall i | i in known ensures i in x.t { assert i in Elements(known); }
      ghost var gone: set<Id> := {};
      changed := before;
      NumberedNone(nextEvent);
      for k := 0 to |known|
        invariant outbox == old(outbox) + Numbered(old(nextEvent), MissNotices(x, known[..k]))
        invariant nextEvent == old(nextEvent) + |MissNotices(x, known[..k])|
        invariant gone == Elements(known[..k]) && Midway(nodes, x, x.w.Keys, gone)
        invariant ChangedSoFar(changed, x, x.w.Keys, gone)
      {
        var i := known[k];
        assert i in Elements(known);
        assert Elements(known[..k + 1]) == gone + {i} by { assert known[..k + 1] == known[..k] + [i]; }
        assert i !in known[..k];
        changed := Miss(x, gone, i, changed);
        assert known[..k + 1][..k] == known[..k];
        NumberedMore(old(nextEvent), MissNotices(x, known[..k]), MissNotice(x, i));
        gone := gone + {i};
      }
      assert known[..|known|] == known;
    }

    /** Commits a complete walk: `ordered` lists the walked paths, `known` the public nodes. */
    method CommitScan(x: Scan, ordered: seq<Path>, known: seq<Id>)
      requires Sound(x) && nodes == x.t && x.tag == tag
      requires forall i, j :: 0 <= i < j < |ordered| ==> ordered[i] != ordered[j]
      requires forall i, j :: 0 <= i < j < |known| ==> known[i] != known[j]
      requires Elements(ordered) == x.w.Keys && Elements(known) == PublicIds(x.t)
      modifies this`nodes, this`outbox, this`nextEvent
      ensures nodes == Scanned(x.t, x.space, x.w, x.ids, x.tag, x.now, x.grace)
      ensures UniquePaths(x.t) && (forall p :: p in ordered ==> p in x.w) && (forall i :: i in known ==> i in x.t)
      ensures outbox == old(outbox) + Numbered(old(nextEvent), SeenNotices(x, ordered) + MissNotices(x, known))
    {
      hide Sound, Midway, ChangedSoFar, Numbered, SeenNotices, MissNotices;
      var changed := SeeAll(x, ordered);
      ghost var seen := SeenNotices(x, ordered);
      changed := MissAll(x, known, changed);
      NumberedMore(old(nextEvent), seen, MissNotices(x, known));
      Finished(nodes, x, PublicIds(x.t));
      AllChanged(changed, x, PublicIds(x.t));
      RefreshDirectories(changed);
    }

    /** UPDATE nodes SET path of every row at or below the source, in the table's order;
        a taken path fails the statement. */
    method MoveRows(src: Path, dst: Path, order: seq<Id>) returns (ok: bool)
      requires UniquePaths(nodes) && Apart(src, dst) && Elements(order) == nodes.Keys
      requires forall i, j :: 0 <= i < j < |order| ==> order[i] != order[j]
      modifies this`nodes
      ensures ok <==> UniquePaths(RebaseRows(old(nodes), src, dst))
      ensures ok ==> nodes == RebaseRows(old(nodes), src, dst)
    {
      hide UniquePaths, RebaseRows, Part, Settling, Occupied;
      ghost var t, u := nodes, RebaseRows(nodes, src, dst);
      RebaseSettling(t, src, dst);
      NoneYet(t, u);
      assert Elements(order[..0]) == {};
      for k := 0 to |order|
        invariant nodes == Part(t, u, Elements(order[..k])) && UniquePaths(nodes)
      {
        var i := order[k];
        ghost var done := Elements(order[..k]);
        assert i in Elements(order);
        assert i !in done;
        RowAsWas(t, u, done, i);
        MovedRow(t, src, dst, i);
        assert Elements(order[..k + 1]) == done + {i} by { assert order[..k + 1] == order[..k] + [i]; }
        var row := if src <= nodes[i].path then nodes[i].(path := Rebase(nodes[i].path, src, dst)) else nodes[i];
        if Occupied(nodes, i, row.path) {
          Clash(t, u, done, i);
          return false;
        }
        OneMore(t, u, done, i);
        nodes := nodes[i := row];
      }
      assert order[..|order|] == order;
      Whole(t, u, Elements(order));
      return true;
    }

    /** UPDATE nodes, once for each row of the snapshot that is still there. */
    method RestoreRows(op: Operation, order: seq<Id>) returns (ok: bool)
      requires UniquePaths(nodes) && op.kind == Restore && ClearWay(nodes, op) && Elements(order) == op.snapshot.Keys
      requires forall i, j :: 0 <= i < j < |order| ==> order[i] != order[j]
      modifies this`nodes
      ensures ok <==> UniquePaths(RestoredRows(old(nodes), op, tag))
      ensures ok ==> nodes == RestoredRows(old(nodes), op, tag)
    {
      hide UniquePaths, RestoredRows, Part, Settling, Occupied, RestoredRow;
      ghost var t, u := nodes, RestoredRows(nodes, op, tag);
      RestoreSettling(t, op, tag);
      NoneYet(t, u);
      assert Elements(order[..0]) == {};
      for k := 0 to |order|
        invariant nodes == Part(t, u, Elements(order[..k])) && UniquePaths(nodes)
      {
        var i := order[k];
        ghost var done := Elements(order[..k]);
        assert i in Elements(order);
        assert i !in done;
        assert Elements(order[..k + 1]) == done + {i} by { assert order[..k + 1] == order[..k] + [i]; }
        SameRows(t, u, done);
        if i in nodes {
          RowAsWas(t, u, done, i);
          RestoredAt(t, op, tag, i);
          var row := RestoredRow(nodes[i], op, i, tag);
          if Occupied(nodes, i, row.path) {
            Clash(t, u, done, i);
            return false;
          }
          OneMore(t, u, done, i);
          nodes := nodes[i := row];
        } else {
          NotARow(t, u, done, i);
        }
      }
      assert order[..|order|] == order;
      RestoredOnly(t, op, tag);
      Whole(t, u, Elements(order));
      return true;
    }

    /** The statements on `nodes` and `retained` for the entry's kind. */
    method WriteKind(op: Operation, size: int, mtime: int, order: seq<Id>) returns (ok: bool)
      requires UniquePaths(nodes) && ClearWay(nodes, op)
      requires Elements(order) == if op.kind == Restore then op.snapshot.Keys else nodes.Keys
      requires forall i, j :: 0 <= i < j < |order| ==> order[i] != order[j]
      modifies this`nodes, this`retained
      ensures ok <==> KindRows(old(View()), op, size, mtime).Ok? && KindRetained(old(View()), op).Ok?
      ensures ok ==>
              nodes == KindRows(old(View()), op, size, mtime).value && retained == KindRetained(old(View()), op).value
    {
      hide UniquePaths, RebaseRows, RestoredRows, RestoredRow;
      match op.kind
      case Replace =>
        if op.node !in nodes || nodes[op.node].etag != op.row.etag { return false; }
        nodes := nodes[op.node := nodes[op.node].(size := size, mtime := mtime, etag := tag, missing := 0)];
        if op.id in retained { return false; }
        retained := retained[op.id := Retained(op.node, op.row.path, Version, op.row.size, op.time,
            map[op.node := op.row])];
        return true;
      case Create =>
        if op.node in nodes || PathTaken(nodes, op.target) { return false; }
        nodes := nodes[op.node := Row(op.row.parent, op.row.name, op.target, op.row.dir, size, mtime, tag, 0)];
        return true;
      case Move =>
        ok := MoveRows(op.source, op.target, order);
        if ok && op.node in nodes {
          nodes := nodes[op.node := nodes[op.node].(parent := op.row.parent, name := op.row.name, etag := tag)];
        }
      case Trash =>
        if op.id in retained { return false; }
        retained := retained[op.id := Retained(op.node, op.row.path, TrashItem, op.row.size, op.time, op.snapshot)];
        ok := MoveRows(op.source, op.target, order);
      case Restore =>
        RestoredKind(old(View()), op, size, mtime);
        ok := RestoreRows(op, order);
        retained := retained - {op.id};
    }

    /** Finishes a journal entry, or fails at one of the statements and is rolled back.
        `order` is the order in which rows are visited. */
    method CommitOperation(op: Operation, size: int, mtime: int, order: seq<Id>) returns (ok: bool)
      requires UniquePaths(nodes) && ClearWay(nodes, op)
      requires Elements(order) == if op.kind == Restore then op.snapshot.Keys else nodes.Keys
      requires forall i, j :: 0 <= i < j < |order| ==> order[i] != order[j]
      modifies this
      ensures ok <==> Commit(old(View()), op, size, mtime).Ok?
      ensures if ok then View().(tag := tag + 1) == Commit(old(View()), op, size, mtime).value
              else View() == old(View())
    {
      hide UniquePaths, KindRows, KindRetained, ClearWay, Refresh;
      var before, kept := nodes, retained;
      ok := WriteKind(op, size, mtime, order);
      if !ok || (op.session != "" && op.session !in uploads) {
        nodes, retained := before, kept;
        return false;
      }
      RefreshDirectories([op.source, op.target]);
      assert Elements([op.source, op.target]) == {op.source, op.target};
      if op.session != "" {
        uploads := uploads[op.session := uploads[op.session].(result := op.node)];
      }
      Tell(op.node, OpEvent(op));
      completed := completed[(op.id, op.kind) := op.node];
      ops := ops - {op.id};
    }
  }

  lemma RowAsWas(t: Table, u: Table, done: set<Id>, i: Id)
    requires i in t && i !in done
    ensures i in Part(t, u, done) && Part(t, u, done)[i] == t[i]
  {
  }

  lemma SameRows(t: Table, u: Table, done: set<Id>)
    ensures Part(t, u, done).Keys == t.Keys
  {
  }

  lemma NotARow(t: Table, u: Table, done: set<Id>, i: Id)
    requires i !in t
    ensures Part(t, u, done + {i}) == Part(t, u, done)
  {
  }

  lemma MovedRow(t: Table, src: Path, dst: Path, i: Id)
    requires i in t
    ensures var u := RebaseRows(t, src, dst);
            u.Keys == t.Keys && u[i] == if src <= t[i].path then t[i].(path := Rebase(t[i].path, src, dst)) else t[i]
  {
  }

  lemma RestoredAt(t: Table, op: Operation, tag: Tag, i: Id)
    requires i in t && i in op.snapshot
    ensures var u := RestoredRows(t, op, tag); u.Keys == t.Keys && u[i] == RestoredRow(t[i], op, i, tag)
  {
  }

  lemma RestoredOnly(t: Table, op: Operation, tag: Tag)
    ensures var u := RestoredRows(t, op, tag);
            u.Keys == t.Keys && forall i :: i in t && i !in op.snapshot ==> u[i] == t[i]
  {
  }

  lemma RestoredKind(db: Db, op: Operation, size: int, mtime: int)
    requires op.kind == Restore
    ensures KindRows(db, op, size, mtime) ==
            if UniquePaths(RestoredRows(db.nodes, op, db.tag)) then Ok(RestoredRows(db.nodes, op, db.tag)) else Err
  {
    assert RestoredRows(db.nodes, op, db.tag) ==
           map i | i in db.nodes :: if i in op.snapshot then RestoredRow(db.nodes[i], op, i, db.tag) else db.nodes[i];
  }

  /** In every consistent database an operation that passed its checks has a clear way. */
  lemma EnabledClear(db: Db, op: Operation)
    requires DbOk(db) && Enabled(db, op)
    ensures UniquePaths(db.nodes) && ClearWay(db.nodes, op)
  {
    hide AllParented, AllLinked, AllLive, TrashShaped;
    if op.kind == Move || op.kind == Trash {
      assert !(op.target <= db.nodes[op.node].path);
    }
  }
}
