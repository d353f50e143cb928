/** ETags as revisions: a row that still has the revision somebody saw has the size and
    time they saw, so a replacement that checks the revision loses no update. */
module Revisions {
  import opened Paths
  import opened Metadata
  import opened Trees
  import opened Scans

  /** Every revision in the table is older than the next one to be drawn. */
  ghost predicate TagsOk(db: Db) {
    forall i :: i in db.nodes ==> db.nodes[i].etag < db.tag
  }

  /** The same kind, size and time. */
  predicate SameContent(r: Row, s: Row) {
    r.dir == s.dir && r.size == s.size && r.mtime == s.mtime
  }

  /** Every row of `u` that was in `t` has kept its revision, and with it its content, or
      has a revision that `t` cannot have. */
  ghost predicate Since(t: Table, tag: Tag, u: Table) {
    forall i :: i in t && i in u ==> (u[i].etag == t[i].etag && SameContent(t[i], u[i])) || u[i].etag >= tag
  }

  /** One transaction: revisions are drawn in order, and none is used again. */
  ghost predicate Advances(db: Db, db': Db) {
    && db.tag <= db'.tag && TagsOk(db') && Since(db.nodes, db.tag, db'.nodes)
  }

  lemma RefreshSince(t: Table, u: Table, changed: set<Path>, tag: Tag)
    requires Since(t, tag, u) && (forall i :: i in u ==> u[i].etag <= tag)
    ensures Since(t, tag, Refresh(u, changed, tag)) && forall i :: i in Refresh(u, changed, tag) ==>
            Refresh(u, changed, tag)[i].etag <= tag
  {
  }

  lemma KindSince(db: Db, op: Operation, size: int, mtime: int)
    requires TagsOk(db) && KindRows(db, op, size, mtime).Ok?
    ensures var u := KindRows(db, op, size, mtime).value;
            Since(db.nodes, db.tag, u) && forall i :: i in u ==> u[i].etag <= db.tag
  {
    hide UniquePaths, PathTaken, Rebase, Regraft;
    var t, u := db.nodes, KindRows(db, op, size, mtime).value;
    forall i | i in u
      ensures u[i].etag <= db.tag
      ensures i in t ==> (u[i].etag == t[i].etag && SameContent(t[i], u[i])) || u[i].etag >= db.tag
    {
      KindRow(db, op, size, mtime, i);
    }
  }

  /** A row as the kind's statements leave it: with a new revision, or with its content. */
  lemma KindRow(db: Db, op: Operation, size: int, mtime: int, i: Id)
    requires KindRows(db, op, size, mtime).Ok? && i in KindRows(db, op, size, mtime).value
    ensures var r := KindRows(db, op, size, mtime).value[i];
            r.etag == db.tag || (i in db.nodes && r.etag == db.nodes[i].etag && SameContent(db.nodes[i], r))
  {
    hide UniquePaths, PathTaken, Rebase, Regraft;
  }

  lemma CommitAdvances(db: Db, op: Operation, size: int, mtime: int)
    requires TagsOk(db) && Commit(db, op, size, mtime).Ok?
    ensures Advances(db, Commit(db, op, size, mtime).value)
  {
    hide KindRows, KindRetained, Refresh, Since;
    KindSince(db, op, size, mtime);
    RefreshSince(db.nodes, KindRows(db, op, size, mtime).value, {op.source, op.target}, db.tag);
  }

  lemma EditAdvances(db: Db, x: Id)
    requires TagsOk(db) && x in db.nodes
    ensures Advances(db, Edited(db, x)) && x in Edited(db, x).nodes && Edited(db, x).nodes[x].etag != db.nodes[x].etag
  {
    hide Refresh;
    var t := db.nodes[x := db.nodes[x].(etag := db.tag)];
    RefreshSince(db.nodes, t, {t[x].path}, db.tag);
    KeepsNew(t, {t[x].path}, db.tag, x);
  }

  lemma KeepsNew(t: Table, changed: set<Path>, tag: Tag, x: Id)
    requires x in t && t[x].etag == tag
    ensures x in Refresh(t, changed, tag) && Refresh(t, changed, tag)[x].etag == tag
  {
  }

  lemma PurgeAdvances(db: Db, key: OpId)
    requires TagsOk(db) && key in db.retained
    ensures Advances(db, Purged(db, key))
  {
    hide VersionsOf;
  }

  lemma ScanAdvances(db: Db, w: Walked, ids: map<Path, Id>, now: int, grace: int)
    requires TagsOk(db) && ScanInput(db.nodes, db.space, w, ids, now)
    ensures Advances(db, db.(nodes := Scanned(db.nodes, db.space, w, ids, db.tag, now, grace), tag := db.tag + 1))
  {
    hide Refresh, TreeOk, WalkOk, SameKinds, FreshIds;
    var t, tag := db.nodes, db.tag;
    var kept, added := Kept(t, db.space, w, ids, tag, now, grace), Added(t, db.space, w, ids, tag);
    var all: Table := kept + added;
    forall i | i in all
      ensures all[i].etag <= tag
      ensures i in t ==> (all[i].etag == t[i].etag && SameContent(t[i], all[i])) || all[i].etag >= tag
    {
      if i in added {
        var p := AddedFrom(t, db.space, w, ids, tag, i);
        AddedRow(t, db.space, w, ids, tag, p);
      }
    }
    RefreshSince(t, all, ChangedPaths(t, w), tag);
  }

  /** A commit draws a new revision for the node it writes and for the directories that
      lead to its public paths. */
  lemma CommitStamps(db: Db, op: Operation, size: int, mtime: int, i: Id)
    requires DbOk(db) && TagsOk(db) && Enabled(db, op) && Commit(db, op, size, mtime).Ok?
    requires i in Commit(db, op, size, mtime).value.nodes
    requires var row := Commit(db, op, size, mtime).value.nodes[i];
             || (i == op.node && op.kind != Trash)
             || (row.dir && !Reserved(op.target) && row.path <= op.target)
             || (row.dir && !Reserved(op.source) && row.path <= op.source)
    ensures Commit(db, op, size, mtime).value.nodes[i].etag == db.tag
    ensures i in db.nodes ==> db.nodes[i].etag != db.tag
  {
    hide TreeOk, KindRetained;
    if op.kind == Restore {
      assert TrashOk(db.nodes, op.id, db.retained[op.id]);
    }
  }

  /** Event numbers ascend, and the next one is above them all. */
  ghost predicate EventsOk(db: Db) {
    && (forall k :: 0 <= k < |db.outbox| ==> db.outbox[k].seqno < db.nextEvent)
    && (forall k, l :: 0 <= k < l < |db.outbox| ==> db.outbox[k].seqno < db.outbox[l].seqno)
  }

  /** What a committed operation has done: its node is at the target, in the named
      directory if it was placed; new content has its size and time and moved content
      keeps them; and exactly one event, the newest, names the node. */
  lemma CommitReports(db: Db, op: Operation, size: int, mtime: int)
    requires DbOk(db) && Enabled(db, op) && EventsOk(db) && Commit(db, op, size, mtime).Ok?
    ensures var after := Commit(db, op, size, mtime).value;
            && EventsOk(after) && |after.outbox| == |db.outbox| + 1 && after.outbox[..|db.outbox|] == db.outbox
            && after.outbox[|db.outbox|].node == op.node
            && (after.outbox[|db.outbox|].kind == DeletedEvent <==> op.kind == Trash)
            && op.node in after.nodes && after.nodes[op.node].path == op.target
            && (op.kind in {Create, Move, Restore} ==>
                  after.nodes[op.node].parent == op.row.parent && after.nodes[op.node].name == op.row.name)
            && (op.kind in {Create, Replace} ==>
                 after.nodes[op.node].size == size && after.nodes[op.node].mtime == mtime)
            && (op.kind in {Move, Trash, Restore} ==>
                 op.node in db.nodes && SameContent(db.nodes[op.node], after.nodes[op.node]))
  {
    hide TreeOk, KindRetained, EventsOk;
    EventAdded(db, op, size, mtime);
    RebaseSelf(op.source, op.target);
    if op.kind == Restore {
      assert TrashOk(db.nodes, op.id, db.retained[op.id]);
      RebaseSelf(op.row.path, op.target);
    }
  }

  lemma EventAdded(db: Db, op: Operation, size: int, mtime: int)
    requires EventsOk(db) && Commit(db, op, size, mtime).Ok?
    ensures EventsOk(Commit(db, op, size, mtime).value)
  {
    hide KindRows, KindRetained, Refresh;
  }
}
