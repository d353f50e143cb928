/** Rewriting the paths of many rows one row at a time, when each row's new path has to
    be free at that moment. */
module RowUpdates {
  import opened Paths
  import opened Metadata
  import opened Files

  /** The table when the rows in `done` are as in `u` and the others still as in `t`. */
  function Part(t: Table, u: Table, done: set<Id>): Table {
    map i | i in t :: if i in done && i in u then u[i] else t[i]
  }

  /** No row goes to a place that another row is about to leave. */
  ghost predicate Settling(t: Table, u: Table) {
    && t.Keys == u.Keys && UniquePaths(t)
    && forall i, j :: i in t && j in t && i != j && u[i].path == t[j].path ==> u[j].path == t[j].path
  }

  /** Another row has this path. */
  predicate Occupied(m: Table, i: Id, p: Path) {
    exists j :: j in m && j != i && m[j].path == p
  }

  /** If a row's new path is taken on the way, it is taken in the end. */
  lemma Clash(t: Table, u: Table, done: set<Id>, i: Id)
    requires Settling(t, u) && i in t && Occupied(Part(t, u, done), i, u[i].path)
    ensures !UniquePaths(u)
  {
    var j :| j in t && j != i && Part(t, u, done)[j].path == u[i].path;
    assert u[j].path == u[i].path;
  }

  lemma OneMore(t: Table, u: Table, done: set<Id>, i: Id)
    requires t.Keys == u.Keys && i in t && UniquePaths(Part(t, u, done)) && !Occupied(Part(t, u, done), i, u[i].path)
    ensures Part(t, u, done)[i := u[i]] == Part(t, u, done + {i}) && UniquePaths(Part(t, u, done + {i}))
  {
    hide UniquePaths, Occupied;
    assert Part(t, u, done)[i := u[i]] == Part(t, u, done + {i});
    StillUnique(Part(t, u, done), i, u[i]);
  }

  lemma StillUnique(m: Table, i: Id, r: Row)
    requires UniquePaths(m) && i in m && !Occupied(m, i, r.path)
    ensures UniquePaths(m[i := r])
  {
  }

  lemma Whole(t: Table, u: Table, done: set<Id>)
    requires t.Keys == u.Keys && forall i :: i in t && i !in done ==> u[i] == t[i]
    ensures Part(t, u, done) == u
  {
  }

  lemma NoneYet(t: Table, u: Table)
    ensures Part(t, u, {}) == t
  {
  }

  // ------------------------------------------------------------------ the two rewrites

  /** Moving a subtree to a place that does not contain it and is not inside it. */
  lemma RebaseSettling(t: Table, src: Path, dst: Path)
    requires UniquePaths(t) && Apart(src, dst)
    ensures Settling(t, RebaseRows(t, src, dst))
  {
    var u := RebaseRows(t, src, dst);
    forall i, j | i in t && j in t && i != j && u[i].path == t[j].path ensures u[j].path == t[j].path {
      if src <= t[i].path && src <= t[j].path {
        PrefixesCompare(src, dst, t[j].path);
      }
    }
  }

  /** The rows of a restore. */
  function RestoredRows(t: Table, op: Operation, tag: Tag): Table {
    map i | i in t :: if i in op.snapshot then RestoredRow(t[i], op, i, tag) else t[i]
  }

  /** Restoring to a place that none of the rows is at now. */
  lemma RestoreSettling(t: Table, op: Operation, tag: Tag)
    requires UniquePaths(t) && forall i :: i in t && i in op.snapshot ==> !(op.target <= t[i].path)
    ensures Settling(t, RestoredRows(t, op, tag))
  {
    var u := RestoredRows(t, op, tag);
    forall i, j | i in t && j in t && i != j && u[i].path == t[j].path ensures u[j].path == t[j].path {
      if i in op.snapshot {
        assert op.target <= u[i].path;
      }
    }
  }
}
