/** Journal entries with disjoint locks do not touch each other's files. */
module JournalPeers {
  import opened Paths
  import opened Metadata
  import opened Trees
  import opened LockPlan
  import opened Interference
  import opened Scans
  import opened Files
  import opened Journal

  /** New content is staged under a fresh name in the driver's own directory. */
  predicate Staged(op: Operation) {
    op.kind in {Create, Replace} ==> |op.source| == 3 && op.source[0] == CONTROL && op.source[1] == TMP
  }

  predicate StagedApart(o1: Operation, o2: Operation) {
    o1.kind in {Create, Replace} && o2.kind in {Create, Replace} ==> o1.source != o2.source
  }

  /** The top of every tree that an entry moves, and of every place it moves one to. */
  function Roots(op: Operation): set<Path> {
    {op.source, op.target} + (if op.kind == Replace then {Backup(op)} else {})
  }

  predicate PublicRoot(p: Path) {
    p != [] && !Reserved(p)
  }

  /** A root in the driver's own directory. */
  predicate OwnRoot(p: Path) {
    |p| == 3 && p[0] == CONTROL
  }

  lemma RootKinds(db: Db, op: Operation, p: Path)
    requires TreeOk(db.nodes, db.space) && Enabled(db, op) && Staged(op) && p in Roots(op)
    ensures PublicRoot(p) || OwnRoot(p)
    ensures PublicRoot(p) ==>
            (HasPlace(op) && p == op.target) || (HasSource(op) && op.node in db.nodes && p == db.nodes[op.node].path)
    ensures OwnRoot(p) ==>
            p[1..] == [TRASH, op.id] || p[1..] == [VERSIONS, op.id] ||
                (p == op.source && p[1] == TMP && op.kind in {Create, Replace})
  {
    hide AllParented, AllLinked, AllLive, TrashShaped, UniquePaths;
    EnabledPaths(db, op);
    if HasSource(op) { NodeNotRoot(db, op); }
    if HasPlace(op) { assert op.target[|op.target| - 1] == op.row.name; }
  }

  lemma NodeNotRoot(db: Db, op: Operation)
    requires TreeOk(db.nodes, db.space) && Enabled(db, op) && HasSource(op)
    ensures op.node in db.nodes && op.node != db.space && db.nodes[op.node].path != []
  {
    RootOnly(db.nodes, db.space, op.node);
  }

  lemma OwnRootsApart(p: Path, q: Path)
    requires OwnRoot(p) && OwnRoot(q) && p[1..] != q[1..]
    ensures Apart(p, q)
  {
  }

  lemma PublicOwnApart(p: Path, q: Path)
    requires PublicRoot(p) && OwnRoot(q)
    ensures Apart(p, q) && Apart(q, p)
  {
  }

  lemma PublicApart(db: Db, o1: Operation, o2: Operation, p: Path, q: Path)
    requires Disjoint(db, o1, o2)
    requires (HasPlace(o1) && p == o1.target) || (HasSource(o1) && o1.node in db.nodes && p == db.nodes[o1.node].path)
    requires (HasPlace(o2) && q == o2.target) || (HasSource(o2) && o2.node in db.nodes && q == db.nodes[o2.node].path)
    ensures Apart(p, q)
  {
    hide TreeOk, Enabled, OpLocks, HeldTo, RetainedOk;
    DisjointHolds(db, o1, o2);
    EnabledPaths(db, o1);
    EnabledPaths(db, o2);
    if HasPlace(o1) && p == o1.target {
      if HasPlace(o2) && q == o2.target {
        PlacesApart(db, o1, o2);
      } else {
        PlaceApart(db, o1, o2);
      }
    } else if HasPlace(o2) && q == o2.target {
      PlaceApart(db, o2, o1);
    } else {
      SourcesApart(db, o1, o2);
    }
  }

  lemma PlacesApart(db: Db, o1: Operation, o2: Operation)
    requires Disjoint(db, o1, o2) && HasPlace(o1) && HasPlace(o2)
    ensures Apart(o1.target, o2.target)
  {
    hide AllParented, AllLinked, AllLive, TrashShaped, Enabled, OpLocks, HeldTo, RetainedOk;
    DisjointHolds(db, o1, o2);
    EnabledPaths(db, o1);
    EnabledPaths(db, o2);
    OtherPlace(db, o1, OpLocks(db.nodes, db.space, o2).value, o2.row.parent, o2.row.name);
    OtherPlace(db, o2, OpLocks(db.nodes, db.space, o1).value, o1.row.parent, o1.row.name);
  }

  /** The roots of two entries with disjoint locks do not contain one another. */
  lemma RootsApart(db: Db, o1: Operation, o2: Operation, p: Path, q: Path)
    requires Disjoint(db, o1, o2) && Staged(o1) && Staged(o2) && StagedApart(o1, o2)
    requires p in Roots(o1) && q in Roots(o2)
    ensures Apart(p, q)
  {
    hide TreeOk, Enabled, OpLocks, RetainedOk, Conflict, Roots;
    RootKinds(db, o1, p);
    RootKinds(db, o2, q);
    if PublicRoot(p) && PublicRoot(q) {
      PublicApart(db, o1, o2, p, q);
    } else if PublicRoot(p) {
      PublicOwnApart(p, q);
    } else if PublicRoot(q) {
      PublicOwnApart(q, p);
    } else {
      assert p[1..][0] == p[1] && q[1..][0] == q[1];
      assert p == [CONTROL] + p[1..] && q == [CONTROL] + q[1..];
      OwnRootsApart(p, q);
    }
  }

  /** An enabled, staged entry's own places are apart. */
  lemma OwnPathsOk(db: Db, op: Operation)
    requires TreeOk(db.nodes, db.space) && Enabled(db, op) && Staged(op)
    ensures PathsOk(op) && op.target != []
  {
    hide AllParented, AllLinked, AllLive, TrashShaped, UniquePaths;
    RootKinds(db, op, op.source);
    RootKinds(db, op, op.target);
    if op.kind == Move {
      EnabledPaths(db, op);
    }
  }

  /** Carrying out one entry leaves alone the files that another with disjoint locks
      depends on: it is one of the others that the other's recovery tolerates. */
  lemma PeerElsewhere(s: State, o1: Operation, o2: Operation)
    requires Disjoint(s.db, o1, o2) && Staged(o1) && Staged(o2) && StagedApart(o1, o2)
    requires FilesOk(s.files) && NextEffect(s, o1).Renames?
    ensures Elsewhere(s.files, NextEffect(s, o1).files, o2)
  {
    hide TreeOk, Enabled, OpLocks, RetainedOk, Conflict, Rename, TreeAt, Roots, SameBelow, Commit;
    var f := s.files;
    var early := o1.kind == Replace && Backup(o1) !in f;
    var src, dst := if early then o1.target else o1.source, if early then Backup(o1) else o1.target;
    OwnPathsOk(s.db, o1);
    OwnPathsOk(s.db, o2);
    InRoots(o1);
    InRoots(o2);
    forall q | q in Roots(o2) ensures SameBelow(f, Rename(f, src, dst), q) && Apart(q, src) && Apart(q, dst) {
      RootsApart(s.db, o1, o2, src, q);
      RootsApart(s.db, o1, o2, dst, q);
      RenameElsewhere(f, src, dst, q);
    }
    RenameOk(f, src, dst);
    if Room(f, o2) {
      UpKept(f, src, dst, o2.target);
      if o2.kind == Replace { UpKept(f, src, dst, Backup(o2)); }
    }
  }

  lemma InRoots(op: Operation)
    ensures op.source in Roots(op) && op.target in Roots(op) && (op.kind == Replace ==> Backup(op) in Roots(op))
  {
  }

  lemma UpKept(f: Files, src: Path, dst: Path, q: Path)
    requires FilesOk(f) && Apart(src, dst) && dst !in f && Apart(q, src) && Apart(q, dst) && q != [] && IsDir(f, Up(q))
    ensures IsDir(Rename(f, src, dst), Up(q))
  {
    hide Rename;
    AlsoBelow(src, q);
    AlsoBelow(dst, q);
    RenamedAt(f, src, dst, Up(q));
  }
}
