/** Purging a trash entry: its content is removed piece by piece, and its metadata only
    when all of it is gone, so that a purge that was cut off can be repeated. */
module Purges {
  import opened Collections
  import opened Paths
  import opened Metadata
  import opened Files
  import opened Journal

  predicate Purgeable(db: Db, key: OpId) {
    key in db.retained && db.retained[key].kind == TrashItem
  }

  /** The versions of the entry's nodes. */
  function Owned(db: Db, key: OpId): set<OpId>
    requires key in db.retained
  {
    VersionsOf(db, db.retained[key].snapshot)
  }

  /** What a complete purge removes. */
  predicate Doomed(db: Db, key: OpId, p: Path)
    requires key in db.retained
  {
    TrashPath(key) <= p || exists v :: v in Owned(db, key) && p == VersionPath(v)
  }

  function Remaining(f: Files, db: Db, key: OpId): Files
    requires key in db.retained
  {
    map p | p in f && !Doomed(db, key, p) :: f[p]
  }

  function Homes(versions: seq<OpId>): seq<Path> {
    seq(|versions|, k requires 0 <= k < |versions| => VersionPath(versions[k]))
  }

  /** One purge: the versions in the order the database lists them, and what is below the
      entry's place in the order in which it is unlinked. */
  datatype Try = Try(versions: seq<OpId>, below: seq<Path>, effects: nat)

  /** The lists are those that the database and the mount give. */
  ghost predicate Fits(s: State, key: OpId, y: Try) {
    && Purgeable(s.db, key)
    && Elements(y.versions) == Owned(s.db, key)
    && forall p :: p in y.below <==> p in s.files && TrashPath(key) <= p
  }

  function Unlinked(y: Try): seq<Path> {
    Homes(y.versions) + y.below
  }

  /** Where a purge gets to with a number of effects; the last one is the transaction. */
  function Attempted(s: State, key: OpId, y: Try): (State, Verdict) {
    var all := Unlinked(y);
    if !Purgeable(s.db, key) then (s, Failed)
    else if y.effects <= |all| then (s.(files := s.files - Elements(all[..y.effects])), Stopped)
    else (State(s.files - Elements(all), Purged(s.db, key)), Done)
  }

  class Mounted {
    var files: Files
    var db: Db

    method Purge(key: OpId, y: Try) returns (v: Verdict)
      requires Purgeable(db, key) ==> Fits(State(files, db), key, y)
      modifies this
      ensures (State(files, db), v) == Attempted(old(State(files, db)), key, y)
    {
      hide Fits, Purged, Owned;
      if key !in db.retained || db.retained[key].kind != TrashItem { return Failed; }
      ghost var all := Unlinked(y);
      assert files - Elements(all[..0]) == files;
      for k := 0 to |y.versions|
        invariant k <= y.effects && files == old(files) - Elements(all[..k]) && db == old(db)
      {
        if k == y.effects { return Stopped; }
        OneGone(old(files), all, k);
        files := files - {VersionPath(y.versions[k])};
      }
      for k := 0 to |y.below|
        invariant |y.versions| + k <= y.effects && files == old(files) - Elements(all[..|y.versions| + k])
        invariant db == old(db)
      {
        if |y.versions| + k == y.effects { return Stopped; }
        OneGone(old(files), all, |y.versions| + k);
        files := files - {y.below[k]};
      }
      assert all[..|all|] == all;
      if y.effects == |y.versions| + |y.below| { return Stopped; }
      db := Purged(db, key);
      return Done;
    }
  }

  lemma OneGone(f: Files, all: seq<Path>, k: nat)
    requires k < |all|
    ensures (f - Elements(all[..k])) - {all[k]} == f - Elements(all[..k + 1])
  {
    assert all[..k + 1] == all[..k] + [all[k]];
    assert Elements(all[..k + 1]) == Elements(all[..k]) + {all[k]};
  }

  /** Only what is doomed is unlinked, and all of it. */
  lemma UnlinksDoomed(s: State, key: OpId, y: Try, p: Path)
    requires Fits(s, key, y)
    ensures p in Unlinked(y) ==> Doomed(s.db, key, p)
    ensures p in s.files && Doomed(s.db, key, p) ==> p in Unlinked(y)
  {
    if p in Unlinked(y) && p !in y.below {
      var k :| 0 <= k < |y.versions| && p == Homes(y.versions)[k];
      assert y.versions[k] in Elements(y.versions);
    }
    if Doomed(s.db, key, p) && p in s.files && !(TrashPath(key) <= p) {
      var v :| v in Owned(s.db, key) && p == VersionPath(v);
      assert v in Elements(y.versions);
      var k :| 0 <= k < |y.versions| && y.versions[k] == v;
      assert Unlinked(y)[k] == p;
    }
  }

  /** A purge that was cut off has changed nothing in the database and no file but those it
      is to remove; a complete one has removed exactly those. */
  lemma AttemptMeans(s: State, key: OpId, y: Try)
    requires Fits(s, key, y)
    ensures var (t, v) := Attempted(s, key, y);
            && v != Failed
            && (v == Stopped ==> t.db == s.db && Remaining(t.files, s.db, key) == Remaining(s.files, s.db, key))
            && (v == Done ==> t == State(Remaining(s.files, s.db, key), Purged(s.db, key)))
            && forall p :: p in t.files ==> p in s.files && t.files[p] == s.files[p]
  {
    hide Doomed, Purged, Fits;
    FitsPurgeable(s, key, y);
    var all := Unlinked(y);
    forall p ensures (p in all ==> Doomed(s.db, key, p)) && (p in s.files && Doomed(s.db, key, p) ==> p in all) {
      UnlinksDoomed(s, key, y, p);
    }
    var n := if y.effects <= |all| then y.effects else |all|;
    forall p | p in all[..n] ensures p in all {}
    assert Remaining(s.files - Elements(all[..n]), s.db, key) == Remaining(s.files, s.db, key);
    assert s.files - Elements(all) == Remaining(s.files, s.db, key);
  }

  lemma FitsPurgeable(s: State, key: OpId, y: Try)
    requires Fits(s, key, y)
    ensures Purgeable(s.db, key)
  {
  }

  /** A series of purges of the same entry, each with what it finds. */
  ghost predicate Series(s: State, key: OpId, ys: seq<Try>)
    decreases |ys|
  {
    ys != [] ==> (Purgeable(s.db, key) ==> Fits(s, key, ys[0])) && Series(Attempted(s, key, ys[0]).0, key, ys[1..])
  }

  function AllDone(s: State, key: OpId, ys: seq<Try>): State
    decreases |ys|
  {
    if ys == [] then s else AllDone(Attempted(s, key, ys[0]).0, key, ys[1..])
  }

  lemma PurgedGone(db: Db, key: OpId)
    requires key in db.retained
    ensures !Purgeable(Purged(db, key), key)
  {
  }

  lemma {:induction false} NothingLeft(s: State, key: OpId, ys: seq<Try>)
    requires !Purgeable(s.db, key)
    ensures AllDone(s, key, ys) == s
    decreases |ys|
  {
    if ys != [] { NothingLeft(s, key, ys[1..]); }
  }

  predicate SomeComplete(s: State, key: OpId, ys: seq<Try>)
    decreases |ys|
  {
    ys != [] && (Attempted(s, key, ys[0]).1 == Done || SomeComplete(Attempted(s, key, ys[0]).0, key, ys[1..]))
  }

  /** Any series of purges, cut off anywhere, in which one gets to its end, leaves exactly
      what a single undisturbed purge leaves. */
  lemma {:induction false} PurgeConverges(s: State, key: OpId, ys: seq<Try>)
    requires Purgeable(s.db, key) && Series(s, key, ys) && SomeComplete(s, key, ys)
    ensures AllDone(s, key, ys) == State(Remaining(s.files, s.db, key), Purged(s.db, key))
    decreases |ys|
  {
    hide Attempted, Fits, Purged, Doomed;
    AttemptMeans(s, key, ys[0]);
    var t := Attempted(s, key, ys[0]).0;
    if Attempted(s, key, ys[0]).1 == Done {
      PurgedGone(s.db, key);
      NothingLeft(t, key, ys[1..]);
    } else {
      PurgeConverges(t, key, ys[1..]);
    }
  }
}
