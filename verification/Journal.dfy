/** Carrying out a journal entry on the mounted tree: renames, each of which can be
    the last thing that happens before a crash, and the committing transaction. */
module Journal {
  import opened Paths
  import opened Metadata
  import opened Trees
  import opened LockPlan
  import opened Scans
  import opened Files

  datatype State = State(files: Files, db: Db)

  datatype Verdict = Done | Stopped | Failed

  function Backup(op: Operation): Path {
    VersionPath(op.id)
  }

  predicate HasTree(f: Files, p: Path, t: Tree) {
    p in f && TreeAt(f, p) == t
  }

  /** The places an entry moves things between do not contain one another. */
  predicate PathsOk(op: Operation) {
    && Apart(op.source, op.target)
    && (op.kind == Replace ==> Apart(op.source, Backup(op)) && Apart(op.target, Backup(op)))
  }

  // ------------------------------------------------------------------ one effect at a time

  datatype Effect = Renames(files: Files) | Commits(db: Db) | Halts

  /** The next effect on an entry, decided afresh from what is on disk: this is what a
      recovery does that is cut off after one effect. */
  function NextEffect(s: State, op: Operation): Effect {
    var f := s.files;
    if op.kind == Replace && Backup(op) !in f then
      if HasTree(f, op.target, op.previous) && CanRename(f, op.target, Backup(op))
      then Renames(Rename(f, op.target, Backup(op))) else Halts
    else if op.kind == Replace && TreeAt(f, Backup(op)) != op.previous then Halts
    else if op.source in f && op.target !in f then
      if HasTree(f, op.source, op.digest) && CanRename(f, op.source, op.target)
      then Renames(Rename(f, op.source, op.target)) else Halts
    else if op.source !in f && HasTree(f, op.target, op.digest) then
      var c := Commit(s.db, op, f[op.target].size, f[op.target].mtime);
      if c.Ok? then Commits(c.value) else Halts
    else Halts
  }

  /** A recovery that stops, for whatever reason, before its effect number `effects`. */
  function Attempt(s: State, op: Operation, effects: nat): (State, Verdict)
    decreases effects
  {
    match NextEffect(s, op)
    case Halts => (s, Failed)
    case Renames(f) => if effects == 0 then (s, Stopped) else Attempt(s.(files := f), op, effects - 1)
    case Commits(d) => if effects == 0 then (s, Stopped) else (s.(db := d), Done)
  }

  /** The journal entry a request writes: what the trees are now, and the locks. */
  function Written(s: State, op: Operation, now: int): Outcome<Operation>
    requires UniquePaths(s.db.nodes)
  {
    var f := s.files;
    var e := op.(digest := TreeAt(f, op.source), previous := if op.kind == Replace then TreeAt(f, op.target)
        else map[], time := now);
    var locks := OpLocks(s.db.nodes, s.db.space, op);
    if op.source in f && (op.target in f <==> op.kind == Replace) && locks.Ok? && op.id !in s.db.ops
    then Ok(e.(locks := locks.value)) else Err
  }

  /** A new entry begins with everything where it was. */
  lemma WrittenStage(s: State, op: Operation, now: int)
    requires UniquePaths(s.db.nodes) && Written(s, op, now).Ok?
    requires op.kind == Replace ==> Backup(op) !in s.files
    ensures At(s.files, Written(s, op, now).value, if op.kind == Replace then 0 else 1)
  {
  }

  class Store {
    var files: Files
    var db: Db

    /** Writes the journal entry of a request and carries it out. A refused request
        changes nothing; the first effect is the durable entry. */
    method Apply(op: Operation, now: int, effects: nat) returns (v: Verdict)
      requires FilesOk(files) && PathsOk(op) && UniquePaths(db.nodes)
      modifies this
      ensures match Written(old(State(files, db)), op, now)
              case Err => v == Failed && State(files, db) == old(State(files, db))
              case Ok(e) =>
                var start := old(State(files, db));
                (State(files, db), v) ==
                  if effects == 0 then (start, Stopped)
                  else Attempt(start.(db := start.db.(ops := start.db.ops[op.id := e])), e, effects - 1)
    {
      hide TreeAt, OpLocks, Attempt;
      if op.target in files && op.kind != Replace { return Failed; }
      if op.source !in files { return Failed; }
      var entry := op.(digest := TreeAt(files, op.source));
      if op.kind == Replace {
        if op.target !in files { return Failed; }
        entry := entry.(previous := TreeAt(files, op.target));
      } else {
        entry := entry.(previous := map[]);
      }
      var locks := OpLocks(db.nodes, db.space, op);
      if locks.Err? { return Failed; }
      entry := entry.(locks := locks.value, time := now);
      if op.id in db.ops { return Failed; }
      if effects == 0 { return Stopped; }
      db := db.(ops := db.ops[op.id := entry]);
      v := Finish(entry, effects - 1);
    }

    /** Carries out an entry from wherever a crash has left it. One pass through the
        code amounts to deciding every effect afresh. */
    method Finish(op: Operation, effects: nat) returns (v: Verdict)
      requires FilesOk(files) && PathsOk(op)
      modifies this
      ensures (State(files, db), v) == Attempt(old(State(files, db)), op, effects)
    {
      hide Rename, TreeAt, Commit, Attempt, FilesOk, SameBelow, PathsOk, CanRename;
      var left := effects;
      if op.kind == Replace {
        var on;
        on, v, left := RetainPrevious(op, effects);
        if !on { return; }
      }
      AttemptOnce(State(files, db), op, left);
      if op.source in files && op.target !in files {
        if TreeAt(files, op.source) != op.digest { return Failed; }
        if !CanRename(files, op.source, op.target) { return Failed; }
        if left == 0 { return Stopped; }
        PlacedNow(files, op);
        files, left := Rename(files, op.source, op.target), left - 1;
        AttemptOnce(State(files, db), op, left);
      } else if op.source in files || op.target !in files {
        return Failed;
      }
      if TreeAt(files, op.target) != op.digest { return Failed; }
      var c := Commit(db, op, files[op.target].size, files[op.target].mtime);
      if c.Err? { return Failed; }
      if left == 0 { return Stopped; }
      db := c.value;
      return Done;
    }

    /** Moves the version that a replacement replaces to its backup, unless it is there
        already; `on` says whether to go on. */
    method RetainPrevious(op: Operation, effects: nat) returns (on: bool, v: Verdict, left: nat)
      requires FilesOk(files) && PathsOk(op) && op.kind == Replace
      modifies this`files
      ensures !on ==> (State(files, db), v) == Attempt(old(State(files, db)), op, effects)
      ensures on ==> FilesOk(files) && Backup(op) in files && TreeAt(files, Backup(op)) == op.previous
      ensures on ==> Attempt(State(files, db), op, left) == Attempt(old(State(files, db)), op, effects)
    {
      hide Rename, TreeAt, Commit, Attempt, NextEffect, FilesOk, SameBelow, PathsOk, CanRename;
      left := effects;
      AttemptOnce(State(files, db), op, effects);
      RetainEffect(State(files, db), op);
      if Backup(op) !in files {
        if op.target !in files || TreeAt(files, op.target) != op.previous { return false, Failed, left; }
        if !CanRename(files, op.target, Backup(op)) { return false, Failed, left; }
        if left == 0 { return false, Stopped, left; }
        RetainedNow(files, op);
        files, left := Rename(files, op.target, Backup(op)), left - 1;
        AttemptOnce(State(files, db), op, left);
        RetainEffect(State(files, db), op);
      }
      if TreeAt(files, Backup(op)) != op.previous { return false, Failed, left; }
      return true, Done, left;
    }
  }

  /** What a replacement does first. */
  lemma RetainEffect(s: State, op: Operation)
    requires op.kind == Replace
    ensures Backup(op) !in s.files ==>
              NextEffect(s, op) == if HasTree(s.files, op.target, op.previous) &&
                  CanRename(s.files, op.target, Backup(op))
                                   then Renames(Rename(s.files, op.target, Backup(op))) else Halts
    ensures Backup(op) in s.files && TreeAt(s.files, Backup(op)) != op.previous ==> NextEffect(s, op).Halts?
  {
    hide Rename, TreeAt, Commit;
  }

  lemma AttemptOnce(s: State, op: Operation, effects: nat)
    ensures Attempt(s, op, effects) ==
      match NextEffect(s, op)
      case Halts => (s, Failed)
      case Renames(f) => if effects == 0 then (s, Stopped) else Attempt(s.(files := f), op, effects - 1)
      case Commits(d) => if effects == 0 then (s, Stopped) else (s.(db := d), Done)
  {
  }

  /** After the previous version has been moved away, it is seen as such. */
  lemma RetainedNow(f: Files, op: Operation)
    requires FilesOk(f) && PathsOk(op) && op.kind == Replace
    requires HasTree(f, op.target, op.previous) && CanRename(f, op.target, Backup(op))
    ensures var g := Rename(f, op.target, Backup(op));
            && FilesOk(g) && HasTree(g, Backup(op), op.previous) && op.target !in g
            && SameBelow(f, g, op.source)
            && (op.source in g <==> op.source in f) && TreeAt(g, op.source) == TreeAt(f, op.source)
  {
    hide Rename, TreeAt;
    RenameMoves(f, op.target, Backup(op));
    RenameOk(f, op.target, Backup(op));
    RenameElsewhere(f, op.target, Backup(op), op.source);
    SameBelowTree(f, Rename(f, op.target, Backup(op)), op.source);
  }

  /** After the staged tree has been moved to the target, it is seen there. */
  lemma PlacedNow(f: Files, op: Operation)
    requires FilesOk(f) && PathsOk(op)
    requires HasTree(f, op.source, op.digest) && CanRename(f, op.source, op.target)
    ensures var g := Rename(f, op.source, op.target);
            && FilesOk(g) && HasTree(g, op.target, op.digest) && op.source !in g && g[op.target] == f[op.source]
            && (op.kind == Replace ==>
                 (Backup(op) in g <==> Backup(op) in f) && TreeAt(g, Backup(op)) == TreeAt(f, Backup(op)))
  {
    hide Rename, TreeAt;
    RenameMoves(f, op.source, op.target);
    RenameOk(f, op.source, op.target);
    if op.kind == Replace {
      RenameElsewhere(f, op.source, op.target, Backup(op));
      SameBelowTree(f, Rename(f, op.source, op.target), Backup(op));
    }
  }

  // ------------------------------------------------------------------ stages

  /** How far an entry has come: 0 with everything where it was, 1 with the previous
      version retained, 2 with the staged tree in place. Only a replacement has a
      previous version. */
  ghost predicate At(f: Files, op: Operation, stage: nat) {
    match stage
    case 0 => op.kind == Replace && HasTree(f, op.source, op.digest) && HasTree(f, op.target, op.previous) &&
        Backup(op) !in f
    case 1 => HasTree(f, op.source, op.digest) && op.target !in f &&
        (op.kind == Replace ==> HasTree(f, Backup(op), op.previous))
    case 2 => op.source !in f && HasTree(f, op.target, op.digest) &&
        (op.kind == Replace ==> HasTree(f, Backup(op), op.previous))
    case _ => false
  }

  /** There is somewhere to move things to. */
  ghost predicate Room(f: Files, op: Operation) {
    && FilesOk(f) && op.target != [] && IsDir(f, Up(op.target))
    && (op.kind == Replace ==> IsDir(f, Up(Backup(op))))
  }

  /** An entry whose files are under way. */
  ghost predicate OnTrack(f: Files, op: Operation, stage: nat) {
    At(f, op, stage) && Room(f, op) && PathsOk(op)
  }

  /** An entry that is under way, and whose rows can be written. */
  ghost predicate Pending(s: State, op: Operation, stage: nat) {
    OnTrack(s.files, op, stage) && DbOk(s.db) && Enabled(s.db, op)
  }

  /** The files that one effect leaves, from each stage but the last. */
  lemma StageMoves(s: State, op: Operation, stage: nat)
    requires OnTrack(s.files, op, stage) && stage < 2
    ensures var e := NextEffect(s, op);
            && e.Renames? && OnTrack(e.files, op, stage + 1)
            && (stage == 1 ==> e.files[op.target] == s.files[op.source])
            && (stage == 0 ==> e.files[op.source] == s.files[op.source])
            && forall q :: Apart(q, op.source) && Apart(q, op.target) && Apart(q, Backup(op)) ==>
                 SameBelow(s.files, e.files, q)
  {
    hide Rename, TreeAt, DbOk, Enabled, Commit, SameBelow;
    var f := s.files;
    if stage == 0 {
      RetainedNow(f, op);
      SourceKept(f, op);
      RoomKept(f, op, op.target, Backup(op));
      forall q | Apart(q, op.target) && Apart(q, Backup(op)) ensures SameBelow(f, Rename(f, op.target, Backup(op)), q) {
        RenameElsewhere(f, op.target, Backup(op), q);
      }
    } else {
      PlacedNow(f, op);
      RoomKept(f, op, op.source, op.target);
      forall q | Apart(q, op.source) && Apart(q, op.target) ensures SameBelow(f, Rename(f, op.source, op.target), q) {
        RenameElsewhere(f, op.source, op.target, q);
      }
    }
  }

  lemma SourceKept(f: Files, op: Operation)
    requires FilesOk(f) && PathsOk(op) && op.kind == Replace && op.source in f && Backup(op) !in f
    ensures op.source in Rename(f, op.target, Backup(op)) && Rename(f, op.target, Backup(op))[op.source] == f[op.source]
  {
    hide Rename;
    RenamedAt(f, op.target, Backup(op), op.source);
  }

  lemma RoomKept(f: Files, op: Operation, src: Path, dst: Path)
    requires Room(f, op) && PathsOk(op) && Apart(src, dst) && dst !in f
    requires (src == op.target && dst == Backup(op) && op.kind == Replace) || (src == op.source && dst == op.target)
    ensures IsDir(Rename(f, src, dst), Up(op.target))
    ensures op.kind == Replace ==> IsDir(Rename(f, src, dst), Up(Backup(op)))
  {
    hide Rename;
    RenamedAt(f, src, dst, Up(op.target));
    AlsoBelow(src, op.target);
    AlsoBelow(dst, op.target);
    NotBelowUp(op.target);
    if op.kind == Replace {
      RenamedAt(f, src, dst, Up(Backup(op)));
      AlsoBelow(src, Backup(op));
      AlsoBelow(dst, Backup(op));
      NotBelowUp(Backup(op));
    }
  }

  lemma NotBelowUp(p: Path)
    requires p != []
    ensures !(p <= Up(p))
  {
  }

  lemma StageCommits(s: State, op: Operation)
    requires Pending(s, op, 2)
    ensures var e := NextEffect(s, op);
            e.Commits? && Ok(e.db) == Commit(s.db, op, s.files[op.target].size, s.files[op.target].mtime)
  {
    hide TreeAt, DbOk, Enabled, Commit;
    CommitKeepsDb(s.db, op, s.files[op.target].size, s.files[op.target].mtime);
  }

  /** The entry that the staged tree's root had, and will have at the target. */
  function Root(op: Operation, stage: nat): Path {
    if stage < 2 then op.source else op.target
  }

  /** Where an attempt gets to from a stage, for every number of effects it manages. */
  lemma {:induction false} AttemptStages(s: State, op: Operation, stage: nat, effects: nat)
    requires Pending(s, op, stage)
    ensures stage <= 2 && Root(op, stage) in s.files
    ensures var (t, v) := Attempt(s, op, effects);
            var root := s.files[Root(op, stage)];
            && (v == if stage + effects < 3 then Stopped else Done)
            && (v == Stopped ==>
                  && t.db == s.db && Pending(t, op, stage + effects)
                  && Root(op, stage + effects) in t.files && t.files[Root(op, stage + effects)] == root)
            && (v == Done ==>
                  && At(t.files, op, 2) && Room(t.files, op) && t.files[op.target] == root
                  && Commit(s.db, op, root.size, root.mtime) == Ok(t.db))
            && forall q :: Apart(q, op.source) && Apart(q, op.target) && Apart(q, Backup(op)) ==>
                 SameBelow(s.files, t.files, q)
    decreases effects
  {
    hide NextEffect, DbOk, Enabled, Commit, TreeAt, Room, PathsOk;
    if stage < 2 {
      StageMoves(s, op, stage);
      if effects > 0 {
        AttemptStages(s.(files := NextEffect(s, op).files), op, stage + 1, effects - 1);
      }
    } else {
      StageCommits(s, op);
    }
  }

  // ------------------------------------------------------------------ crashes and re-runs

  /** Recovery reads the journal again; an entry that is gone needs nothing. */
  function Recover(s: State, id: OpId, effects: nat): State {
    if id in s.db.ops then Attempt(s, s.db.ops[id], effects).0 else s
  }

  /** What others may do to the files while an entry is pending. */
  ghost predicate Elsewhere(f: Files, g: Files, op: Operation) {
    && SameBelow(f, g, op.source) && SameBelow(f, g, op.target) && (op.kind == Replace ==> SameBelow(f, g, Backup(op)))
    && (Room(f, op) ==> Room(g, op))
  }

  /** What others may do: they work elsewhere, leave the entry in the journal and the
      operation possible, and do not write an entry with its ID again. */
  ghost predicate OutsideOk(s: State, t: State, op: Operation) {
    && Elsewhere(s.files, t.files, op)
    && (op.id in t.db.ops <==> op.id in s.db.ops)
    && (op.id in t.db.ops ==> t.db.ops[op.id] == op && DbOk(t.db) && Enabled(t.db, op))
  }

  /** A recovery that ends after some effects, or something that others do. */
  datatype Happening = Try(effects: nat) | Outside(to: State)

  ghost function After(s: State, op: Operation, hs: seq<Happening>): Outcome<State>
    decreases |hs|
  {
    if hs == [] then Ok(s)
    else
      var was := After(s, op, hs[..|hs| - 1]);
      if was.Err? then Err
      else
        match hs[|hs| - 1]
        case Try(effects) => Ok(Recover(was.value, op.id, effects))
        case Outside(t) => if OutsideOk(was.value, t, op) then Ok(t) else Err
  }

  /** The entry is in the journal and under way. */
  ghost predicate Journalled(s: State, op: Operation, stage: nat) {
    op.id in s.db.ops && s.db.ops[op.id] == op && Pending(s, op, stage)
  }

  /** The entry has been carried out. */
  ghost predicate Settled(s: State, op: Operation) {
    op.id !in s.db.ops && At(s.files, op, 2) && Room(s.files, op)
  }

  /** The entry is under way or has been carried out, and the root of the staged tree is
      what it was. */
  ghost predicate UnderControl(s: State, op: Operation, root: Entry) {
    || (Settled(s, op) && s.files[op.target] == root)
    || exists stage: nat :: Journalled(s, op, stage) && RootIs(s.files, op, stage, root)
  }

  ghost predicate RootIs(f: Files, op: Operation, stage: nat, root: Entry) {
    Root(op, stage) in f && f[Root(op, stage)] == root
  }

  lemma ElsewhereAt(f: Files, g: Files, op: Operation, stage: nat)
    requires Elsewhere(f, g, op) && At(f, op, stage)
    ensures At(g, op, stage)
  {
    hide TreeAt, SameBelow, Room;
    SameBelowTree(f, g, op.source);
    SameBelowTree(f, g, op.target);
    if op.kind == Replace { SameBelowTree(f, g, Backup(op)); }
  }

  lemma CommitUnlists(db: Db, op: Operation, size: int, mtime: int)
    requires Commit(db, op, size, mtime).Ok?
    ensures op.id !in Commit(db, op, size, mtime).value.ops
  {
    hide KindRows, KindRetained, Refresh;
  }

  lemma RecoverKeeps(s: State, op: Operation, effects: nat, root: Entry)
    requires UnderControl(s, op, root)
    ensures UnderControl(Recover(s, op.id, effects), op, root)
  {
    hide Attempt, At, Room, Pending, Commit;
    if op.id in s.db.ops {
      var stage: nat :| Journalled(s, op, stage) && RootIs(s.files, op, stage, root);
      AttemptStages(s, op, stage, effects);
      var t := Attempt(s, op, effects).0;
      if stage + effects < 3 {
        assert Journalled(t, op, stage + effects) && RootIs(t.files, op, stage + effects, root);
      } else {
        CommitUnlists(s.db, op, root.size, root.mtime);
      }
    }
  }

  lemma OutsideKeeps(s: State, t: State, op: Operation, root: Entry)
    requires UnderControl(s, op, root) && OutsideOk(s, t, op)
    ensures UnderControl(t, op, root)
  {
    hide TreeAt, Room, DbOk, Enabled;
    if op.id in s.db.ops {
      var stage: nat :| Journalled(s, op, stage) && RootIs(s.files, op, stage, root);
      ElsewhereAt(s.files, t.files, op, stage);
      assert Journalled(t, op, stage) && RootIs(t.files, op, stage, root);
    } else {
      ElsewhereAt(s.files, t.files, op, 2);
    }
  }

  lemma {:induction false} AlwaysUnderControl(s: State, op: Operation, stage: nat, hs: seq<Happening>)
    requires Journalled(s, op, stage) && After(s, op, hs).Ok?
    ensures Root(op, stage) in s.files && UnderControl(After(s, op, hs).value, op, s.files[Root(op, stage)])
    decreases |hs|
  {
    hide UnderControl, Recover, OutsideOk, Journalled;
    if hs == [] {
      Under(s, op, stage);
    } else {
      var n := |hs| - 1;
      AlwaysUnderControl(s, op, stage, hs[..n]);
      var was := After(s, op, hs[..n]).value;
      match hs[n]
      case Try(effects) => RecoverKeeps(was, op, effects, s.files[Root(op, stage)]);
      case Outside(t) => OutsideKeeps(was, t, op, s.files[Root(op, stage)]);
    }
  }

  lemma Under(s: State, op: Operation, stage: nat)
    requires Journalled(s, op, stage)
    ensures Root(op, stage) in s.files && UnderControl(s, op, s.files[Root(op, stage)])
  {
    hide TreeAt, Room, DbOk, Enabled;
    assert RootIs(s.files, op, stage, s.files[Root(op, stage)]);
  }

  /** No content is lost, at any time. The staged tree is at its source until it is at its
      target. The version it replaces is at the target until it is at the backup, and is
      there before the staged tree comes; so the target never holds both, and neither is
      ever at two places. */
  lemma OnePlace(s: State, op: Operation, stage: nat, hs: seq<Happening>)
    requires Journalled(s, op, stage) && After(s, op, hs).Ok?
    ensures var f := After(s, op, hs).value.files;
            && (op.source in f ==> HasTree(f, op.source, op.digest))
            && (op.source !in f ==> HasTree(f, op.target, op.digest))
            && (op.kind == Replace && Backup(op) in f ==> HasTree(f, Backup(op), op.previous))
            && (op.kind == Replace && Backup(op) !in f ==> HasTree(f, op.target, op.previous) && op.source in f)
            && (op.source in f && op.target in f ==> op.kind == Replace && Backup(op) !in f)
  {
    hide After, Pending, TreeAt, Room;
    AlwaysUnderControl(s, op, stage, hs);
    var now := After(s, op, hs).value;
    if !Settled(now, op) {
      var n: nat :| Journalled(now, op, n);
      UnderWay(now, op, n);
    }
  }

  lemma UnderWay(s: State, op: Operation, stage: nat)
    requires Journalled(s, op, stage)
    ensures At(s.files, op, stage) && stage <= 2
  {
    hide TreeAt, Room, DbOk, Enabled;
  }

  /** Crash convergence. However often recovery has been cut off, and whatever others
      did meanwhile, one undisturbed recovery brings the staged tree to its target and
      the previous version to its backup and commits the entry's rows, with the size and
      time that the staged root had at first; if an earlier one already has, it changes
      nothing. */
  lemma Converges(s: State, op: Operation, stage: nat, hs: seq<Happening>)
    requires Journalled(s, op, stage) && After(s, op, hs).Ok?
    ensures Root(op, stage) in s.files
    ensures var was := After(s, op, hs).value;
            var now := Recover(was, op.id, 3);
            var root := s.files[Root(op, stage)];
            && Settled(now, op) && now.files[op.target] == root
            && (op.id !in was.db.ops ==> now == was)
            && (op.id in was.db.ops ==> Commit(was.db, op, root.size, root.mtime) == Ok(now.db))
  {
    hide Attempt, At, Room, Pending, Commit;
    AlwaysUnderControl(s, op, stage, hs);
    var was, root := After(s, op, hs).value, s.files[Root(op, stage)];
    if op.id in was.db.ops {
      var n: nat :| Journalled(was, op, n) && RootIs(was.files, op, n, root);
      AttemptStages(was, op, n, 3);
      CommitUnlists(was.db, op, root.size, root.mtime);
    }
  }

  // ------------------------------------------------------------------ the same as without crashes

  /** An attempt cut off after `k` effects and one of `m` more are one of `k + m`. */
  lemma {:induction false} AttemptsAdd(s: State, op: Operation, k: nat, m: nat)
    requires Attempt(s, op, k).1 == Stopped
    ensures Attempt(Attempt(s, op, k).0, op, m) == Attempt(s, op, k + m)
    decreases k
  {
    hide NextEffect;
    if k > 0 {
      AttemptsAdd(s.(files := NextEffect(s, op).files), op, k - 1, m);
    }
  }

  /** Attempts that are all cut off before they commit. */
  function Tries(s: State, op: Operation, ks: seq<nat>): State
    decreases |ks|
  {
    if ks == [] then s else Recover(Tries(s, op, ks[..|ks| - 1]), op.id, ks[|ks| - 1])
  }

  function Sum(ks: seq<nat>): nat
    decreases |ks|
  {
    if ks == [] then 0 else Sum(ks[..|ks| - 1]) + ks[|ks| - 1]
  }

  lemma {:induction false} TriesAdd(s: State, op: Operation, stage: nat, ks: seq<nat>)
    requires Journalled(s, op, stage)
    ensures if stage + Sum(ks) < 3
            then Journalled(Tries(s, op, ks), op, stage + Sum(ks)) &&
                Attempt(s, op, Sum(ks)) == (Tries(s, op, ks), Stopped)
            else op.id !in Tries(s, op, ks).db.ops && Tries(s, op, ks) == Attempt(s, op, 3).0
    decreases |ks|
  {
    hide Pending, Attempt, At, Room, Commit;
    if ks == [] {
      AttemptStages(s, op, stage, 0);
      NoEffects(s, op);
    } else {
      var less, k := ks[..|ks| - 1], ks[|ks| - 1];
      TriesAdd(s, op, stage, less);
      var t := Tries(s, op, less);
      if stage + Sum(less) < 3 {
        AttemptStages(t, op, stage + Sum(less), k);
        AttemptsAdd(s, op, Sum(less), k);
        if stage + Sum(ks) >= 3 {
          var root := t.files[Root(op, stage + Sum(less))];
          CommitUnlists(t.db, op, root.size, root.mtime);
          EnoughEffects(s, op, stage, Sum(ks));
        }
      }
    }
  }

  lemma NoEffects(s: State, op: Operation)
    ensures Attempt(s, op, 0).0 == s
  {
  }

  /** More than the effects it takes make no difference. */
  lemma {:induction false} EnoughEffects(s: State, op: Operation, stage: nat, effects: nat)
    requires Pending(s, op, stage) && stage + effects >= 3
    ensures Attempt(s, op, effects) == Attempt(s, op, 3)
    decreases effects
  {
    hide Pending;
    AttemptStages(s, op, stage, effects);
    AttemptStages(s, op, stage, 3);
    if effects <= 3 { Saturates(s, op, effects, 3); } else { Saturates(s, op, 3, effects); }
  }

  lemma {:induction false} Saturates(s: State, op: Operation, k: nat, m: nat)
    requires Attempt(s, op, k).1 == Done && k <= m
    ensures Attempt(s, op, m) == Attempt(s, op, k)
    decreases k
  {
    hide NextEffect;
    if NextEffect(s, op).Renames? {
      Saturates(s.(files := NextEffect(s, op).files), op, k - 1, m - 1);
    }
  }

  /** Undisturbed, any series of cut-off recoveries followed by a complete one ends in
      exactly the files and the database of a single complete run. */
  lemma SameAsWithoutCrashes(s: State, op: Operation, stage: nat, ks: seq<nat>)
    requires Journalled(s, op, stage)
    ensures Recover(Tries(s, op, ks), op.id, 3) == Recover(s, op.id, 3)
  {
    hide Pending, Attempt;
    TriesAdd(s, op, stage, ks);
    if stage + Sum(ks) < 3 {
      AttemptsAdd(s, op, Sum(ks), 3);
      EnoughEffects(s, op, stage, Sum(ks) + 3);
    }
  }

  // ------------------------------------------------------------------ any files at all

  ghost predicate Carried(f: Files, g: Files, to: map<Path, Path>) {
    to.Keys == f.Keys && forall p :: p in f ==> to[p] in g && g[to[p]] == f[p]
  }

  ghost predicate Injective(to: map<Path, Path>) {
    forall p, q :: p in to && q in to && to[p] == to[q] ==> p == q
  }

  ghost predicate Onto(g: Files, to: map<Path, Path>) {
    forall q :: q in g ==> exists p :: p in to && to[p] == q
  }

  /** The same entries, each perhaps at another path. */
  ghost predicate Relocated(f: Files, g: Files, to: map<Path, Path>) {
    Carried(f, g, to) && Injective(to) && Onto(g, to)
  }

  function Carriage(f: Files, src: Path, dst: Path): map<Path, Path> {
    map p | p in f :: if src <= p then Rebase(p, src, dst) else p
  }

  lemma RenameCarries(f: Files, src: Path, dst: Path)
    requires FilesOk(f) && Apart(src, dst) && dst !in f
    ensures Carried(f, Rename(f, src, dst), Carriage(f, src, dst))
  {
    hide Rename;
    forall p | p in f
      ensures Carriage(f, src, dst)[p] in Rename(f, src, dst) && Rename(f, src, dst)[Carriage(f, src, dst)[p]] == f[p]
    {
      if src <= p {
        RenamedAt(f, src, dst, Rebase(p, src, dst));
        RebaseBack(p, src, dst);
      } else {
        RenamedAt(f, src, dst, p);
        if dst <= p { NothingBelow(f, dst, p); }
      }
    }
  }

  lemma RenameInjective(f: Files, src: Path, dst: Path)
    requires FilesOk(f) && Apart(src, dst) && dst !in f
    ensures Injective(Carriage(f, src, dst))
  {
    forall p | p in f ensures !(dst <= p) {
      if dst <= p { NothingBelow(f, dst, p); }
    }
    forall p, q | p in f && q in f && src <= p && src <= q && Rebase(p, src, dst) == Rebase(q, src, dst)
      ensures p == q
    {
      RebaseInjective(p, q, src, dst);
    }
  }

  lemma RenameOnto(f: Files, src: Path, dst: Path)
    requires FilesOk(f) && Apart(src, dst) && dst !in f
    ensures Onto(Rename(f, src, dst), Carriage(f, src, dst))
  {
    hide Rename;
    forall q | q in Rename(f, src, dst)
      ensures exists p :: p in Carriage(f, src, dst) && Carriage(f, src, dst)[p] == q
    {
      RenamedAt(f, src, dst, q);
      if dst <= q {
        RebaseBack(q, dst, src);
        assert Carriage(f, src, dst)[Rebase(q, dst, src)] == q;
      } else {
        assert Carriage(f, src, dst)[q] == q;
      }
    }
  }

  lemma RenameRelocates(f: Files, src: Path, dst: Path)
    requires FilesOk(f) && Apart(src, dst) && dst !in f
    ensures Relocated(f, Rename(f, src, dst), Carriage(f, src, dst))
  {
    hide Rename, Carriage, Carried, Injective, Onto;
    RenameCarries(f, src, dst);
    RenameInjective(f, src, dst);
    RenameOnto(f, src, dst);
  }

  lemma RelocatedTwice(f: Files, g: Files, h: Files, a: map<Path, Path>, b: map<Path, Path>)
      returns (c: map<Path, Path>)
    requires Relocated(f, g, a) && Relocated(g, h, b)
    ensures Relocated(f, h, c)
  {
    hide Injective, Onto;
    c := map p | p in f :: b[a[p]];
    OntoTwice(g, h, a, b, c);
    InjectiveTwice(a, b, c);
  }

  lemma OntoTwice(g: Files, h: Files, a: map<Path, Path>, b: map<Path, Path>, c: map<Path, Path>)
    requires Onto(g, a) && Onto(h, b) && b.Keys == g.Keys && c.Keys == a.Keys
    requires forall p :: p in a ==> a[p] in b && c[p] == b[a[p]]
    ensures Onto(h, c)
  {
    forall q | q in h ensures exists p :: p in c && c[p] == q {
      var r :| r in b && b[r] == q;
      var p :| p in a && a[p] == r;
      assert c[p] == q;
    }
  }

  lemma InjectiveTwice(a: map<Path, Path>, b: map<Path, Path>, c: map<Path, Path>)
    requires Injective(a) && Injective(b) && c.Keys == a.Keys
    requires forall p :: p in a ==> a[p] in b && c[p] == b[a[p]]
    ensures Injective(c)
  {
  }

  /** Conservation: whatever the files are, a recovery that succeeds, fails or is cut
      off leaves every entry unchanged somewhere, makes none up and overwrites none;
      and unless it completes it leaves the database, so the journal, alone. */
  lemma {:induction false} AttemptConserves(s: State, op: Operation, effects: nat) returns (to: map<Path, Path>)
    requires FilesOk(s.files) && PathsOk(op)
    ensures var (t, v) := Attempt(s, op, effects);
            FilesOk(t.files) && Relocated(s.files, t.files, to) && (v != Done ==> t.db == s.db)
    decreases effects
  {
    hide Rename, Commit, TreeAt, Relocated, FilesOk;
    var e := NextEffect(s, op);
    if e.Renames? && effects > 0 {
      var src, dst := if op.kind == Replace && Backup(op) !in s.files then op.target else op.source,
                      if op.kind == Replace && Backup(op) !in s.files then Backup(op) else op.target;
      RenameOk(s.files, src, dst);
      RenameRelocates(s.files, src, dst);
      var rest := AttemptConserves(s.(files := e.files), op, effects - 1);
      to := RelocatedTwice(s.files, e.files, Attempt(s, op, effects).0.files, Carriage(s.files, src, dst), rest);
    } else {
      to := map p | p in s.files :: p;
      assert Relocated(s.files, s.files, to) by { Unmoved(s.files); }
    }
  }

  lemma Unmoved(f: Files)
    ensures Relocated(f, f, map p | p in f :: p)
  {
    var to := map p | p in f :: p;
    forall q | q in f ensures exists p :: p in to && to[p] == q {
      assert to[q] == q;
    }
  }

  /** Recovery completes exactly when it finds the files at one of the stages; anything
      else is reported and left for the operator. */
  lemma CompletesIff(s: State, op: Operation)
    requires Room(s.files, op) && PathsOk(op) && DbOk(s.db) && Enabled(s.db, op)
    ensures Attempt(s, op, 3).1 == Done <==> exists stage: nat :: At(s.files, op, stage)
  {
    hide Rename, TreeAt, Commit, DbOk, Enabled, Attempt, At, NextEffect, HasTree;
    if exists stage: nat :: At(s.files, op, stage) {
      var stage: nat :| At(s.files, op, stage);
      AttemptStages(s, op, stage, 3);
    } else {
      AttemptOnce(s, op, 3);
      if op.kind == Replace && Backup(op) !in s.files {
        StuckEarly(s, op);
        if NextEffect(s, op).Renames? {
          AttemptOnce(s.(files := NextEffect(s, op).files), op, 2);
        }
      } else {
        StuckLate(s, op);
      }
    }
  }

  lemma StuckLate(s: State, op: Operation)
    requires (op.kind == Replace ==> Backup(op) in s.files) && !At(s.files, op, 1) && !At(s.files, op, 2)
    ensures NextEffect(s, op).Halts?
  {
    hide Rename, TreeAt, Commit;
  }

  lemma StuckEarly(s: State, op: Operation)
    requires FilesOk(s.files) && PathsOk(op) && op.kind == Replace && Backup(op) !in s.files && !At(s.files, op, 0)
    ensures var e := NextEffect(s, op);
            !e.Commits? && (e.Renames? ==> NextEffect(s.(files := e.files), op).Halts?)
  {
    hide Rename, TreeAt, Commit;
    if NextEffect(s, op).Renames? {
      RetainedNow(s.files, op);
    }
  }

  /** The rows of a new node can be written exactly when no row, live or missing, has its
      path: the request has only looked at the files, so a row still marked missing
      there keeps the entry pending. */
  lemma CreateCompletesIff(s: State, op: Operation, stage: nat)
    requires OnTrack(s.files, op, stage) && op.kind == Create && op.node !in s.db.nodes
    requires op.session != "" ==> op.session in s.db.uploads
    ensures Attempt(s, op, 3).1 == Done <==> !PathTaken(s.db.nodes, op.target)
  {
    hide Attempt, NextEffect, Refresh, Room, PathsOk;
    AttemptOnce(s, op, 3);
    if stage == 1 {
      StageMoves(s, op, 1);
      var t := s.(files := NextEffect(s, op).files);
      AttemptOnce(t, op, 2);
      CreateCommits(t, op);
    } else {
      CreateCommits(s, op);
    }
  }

  lemma CreateCommits(s: State, op: Operation)
    requires OnTrack(s.files, op, 2) && op.kind == Create && op.node !in s.db.nodes
    requires op.session != "" ==> op.session in s.db.uploads
    ensures NextEffect(s, op).Commits? <==> !PathTaken(s.db.nodes, op.target)
    ensures !NextEffect(s, op).Renames?
  {
    hide TreeAt, Refresh, Room;
  }
}
