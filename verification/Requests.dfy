/** From a request to the journal entry it asks for: looking up references, the checks
    made under the locks, and which locks the request asked for. */
module Requests {
  import opened Paths
  import opened Metadata
  import opened Trees
  import opened LockPlan
  import opened LockCoverage

  function TempPath(id: string): Path {
    [CONTROL, TMP, id]
  }

  /** A request, with the UUIDs it draws: `node` for a new node, `id` for the entry and
      `tmp` for the place its content is staged at. `item` is the node of the trash
      entry `key` as read before locking; `expected` is "" if the upload began with a
      free name; `disk` is what the mount says of the file that is to be replaced. */
  datatype Request =
    | CreateDir(at: Ref, node: Id, id: OpId, tmp: string)
    | TouchFile(at: Ref, node: Id, id: OpId, tmp: string)
    | MoveNode(src: Ref, dst: Ref, id: OpId)
    | Delete(at: Ref, id: OpId)
    | RestoreItem(key: OpId, item: Id, dst: Ref)
    | RestoreRevision(at: Ref, key: OpId, id: OpId, tmp: string, disk: Outcome<Stat>)
    | FinishUpload(parent: Id, name: Name, expected: Id, revision: Tag, node: Id, id: OpId, tmp: string, session: Id,
        disk: Outcome<Stat>)

  /** A file's size and time on the mount. */
  datatype Stat = Stat(size: int, mtime: int)

  datatype Reply = Refuse | Nothing | Apply(op: Operation)

  /** A reference without a base is one from the space root; requests here all write. */
  function Full(space: Id, r: Ref): Ref {
    Ref(if r.base == "" then space else r.base, r.path, true)
  }

  /** The references a request locks before it looks at anything. */
  function Refs(space: Id, req: Request): seq<Ref> {
    match req
    case CreateDir(at, _, _, _) => [Full(space, at)]
    case TouchFile(at, _, _, _) => [Full(space, at)]
    case MoveNode(src, dst, _) => [Full(space, src), Full(space, dst)]
    case Delete(at, _) => [Full(space, at)]
    case RestoreItem(_, item, dst) => [Full(space, Ref(item, [], true)), Full(space, dst)]
    case RestoreRevision(at, _, _, _, _) => [Full(space, at)]
    case FinishUpload(parent, name, _, _, _, _, _, _, _) => [Full(space, Ref(parent, [name], true))]
  }

  /** The live public node a reference leads to. */
  function Resolve(t: Table, r: Ref): Outcome<Id>
    requires UniquePaths(t)
  {
    if !LivePublic(t, r.base) || CONTROL in r.path then Err
    else if r.path == [] then Ok(r.base)
    else if !t[r.base].dir then Err
    else
      var n := ByPath(t, t[r.base].path + r.path);
      if n.Ok? && LivePublic(t, n.value) then n else Err
  }

  /** The live directory that a new entry goes to. */
  function Parent(t: Table, r: Ref): Outcome<Id>
    requires UniquePaths(t)
  {
    if r.path == [] || CONTROL in r.path then Err
    else
      var p := Resolve(t, r.(path := r.path[..|r.path| - 1]));
      if p.Ok? && t[p.value].dir then p else Err
  }

  function Last(r: Ref): Name
    requires r.path != []
  {
    r.path[|r.path| - 1]
  }

  function Bare(id: OpId, kind: Kind, source: Path, target: Path, session: Id, node: Id, row: Row,
      snapshot: Table): Operation {
    Operation(id, kind, source, target, map[], map[], session, node, row, snapshot, 0, map[])
  }

  /** An entry as the request asks for it, before `apply` adds digests, time and locks. */
  function Asked(op: Operation): Operation {
    Bare(op.id, op.kind, op.source, op.target, op.session, op.node, op.row, op.snapshot)
  }

  /** Writes a file: into a free name if none was there before, or over the very revision
      that was, if nobody has changed the file behind the driver's back. A row that is
      marked missing counts as being there. */
  function WriteFile(t: Table, parent: Id, name: Name, expected: Id, revision: Tag, node: Id, id: OpId, tmp: string,
      session: Id, disk: Outcome<Stat>): Reply
    requires UniquePaths(t) && parent in t
  {
    var p := t[parent].path + [name];
    var n := ByPath(t, p);
    if n.Ok? then
      if t[n.value].dir || n.value != expected || t[n.value].etag != revision then Refuse
      else if disk != Ok(Stat(t[n.value].size, t[n.value].mtime)) then Refuse
      else Apply(Bare(id, Replace, TempPath(tmp), p, session, n.value, t[n.value], map[]))
    else if expected != "" then Refuse
    else Apply(Bare(id, Create, TempPath(tmp), p, session, node, Row(parent, name, p, false, 0, 0, 0, 0), map[]))
  }

  function AnswerMove(db: Db, src: Ref, dst: Ref, id: OpId): Reply
    requires UniquePaths(db.nodes)
  {
    var t, n, d := db.nodes, Resolve(db.nodes, src), Parent(db.nodes, dst);
    if n.Err? || n.value == db.space || d.Err? then Refuse
    else
      var p := t[d.value].path + [Last(dst)];
      if p == t[n.value].path then Nothing
      else if t[n.value].path <= p then Refuse
      else Apply(Bare(id, Move, t[n.value].path, p, "", n.value, t[n.value].(parent := d.value, name := Last(dst)),
          map[]))
  }

  function AnswerRestore(db: Db, key: OpId, dst: Ref): Reply
    requires UniquePaths(db.nodes)
  {
    var d := Parent(db.nodes, dst);
    if key !in db.retained || db.retained[key].kind != TrashItem || d.Err? then Refuse
    else
      var r := db.retained[key];
      if r.node !in r.snapshot then Refuse
      else Apply(Bare(key, Restore, TrashPath(key), db.nodes[d.value].path + [Last(dst)], "", r.node,
                      r.snapshot[r.node].(parent := d.value, name := Last(dst)), r.snapshot))
  }

  function AnswerRevision(db: Db, at: Ref, key: OpId, id: OpId, tmp: string, disk: Outcome<Stat>): Reply
    requires UniquePaths(db.nodes)
  {
    var t, n := db.nodes, Resolve(db.nodes, at);
    if n.Err? || key !in db.retained || db.retained[key].node != n.value || db.retained[key].kind != Version then Refuse
    else if t[n.value].parent !in t then Refuse
    else WriteFile(t, t[n.value].parent, t[n.value].name, n.value, t[n.value].etag, "", id, tmp, "", disk)
  }

  /** What a request does when it has its locks. */
  function Answer(db: Db, req: Request): Reply
    requires UniquePaths(db.nodes)
  {
    var t, space := db.nodes, db.space;
    match req
    case CreateDir(at, node, id, tmp) =>
      var r := Full(space, at);
      var d := Parent(t, r);
      if d.Err? then Refuse
      else
        var p := t[d.value].path + [Last(r)];
        Apply(Bare(id, Create, TempPath(tmp), p, "", node, Row(d.value, Last(r), p, true, 0, 0, 0, 0), map[]))
    case TouchFile(at, node, id, tmp) =>
      var r := Full(space, at);
      if Resolve(t, r).Ok? then Nothing
      else
        var d := Parent(t, r);
        if d.Err? then Refuse else WriteFile(t, d.value, Last(r), "", 0, node, id, tmp, "", Err)
    case MoveNode(src, dst, id) => AnswerMove(db, Full(space, src), Full(space, dst), id)
    case Delete(at, id) =>
      var n := Resolve(t, Full(space, at));
      if n.Err? || n.value == space then Refuse
      else
        var p := t[n.value].path;
        Apply(Bare(id, Trash, p, TrashPath(id), "", n.value, t[n.value], Subtree(t, p)))
    case RestoreItem(key, _, dst) => AnswerRestore(db, key, Full(space, dst))
    case RestoreRevision(at, key, id, tmp, disk) => AnswerRevision(db, Full(space, at), key, id, tmp, disk)
    case FinishUpload(parent, name, expected, revision, node, id, tmp, session, disk) =>
      if !LivePublic(t, parent) || name == CONTROL || session !in db.uploads then Refuse
      else WriteFile(t, parent, name, expected, revision, node, id, tmp, session, disk)
  }

  // ------------------------------------------------------------------ what the answers are

  lemma ResolveRight(t: Table, r: Ref)
    requires UniquePaths(t) && Resolve(t, r).Ok?
    ensures LivePublic(t, r.base) && LivePublic(t, Resolve(t, r).value)
    ensures t[Resolve(t, r).value].path == t[r.base].path + r.path
  {
    assert t[r.base].path + [] == t[r.base].path;
  }

  lemma ParentRight(t: Table, r: Ref)
    requires UniquePaths(t) && Parent(t, r).Ok?
    ensures LivePublic(t, r.base) && LiveDir(t, Parent(t, r).value) && r.path != []
    ensures !Reserved(t[Parent(t, r).value].path + [Last(r)])
    ensures t[Parent(t, r).value].path + [Last(r)] == t[r.base].path + r.path
  {
    var up := r.(path := r.path[..|r.path| - 1]);
    ResolveRight(t, up);
    assert r.path == up.path + [Last(r)];
    assert t[r.base].path + up.path + [Last(r)] == t[r.base].path + r.path;
    NotReserved(t, Parent(t, r).value, Last(r));
  }

  /** What the answer leaves open: that the UUIDs are new, that no row is at or below a
      new target, and that a restored row's directory is restored with it. */
  predicate Fresh(db: Db, op: Operation) {
    match op.kind
    case Create => FreshId(db.nodes, op.node) && FreeAt(db.nodes, op.target)
    case Replace => op.id !in db.retained
    case Move => FreeAt(db.nodes, op.target)
    case Trash => op.id !in db.retained && FreeAt(db.nodes, op.target)
    case Restore => FreeAt(db.nodes, op.target) && Closed(op.snapshot, op.node)
  }

  /** The UUIDs that a request draws are new. */
  predicate NewUuids(db: Db, op: Operation) {
    && (op.kind == Create ==> FreshId(db.nodes, op.node))
    && (op.kind in {Replace, Trash} ==> op.id !in db.retained)
    && (op.kind == Trash ==> FreeAt(db.nodes, TrashPath(op.id)))
  }

  lemma EnabledIds(db: Db, op: Operation)
    requires Enabled(db, op)
    ensures NewUuids(db, op)
  {
  }

  lemma PlaceIff(t: Table, parent: Id, name: Name)
    requires LiveDir(t, parent) && !Reserved(t[parent].path + [name])
    ensures FreePlace(t, parent, name, t[parent].path + [name]) <==> FreeAt(t, t[parent].path + [name])
  {
  }

  lemma NotReserved(t: Table, parent: Id, name: Name)
    requires LiveDir(t, parent) && name != CONTROL
    ensures !Reserved(t[parent].path + [name])
  {
    assert (t[parent].path + [name])[0] == if t[parent].path == [] then name else t[parent].path[0];
  }

  /** A row that can be planned has its directory; one that is below a live directory
      then has that one. */
  lemma PlannedParent(t: Table, space: Id, parent: Id, name: Name, n: Id)
    requires TreeOk(t, space) && LiveDir(t, parent) && n in t && t[n].path == t[parent].path + [name]
    requires !Reserved(t[n].path)
    requires AddNode(t, space, n, true, {}).Ok?
    ensures t[n].parent == parent && t[n].name == name
  {
    assert Linked(t, n);
    LastEqual(t[parent].path, name, t[t[n].parent].path, t[n].name);
  }

  /** Writing a file with a plan for its place leaves nothing open but the UUIDs and a
      free place. */
  lemma WriteEnabledIff(db: Db, parent: Id, name: Name, expected: Id, revision: Tag, node: Id, id: OpId, tmp: string,
      session: Id, disk: Outcome<Stat>)
    requires DbOk(db) && LiveDir(db.nodes, parent) && !Reserved(db.nodes[parent].path + [name]) && parent != ""
    requires (session != "" ==> session in db.uploads)
    requires ByPath(db.nodes, db.nodes[parent].path + [name]).Ok? ==>
               AddNode(db.nodes, db.space, ByPath(db.nodes, db.nodes[parent].path + [name]).value, true, {}).Ok?
    requires var w := WriteFile(db.nodes, parent, name, expected, revision, node, id, tmp, session, disk); w.Apply?
    ensures var op := WriteFile(db.nodes, parent, name, expected, revision, node, id, tmp, session, disk).op;
            Enabled(db, op) <==> Fresh(db, op)
  {
    hide RetainedOk, AddNode;
    var n := ByPath(db.nodes, db.nodes[parent].path + [name]);
    if n.Ok? {
      PlannedParent(db.nodes, db.space, parent, name, n.value);
    }
    PlaceIff(db.nodes, parent, name);
  }

  /** A plan for a place has planned what is there. */
  lemma PlaceChain(t: Table, space: Id, parent: Id, name: Name)
    requires TreeOk(t, space) && LivePublic(t, parent)
    requires PlanRefs(t, space, [Ref(parent, [name], true)]).Ok?
    ensures var n := ByPath(t, t[parent].path + [name]); n.Ok? ==> AddNode(t, space, n.value, true, {}).Ok?
  {
    hide AllParented, AllLinked, AllLive, TrashShaped, AddNode;
    var n := ByPath(t, t[parent].path + [name]);
    assert UniquePaths(t) && parent != "" by { TreeNamed(t, space, parent); }
    assert PlanRef(t, space, Ref(parent, [name], true)).Ok?;
    if n.Ok? {
      WalkOne(t, space, parent, [name], true, n.value);
    }
  }

  lemma TreeNamed(t: Table, space: Id, i: Id)
    requires TreeOk(t, space) && i in t
    ensures UniquePaths(t) && i != ""
  {
  }

  /** A file at its own place is found there. */
  lemma RevisionEnabledIff(db: Db, at: Ref, key: OpId, id: OpId, tmp: string, disk: Outcome<Stat>)
    requires DbOk(db) && AnswerRevision(db, at, key, id, tmp, disk).Apply?
    ensures var op := AnswerRevision(db, at, key, id, tmp, disk).op;
            Enabled(db, op) <==> Fresh(db, op)
    ensures AnswerRevision(db, at, key, id, tmp, disk).op.target == db.nodes[at.base].path + at.path
  {
    hide AddNode, RetainedOk, Enabled, Fresh, Resolve;
    var t := db.nodes;
    ResolveRight(t, at);
    var n := Resolve(t, at).value;
    var d := t[n].parent;
    assert n != db.space && LiveDir(t, d) && Linked(t, n) && d != "";
    assert ByPath(t, t[d].path + [t[n].name]) == Ok(n);
    LiveChain(t, db.space, n, true, {});
    WriteEnabledIff(db, d, t[n].name, n, t[n].etag, "", id, tmp, "", disk);
  }

  lemma UploadEnabledIff(db: Db, parent: Id, name: Name, expected: Id, revision: Tag, node: Id, id: OpId, tmp: string,
      session: Id, disk: Outcome<Stat>)
    requires DbOk(db) && LivePublic(db.nodes, parent) && name != CONTROL && session in db.uploads
    requires PlanRefs(db.nodes, db.space, [Ref(parent, [name], true)]).Ok?
    requires var w := WriteFile(db.nodes, parent, name, expected, revision, node, id, tmp, session, disk);
             w.Apply? && db.nodes[parent].dir
    ensures var op := WriteFile(db.nodes, parent, name, expected, revision, node, id, tmp, session, disk).op;
            Enabled(db, op) <==> Fresh(db, op)
  {
    hide AddNode, RetainedOk, Enabled, Fresh, PlanRefs, WriteFile;
    PlaceChain(db.nodes, db.space, parent, name);
    NotReserved(db.nodes, parent, name);
    TreeNamed(db.nodes, db.space, parent);
    WriteEnabledIff(db, parent, name, expected, revision, node, id, tmp, session, disk);
  }

  lemma TouchEnabledIff(db: Db, r: Ref, node: Id, id: OpId, tmp: string)
    requires DbOk(db) && Parent(db.nodes, r).Ok? && r.path != []
    requires WriteFile(db.nodes, Parent(db.nodes, r).value, Last(r), "", 0, node, id, tmp, "", Err).Apply?
    ensures var op := WriteFile(db.nodes, Parent(db.nodes, r).value, Last(r), "", 0, node, id, tmp, "", Err).op;
            Enabled(db, op) <==> Fresh(db, op)
  {
    hide AddNode, RetainedOk, Enabled, Fresh, Resolve, Parent;
    var t, d := db.nodes, Parent(db.nodes, r).value;
    ParentRight(t, r);
    TreeNamed(t, db.space, d);
    if ByPath(t, t[d].path + [Last(r)]).Ok? {
      TreeNamed(t, db.space, ByPath(t, t[d].path + [Last(r)]).value);
    }
    WriteEnabledIff(db, d, Last(r), "", 0, node, id, tmp, "", Err);
  }

  lemma MoveEnabledIff(db: Db, src: Ref, dst: Ref, id: OpId)
    requires DbOk(db) && AnswerMove(db, src, dst, id).Apply?
    ensures var op := AnswerMove(db, src, dst, id).op;
            Enabled(db, op) <==> Fresh(db, op)
  {
    hide RetainedOk, Resolve, Parent, AllParented, AllLinked, AllLive, TrashShaped, FreePlace, FreeAt;
    var t, n, d := db.nodes, Resolve(db.nodes, src).value, Parent(db.nodes, dst).value;
    ResolveRight(t, src);
    ParentRight(t, dst);
    PlaceIff(t, d, Last(dst));
    TreeNamed(t, db.space, d);
  }

  lemma RestoreEnabledIff(db: Db, key: OpId, dst: Ref)
    requires DbOk(db) && AnswerRestore(db, key, dst).Apply?
    ensures var op := AnswerRestore(db, key, dst).op;
            && (Enabled(db, op) <==> Fresh(db, op))
            && op.node in db.nodes && op.node != ""
  {
    hide Resolve, Parent, AllParented, AllLinked, AllLive, TrashShaped, FreePlace, FreeAt, Closed;
    var t, d := db.nodes, Parent(db.nodes, dst).value;
    assert TrashOk(t, key, db.retained[key]);
    ParentRight(t, dst);
    PlaceIff(t, d, Last(dst));
    TreeNamed(t, db.space, d);
    TreeNamed(t, db.space, db.retained[key].node);
  }

  lemma CreateDirEnabledIff(db: Db, r: Ref, node: Id, id: OpId, tmp: string)
    requires DbOk(db) && Parent(db.nodes, r).Ok? && r.path != []
    ensures var d := Parent(db.nodes, r).value;
            var p := db.nodes[d].path + [Last(r)];
            var op := Bare(id, Create, TempPath(tmp), p, "", node, Row(d, Last(r), p, true, 0, 0, 0, 0), map[]);
            Enabled(db, op) <==> Fresh(db, op)
  {
    hide RetainedOk, Resolve, Parent, AllParented, AllLinked, AllLive, TrashShaped, FreePlace, FreeAt, FreshId;
    var t, d := db.nodes, Parent(db.nodes, r).value;
    ParentRight(t, r);
    PlaceIff(t, d, Last(r));
    TreeNamed(t, db.space, d);
  }

  lemma DeleteEnabledIff(db: Db, r: Ref, id: OpId)
    requires DbOk(db) && Resolve(db.nodes, r).Ok? && Resolve(db.nodes, r).value != db.space
    ensures var n := Resolve(db.nodes, r).value;
            var p := db.nodes[n].path;
            var op := Bare(id, Trash, p, TrashPath(id), "", n, db.nodes[n], Subtree(db.nodes, p));
            Enabled(db, op) <==> Fresh(db, op)
  {
    hide RetainedOk, Resolve, AllParented, AllLinked, AllLive, TrashShaped, FreeAt;
    ResolveRight(db.nodes, r);
  }

  /** The checks that a request makes under its locks establish everything an operation
      needs, but for new UUIDs, a place without rows and complete snapshots. */
  lemma AnswerEnabledIff(db: Db, req: Request)
    requires DbOk(db) && Answer(db, req).Apply?
    requires PlanRefs(db.nodes, db.space, Refs(db.space, req)).Ok?
    requires req.FinishUpload? ==> req.parent in db.nodes && db.nodes[req.parent].dir
    ensures Enabled(db, Answer(db, req).op) <==> Fresh(db, Answer(db, req).op)
  {
    hide RetainedOk, Resolve, Parent, AllParented, AllLinked, AllLive, TrashShaped, Enabled, Fresh, PlanRefs,
        WriteFile, AnswerMove, AnswerRestore, AnswerRevision;
    match req
    case CreateDir(at, node, id, tmp) =>
      ParentRight(db.nodes, Full(db.space, at));
      CreateDirEnabledIff(db, Full(db.space, at), node, id, tmp);
    case TouchFile(at, node, id, tmp) =>
      ParentRight(db.nodes, Full(db.space, at));
      TouchEnabledIff(db, Full(db.space, at), node, id, tmp);
    case MoveNode(src, dst, id) => MoveEnabledIff(db, Full(db.space, src), Full(db.space, dst), id);
    case Delete(at, id) => DeleteEnabledIff(db, Full(db.space, at), id);
    case RestoreItem(key, _, dst) => RestoreEnabledIff(db, key, Full(db.space, dst));
    case RestoreRevision(at, key, id, tmp, disk) => RevisionEnabledIff(db, Full(db.space, at), key, id, tmp, disk);
    case FinishUpload(parent, name, expected, revision, node, id, tmp, session, disk) =>
      TreeNamed(db.nodes, db.space, parent);
      UploadEnabledIff(db, parent, name, expected, revision, node, id, tmp, session, disk);
  }

  // ------------------------------------------------------------------ what the locks cover

  /** The references planned on a public base, with their plans. */
  function PublicPlans(t: Table, space: Id, refs: seq<Ref>): map<Ref, Plan>
    requires UniquePaths(t)
  {
    map q | q in refs && Public(t, q.base) && PlanRef(t, space, q).Ok? :: PlanRef(t, space, q).value
  }

  /** A write reference that leads from a live node to the path `p`. */
  predicate LeadsTo(t: Table, q: Ref, p: Path) {
    q.write && LivePublic(t, q.base) && t[q.base].path + q.path == p
  }

  predicate Named(t: Table, refs: seq<Ref>, p: Path) {
    exists q :: q in refs && LeadsTo(t, q, p)
  }

  /** The references that start at live nodes lead to the operation's public paths, all
      of them and no others; a restore's trashed node is named by its ID. */
  predicate NamedBy(db: Db, refs: seq<Ref>, op: Operation) {
    && (!Reserved(op.source) ==> Named(db.nodes, refs, op.source))
    && (!Reserved(op.target) ==> Named(db.nodes, refs, op.target))
    && (forall q :: q in refs && LivePublic(db.nodes, q.base) ==>
          || (!Reserved(op.source) && LeadsTo(db.nodes, q, op.source))
          || (!Reserved(op.target) && LeadsTo(db.nodes, q, op.target)))
    && (op.kind == Restore ==> op.node != "" && Ref(op.node, [], true) in refs)
  }

  lemma WriteTarget(t: Table, parent: Id, name: Name, expected: Id, revision: Tag, node: Id, id: OpId, tmp: string,
      session: Id, disk: Outcome<Stat>)
    requires UniquePaths(t) && parent in t
    requires WriteFile(t, parent, name, expected, revision, node, id, tmp, session, disk).Apply?
    ensures var op := WriteFile(t, parent, name, expected, revision, node, id, tmp, session, disk).op;
            op.target == t[parent].path + [name] && op.source == TempPath(tmp) && op.kind != Restore
  {
    hide UniquePaths;
  }

  /** A request names the places its operation goes to and comes from by the references
      it was given, and locked. */
  lemma AnswerNamed(db: Db, req: Request)
    requires DbOk(db) && Answer(db, req).Apply?
    requires req.RestoreItem? ==> req.item == Answer(db, req).op.node
    ensures NamedBy(db, Refs(db.space, req), Answer(db, req).op)
  {
    hide RetainedOk, Resolve, Parent, AllParented, AllLinked, AllLive, TrashShaped, Enabled, Fresh, WriteFile,
        UniquePaths, Subtree;
    var t, refs := db.nodes, Refs(db.space, req);
    TreeNamed(t, db.space, db.space);
    assert refs[0] in refs;
    match req
    case CreateDir(_, _, _, _) => ParentRight(t, refs[0]);
    case TouchFile(_, node, id, tmp) =>
      ParentRight(t, refs[0]);
      WriteTarget(t, Parent(t, refs[0]).value, Last(refs[0]), "", 0, node, id, tmp, "", Err);
    case MoveNode(_, _, _) =>
      assert refs[1] in refs;
      ResolveRight(t, refs[0]);
      ParentRight(t, refs[1]);
    case Delete(_, _) => ResolveRight(t, refs[0]);
    case RestoreItem(key, _, _) =>
      assert refs[1] in refs;
      RestoreEnabledIff(db, key, refs[1]);
      ParentRight(t, refs[1]);
      TrashedAway(db, key);
    case RestoreRevision(_, key, id, tmp, disk) =>
      RevisionEnabledIff(db, refs[0], key, id, tmp, disk);
      ResolveRight(t, refs[0]);
      var n := Resolve(t, refs[0]).value;
      WriteTarget(t, t[n].parent, t[n].name, n, t[n].etag, "", id, tmp, "", disk);
    case FinishUpload(parent, name, expected, revision, node, id, tmp, session, disk) =>
      TreeNamed(t, db.space, parent);
      WriteTarget(t, parent, name, expected, revision, node, id, tmp, session, disk);
  }

  lemma TrashedAway(db: Db, key: OpId)
    requires DbOk(db) && key in db.retained && db.retained[key].kind == TrashItem
    ensures !LivePublic(db.nodes, db.retained[key].node)
  {
    assert TrashOk(db.nodes, key, db.retained[key]);
  }
}
