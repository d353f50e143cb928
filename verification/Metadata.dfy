/** The SQLite metadata of the driver as one value, and the transaction that
    `finish` commits for a journal entry. */
module Metadata {
  import opened Paths

  type Id = string
  type OpId = string
  type Tag = nat

  datatype Outcome<+T> = Ok(value: T) | Err

  datatype Row = Row(parent: Id, name: Name, path: Path, dir: bool, size: int, mtime: int, etag: Tag, missing: int)
  type Table = map<Id, Row>

  /** What a SHA-256 walk of a tree identifies: names, kinds and bytes. */
  datatype Content = FileBytes(bytes: seq<int>) | Folder
  type Tree = map<Path, Content>

  type LockMap = map<string, bool>

  datatype Kind = Create | Replace | Move | Trash | Restore

  /** A journal entry; `session` is "" when no upload session is behind it. */
  datatype Operation = Operation(
    id: OpId, kind: Kind, source: Path, target: Path, digest: Tree, previous: Tree,
    session: Id, node: Id, row: Row, snapshot: Table, time: int, locks: LockMap)

  datatype RetainedKind = Version | TrashItem
  datatype Retained = Retained(node: Id, path: Path, kind: RetainedKind, size: int, time: int, snapshot: Table)

  datatype EventKind = FileEvent | DirectoryEvent | DeletedEvent
  datatype Event = Event(seqno: nat, node: Id, kind: EventKind)

  /** An upload session row; `result` is "" until its operation has committed. */
  datatype Session = Session(offset: nat, size: int, deferred: bool, result: Id)

  datatype Db = Db(
    space: Id,
    nodes: Table,
    retained: map<OpId, Retained>,
    ops: map<OpId, Operation>,
    uploads: map<Id, Session>,
    outbox: seq<Event>,
    nextEvent: nat,
    completed: map<(OpId, Kind), Id>,
    tag: Tag)

  /** The same row but for its revision. */
  predicate SameButEtag(r: Row, s: Row) {
    s == r.(etag := s.etag)
  }

  predicate PathTaken(t: Table, p: Path) {
    exists i :: i in t && t[i].path == p
  }

  predicate UniquePaths(t: Table) {
    forall i, j :: i in t && j in t && t[i].path == t[j].path ==> i == j
  }

  /** The row at a path, if any. */
  function ByPath(t: Table, p: Path): (r: Outcome<Id>)
    requires UniquePaths(t)
    ensures r.Ok? ==> r.value in t && t[r.value].path == p
    ensures r.Err? ==> !PathTaken(t, p)
  {
    if PathTaken(t, p) then var i :| i in t && t[i].path == p; Ok(i) else Err
  }

  /** New etags for the directories on the way from the root to a changed public path. */
  function Refresh(t: Table, changed: set<Path>, tag: Tag): Table {
    map i | i in t ::
      if t[i].dir && exists p :: p in changed && !Reserved(p) && t[i].path <= p
      then t[i].(etag := tag) else t[i]
  }

  function RebaseRows(t: Table, src: Path, dst: Path): Table {
    map i | i in t :: if src <= t[i].path then t[i].(path := Rebase(t[i].path, src, dst)) else t[i]
  }

  /** Replaces the prefix `src` of `p`; a path without that prefix is appended whole. */
  function Regraft(p: Path, src: Path, dst: Path): Path {
    if src <= p then Rebase(p, src, dst) else dst + p
  }

  function RestoredRow(r: Row, op: Operation, i: Id, tag: Tag): Row
    requires i in op.snapshot
  {
    var s := op.snapshot[i];
    r.(parent := if i == op.node then op.row.parent else s.parent,
       name := if i == op.node then op.row.name else s.name,
       path := Regraft(s.path, op.row.path, op.target),
       etag := tag, missing := 0)
  }

  /** The statements of the transaction on `nodes`; a violated UNIQUE(path) or
      primary key, or a changed revision, fails it. */
  function KindRows(db: Db, op: Operation, size: int, mtime: int): Outcome<Table> {
    var t := db.nodes;
    match op.kind
    case Replace =>
      if op.node in t && t[op.node].etag == op.row.etag
      then Ok(t[op.node := t[op.node].(size := size, mtime := mtime, etag := db.tag, missing := 0)])
      else Err
    case Create =>
      if op.node !in t && !PathTaken(t, op.target)
      then Ok(t[op.node := Row(op.row.parent, op.row.name, op.target, op.row.dir, size, mtime, db.tag, 0)])
      else Err
    case Move =>
      var r := RebaseRows(t, op.source, op.target);
      if !UniquePaths(r) then Err
      else if op.node in r
      then Ok(r[op.node := r[op.node].(parent := op.row.parent, name := op.row.name, etag := db.tag)])
      else Ok(r)
    case Trash =>
      var r := RebaseRows(t, op.source, op.target);
      if !UniquePaths(r) then Err else Ok(r)
    case Restore =>
      var r := map i | i in t :: if i in op.snapshot then RestoredRow(t[i], op, i, db.tag) else t[i];
      if !UniquePaths(r) then Err else Ok(r)
  }

  function KindRetained(db: Db, op: Operation): Outcome<map<OpId, Retained>> {
    match op.kind
    case Replace =>
      if op.id in db.retained then Err
      else Ok(db.retained[op.id := Retained(op.node, op.row.path, Version, op.row.size, op.time,
          map[op.node := op.row])])
    case Trash =>
      if op.id in db.retained then Err
      else Ok(db.retained[op.id := Retained(op.node, op.row.path, TrashItem, op.row.size, op.time, op.snapshot)])
    case Restore => Ok(db.retained - {op.id})
    case Create => Ok(db.retained)
    case Move => Ok(db.retained)
  }

  function OpEvent(op: Operation): EventKind {
    if op.kind == Trash then DeletedEvent else if op.row.dir then DirectoryEvent else FileEvent
  }

  /** The whole committing transaction: rows, retained entry, directory etags,
      upload result, event, receipt, and removal of the journal entry. */
  function Commit(db: Db, op: Operation, size: int, mtime: int): Outcome<Db> {
    var rows := KindRows(db, op, size, mtime);
    var kept := KindRetained(db, op);
    if rows.Err? || kept.Err? then Err
    else if op.session != "" && op.session !in db.uploads then Err
    else Ok(db.(
      nodes := Refresh(rows.value, {op.source, op.target}, db.tag),
      retained := kept.value,
      uploads := if op.session == "" then db.uploads
                 else db.uploads[op.session := db.uploads[op.session].(result := op.node)],
      outbox := db.outbox + [Event(db.nextEvent, op.node, OpEvent(op))],
      nextEvent := db.nextEvent + 1,
      completed := db.completed[(op.id, op.kind) := op.node],
      ops := db.ops - {op.id},
      tag := db.tag + 1))
  }

  /** The retained versions of the nodes in a snapshot. */
  function VersionsOf(db: Db, snapshot: Table): set<OpId> {
    set k | k in db.retained && db.retained[k].kind == Version && db.retained[k].node in snapshot
  }

  /** The transaction that purges a trash entry. */
  function Purged(db: Db, key: OpId): Db
    requires key in db.retained
  {
    db.(nodes := map i | i in db.nodes && !(TrashPath(key) <= db.nodes[i].path) :: db.nodes[i],
        retained := db.retained - VersionsOf(db, db.retained[key].snapshot) - {key})
  }

  /** The transaction of a change to a node's own metadata: a new etag for it and
      for the directories above it. */
  function Edited(db: Db, x: Id): Db
    requires x in db.nodes
  {
    var t := db.nodes[x := db.nodes[x].(etag := db.tag)];
    db.(nodes := Refresh(t, {t[x].path}, db.tag), tag := db.tag + 1)
  }
}
