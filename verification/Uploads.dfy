/** The bytes of a resumable upload: the staged file, the session row, and what is
    published. Every write to either can be the last before a failure or a crash. */
module Uploads {
  import opened Collections
  import opened Metadata

  const MAX_INT64: int := 0x7FFF_FFFF_FFFF_FFFF

  /** Where a chunk is cut off: while copying, before the sync or before the row is saved. */
  datatype Fault = NoFault | CopyFault(copied: nat) | SyncFault | SaveFault

  /** The staged file and the session row, either of which may be gone. */
  datatype Upload = Upload(stage: Outcome<seq<int>>, row: Outcome<Session>)

  /** How much of a chunk is read: one byte more than fits, to notice a chunk that is too long. */
  function Readable(r: Session, body: seq<int>): nat {
    if r.deferred || |body| <= r.size - r.offset then |body|
    else if r.size - r.offset + 1 < 0 then 0 else r.size - r.offset + 1
  }

  predicate TooLong(r: Session, body: seq<int>) {
    !r.deferred && r.offset + |body| > r.size
  }

  function Cut(file: seq<int>, n: nat): seq<int> {
    if n <= |file| then file[..n] else file + seq(n - |file|, _ => 0)
  }

  /** A chunk is refused, or fails and leaves the row as it was, or is taken whole. */
  function Chunk(u: Upload, offset: int, body: seq<int>, fault: Fault): (r: (Upload, Outcome<nat>))
    requires u.row.Ok? && !u.row.value.deferred ==> u.row.value.offset <= u.row.value.size
  {
    if u.row.Err? || u.stage.Err? || u.row.value.result != "" || offset != u.row.value.offset then (u, Err)
    else
      var s := u.row.value;
      var kept := Cut(u.stage.value, s.offset);
      var all := Readable(s, body);
      if fault.CopyFault? then (u.(stage := Ok(kept + body[..Min(fault.copied, all)])), Err)
      else if TooLong(s, body) then (u.(stage := Ok(kept)), Err)
      else if fault != NoFault then (u.(stage := Ok(kept + body)), Err)
      else (Upload(Ok(kept + body), Ok(s.(offset := s.offset + |body|))), Ok(|body|))
  }

  function Declared(u: Upload, size: int): Upload {
    if u.row.Ok? && u.row.value.deferred && size >= u.row.value.offset
    then u.(row := Ok(u.row.value.(size := size, deferred := false))) else u
  }

  /** What finishing the upload hands to publication: the staged file, if it has
      exactly the declared length. */
  function Payload(u: Upload): Outcome<seq<int>> {
    if u.row.Err? || u.stage.Err? then Err
    else
      var s, file := u.row.value, u.stage.value;
      if s.result == "" && !s.deferred && s.offset == s.size != MAX_INT64 && |file| == s.size then Ok(file) else Err
  }

  ghost predicate Sound(u: Upload) {
    u.row.Ok? && !u.row.value.deferred ==> u.row.value.offset <= u.row.value.size
  }

  // ------------------------------------------------------------------ the methods

  class Staging {
    var stage: Outcome<seq<int>>
    var row: Outcome<Session>

    function State(): Upload
      reads this
    {
      Upload(stage, row)
    }

    /** Appends up to `limit` bytes of a reader to the staged file, or stops at a fault. */
    method Copy(body: seq<int>, limit: nat, fault: Fault) returns (n: nat, ok: bool)
      requires stage.Ok?
      modifies this`stage
      ensures n == (if fault.CopyFault? then Min(fault.copied, Min(limit, |body|)) else Min(limit, |body|))
      ensures stage.Ok? && stage.value == old(stage).value + body[..n]
      ensures ok == !fault.CopyFault?
    {
      n := 0;
      assert body[..0] == [];
      while n < |body| && n < limit && !(fault.CopyFault? && n == fault.copied)
        invariant n <= |body| && n <= limit && (fault.CopyFault? ==> n <= fault.copied)
        invariant stage.Ok? && stage.value == old(stage).value + body[..n]
      {
        assert body[..n + 1] == body[..n] + [body[n]];
        stage := Ok(stage.value + [body[n]]);
        n := n + 1;
      }
      ok := !fault.CopyFault?;
    }

    method WriteChunk(offset: int, body: seq<int>, fault: Fault) returns (r: Outcome<nat>)
      requires Sound(State())
      modifies this
      ensures Sound(State()) && (State(), r) == Chunk(old(State()), offset, body, fault)
    {
      if row.Err? { return Err; }
      var s := row.value;
      if s.result != "" || offset != s.offset { return Err; }
      if stage.Err? { return Err; }
      stage := Ok(Cut(stage.value, s.offset));
      ghost var kept := stage.value;
      var limit := |body|;
      if !s.deferred { limit := s.size - offset + 1; }
      var n, copied := Copy(body, limit, fault);
      if !copied { return Err; }
      if !s.deferred && offset + n > s.size {
        stage := Ok(Cut(stage.value, s.offset));
        assert stage.value == kept;
        return Err;
      }
      assert body[..n] == body;
      if fault == SyncFault { return Err; }
      s := s.(offset := s.offset + n);
      if fault == SaveFault { return Err; }
      row := Ok(s);
      return Ok(n);
    }

    method DeclareLength(size: int) returns (ok: bool)
      requires Sound(State())
      modifies this
      ensures Sound(State()) && State() == Declared(old(State()), size)
      ensures ok == (old(row).Ok? && old(row).value.deferred && size >= old(row).value.offset)
    {
      if row.Err? { return false; }
      var s := row.value;
      if !s.deferred || size < s.offset { return false; }
      row := Ok(s.(size := size, deferred := false));
      return true;
    }

    /** The bytes that finishing publishes, copied out of the staged file. */
    method Prepare() returns (r: Outcome<seq<int>>)
      ensures r == Payload(State())
    {
      if row.Err? { return Err; }
      var s := row.value;
      if s.result != "" || s.deferred || s.offset != s.size { return Err; }
      if stage.Err? { return Err; }
      if s.size < 0 || s.size == MAX_INT64 { return Err; }
      var copy := [];
      while |copy| < |stage.value| && |copy| < s.size + 1
        invariant |copy| <= |stage.value| && |copy| <= s.size + 1 && copy == stage.value[..|copy|]
      {
        copy := copy + [stage.value[|copy|]];
      }
      if |copy| != s.size { return Err; }
      assert copy == stage.value;
      return Ok(copy);
    }
  }

  // ------------------------------------------------------------------ whole uploads

  /** What can happen to an upload. `Publish` is the commit of the finished upload,
      `RemoveStage` and `DropRow` the two halves of termination and cleanup. */
  datatype Event =
    | Write(offset: int, body: seq<int>, fault: Fault)
    | Declare(size: int)
    | Publish(node: Id)
    | RemoveStage
    | DropRow

  function Next(u: Upload, e: Event): Upload
    requires Sound(u)
  {
    match e
    case Write(offset, body, fault) => Chunk(u, offset, body, fault).0
    case Declare(size) => Declared(u, size)
    case Publish(node) => if Payload(u).Ok? then u.(row := Ok(u.row.value.(result := node))) else u
    case RemoveStage => u.(stage := Err)
    case DropRow => u.(row := Err)
  }

  /** The bytes of a chunk that was acknowledged, nothing otherwise. */
  function Taken(u: Upload, e: Event): seq<int>
    requires Sound(u)
  {
    if e.Write? && Chunk(u, e.offset, e.body, e.fault).1.Ok? then e.body else []
  }

  function Started(size: int, deferred: bool): Upload {
    Upload(Ok([]), Ok(Session(0, size, deferred, "")))
  }

  /** Every chunk that was acknowledged is there, in order, at the front of the staged
      file; what failed chunks left is behind it. */
  ghost predicate Holds(u: Upload, taken: seq<int>) {
    u.row.Ok? ==>
      && u.row.value.offset == |taken|
      && (!u.row.value.deferred ==> u.row.value.offset <= u.row.value.size)
      && (u.stage.Ok? ==> taken <= u.stage.value)
  }

  lemma NextHolds(u: Upload, taken: seq<int>, e: Event)
    requires Holds(u, taken)
    ensures Holds(Next(u, e), taken + Taken(u, e))
  {
    if e.Write? && u.row.Ok? && u.stage.Ok? {
      assert u.row.value.offset == |taken| ==> Cut(u.stage.value, u.row.value.offset) == taken;
    }
    assert Taken(u, e) == [] ==> taken + Taken(u, e) == taken;
  }

  /** The upload after a run of events, with the acknowledged bytes. */
  ghost function RunUpload(size: int, deferred: bool, events: seq<Event>): (r: (Upload, seq<int>))
    requires deferred || size >= 0
    ensures Holds(r.0, r.1)
    decreases |events|
  {
    if events == [] then (Started(size, deferred), [])
    else
      var (u, taken) := RunUpload(size, deferred, events[..|events| - 1]);
      var e := events[|events| - 1];
      NextHolds(u, taken, e);
      (Next(u, e), taken + Taken(u, e))
  }

  /** What is published is exactly the acknowledged bytes, of the declared length; and
      a complete upload can be published exactly when no failed chunk has left bytes
      behind the acknowledged ones. */
  lemma PublishesTaken(size: int, deferred: bool, events: seq<Event>)
    requires deferred || size >= 0
    ensures var (u, taken) := RunUpload(size, deferred, events);
            && (Payload(u).Ok? ==> Payload(u).value == taken && |taken| == u.row.value.size)
            && (u.row.Ok? && u.stage.Ok? && u.row.value.result == "" && !u.row.value.deferred
                && u.row.value.offset == u.row.value.size != MAX_INT64 ==>
                  (Payload(u).Ok? <==> |u.stage.value| == |taken|))
  {
    var (u, taken) := RunUpload(size, deferred, events);
    if Payload(u).Ok? {
      assert u.stage.value == taken;
    }
  }

  /** Bytes that a failed chunk left behind are gone after the next acknowledged chunk,
      which may be empty. */
  lemma ChunkCleans(u: Upload, offset: int, body: seq<int>, taken: seq<int>)
    requires Holds(u, taken) && Chunk(u, offset, body, NoFault).1.Ok?
    ensures var now := Chunk(u, offset, body, NoFault).0.stage;
            now.Ok? && now.value == taken + body
  {
    assert Cut(u.stage.value, u.row.value.offset) == taken;
  }

  /** An upload that has all its bytes but cannot be finished: a chunk beyond the end
      failed after one byte. */
  lemma LeftoverBlocks()
    ensures var events := [Write(0, [7], NoFault), Write(1, [8], CopyFault(1))];
            var (u, taken) := RunUpload(1, false, events);
            taken == [7] && u.row.Ok? && u.row.value.offset == u.row.value.size == 1 && Payload(u).Err?
  {
    var events := [Write(0, [7], NoFault), Write(1, [8], CopyFault(1))];
    assert events[..1] == [events[0]] && events[..1][..0] == [];
    var u0 := Started(1, false);
    assert RunUpload(1, false, events[..1][..0]) == (u0, []);
    var (u1, t1) := RunUpload(1, false, events[..1]);
    assert u1 == Chunk(u0, 0, [7], NoFault).0 && t1 == [] + [7];
    assert u1.stage.value == [7];
    var u2 := Chunk(u1, 1, [8], CopyFault(1)).0;
    assert Cut(u1.stage.value, 1) == [7] && [8][..Min(1, 1)] == [8];
    assert |u2.stage.value| == 2;
    assert RunUpload(1, false, events) == (u2, t1 + []);
  }
}
