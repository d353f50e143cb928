/** Delivering change events: committed changes append rows, a publisher sends the
    oldest rows and deletes each after it was sent, and can be cut off anywhere. */
module Outbox {
  import opened Collections

  datatype Row = Row(id: nat, node: string, kind: string)

  /** The publisher holds a batch it has read; `sent` says that the first row of the
      batch has been published but not deleted yet. */
  datatype Publisher = Idle | Busy(batch: seq<Row>, sent: bool)

  datatype State = State(rows: seq<Row>, next: nat, log: seq<Row>, publisher: Publisher)

  datatype Step = Append(node: string, kind: string) | Read | Send | Delete | Stop

  const BATCH := 100

  function Next(s: State, step: Step): State {
    match step
    case Append(node, kind) => s.(rows := s.rows + [Row(s.next, node, kind)], next := s.next + 1)
    case Read => if s.publisher.Idle? then s.(publisher := Busy(s.rows[..Min(BATCH, |s.rows|)], false)) else s
    case Send =>
      if s.publisher.Busy? && s.publisher.batch != [] && !s.publisher.sent
      then s.(log := s.log + [s.publisher.batch[0]], publisher := s.publisher.(sent := true)) else s
    case Delete =>
      if s.publisher.Busy? && s.publisher.batch != [] && s.publisher.sent
      then s.(rows := Deleted(s.rows, s.publisher.batch[0].id), publisher := Busy(s.publisher.batch[1..], false)) else s
    case Stop => s.(publisher := Idle)
  }

  /** The rows without the one of the given ID. */
  function Deleted(rows: seq<Row>, id: nat): seq<Row> {
    if rows == [] then [] else (if rows[0].id == id then [] else [rows[0]]) + Deleted(rows[1..], id)
  }

  predicate Ascending(rows: seq<Row>) {
    forall i, j :: 0 <= i < j < |rows| ==> rows[i].id < rows[j].id
  }

  predicate NonDescending(rows: seq<Row>) {
    forall i, j :: 0 <= i < j < |rows| ==> rows[i].id <= rows[j].id
  }

  lemma {:induction false} NothingToDelete(rows: seq<Row>, id: nat)
    requires forall i :: 0 <= i < |rows| ==> rows[i].id != id
    ensures Deleted(rows, id) == rows
    decreases |rows|
  {
    if rows != [] { NothingToDelete(rows[1..], id); }
  }

  lemma FirstDeleted(rows: seq<Row>)
    requires Ascending(rows) && rows != []
    ensures Deleted(rows, rows[0].id) == rows[1..]
  {
    NothingToDelete(rows[1..], rows[0].id);
  }

  /** The log has what is no longer queued, nothing but what was committed, and nothing
      that comes after the first queued row. */
  ghost predicate LogOk(log: seq<Row>, rows: seq<Row>, all: seq<Row>) {
    && NonDescending(log) && (forall x :: x in log ==> x in all)
    && (forall i :: 0 <= i < |all| - |rows| ==> all[i] in log)
    && (forall x :: x in log && rows != [] ==> x.id <= rows[0].id)
  }

  /** `all` are the rows of every committed change so far, in order. */
  ghost predicate Inv(s: State, all: seq<Row>) {
    && Ascending(all) && (forall i :: 0 <= i < |all| ==> all[i].id < s.next)
    && |s.rows| <= |all| && s.rows == all[|all| - |s.rows|..]
    && LogOk(s.log, s.rows, all)
    && (s.publisher.Busy? ==>
          && |s.publisher.batch| <= |s.rows| && s.publisher.batch == s.rows[..|s.publisher.batch|]
          && (s.publisher.sent ==> s.publisher.batch != [] && s.publisher.batch[0] in s.log))
  }

  function Committed(s: State, all: seq<Row>, step: Step): seq<Row> {
    if step.Append? then all + [Row(s.next, step.node, step.kind)] else all
  }

  lemma AscendingMore(all: seq<Row>, r: Row)
    requires Ascending(all) && forall i :: 0 <= i < |all| ==> all[i].id < r.id
    ensures Ascending(all + [r])
  {
  }

  lemma AppendLog(s: State, all: seq<Row>, r: Row)
    requires Inv(s, all) && r.id == s.next
    ensures LogOk(s.log, s.rows + [r], all + [r])
  {
    hide Ascending, NonDescending;
    var more, rows := all + [r], s.rows + [r];
    forall x | x in s.log ensures x in more && x.id <= rows[0].id {
      assert x in all;
      if s.rows != [] { assert rows[0] == s.rows[0]; }
    }
    forall i | 0 <= i < |more| - |rows| ensures more[i] in s.log { assert more[i] == all[i]; }
  }

  lemma AppendInv(s: State, all: seq<Row>, step: Step)
    requires Inv(s, all) && step.Append?
    ensures Inv(Next(s, step), Committed(s, all, step))
  {
    hide Ascending, NonDescending, LogOk;
    var more, rows := Committed(s, all, step), Next(s, step).rows;
    AscendingMore(all, more[|all|]);
    AppendLog(s, all, more[|all|]);
    assert rows == more[|more| - |rows|..];
  }

  lemma SendInv(s: State, all: seq<Row>)
    requires Inv(s, all)
    ensures Inv(Next(s, Send), all)
  {
    if s.publisher.Busy? && s.publisher.batch != [] && !s.publisher.sent {
      var t := Next(s, Send);
      assert s.publisher.batch[0] == s.rows[0] == all[|all| - |s.rows|];
      forall i, j | 0 <= i < j < |t.log| ensures t.log[i].id <= t.log[j].id {
        assert t.log[i] == s.log[i] && s.log[i] in s.log;
      }
      forall i | 0 <= i < |all| - |s.rows| ensures all[i] in t.log { assert all[i] in s.log; }
    }
  }

  lemma RowsAscend(s: State, all: seq<Row>)
    requires Inv(s, all)
    ensures Ascending(s.rows)
  {
    var k := |all| - |s.rows|;
    forall i, j | 0 <= i < j < |s.rows| ensures s.rows[i].id < s.rows[j].id {
      assert s.rows[i] == all[k + i] && s.rows[j] == all[k + j];
    }
  }

  lemma DropFirst(s: State, all: seq<Row>)
    requires Inv(s, all) && s.publisher.Busy? && s.publisher.batch != [] && s.publisher.sent
    ensures Inv(s.(rows := s.rows[1..], publisher := Busy(s.publisher.batch[1..], false)), all)
  {
    hide Ascending, NonDescending;
    var k := |all| - |s.rows|;
    RowsAscend(s, all);
    assert s.rows[1..] == all[k + 1..];
    forall x | x in s.log && s.rows[1..] != [] ensures x.id <= s.rows[1].id {
      Later(s.rows);
    }
    forall i | 0 <= i < k + 1 ensures all[i] in s.log {
      if i == k { assert all[k] == s.rows[0] == s.publisher.batch[0]; }
    }
  }

  lemma Later(rows: seq<Row>)
    requires Ascending(rows) && |rows| > 1
    ensures rows[0].id < rows[1].id
  {
  }

  lemma DeleteInv(s: State, all: seq<Row>)
    requires Inv(s, all)
    ensures Inv(Next(s, Delete), all)
  {
    if s.publisher.Busy? && s.publisher.batch != [] && s.publisher.sent {
      RowsAscend(s, all);
      FirstDeleted(s.rows);
      DropFirst(s, all);
      hide Inv;
    }
  }

  lemma NextInv(s: State, all: seq<Row>, step: Step)
    requires Inv(s, all)
    ensures Inv(Next(s, step), Committed(s, all, step))
  {
    match step
    case Append(_, _) => AppendInv(s, all, step);
    case Send => SendInv(s, all);
    case Delete => DeleteInv(s, all);
    case Read =>
    case Stop =>
  }

  /** The state after a run, and the rows of all committed changes. */
  ghost function Run(steps: seq<Step>): (r: (State, seq<Row>))
    ensures Inv(r.0, r.1)
    decreases |steps|
  {
    if steps == [] then (State([], 1, [], Idle), [])
    else
      var (s, all) := Run(steps[..|steps| - 1]);
      var step := steps[|steps| - 1];
      NextInv(s, all, step);
      (Next(s, step), Committed(s, all, step))
  }

  /** Over every run with crashes, each committed change's event has been published or
      is still queued, nothing else is published, the log never goes back, and an event
      published again comes directly after itself. */
  lemma Delivered(steps: seq<Step>)
    ensures var (s, all) := Run(steps);
            && (forall i :: 0 <= i < |all| ==> all[i] in s.log || all[i] in s.rows)
            && (forall x :: x in s.log || x in s.rows ==> x in all)
            && NonDescending(s.log)
            && (forall i, j, k :: 0 <= i < j < k < |s.log| && s.log[i] == s.log[k] ==> s.log[j] == s.log[i])
  {
    var (s, all) := Run(steps);
    var n := |all| - |s.rows|;
    forall i | 0 <= i < |all| ensures all[i] in s.log || all[i] in s.rows {
      if i >= n { assert s.rows[i - n] == all[i]; }
    }
    forall i, j, k | 0 <= i < j < k < |s.log| && s.log[i] == s.log[k] ensures s.log[j] == s.log[i] {
      assert s.log[i].id <= s.log[j].id <= s.log[k].id;
      assert s.log[i] in all && s.log[j] in all;
    }
  }

  // ------------------------------------------------------------------ the publishing loop

  class Queue {
    var rows: seq<Row>
    var log: seq<Row>

    /** Publishes one batch, or stops after `effects` effects. What is gone from the
        queue has been published, and at most one published row is still in it. */
    method Publish(effects: nat) returns (sent: nat, deleted: nat)
      requires Ascending(rows)
      modifies this
      ensures deleted <= sent <= deleted + 1 && sent <= Min(BATCH, |old(rows)|)
      ensures log == old(log) + old(rows)[..sent] && rows == old(rows)[deleted..]
      ensures effects >= 2 * Min(BATCH, |old(rows)|) ==> deleted == Min(BATCH, |old(rows)|)
    {
      var batch := rows[..Min(BATCH, |rows|)];
      var left := effects;
      sent, deleted := 0, 0;
      while deleted < |batch|
        invariant sent == deleted <= |batch| && left == effects - 2 * deleted
        invariant log == old(log) + old(rows)[..sent] && rows == old(rows)[deleted..]
      {
        if left == 0 { return; }
        log := log + [batch[deleted]];
        sent, left := sent + 1, left - 1;
        assert old(rows)[..sent] == old(rows)[..deleted] + [batch[deleted]];
        if left == 0 { return; }
        FirstDeleted(rows);
        rows := Deleted(rows, batch[deleted].id);
        deleted, left := deleted + 1, left - 1;
      }
    }
  }
}
