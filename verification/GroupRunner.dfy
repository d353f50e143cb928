/** A group of runners: launching, the first result or interrupt, stopping the rest,
    and collecting one result per runner or timeouts in their place. */
module GroupRunner {
  import opened Runner

  datatype TimerPc = Off | Armed | TimerSent | TimerClosed
  datatype CollectorPc = Launching | First | Loop | Back

  /** `todo` are the runners an interrupt has still to visit; `late` is the duration
      that group timeouts carry; `heard` that a group timeout has been received. With
      `async` there is no context, and results are handed to the caller's channel one
      by one: `handed` counts those that have been. */
  datatype Group = Group(
    async: bool, dur: int, runs: map<string, Run>, out: Chan<Result>, signal: Chan<int>,
    interrupted: bool, todo: set<string>, timer: TimerPc,
    pc: CollectorPc, results: seq<Result>, handed: nat, late: int, heard: bool)

  datatype Label =
    | Inner(id: string, step: Step) | Deliver(id: string)
    | Launched | GroupInterrupt | VisitOne(id: string) | ArmTimer | TimerSends | TimerCloses
    | ContextDone | Collect | CollectTimeout | HandOver | Return

  const UNKNOWN: string := "_unknown_"

  function IdOf(x: Result): string {
    if x.Report? then x.id else UNKNOWN
  }

  function Put(g: Group, id: string, r: Run): Group {
    g.(runs := g.runs[id := r])
  }

  /** Begins an interrupt unless there has been one. */
  function Interrupted(g: Group): Group {
    if g.interrupted then g else g.(interrupted := true, todo := g.runs.Keys)
  }

  /** The collector waits for its next result. */
  predicate Listening(g: Group) {
    g.pc.First? || (g.pc.Loop? && |g.results| < |g.runs| && (g.async ==> g.handed == |g.results|))
  }

  /** One step, or no change if it is not possible now. A runner can be interrupted by
      others too, and the group's interrupt may still be visiting runners while the
      collector goes on. */
  function Next(g: Group, l: Label): Group {
    match l
    case Inner(id, s) =>
      if id in g.runs && (s.Begin? ==> g.pc.Launching?) then Put(g, id, Runner.Next(id, g.runs[id], s)) else g
    case Deliver(id) =>
      if id in g.runs && g.runs[id].main.MainHas? && CanSend(g.out)
      then Put(g, id, g.runs[id].(main := MainSent)).(out := Send(g.out, g.runs[id].main.result)) else g
    case Launched =>
      if g.pc.Launching? && forall id :: id in g.runs ==> !g.runs[id].main.MainIdle? then g.(pc := First) else g
    case GroupInterrupt => Interrupted(g)
    case VisitOne(id) =>
      if id !in g.todo || id !in g.runs then g
      else if CanReceive(g.runs[id].finished) then g.(todo := g.todo - {id})
      else Put(g, id, Runner.Next(id, g.runs[id], Interrupt)).(todo := g.todo - {id})
    case ArmTimer => if g.interrupted && g.todo == {} && g.timer.Off? then g.(timer := Armed) else g
    case TimerSends =>
      if g.timer.Armed? && CanSend(g.signal) then g.(timer := TimerSent, signal := Send(g.signal, g.dur)) else g
    case TimerCloses => if g.timer.TimerSent? then g.(timer := TimerClosed, signal := Close(g.signal)) else g
    case ContextDone => if g.pc.First? && !g.async then Interrupted(g.(pc := Loop)) else g
    case Collect =>
      if CanReceive(g.out) && Listening(g) then
        var h := g.(pc := Loop, results := g.results + [Received(g.out, NoResult)], out := Drop(g.out));
        if g.pc.First? then Interrupted(h) else h
      else g
    case CollectTimeout =>
      if CanReceive(g.signal) && Listening(g) then
        var d := if g.signal.buf != [] || g.pc.First? then Received(g.signal, 0) else g.late;
        var h := g.(pc := Loop, late := d, heard := true, results := g.results + [GroupTimeout(d)],
            signal := Drop(g.signal));
        if g.pc.First? then Interrupted(h) else h
      else g
    case HandOver => if g.async && g.handed < |g.results| then g.(handed := g.handed + 1) else g
    case Return => if g.pc.Loop? && |g.results| >= |g.runs| && (g.async ==> g.handed == |g.results|)
        then g.(pc := Back) else g
  }

  ghost predicate Init(g: Group) {
    && g.runs != map[]
    && (forall id :: id in g.runs ==> g.runs[id] == NewRun(g.runs[id].dur))
    && g.out == NewChan(|g.runs|) && g.signal == NewChan(1)
    && !g.interrupted && g.todo == {} && g.timer.Off?
    && g.pc.Launching? && g.results == [] && g.handed == 0 && g.late == 0 && !g.heard
  }

  // ------------------------------------------------------------------ what every step keeps

  /** The report of a runner of the group that has delivered it. */
  ghost predicate Delivered(runs: map<string, Run>, x: Result) {
    x.Report? && x.id in runs && runs[x.id].main.MainSent? && Own(x.id, runs[x.id].dur, x)
  }

  ghost predicate DistinctReports(xs: seq<Result>) {
    forall i, j :: 0 <= i < j < |xs| && xs[i].Report? && xs[j].Report? ==> xs[i].id != xs[j].id
  }

  ghost predicate ResultsOk(g: Group) {
    && (forall i :: 0 <= i < |g.out.buf| ==> Delivered(g.runs, g.out.buf[i]))
    && (forall i :: 0 <= i < |g.results| ==> Delivered(g.runs, g.results[i]) || g.results[i] == GroupTimeout(g.dur))
    && DistinctReports(g.results + g.out.buf)
  }

  ghost predicate SignalOk(g: Group) {
    && !g.signal.broken && g.signal.cap == 1
    && (g.signal.closed <==> g.timer.TimerClosed?)
    && (g.timer.TimerSent? || g.timer.TimerClosed? ==> if g.heard then g.signal.buf == [] else g.signal.buf == [g.dur])
    && (g.timer.Off? || g.timer.Armed? ==> g.signal.buf == [] && !g.heard)
    && (g.heard ==> g.late == g.dur)
    && (!g.timer.Off? ==> g.interrupted && g.todo == {})
  }

  ghost predicate CountOk(g: Group) {
    && g.runs != map[] && |g.results| <= |g.runs|
    && (g.pc.Launching? || g.pc.First? ==> g.results == [] && !g.heard)
    && (g.pc.Back? ==> |g.results| == |g.runs|)
    && g.handed <= |g.results| && (g.async ==> |g.results| <= g.handed + 1 && (g.pc.Back? ==> g.handed == |g.results|))
    && (!g.pc.Launching? ==> forall id :: id in g.runs ==> !g.runs[id].main.MainIdle?)
    && g.out.cap == |g.runs| && !g.out.closed && !g.out.broken && g.todo <= g.runs.Keys
    && (g.pc.Loop? || g.pc.Back? ==> g.interrupted)
  }

  ghost predicate RunsOk(g: Group) {
    forall id :: id in g.runs ==> Runner.Ok(id, g.runs[id])
  }

  ghost predicate Inv(g: Group) {
    RunsOk(g) && ResultsOk(g) && SignalOk(g) && CountOk(g)
  }

  lemma InitInv(g: Group)
    requires Init(g)
    ensures Inv(g)
  {
  }

  /** Changing a runner that has not delivered, or leaving it delivered. */
  lemma PutKeeps(g: Group, id: string, r: Run)
    requires Inv(g) && id in g.runs && Runner.Ok(id, r) && r.dur == g.runs[id].dur
    requires g.runs[id].main.MainSent? ==> r.main.MainSent?
    requires r.main.MainIdle? ==> g.runs[id].main.MainIdle?
    ensures Inv(Put(g, id, r))
  {
    hide Runner.Ok;
    assert Put(g, id, r).runs.Keys == g.runs.Keys;
    forall x | Delivered(g.runs, x) ensures Delivered(Put(g, id, r).runs, x) {}
  }

  lemma InnerKeeps(g: Group, id: string, s: Step)
    requires Inv(g) && id in g.runs
    ensures Inv(Put(g, id, Runner.Next(id, g.runs[id], s)))
  {
    hide ResultsOk, SignalOk, CountOk, Runner.Ok, Runner.Next;
    NextOk(id, g.runs[id], s);
    PutKeeps(g, id, Runner.Next(id, g.runs[id], s));
  }

  lemma DeliverKeeps(g: Group, id: string)
    requires Inv(g) && id in g.runs && g.runs[id].main.MainHas?
    ensures Inv(Put(g, id, g.runs[id].(main := MainSent)).(out := Send(g.out, g.runs[id].main.result)))
  {
    hide Runner.Ok, Own;
    var x, r := g.runs[id].main.result, g.runs[id].(main := MainSent);
    SentOk(id, g.runs[id]);
    OwnReport(id, r.dur, x);
    PutKeeps(g, id, r);
    forall i | 0 <= i < |g.results + g.out.buf| && (g.results + g.out.buf)[i].Report?
      ensures (g.results + g.out.buf)[i].id != id
    {
      assert i < |g.results| ==> (g.results + g.out.buf)[i] == g.results[i];
      assert i >= |g.results| ==> (g.results + g.out.buf)[i] == g.out.buf[i - |g.results|];
    }
    AppendKeeps(Put(g, id, r), x);
  }

  lemma OwnReport(id: string, dur: int, x: Result)
    requires Own(id, dur, x)
    ensures x.Report? && x.id == id
  {
  }

  lemma AppendKeeps(g: Group, x: Result)
    requires Inv(g) && Delivered(g.runs, x)
    requires forall i :: 0 <= i < |g.results + g.out.buf| && (g.results + g.out.buf)[i].Report? ==>
             (g.results + g.out.buf)[i].id != x.id
    ensures Inv(g.(out := Send(g.out, x)))
  {
    hide Runner.Ok;
    assert g.results + Send(g.out, x).buf == (g.results + g.out.buf) + [x];
  }

  lemma InterruptKeeps(g: Group)
    requires Inv(g)
    ensures Inv(Interrupted(g))
  {
    hide Runner.Ok;
  }

  lemma CollectKeeps(g: Group)
    requires Inv(g) && CanReceive(g.out) && Listening(g)
    requires g.interrupted
    ensures Inv(g.(pc := Loop, results := g.results + [Received(g.out, NoResult)], out := Drop(g.out)))
  {
    hide Runner.Ok;
    var h := g.(pc := Loop, results := g.results + [Received(g.out, NoResult)], out := Drop(g.out));
    assert h.results + h.out.buf == g.results + g.out.buf;
    assert |g.runs| > 0;
    forall i | 0 <= i < |h.out.buf| ensures h.out.buf[i] == g.out.buf[i + 1] {}
  }

  lemma TimeoutKeeps(g: Group)
    requires Inv(g) && CanReceive(g.signal) && Listening(g)
    requires g.interrupted
    ensures var d := if g.signal.buf != [] || g.pc.First? then Received(g.signal, 0) else g.late;
            d == g.dur &&
            Inv(g.(pc := Loop, late := d, heard := true, results := g.results + [GroupTimeout(d)],
                signal := Drop(g.signal)))
  {
    hide Runner.Ok;
    var d := if g.signal.buf != [] || g.pc.First? then Received(g.signal, 0) else g.late;
    var h := g.(pc := Loop, late := d, heard := true, results := g.results + [GroupTimeout(d)],
        signal := Drop(g.signal));
    assert |g.runs| > 0;
    var old1, new1 := g.results + g.out.buf, h.results + h.out.buf;
    forall i, j | 0 <= i < j < |new1| && new1[i].Report? && new1[j].Report? ensures new1[i].id != new1[j].id {
      var a, b := if i < |g.results| then i else i - 1, if j < |g.results| then j else j - 1;
      assert new1[i] == old1[a] && new1[j] == old1[b];
    }
  }

  lemma NextInv(g: Group, l: Label)
    requires Inv(g)
    ensures Inv(Next(g, l)) && Next(g, l).runs.Keys == g.runs.Keys && Next(g, l).dur == g.dur
    ensures Next(g, l).async == g.async
  {
    hide Inv, Runner.Next;
    match l
    case Inner(id, s) => if id in g.runs { InnerKeeps(g, id, s); }
    case Deliver(id) => if id in g.runs && g.runs[id].main.MainHas? { DeliverKeeps(g, id); }
    case GroupInterrupt => InterruptKeeps(g);
    case VisitOne(id) => if id in g.todo { VisitKeeps(g, id); }
    case ContextDone => if g.pc.First? && !g.async { InterruptKeeps(g); ContextKeeps(Interrupted(g)); }
    case Collect => CollectorKeeps(g, l);
    case CollectTimeout => CollectorKeeps(g, l);
    case _ => OtherKeeps(g, l);
  }

  lemma CollectorKeeps(g: Group, l: Label)
    requires Inv(g) && (l.Collect? || l.CollectTimeout?)
    ensures Inv(Next(g, l)) && Next(g, l).runs.Keys == g.runs.Keys && Next(g, l).dur == g.dur
    ensures Next(g, l).async == g.async
  {
    hide RunsOk, ResultsOk, Runner.Next;
    if l.Collect? && CanReceive(g.out) && Listening(g) {
      InterruptKeeps(g);
      CollectKeeps(Interrupted(g));
    } else if l.CollectTimeout? && CanReceive(g.signal) && Listening(g) {
      InterruptKeeps(g);
      TimeoutKeeps(Interrupted(g));
    }
  }

  lemma VisitKeeps(g: Group, id: string)
    requires Inv(g) && id in g.todo
    ensures id in g.runs && Inv(Next(g, VisitOne(id)))
  {
    hide Runner.Ok, Runner.Next;
    InnerKeeps(g, id, Interrupt);
    LessTodo(g, id);
    LessTodo(Put(g, id, Runner.Next(id, g.runs[id], Interrupt)), id);
  }

  lemma LessTodo(g: Group, id: string)
    requires Inv(g)
    ensures Inv(g.(todo := g.todo - {id}))
  {
    hide Runner.Ok;
  }

  lemma ContextKeeps(g: Group)
    requires Inv(g) && g.pc.First? && g.interrupted
    ensures Inv(g.(pc := Loop))
  {
    hide Runner.Ok;
  }

  lemma OtherKeeps(g: Group, l: Label)
    requires Inv(g) && (l.Launched? || l.ArmTimer? || l.TimerSends? || l.TimerCloses? || l.HandOver? || l.Return?)
    ensures Inv(Next(g, l)) && Next(g, l).runs == g.runs
  {
    hide Inv;
    if l.Launched? || l.Return? { EndKeeps(g, l); }
    else if l.HandOver? { HandKeeps(g, l); }
    else { TimerKeeps(g, l); }
  }

  lemma EndKeeps(g: Group, l: Label)
    requires Inv(g) && (l.Launched? || l.Return?)
    ensures Inv(Next(g, l)) && Next(g, l).runs == g.runs
  {
    hide Runner.Ok;
  }

  lemma HandKeeps(g: Group, l: Label)
    requires Inv(g) && l.HandOver?
    ensures Inv(Next(g, l)) && Next(g, l).runs == g.runs
  {
    hide Runner.Ok;
  }

  lemma TimerKeeps(g: Group, l: Label)
    requires Inv(g) && (l.ArmTimer? || l.TimerSends? || l.TimerCloses?)
    ensures Inv(Next(g, l)) && Next(g, l).runs == g.runs
  {
    hide Runner.Ok;
  }

  // ------------------------------------------------------------------ every run

  ghost function After(g: Group, ls: seq<Label>): (h: Group)
    requires Init(g)
    ensures Inv(h) && h.runs.Keys == g.runs.Keys && h.dur == g.dur && h.async == g.async
    decreases |ls|
  {
    InitInv(g);
    if ls == [] then g
    else
      var before := After(g, ls[..|ls| - 1]);
      NextInv(before, ls[|ls| - 1]);
      Next(before, ls[|ls| - 1])
  }

  lemma SameSize(a: map<string, Run>, b: map<string, Run>)
    requires a.Keys == b.Keys
    ensures |a| == |b|
  {
    assert |a| == |a.Keys| && |b| == |b.Keys|;
  }

  /** A group of n runners ends with exactly n results, returned or all handed over; each
      is a runner's own report or a group timeout of the configured duration, and no
      runner reports twice. */
  lemma GroupReturns(g: Group, ls: seq<Label>)
    requires Init(g)
    ensures var h := After(g, ls);
            && |h.results| <= |g.runs| && (h.pc.Back? ==> |h.results| == |g.runs| && (g.async ==> h.handed == |g.runs|))
            && (g.async ==> h.handed <= |h.results| <= h.handed + 1)
            && (forall i :: 0 <= i < |h.results| ==>
                  || h.results[i] == GroupTimeout(g.dur)
                  || (h.results[i].Report? && h.results[i].id in h.runs &&
                       Own(h.results[i].id, h.runs[h.results[i].id].dur, h.results[i])))
            && (forall i, j ::
                 0 <= i < j < |h.results| && IdOf(h.results[i]) != UNKNOWN && IdOf(h.results[j]) != UNKNOWN ==>
                  IdOf(h.results[i]) != IdOf(h.results[j]))
  {
    hide Runner.Ok, After;
    var h := After(g, ls);
    SameSize(g.runs, h.runs);
    forall i, j | 0 <= i < j < |h.results| && IdOf(h.results[i]) != UNKNOWN && IdOf(h.results[j]) != UNKNOWN
      ensures IdOf(h.results[i]) != IdOf(h.results[j])
    {
      assert (h.results + h.out.buf)[i] == h.results[i] && (h.results + h.out.buf)[j] == h.results[j];
    }
  }

  /** Every stopper runs at most once, and no channel is sent on after it was closed or
      closed twice. */
  lemma NothingBreaks(g: Group, ls: seq<Label>, id: string)
    requires Init(g) && id in g.runs
    ensures var h := After(g, ls);
            && !h.out.broken && !h.signal.broken
            && id in h.runs && h.runs[id].stops <= 1
            && !h.runs[id].finished.broken && !h.runs[id].tmp.broken && !h.runs[id].signal.broken
  {
    hide After;
    assert Runner.Ok(id, After(g, ls).runs[id]);
  }

  lemma {:induction false} DistinctFit(ids: seq<string>, all: set<string>)
    requires forall i, j :: 0 <= i < j < |ids| ==> ids[i] != ids[j]
    requires forall i :: 0 <= i < |ids| ==> ids[i] in all
    ensures |ids| <= |all|
    decreases |ids|
  {
    if ids != [] {
      DistinctFit(ids[1..], all - {ids[0]});
    }
  }

  /** The result channel is never full when a runner has a result for it, so no runner
      is left waiting, not even after the group has returned. */
  lemma NeverFull(g: Group, ls: seq<Label>, id: string)
    requires Init(g) && id in g.runs
    ensures var h := After(g, ls);
            id in h.runs && (h.runs[id].main.MainHas? ==> CanSend(h.out))
  {
    hide Runner.Ok, After, Own;
    var h := After(g, ls);
    var buf := h.out.buf;
    if h.runs[id].main.MainHas? {
      var ids := seq(|buf|, i requires 0 <= i < |buf| => IdOf(buf[i]));
      forall i, j | 0 <= i < j < |buf| ensures ids[i] != ids[j] {
        assert (h.results + buf)[|h.results| + i] == buf[i] && (h.results + buf)[|h.results| + j] == buf[j];
      }
      DistinctFit(ids, h.runs.Keys - {id});
      assert |h.runs| == |h.runs.Keys|;
    }
  }

  /** Once the group's timer has fired, the collector is never held up, but by a caller
      that does not take what it is handed. */
  lemma CollectorMoves(g: Group, ls: seq<Label>)
    requires Init(g) && After(g, ls).pc.Loop? && After(g, ls).timer.TimerClosed?
    ensures var h := After(g, ls);
            || Next(h, Return).pc.Back? || |Next(h, CollectTimeout).results| == |h.results| + 1
            || (h.async && Next(h, HandOver).handed == h.handed + 1)
  {
    hide Runner.Ok, After, ResultsOk;
  }

  /** Without runners there is no exact count: an interrupt from outside makes the
      collector return a result that stands for nobody. */
  lemma EmptyGroupOvershoots(dur: int)
    ensures var g := Group(false, dur, map[], NewChan(0), NewChan(1), false, {}, Off, First, [], 0, 0, false);
            var h := Next(Next(Next(Next(Next(g, GroupInterrupt), ArmTimer), TimerSends), CollectTimeout), Return);
            h.pc.Back? && h.results == [GroupTimeout(dur)]
  {
  }
}
