/** One runner: the task's goroutine, the goroutine that waits for its result or a
    timeout, and the goroutine that an interrupt starts, over three channels. */
module Runner {

  /** A channel; `broken` records a send after close or a second close. */
  datatype Chan<T> = Chan(buf: seq<T>, cap: nat, closed: bool, broken: bool)

  function NewChan<T>(cap: nat): Chan<T> {
    Chan([], cap, false, false)
  }

  predicate CanSend<T>(c: Chan<T>) {
    c.closed || |c.buf| < c.cap
  }

  function Send<T>(c: Chan<T>, v: T): Chan<T> {
    if c.closed then c.(broken := true) else c.(buf := c.buf + [v])
  }

  function Close<T>(c: Chan<T>): Chan<T> {
    if c.closed then c.(broken := true) else c.(closed := true)
  }

  predicate CanReceive<T>(c: Chan<T>) {
    c.buf != [] || c.closed
  }

  /** A closed and empty channel gives the zero value. */
  function Received<T>(c: Chan<T>, zero: T): T {
    if c.buf != [] then c.buf[0] else zero
  }

  function Drop<T>(c: Chan<T>): Chan<T> {
    if c.buf != [] then c.(buf := c.buf[1..]) else c
  }

  datatype Error = NoError | TaskError(message: string) | Timeout(dur: int)

  /** What a runner reports, or the group in place of a runner it does not know;
      `NoResult` is the nil that a closed, empty channel would give. */
  datatype Result = Report(id: string, error: Error) | GroupTimeout(dur: int) | NoResult

  datatype TaskPc = TaskIdle | TaskRunning | TaskReturned(error: Error) | TaskClosed(error: Error) | TaskSent | TaskDone
  datatype WatchPc = NoWatch | Watching | WatchSent | WatchClosed | WatchGone
  datatype MainPc = MainIdle | MainWaiting | MainHas(result: Result) | MainSent

  datatype Run = Run(
    dur: int, task: TaskPc, finished: Chan<()>, tmp: Chan<Result>,
    interrupted: bool, stops: nat, watch: WatchPc, signal: Chan<int>, main: MainPc)

  function NewRun(dur: int): Run {
    Run(dur, TaskIdle, NewChan(0), NewChan(1), false, 0, NoWatch, NewChan(1), MainIdle)
  }

  datatype Step =
    | Begin | TaskReturns(error: Error) | TaskCloses | TaskSends | TaskEnds
    | Interrupt | WatchTimer | WatchCloses | WatchFinished
    | TakeTimeout | TakeResult

  /** One step of a runner's goroutines, or no change if it is not possible now. */
  function Next(id: string, r: Run, s: Step): Run {
    match s
    case Begin => if r.main.MainIdle? && r.task.TaskIdle? then r.(main := MainWaiting, task := TaskRunning) else r
    case TaskReturns(e) => if r.task.TaskRunning? && !e.Timeout? then r.(task := TaskReturned(e)) else r
    case TaskCloses => if r.task.TaskReturned? then r.(task := TaskClosed(r.task.error),
        finished := Close(r.finished)) else r
    case TaskSends =>
      if r.task.TaskClosed? && CanSend(r.tmp)
      then r.(task := TaskSent, tmp := Send(r.tmp, Report(id, r.task.error))) else r
    case TaskEnds => if r.task.TaskSent? then r.(task := TaskDone, tmp := Close(r.tmp)) else r
    case Interrupt => if r.interrupted then r else r.(interrupted := true, stops := r.stops + 1, watch := Watching)
    case WatchTimer =>
      if r.watch.Watching? && CanSend(r.signal) then r.(watch := WatchSent, signal := Send(r.signal, r.dur)) else r
    case WatchCloses => if r.watch.WatchSent? then r.(watch := WatchClosed, signal := Close(r.signal)) else r
    case WatchFinished => if r.watch.Watching? && CanReceive(r.finished) then r.(watch := WatchGone) else r
    case TakeTimeout =>
      if r.main.MainWaiting? && CanReceive(r.signal)
      then r.(main := MainHas(Report(id, Timeout(Received(r.signal, 0)))), signal := Drop(r.signal)) else r
    case TakeResult =>
      if r.main.MainWaiting? && CanReceive(r.tmp)
      then r.(main := MainHas(Received(r.tmp, NoResult)), tmp := Drop(r.tmp)) else r
  }

  /** A runner's own report: what its task returned, or a timeout of its own duration. */
  predicate Own(id: string, dur: int, x: Result) {
    x.Report? && x.id == id && (x.error.Timeout? ==> x.error.dur == dur)
  }

  predicate TaskOver(r: Run) {
    r.task.TaskClosed? || r.task.TaskSent? || r.task.TaskDone?
  }

  ghost predicate Ok(id: string, r: Run) {
    && !r.finished.broken && !r.tmp.broken && !r.signal.broken
    && r.finished.buf == [] && r.tmp.cap == 1 && r.signal.cap == 1
    && (r.finished.closed <==> TaskOver(r))
    && (r.tmp.closed <==> r.task.TaskDone?)
    && (r.signal.closed <==> r.watch.WatchClosed?)
    && (r.watch.NoWatch? <==> !r.interrupted)
    && r.stops == (if r.interrupted then 1 else 0)
    && (r.task.TaskIdle? <==> r.main.MainIdle?)
    && (r.task.TaskReturned? || r.task.TaskClosed? ==> !r.task.error.Timeout?)
    && (r.tmp.buf == [] || (|r.tmp.buf| == 1 && Own(id, r.dur, r.tmp.buf[0]) && (r.task.TaskSent? || r.task.TaskDone?)))
    && (r.signal.buf == [] || (r.signal.buf == [r.dur] && (r.watch.WatchSent? || r.watch.WatchClosed?)))
    && (r.main.MainWaiting? && (r.task.TaskSent? || r.task.TaskDone?) ==> r.tmp.buf != [])
    && ((r.main.MainIdle? || r.main.MainWaiting?) && (r.watch.WatchSent? || r.watch.WatchClosed?) ==>
         r.signal.buf != [])
    && (r.watch.WatchGone? ==> TaskOver(r))
    && (r.main.MainHas? ==> Own(id, r.dur, r.main.result))
  }

  /** No step of a runner sends on a closed channel or closes one twice, runs the
      stopper again, or makes up a result. */
  lemma NextOk(id: string, r: Run, s: Step)
    requires Ok(id, r)
    ensures Ok(id, Next(id, r, s)) && Next(id, r, s).dur == r.dur
    ensures r.stops <= Next(id, r, s).stops <= 1
    ensures r.main.MainHas? || r.main.MainSent? ==> Next(id, r, s).main == r.main
    ensures !r.main.MainSent? ==> !Next(id, r, s).main.MainSent?
    ensures !r.main.MainIdle? ==> !Next(id, r, s).main.MainIdle?
  {
  }

  /** A runner that has been interrupted, or whose task has ended, can always go on
      until it has a result. */
  lemma NeverStuck(id: string, r: Run)
    requires Ok(id, r) && r.main.MainWaiting? && (TaskOver(r) || r.task.TaskReturned? || r.interrupted)
    ensures exists s ::
            s in {TaskCloses, TaskSends, TakeResult, WatchTimer, WatchFinished, TakeTimeout} && Next(id, r, s) != r
  {
    if r.task.TaskReturned? {
      assert Next(id, r, TaskCloses) != r;
    } else if r.task.TaskClosed? {
      assert Next(id, r, TaskSends) != r;
    } else if TaskOver(r) {
      assert Next(id, r, TakeResult) != r;
    } else if r.watch.Watching? {
      assert Next(id, r, WatchTimer) != r;
    } else {
      assert Next(id, r, TakeTimeout) != r;
    }
  }

  lemma SentOk(id: string, r: Run)
    requires Ok(id, r) && r.main.MainHas?
    ensures Ok(id, r.(main := MainSent)) && Own(id, r.dur, r.main.result)
  {
  }
}
