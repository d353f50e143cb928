/** The mount-generation lease: requests hold a shared gate and a generation, and the
    remote root is reopened only under the exclusive gate. Threads of any number of
    processes take these steps in any order; a process can die between any two. */
module Mount {
  type ProcId = nat
  type ThreadId = nat

  /** A file system that the configured pathname can lead to. */
  type RootId = nat

  /** A thread inside `enter` or `reopen`. `Gated`, `Read` and `In` hold the shared gate,
      the others the exclusive one; `In` remembers what was mounted at the admission, and
      `Alone` to `Bumped` the root that a reopening thread has opened. */
  datatype Phase =
    | Gated | Read(seen: int) | In(at: RootId)
    | Alone | Opened(root: RootId) | Checked(root: RootId) | Known(root: RootId, seen: int)
    | Bumped(root: RootId, to: int)
  datatype Thread = Thread(proc: ProcId, phase: Phase)

  /** `closed` processes admit nothing more; `stored` is the shared generation, `mounted`
      what the pathname leads to now. */
  datatype Proc = Proc(root: RootId, generation: int, closed: bool)
  datatype World = World(stored: int, mounted: RootId, procs: map<ProcId, Proc>, threads: map<ThreadId, Thread>)

  datatype Step =
    | Remount(root: RootId) | Start(p: ProcId, root: RootId) | Close(p: ProcId) | Die(p: ProcId)
    | Enter(t: ThreadId, p: ProcId) | ReadStored(t: ThreadId) | Admit(t: ThreadId) | Leave(t: ThreadId)
    | Reopen(t: ThreadId, p: ProcId) | Open(t: ThreadId) | Check(t: ThreadId) | ReadAlone(t: ThreadId)
    | Bump(t: ThreadId) | Adopt(t: ThreadId)

  predicate Shared(ph: Phase) {
    ph.Gated? || ph.Read? || ph.In?
  }

  predicate Admits(w: World, p: ProcId) {
    p in w.procs && !w.procs[p].closed
  }

  /** The shared gate is free unless a thread holds it exclusively. */
  ghost predicate NoWriter(w: World) {
    forall t :: t in w.threads ==> Shared(w.threads[t].phase)
  }

  function Put(w: World, t: ThreadId, ph: Phase): World
    requires t in w.threads
  {
    w.(threads := w.threads[t := w.threads[t].(phase := ph)])
  }

  /** One step, or no change if it is not possible now. */
  ghost function Next(w: World, s: Step): World {
    match s
    case Remount(root) => w.(mounted := root)
    case Start(p, root) => if p in w.procs then w else w.(procs := w.procs[p := Proc(root, w.stored, false)])
    case Close(p) => if p in w.procs then w.(procs := w.procs[p := w.procs[p].(closed := true)]) else w
    case Die(p) =>
      w.(procs := w.procs - {p}, threads := map t | t in w.threads && w.threads[t].proc != p :: w.threads[t])
    case Enter(t, p) =>
      if t !in w.threads && Admits(w, p) && NoWriter(w)
      then w.(threads := w.threads[t := Thread(p, Gated)]) else w
    case ReadStored(t) =>
      if t in w.threads && w.threads[t].phase.Gated? then Put(w, t, Read(w.stored)) else w
    case Admit(t) =>
      if t in w.threads && w.threads[t].phase.Read? && w.threads[t].proc in w.procs
         && w.threads[t].phase.seen == w.procs[w.threads[t].proc].generation
         && w.procs[w.threads[t].proc].root == w.mounted
      then Put(w, t, In(w.mounted)) else w
    case Leave(t) => w.(threads := w.threads - {t})
    case Reopen(t, p) =>
      if w.threads == map[] && Admits(w, p) then w.(threads := w.threads[t := Thread(p, Alone)]) else w
    case Open(t) =>
      if t in w.threads && w.threads[t].phase.Alone? then Put(w, t, Opened(w.mounted)) else w
    case Check(t) =>
      if t in w.threads && w.threads[t].phase.Opened? && w.threads[t].phase.root == w.mounted
      then Put(w, t, Checked(w.mounted)) else w
    case ReadAlone(t) =>
      if t in w.threads && w.threads[t].phase.Checked? then Put(w, t, Known(w.threads[t].phase.root, w.stored)) else w
    case Bump(t) =>
      if t in w.threads && w.threads[t].phase.Known? && w.threads[t].proc in w.procs then
        var root, seen := w.threads[t].phase.root, w.threads[t].phase.seen;
        if seen == w.procs[w.threads[t].proc].generation
        then Put(w, t, Bumped(root, seen + 1)).(stored := seen + 1)
        else Put(w, t, Bumped(root, seen))
      else w
    case Adopt(t) =>
      if t in w.threads && w.threads[t].phase.Bumped? && w.threads[t].proc in w.procs then
        var p := w.threads[t].proc;
        w.(procs := w.procs[p := w.procs[p].(root := w.threads[t].phase.root, generation := w.threads[t].phase.to)],
           threads := w.threads - {t})
      else w
  }

  ghost predicate ThreadOk(w: World, t: ThreadId)
    requires t in w.threads
  {
    && w.threads[t].proc in w.procs
    && match w.threads[t].phase
       case Gated => true
       case Read(seen) => seen == w.stored
       case In(at) => w.procs[w.threads[t].proc].generation == w.stored && w.procs[w.threads[t].proc].root == at
       case Known(_, seen) => seen == w.stored
       case Bumped(_, to) => to == w.stored
       case _ => true
  }

  ghost predicate Inv(w: World) {
    && (forall p :: p in w.procs ==> w.procs[p].generation <= w.stored)
    && (forall t :: t in w.threads ==> ThreadOk(w, t))
    && (forall t, u :: t in w.threads && u in w.threads && !Shared(w.threads[t].phase) ==> t == u)
  }

  lemma ProcInv(w: World, s: Step)
    requires Inv(w) && (s.Remount? || s.Start? || s.Close? || s.Die?)
    ensures Inv(Next(w, s)) && w.stored <= Next(w, s).stored
  {
  }

  lemma EnterInv(w: World, s: Step)
    requires Inv(w) && (s.Enter? || s.ReadStored? || s.Admit? || s.Leave?)
    ensures Inv(Next(w, s)) && w.stored <= Next(w, s).stored
  {
  }

  lemma ReopenInv(w: World, s: Step)
    requires Inv(w) && (s.Reopen? || s.Open? || s.Check? || s.ReadAlone? || s.Bump? || s.Adopt?)
    ensures Inv(Next(w, s)) && w.stored <= Next(w, s).stored
  {
  }

  lemma NextInv(w: World, s: Step)
    requires Inv(w)
    ensures Inv(Next(w, s)) && w.stored <= Next(w, s).stored
  {
    hide Inv, Next;
    if s.Remount? || s.Start? || s.Close? || s.Die? { ProcInv(w, s); }
    else if s.Enter? || s.ReadStored? || s.Admit? || s.Leave? { EnterInv(w, s); }
    else { ReopenInv(w, s); }
  }

  ghost function Run(stored: int, steps: seq<Step>): (w: World)
    ensures Inv(w)
    decreases |steps|
  {
    if steps == [] then World(stored, 0, map[], map[])
    else
      var before := Run(stored, steps[..|steps| - 1]);
      NextInv(before, steps[|steps| - 1]);
      Next(before, steps[|steps| - 1])
  }

  /** In every run, a request is only in with the stored generation, so no two
      generations are in use at once, and none is in use while one is replaced. */
  lemma OneGeneration(stored: int, steps: seq<Step>, t: ThreadId, u: ThreadId)
    ensures var w := Run(stored, steps);
            && (t in w.threads && w.threads[t].phase.In? ==>
                  w.threads[t].proc in w.procs && w.procs[w.threads[t].proc].generation == w.stored)
            && (t in w.threads && u in w.threads && w.threads[t].phase.In? && w.threads[u].phase.In? ==>
                  && w.threads[t].proc in w.procs && w.threads[u].proc in w.procs
                  && w.procs[w.threads[t].proc].generation == w.procs[w.threads[u].proc].generation)
            && (t in w.threads && u in w.threads && w.threads[t].phase.In? ==> Shared(w.threads[u].phase))
  {
    var w := Run(stored, steps);
    if t in w.threads && u in w.threads && w.threads[t].phase.In? && !Shared(w.threads[u].phase) {
      assert u == t;
    }
  }

  /** The root is never changed under a request: as long as it is in, its process works
      on what was mounted when it was admitted. */
  lemma OneRoot(stored: int, steps: seq<Step>, t: ThreadId)
    ensures var w := Run(stored, steps);
            t in w.threads && w.threads[t].phase.In? ==>
              w.threads[t].proc in w.procs && w.procs[w.threads[t].proc].root == w.threads[t].phase.at
  {
    hide Next;
    var w := Run(stored, steps);
    if t in w.threads {
      assert ThreadOk(w, t);
    }
  }

  const ONE: map<ProcId, Proc> := map[0 := Proc(0, 0, false)]
  const BOTH: map<ProcId, Proc> := map[0 := Proc(0, 0, false), 1 := Proc(1, 0, false)]

  /** The first process with a request in, and the second after the remount. */
  function Alongside(ph: Phase): World {
    World(0, 1, BOTH, map[0 := Thread(0, In(0)), 1 := Thread(1, ph)])
  }

  lemma FirstIn()
    ensures Next(World(0, 0, map[], map[]), Start(0, 0)) == World(0, 0, ONE, map[])
    ensures Next(World(0, 0, ONE, map[]), Enter(0, 0)) == World(0, 0, ONE, map[0 := Thread(0, Gated)])
    ensures Next(World(0, 0, ONE, map[0 := Thread(0, Gated)]), ReadStored(0)) ==
            World(0, 0, ONE, map[0 := Thread(0, Read(0))])
    ensures Next(World(0, 0, ONE, map[0 := Thread(0, Read(0))]), Admit(0)) ==
            World(0, 0, ONE, map[0 := Thread(0, In(0))])
  {
  }

  lemma SecondIn()
    ensures Next(World(0, 0, ONE, map[0 := Thread(0, In(0))]), Remount(1)) ==
            World(0, 1, ONE, map[0 := Thread(0, In(0))])
    ensures Next(World(0, 1, ONE, map[0 := Thread(0, In(0))]), Start(1, 1)) ==
            World(0, 1, BOTH, map[0 := Thread(0, In(0))])
    ensures Next(World(0, 1, BOTH, map[0 := Thread(0, In(0))]), Enter(1, 1)) == Alongside(Gated)
    ensures Next(Alongside(Gated), ReadStored(1)) == Alongside(Read(0))
    ensures Next(Alongside(Read(0)), Admit(1)) == Alongside(In(1))
  {
  }

  ghost predicate Reaches(w: World) {
    exists steps :: Run(0, steps) == w
  }

  lemma ReachesOn(w: World, s: Step)
    requires Reaches(w)
    ensures Reaches(Next(w, s))
  {
    hide Next;
    var steps :| Run(0, steps) == w;
    var more := steps + [s];
    assert more[..|more| - 1] == steps;
    assert Run(0, more) == Next(w, s);
  }

  lemma ReachesFirst()
    ensures Reaches(World(0, 0, map[], map[]))
  {
    assert Run(0, []) == World(0, 0, map[], map[]);
  }

  lemma ReachesAlongside()
    ensures Reaches(Alongside(In(1)))
  {
    hide Next, Reaches;
    ReachesFirst();
    FirstIn();
    SecondIn();
    ReachesOn(World(0, 0, map[], map[]), Start(0, 0));
    ReachesOn(World(0, 0, ONE, map[]), Enter(0, 0));
    ReachesOn(World(0, 0, ONE, map[0 := Thread(0, Gated)]), ReadStored(0));
    ReachesOn(World(0, 0, ONE, map[0 := Thread(0, Read(0))]), Admit(0));
    ReachesOn(World(0, 0, ONE, map[0 := Thread(0, In(0))]), Remount(1));
    ReachesOn(World(0, 1, ONE, map[0 := Thread(0, In(0))]), Start(1, 1));
    ReachesOn(World(0, 1, BOTH, map[0 := Thread(0, In(0))]), Enter(1, 1));
    ReachesOn(Alongside(Gated), ReadStored(1));
    ReachesOn(Alongside(Read(0)), Admit(1));
  }

  /** One generation is not one file system. A process that starts after a remount has the
      stored generation, too; its requests are in together with those that still work on
      the old root. Only reopening waits for them. */
  lemma TwoRoots()
    ensures exists steps ::
              var w := Run(0, steps);
              && 0 in w.threads && 1 in w.threads && w.threads[0].phase == In(0) && w.threads[1].phase == In(1)
              && 0 in w.procs && 1 in w.procs && w.procs[0].generation == w.procs[1].generation &&
                   w.procs[0].root != w.procs[1].root
  {
    hide Run;
    ReachesAlongside();
    var steps :| Run(0, steps) == Alongside(In(1));
  }

  // ------------------------------------------------------------------ when there is one root

  /** No two requests are in on different roots. */
  ghost predicate SameRoots(w: World) {
    forall t, u :: t in w.threads && u in w.threads && w.threads[t].phase.In? && w.threads[u].phase.In? ==>
      w.threads[t].phase.at == w.threads[u].phase.at
  }

  /** Every request is in on what is mounted now. */
  ghost predicate AllCurrent(w: World) {
    forall t :: t in w.threads && w.threads[t].phase.In? ==> w.threads[t].phase.at == w.mounted
  }

  ghost function Onward(w: World, steps: seq<Step>): World
    decreases |steps|
  {
    if steps == [] then w else Next(Onward(w, steps[..|steps| - 1]), steps[|steps| - 1])
  }

  predicate Unmoved(steps: seq<Step>) {
    forall i :: 0 <= i < |steps| ==> !steps[i].Remount?
  }

  lemma NextCurrent(w: World, s: Step)
    requires AllCurrent(w) && !s.Remount?
    ensures AllCurrent(Next(w, s)) && Next(w, s).mounted == w.mounted
  {
  }

  lemma {:induction false} StaysCurrent(w: World, steps: seq<Step>)
    requires AllCurrent(w) && Unmoved(steps)
    ensures AllCurrent(Onward(w, steps))
    decreases |steps|
  {
    hide AllCurrent, Next;
    if steps != [] {
      StaysCurrent(w, steps[..|steps| - 1]);
      NextCurrent(Onward(w, steps[..|steps| - 1]), steps[|steps| - 1]);
    }
  }

  lemma {:induction false} Above(ids: set<nat>) returns (n: nat)
    ensures forall i :: i in ids ==> i < n
    decreases |ids|
  {
    if ids == {} {
      n := 0;
    } else {
      var i :| i in ids;
      var m := Above(ids - {i});
      n := if m <= i then i + 1 else m;
      forall j | j in ids ensures j < n {
        if j != i { assert j in ids - {i}; }
      }
    }
  }

  lemma OnwardStep(w: World, steps: seq<Step>, s: Step)
    ensures Onward(w, steps + [s]) == Next(Onward(w, steps), s)
  {
    assert (steps + [s])[..|steps|] == steps;
  }

  lemma Starts(w: World, p: ProcId, u: ThreadId)
    requires Inv(w) && NoWriter(w) && p !in w.procs && u !in w.threads
    ensures var w1 := Next(w, Start(p, w.mounted));
            Next(w1, Enter(u, p)) ==
            w.(procs := w.procs[p := Proc(w.mounted, w.stored, false)], threads := w.threads[u := Thread(p, Gated)])
  {
    assert Next(w, Start(p, w.mounted)) == w.(procs := w.procs[p := Proc(w.mounted, w.stored, false)]);
  }

  lemma Passes(w: World, u: ThreadId)
    requires u in w.threads && w.threads[u].phase.Gated? && w.threads[u].proc in w.procs
    requires var x := w.procs[w.threads[u].proc]; x.generation == w.stored && x.root == w.mounted
    ensures Next(Next(w, ReadStored(u)), Admit(u)) ==
            w.(threads := w.threads[u := Thread(w.threads[u].proc, In(w.mounted))])
  {
    assert Next(w, ReadStored(u)) == w.(threads := w.threads[u := Thread(w.threads[u].proc, Read(w.stored))]);
  }

  /** A new process is admitted on what is mounted now, if nobody is reopening. */
  lemma Joins(w: World, p: ProcId, u: ThreadId)
    requires Inv(w) && NoWriter(w) && p !in w.procs && u !in w.threads
    ensures var v := Onward(w, [Start(p, w.mounted), Enter(u, p), ReadStored(u), Admit(u)]);
            v.threads == w.threads[u := Thread(p, In(w.mounted))]
  {
    var s := [Start(p, w.mounted), Enter(u, p), ReadStored(u), Admit(u)];
    assert Onward(w, []) == w;
    hide Inv, NoWriter, Next, Onward;
    assert [] + [s[0]] == s[..1] && s[..1] + [s[1]] == s[..2] && s[..2] + [s[2]] == s[..3] && s[..3] + [s[3]] == s;
    OnwardStep(w, [], s[0]);
    OnwardStep(w, s[..1], s[1]);
    OnwardStep(w, s[..2], s[2]);
    OnwardStep(w, s[..3], s[3]);
    Starts(w, p, u);
    Passes(Onward(w, s[..2]), u);
  }

  /** In no continuation of a run, without a remount, are two requests in on different
      roots, exactly if every request that is in now is in on what is mounted now. That is
      the comparison `healthy` makes, made again for the requests that are in. */
  lemma OneRootIff(stored: int, steps: seq<Step>)
    ensures var w := Run(stored, steps);
            (forall more :: Unmoved(more) ==> SameRoots(Onward(w, more))) <==> AllCurrent(w)
  {
    var w := Run(stored, steps);
    if AllCurrent(w) {
      forall more | Unmoved(more) ensures SameRoots(Onward(w, more)) {
        StaysCurrent(w, more);
      }
    } else {
      var t :| t in w.threads && w.threads[t].phase.In? && w.threads[t].phase.at != w.mounted;
      var p := Above(w.procs.Keys);
      var u := Above(w.threads.Keys);
      if p in w.procs.Keys || u in w.threads.Keys { assert false; }
      assert NoWriter(w);
      Joins(w, p, u);
      var more := [Start(p, w.mounted), Enter(u, p), ReadStored(u), Admit(u)];
      assert Unmoved(more) && !SameRoots(Onward(w, more)) by {
        var v := Onward(w, more);
        assert t in v.threads && u in v.threads;
      }
    }
  }

  ghost predicate NobodyIn(w: World) {
    forall t :: t in w.threads ==> !w.threads[t].phase.In?
  }

  /** Remounts happen only while no request is in. */
  ghost predicate Considerate(stored: int, steps: seq<Step>)
    decreases |steps|
  {
    steps != [] ==>
      && Considerate(stored, steps[..|steps| - 1])
      && (steps[|steps| - 1].Remount? ==> NobodyIn(Run(stored, steps[..|steps| - 1])))
  }

  /** Then every request is in on what is mounted, in every state of the run. */
  lemma {:induction false} OneRootAlways(stored: int, steps: seq<Step>)
    requires Considerate(stored, steps)
    ensures AllCurrent(Run(stored, steps)) && SameRoots(Run(stored, steps))
    decreases |steps|
  {
    if steps != [] {
      var w, last := Run(stored, steps[..|steps| - 1]), steps[|steps| - 1];
      OneRootAlways(stored, steps[..|steps| - 1]);
      if !last.Remount? { NextCurrent(w, last); }
    }
  }

  /** The stored generation never goes back. */
  lemma {:induction false} NeverBack(stored: int, steps: seq<Step>, more: seq<Step>)
    ensures Run(stored, steps).stored <= Run(stored, steps + more).stored
    decreases |more|
  {
    if more == [] {
      assert steps + more == steps;
    } else {
      var n := |more| - 1;
      assert (steps + more)[..|steps + more| - 1] == steps + more[..n];
      NeverBack(stored, steps, more[..n]);
      NextInv(Run(stored, steps + more[..n]), more[n]);
    }
  }

  /** A process that gets through `reopen` may be admitted again: it has the stored
      generation, which it has raised if it was the first to reopen. */
  lemma ReopenedFits(w: World, t: ThreadId)
    requires Inv(w) && t in w.threads && w.threads[t].phase.Bumped?
    ensures var v := Next(w, Adopt(t));
            w.threads[t].proc in v.procs && v.procs[w.threads[t].proc].generation == v.stored && v.threads == map[]
  {
    forall u | u in w.threads ensures u == t {}
  }
}
