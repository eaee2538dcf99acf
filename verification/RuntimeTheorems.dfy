/** The runtime's guarantees over whole runs. */
module RuntimeTheorems {
  import opened Common
  import opened TaskQueue
  import opened Runtime
  import opened RuntimeSafety

  /** A state in which no task, registration, worker or fiber holds a wake-up. */
  lemma {:induction false} NoWakes(s: State)
    requires forall e :: e in s.queue ==> e.task == Call(None)
    requires forall t :: t in s.timers || t in s.events || t in s.parked ==> t == Call(None)
    requires forall w :: w in s.workers ==> PhaseWake(w) == multiset{}
    requires forall f :: f in s.fibers ==> f.carry == None
    ensures Wakes(s) == multiset{}
  {
    SumZero(EntryWake, s.queue);
    SumZero(TaskWake, s.timers);
    SumZero(TaskWake, s.events);
    SumZero(TaskWake, s.parked);
    SumZero(PhaseWake, s.workers);
    SumZero(CarryWake, s.fibers);
  }

  lemma {:induction false} InitHolds(s: State)
    requires Init(s)
    ensures Inv(s)
  {
    NoWakes(s);
    SumZero(ActiveMark, s.workers);
    assert s.workers[0].idleLive;
  }

  /** The part of the invariant that needs nothing of the shutdown test. */
  ghost predicate Sound(s: State) {
    Shape(s, Wakes(s)) && CountOk(s)
  }

  lemma {:induction false} RunIsSound(s0: State, steps: seq<Step>, s: State)
    requires Init(s0) && Exec(s0, steps) == Some(s)
    ensures Sound(s)
  {
    if steps == [] {
      InitHolds(s0);
    } else {
      var n := |steps| - 1;
      var t := Exec(s0, steps[..n]).value;
      RunIsSound(s0, steps[..n], t);
      StepShape(t, steps[n]);
      StepCount(t, steps[n]);
    }
  }

  lemma {:induction false} FreshRunIsLive(s0: State, steps: seq<Step>, s: State)
    requires Init(s0) && Exec(s0, steps) == Some(s) && FreshStops(s0, steps)
    ensures LiveOk(s)
  {
    if steps == [] {
      InitHolds(s0);
    } else {
      var n := |steps| - 1;
      var t := Exec(s0, steps[..n]).value;
      RunIsSound(s0, steps[..n], t);
      FreshRunIsLive(s0, steps[..n], t);
      StepLive(t, steps[n]);
    }
  }

  /** No two workers are on the same fiber's stack. */
  predicate OneRunnerEach(s: State) {
    forall v, w :: 0 <= v < w < |s.workers| && OnStack(s.workers[v].phase).Some? ==>
      OnStack(s.workers[v].phase) != OnStack(s.workers[w].phase)
  }

  /** A fiber that is EXEC is on some worker's stack, and one that is being run is EXEC. */
  predicate ExecMeansOnStack(s: State) {
    && (forall f :: 0 <= f < |s.fibers| && s.fibers[f].state == EXEC ==>
          exists w :: 0 <= w < |s.workers| && OnStack(s.workers[w].phase) == Some(f))
    && (forall w :: 0 <= w < |s.workers| && s.workers[w].phase.Running? ==>
          StateOf(s, Some(s.workers[w].phase.fiber)) == EXEC)
  }

  lemma {:induction false} SoundHasOneRunnerEach(s: State)
    requires Sound(s)
    ensures OneRunnerEach(s) && forall f: nat :: Wakes(s)[f] <= 1
  {
    forall v, w | 0 <= v < w < |s.workers| && OnStack(s.workers[v].phase).Some?
      ensures OnStack(s.workers[v].phase) != OnStack(s.workers[w].phase)
    {
      assert WorkerOk(s, v) && WorkerOk(s, w);
    }
    forall f: nat ensures Wakes(s)[f] <= 1 {
      if f < |s.fibers| { assert FiberOk(s, f, Wakes(s)[f]); }
    }
  }

  lemma {:induction false} SoundHasExecOnStack(s: State)
    requires Sound(s)
    ensures ExecMeansOnStack(s)
  {
    forall f | 0 <= f < |s.fibers| && s.fibers[f].state == EXEC
      ensures exists w :: 0 <= w < |s.workers| && OnStack(s.workers[w].phase) == Some(f)
    {
      ExecIsOnStack(s, Wakes(s), f);
    }
    forall w | 0 <= w < |s.workers| && s.workers[w].phase.Running?
      ensures StateOf(s, Some(s.workers[w].phase.fiber)) == EXEC
    {
      RunningIsExec(s, Wakes(s), w);
    }
  }

  lemma {:induction false} ExecIsOnStack(s: State, m: multiset<nat>, f: nat)
    requires Shape(s, m) && f < |s.fibers| && s.fibers[f].state == EXEC
    ensures exists w :: 0 <= w < |s.workers| && OnStack(s.workers[w].phase) == Some(f)
  {
    assert FiberOk(s, f, m[f]);
    assert OnStack(s.workers[s.fibers[f].on.value].phase) == Some(f);
  }

  lemma {:induction false} RunningIsExec(s: State, m: multiset<nat>, w: nat)
    requires Shape(s, m) && w < |s.workers| && s.workers[w].phase.Running?
    ensures StateOf(s, Some(s.workers[w].phase.fiber)) == EXEC
  {
    assert WorkerOk(s, w) && FiberOk(s, s.workers[w].phase.fiber, m[s.workers[w].phase.fiber]);
  }

  /** Single runner. In every state of every run: two workers never occupy the same fiber's stack;
      a fiber being run is EXEC and one that is EXEC is on a stack; no fiber has two wake-ups; the
      active count is the number of workers holding a taken entry; and whatever step comes next,
      its assertions hold - in particular a fiber woken before it has switched out is not
      switched to until its worker has written HOLD. */
  lemma {:induction false} SingleRunner(s0: State, steps: seq<Step>, s: State)
    requires Init(s0) && Exec(s0, steps) == Some(s)
    ensures OneRunnerEach(s) && ExecMeansOnStack(s)
    ensures forall f: nat :: Wakes(s)[f] <= 1
    ensures s.active == |Sum(ActiveMark, s.workers)|
    ensures forall step :: Enabled(s, step) ==> AssertionsHold(s, step)
  {
    RunIsSound(s0, steps, s);
    SoundHasOneRunnerEach(s);
    SoundHasExecOnStack(s);
    forall step | Enabled(s, step)
      ensures AssertionsHold(s, step)
    {
      StepShape(s, step);
    }
  }

  predicate AllLeft(s: State) {
    forall w :: 0 <= w < |s.workers| ==> s.workers[w].phase.Left?
  }

  /** If the last successful shutdown test of a run was fresh and every worker has left `run`, then
      nothing is left behind. When a test is fresh is the subject of `Shutdown`. */
  lemma {:induction false} FreshShutdown(s0: State, steps: seq<Step>, s: State)
    requires Init(s0) && Exec(s0, steps) == Some(s) && FreshStops(s0, steps) && AllLeft(s)
    ensures s.queue == [] && s.timers == [] && s.events == [] && s.active == 0
    ensures forall f :: 0 <= f < |s.fibers| ==>
      || Over(s.fibers[f].state)
      || (s.fibers[f].state == INIT && s.fibers[f].home.Some?)
      || Sum(TaskWake, s.parked)[f] == 1
  {
    RunIsSound(s0, steps, s);
    FreshRunIsLive(s0, steps, s);
    assert !SomeIdleLive(s) by {
      forall w | 0 <= w < |s.workers| ensures !s.workers[w].idleLive { assert WorkerOk(s, w); }
    }
    assert s.active == 0;
    forall f | 0 <= f < |s.fibers| ensures s.fibers[f].on == None && FiberOk(s, f, Wakes(s)[f]) {
      assert FiberOk(s, f, Wakes(s)[f]);
    }
    OnlyParkedLeft(s);
  }

  lemma {:induction false} OnlyParkedLeft(s: State)
    requires AllLeft(s) && s.queue == [] && s.timers == [] && s.events == []
    requires forall f :: 0 <= f < |s.fibers| ==> s.fibers[f].on == None && FiberOk(s, f, Wakes(s)[f])
    ensures Wakes(s) == Sum(TaskWake, s.parked)
  {
    SumZero(PhaseWake, s.workers);
    NoCarry(s, Wakes(s));
  }

  lemma {:induction false} NoCarry(s: State, m: multiset<nat>)
    requires forall f :: 0 <= f < |s.fibers| ==> s.fibers[f].on == None && FiberOk(s, f, m[f])
    ensures Sum(CarryWake, s.fibers) == multiset{}
  {
    forall x | x in s.fibers ensures CarryWake(x) == multiset{} {
      var f :| 0 <= f < |s.fibers| && s.fibers[f] == x;
      assert FiberOk(s, f, m[f]);
    }
    SumZero(CarryWake, s.fibers);
  }

  // ----- Without the freshness condition ---------------------------------------------------

  /** Nobody is left to drive the timers or events that remain. */
  ghost predicate Stranded(s: State) {
    && SchedulerQuiet(s) && (s.timers != [] || s.events != [])
    && forall w :: 0 <= w < |s.workers| ==> !s.workers[w].idleLive
  }

  lemma {:induction false} NobodyActive(s: State, w: nat)
    requires CountOk(s) && s.active == 0 && w < |s.workers|
    ensures !s.workers[w].phase.Took? && !s.workers[w].phase.Running? && !s.workers[w].phase.SwappedOut?
  {
    if ActiveMark(s.workers[w]) != multiset{} {
      BusyWorker(s, w);
    }
  }

  lemma {:induction false} NobodyIdle(s: State, w: nat)
    requires Sound(s) && w < |s.workers| && !s.workers[w].idleLive
    ensures !InIdle(s.workers[w].phase)
  {
    assert WorkerOk(s, w);
  }

  lemma {:induction false} StrandedLoop(s: State, w: nat, loop: LoopStep)
    requires CountOk(s) && Stranded(s) && CanLoop(s, w, loop)
    ensures Stranded(DoLoop(s, w, loop))
  {
    NobodyActive(s, w);
  }

  lemma {:induction false} StrandedStays(s: State, step: Step)
    requires Sound(s) && Stranded(s) && Enabled(s, step)
    ensures Stranded(Apply(s, step))
  {
    match step
    case Loop(w, loop) => StrandedLoop(s, w, loop);
    case Task(w, task) => NobodyActive(s, w);
    case Shared(who, shared) => if who.Some? { NobodyActive(s, who.value); }
    case Idle(w, idle) => NobodyIdle(s, w);
    case RequestStop =>
    case MarkStopping =>
    case CallStop(w) => NobodyIdle(s, w);
  }

  lemma {:induction false} StaleStopStrands(s: State, step: Step)
    requires Sound(s) && Enabled(s, step) && !FreshStop(s, step)
    ensures Stranded(Apply(s, step))
  {}

  lemma {:induction false} FreshOrStranded(s0: State, steps: seq<Step>, s: State)
    requires Init(s0) && Exec(s0, steps) == Some(s)
    ensures FreshStops(s0, steps) || Stranded(s)
  {
    if steps != [] {
      var n := |steps| - 1;
      var t := Exec(s0, steps[..n]).value;
      RunIsSound(s0, steps[..n], t);
      FreshOrStranded(s0, steps[..n], t);
      if !FreshStops(s0, steps[..n]) {
        StrandedStays(t, steps[n]);
      } else if !FreshStop(t, steps[n]) {
        StaleStopStrands(t, steps[n]);
      }
    }
  }

  /** Some run leads from `s0` to `s`. */
  ghost predicate Reaches(s0: State, s: State) {
    exists steps :: Exec(s0, steps) == Some(s)
  }

  lemma {:induction false} Go(s0: State, s: State, step: Step, t: State)
    requires Reaches(s0, s) && Enabled(s, step) && t == Apply(s, step)
    ensures Reaches(s0, t)
  {
    var steps :| Exec(s0, steps) == Some(s);
    assert (steps + [step])[..|steps|] == steps;
    assert Exec(s0, steps + [step]) == Some(t);
  }

  /** Two workers with the scheduler told to stop, in given phases. */
  function Two(a: Worker, b: Worker, queue: seq<Entry>, timers: seq<Task>, active: int, fibers: seq<Fiber>): State {
    State(fibers, queue, timers, [], [], [a, b], active, true, true)
  }

  function At(p: Phase): Worker { Worker(p, true, None) }

  const ENDED := Worker(Scanning, false, None)
  const PLAIN := Entry(Call(None), ANY_THREAD)

  /** Worker 1 moves the only timer into its batch. */
  lemma {:induction false} TimerIntoBatch(s0: State)
    requires s0 == State([], [], [], [], [], [At(Scanning), At(Scanning)], 0, false, false)
    ensures Reaches(s0, Two(At(Scanning), At(IdleExpiring([Call(None)])), [], [], 0, []))
  {
    assert Exec(s0, []) == Some(s0);
    var s1 := s0.(timers := [Call(None)]);
    Go(s0, s0, Shared(None, AddCallback(Timers)), s1);
    var s2 := s1.(autoStop := true);
    Go(s0, s1, RequestStop, s2);
    var s3 := Two(At(Scanning), At(Scanning), [], [Call(None)], 0, []);
    Go(s0, s2, MarkStopping, s3);
    var s4 := Two(At(Scanning), At(Stopping(0, false)), [], [Call(None)], 0, []);
    Go(s0, s3, Loop(1, Scan), s4);
    var s5 := Two(At(Scanning), At(IdleExpiring([])), [], [Call(None)], 0, []);
    Go(s0, s4, Idle(1, ReadTimers), s5);
    var s6 := Two(At(Scanning), At(IdleExpiring([Call(None)])), [], [], 0, []);
    Go(s0, s5, Idle(1, Expire(0, false)), s6);
  }

  /** Worker 0 then sees nothing left and ends its idle fiber; the batch is queued and worker 0
      takes it. */
  lemma {:induction false} BatchBehindTheTest(s0: State)
    requires Reaches(s0, Two(At(Scanning), At(IdleExpiring([Call(None)])), [], [], 0, []))
    ensures Reaches(s0, Two(ENDED.(phase := Took(PLAIN)), At(IdleDispatching), [], [], 1, []))
  {
    EndsIdle(s0, At(IdleExpiring([Call(None)])));
    var s7 := Two(ENDED, At(IdleExpiring([Call(None)])), [], [], 0, []);
    var s8 := Two(ENDED, At(IdleDispatching), [PLAIN], [], 0, []);
    assert AsEntries([Call(None)]) == [PLAIN];
    Go(s0, s7, Idle(1, ScheduleBatch), s8);
    Go(s0, s8, Loop(0, Scan), Two(ENDED.(phase := Took(PLAIN)), At(IdleDispatching), [], [], 1, []));
  }

  /** With nothing to be seen, worker 0 passes all three reads. */
  lemma {:induction false} EndsIdle(s0: State, other: Worker)
    requires Reaches(s0, Two(At(Scanning), other, [], [], 0, []))
    ensures Reaches(s0, Two(ENDED, other, [], [], 0, []))
  {
    var s1 := Two(At(Scanning), other, [], [], 0, []);
    var s2 := Two(At(Stopping(0, false)), other, [], [], 0, []);
    Go(s0, s1, Loop(0, Scan), s2);
    var s3 := Two(At(Stopping(1, false)), other, [], [], 0, []);
    Go(s0, s2, Idle(0, ReadTimers), s3);
    var s4 := Two(At(Stopping(2, false)), other, [], [], 0, []);
    Go(s0, s3, Idle(0, ReadPending), s4);
    Go(s0, s4, Idle(0, ReadScheduler), Two(ENDED, other, [], [], 0, []));
  }

  /** Between worker 1's first and last read, worker 0's task adds a timer and ends. */
  lemma {:induction false} TimerBetweenTheReads(s0: State)
    requires Reaches(s0, Two(ENDED.(phase := Took(PLAIN)), At(IdleDispatching), [], [], 1, []))
    ensures Reaches(s0, Two(Worker(Settling(0, true), false, Some(0)), At(Stopping(1, false)), [], [Call(None)], 0,
                            [Fiber(TERM, None, Some(0), Some(0))]))
  {
    var took := ENDED.(phase := Took(PLAIN));
    var s1 := Two(took, At(IdleDispatching), [], [], 1, []);
    var s2 := Two(took, At(Scanning), [], [], 1, []);
    Go(s0, s1, Idle(1, IdleYield), s2);
    var s3 := Two(took, At(Stopping(0, false)), [], [], 1, []);
    Go(s0, s2, Loop(1, Scan), s3);
    Go(s0, s3, Idle(1, ReadTimers), Two(took, At(Stopping(1, false)), [], [], 1, []));
    TaskAddsTimer(s0);
    TaskEnds(s0);
  }

  const BUSY := Worker(Running(0, true), false, Some(0))

  lemma {:induction false} TaskAddsTimer(s0: State)
    requires Reaches(s0, Two(ENDED.(phase := Took(PLAIN)), At(Stopping(1, false)), [], [], 1, []))
    ensures Reaches(s0, Two(BUSY, At(Stopping(1, false)), [], [Call(None)], 1, [Fiber(EXEC, None, Some(0), Some(0))]))
  {
    var s4 := Two(ENDED.(phase := Took(PLAIN)), At(Stopping(1, false)), [], [], 1, []);
    var s5 := Two(BUSY, At(Stopping(1, false)), [], [], 1, [Fiber(EXEC, None, Some(0), Some(0))]);
    Go(s0, s4, Loop(0, StartCall), s5);
    Go(s0, s5, Shared(Some(0), AddCallback(Timers)), s5.(timers := [Call(None)]));
  }

  lemma {:induction false} TaskEnds(s0: State)
    requires Reaches(s0, Two(BUSY, At(Stopping(1, false)), [], [Call(None)], 1, [Fiber(EXEC, None, Some(0), Some(0))]))
    ensures Reaches(s0, Two(Worker(Settling(0, true), false, Some(0)), At(Stopping(1, false)), [], [Call(None)], 0,
                            [Fiber(TERM, None, Some(0), Some(0))]))
  {
    var fiber := Fiber(EXEC, None, Some(0), Some(0));
    var running := BUSY;
    var s6 := Two(running, At(Stopping(1, false)), [], [Call(None)], 1, [fiber]);
    NoWakes(s6);
    var s7 := Two(running.(phase := SwappedOut(0, true)), At(Stopping(1, false)), [], [Call(None)], 1,
                  [fiber.(state := TERM)]);
    Go(s0, s6, Task(0, Finish(true)), s7);
    var settling := running.(phase := Settling(0, true));
    Go(s0, s7, Loop(0, CountDown),
       Two(settling, At(Stopping(1, false)), [], [Call(None)], 0, [fiber.(state := TERM)]));
  }

  /** The three reads of `stopping` are not one: there is a run in which every worker leaves `run`
      although a timer is still registered. */
  lemma {:induction false} StaleStopLosesTimer()
    ensures exists s0, s :: Init(s0) && Reaches(s0, s) && AllLeft(s) && s.timers != []
  {
    var s0 := State([], [], [], [], [], [At(Scanning), At(Scanning)], 0, false, false);
    TimerIntoBatch(s0);
    BatchBehindTheTest(s0);
    TimerBetweenTheReads(s0);
    TestPasses(s0);
    EveryoneLeaves(s0);
    assert Init(s0);
  }

  /** The other two reads see nothing. */
  lemma {:induction false} TestPasses(s0: State)
    requires Reaches(s0, Two(Worker(Settling(0, true), false, Some(0)), At(Stopping(1, false)), [], [Call(None)], 0,
                             [Fiber(TERM, None, Some(0), Some(0))]))
    ensures Reaches(s0, Two(Worker(Settling(0, true), false, Some(0)), ENDED, [], [Call(None)], 0,
                            [Fiber(TERM, None, Some(0), Some(0))]))
  {
    var fiber := Fiber(TERM, None, Some(0), Some(0));
    var settling := Worker(Settling(0, true), false, Some(0));
    var s1 := Two(settling, At(Stopping(1, false)), [], [Call(None)], 0, [fiber]);
    var s2 := Two(settling, At(Stopping(2, false)), [], [Call(None)], 0, [fiber]);
    Go(s0, s1, Idle(1, ReadPending), s2);
    Go(s0, s2, Idle(1, ReadScheduler), Two(settling, ENDED, [], [Call(None)], 0, [fiber]));
  }

  lemma {:induction false} EveryoneLeaves(s0: State)
    requires Reaches(s0, Two(Worker(Settling(0, true), false, Some(0)), ENDED, [], [Call(None)], 0,
                             [Fiber(TERM, None, Some(0), Some(0))]))
    ensures exists s :: Reaches(s0, s) && AllLeft(s) && s.timers != []
  {
    var settling := Worker(Settling(0, true), false, Some(0));
    var s3 := Two(settling, ENDED, [], [Call(None)], 0, [Fiber(TERM, None, Some(0), Some(0))]);
    var spare := [Fiber(INIT, None, None, Some(0))];
    var s4 := Two(settling.(phase := Scanning), ENDED, [], [Call(None)], 0, spare);
    Go(s0, s3, Loop(0, Settle), s4);
    var s5 := Two(settling.(phase := Left), ENDED, [], [Call(None)], 0, spare);
    Go(s0, s4, Loop(0, Scan), s5);
    var s6 := Two(settling.(phase := Left), ENDED.(phase := Left), [], [Call(None)], 0, spare);
    Go(s0, s5, Loop(1, Scan), s6);
    assert AllLeft(s6);
  }
}
