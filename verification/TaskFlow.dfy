/** Where tasks come from and where they go: over any run no task is lost, made up or run twice. What a step
    issues and uses up is said in terms of the state before it and of the step alone. */
module TaskFlow {
  import opened Common
  import opened TaskQueue
  import opened Runtime
  import opened RuntimeSafety
  import opened RuntimeTheorems
  import opened Shutdown

  // ----- Conservation of tasks ----------------------------------------------------------------

  function TasksOf(q: seq<Entry>): seq<Task> {
    seq(|q|, i requires 0 <= i < |q| => q[i].task)
  }

  /** What a worker has in hand: a taken entry, or a batch of expired callbacks. */
  function HeldBy(w: Worker): seq<Task> {
    match w.phase
    case Took(e) => [e.task]
    case IdleExpiring(batch) => batch
    case _ => []
  }

  /** How often `x` is among `ts`. */
  function Count(ts: seq<Task>, x: Task): nat {
    multiset(ts)[x]
  }

  function Held(ws: seq<Worker>, x: Task): nat {
    if ws == [] then 0 else Held(ws[..|ws| - 1], x) + Count(HeldBy(ws[|ws| - 1]), x)
  }

  /** How many tasks `x` there are, wherever they wait. */
  function Live(s: State, x: Task): nat {
    Count(TasksOf(s.queue), x) + Count(s.timers, x) + Count(s.events, x) + Count(s.parked, x) + Held(s.workers, x)
  }

  /** The task that a step brings into being: posted, spawned, armed or delivered; or a recurring timer's
      callback, handed out while the timer stays armed. */
  function Issued(s: State, step: Step): Option<Task> {
    match step
    case Task(_, Arm(_, task)) => Some(task)
    case Task(w, ScheduleSelf(_)) => if RunBy(s, w).Some? then Some(Resume(RunBy(s, w).value)) else None
    case Task(w, Deliver) =>
      if RunBy(s, w).Some? && s.fibers[RunBy(s, w).value].carry.Some?
      then Some(Resume(s.fibers[RunBy(s, w).value].carry.value)) else None
    case Shared(_, Spawn(_)) => Some(Resume(|s.fibers|))
    case Shared(_, Post(_)) => Some(Call(None))
    case Shared(_, AddCallback(_)) => Some(Call(None))
    case Idle(_, Expire(i, true)) => if i < |s.timers| then Some(s.timers[i]) else None
    case _ => None
  }

  function TakenBy(s: State, w: nat): Option<Task> {
    if w < |s.workers| && s.workers[w].phase.Took? then Some(s.workers[w].phase.entry.task) else None
  }

  /** The task that a step uses up: started, skipped because the fiber is over, or discarded. */
  function Spent(s: State, step: Step): Option<Task> {
    match step
    case Loop(w, SwapIn) => TakenBy(s, w)
    case Loop(w, SkipFinished) => TakenBy(s, w)
    case Loop(w, StartCall) => TakenBy(s, w)
    case Shared(_, Discard(src, i)) => if i < |Pool(s, src)| then Some(Pool(s, src)[i]) else None
    case _ => None
  }

  lemma {:induction false} HeldUpdate(ws: seq<Worker>, w: nat, y: Worker, x: Task)
    requires w < |ws|
    ensures Held(ws[w := y], x) + Count(HeldBy(ws[w]), x) == Held(ws, x) + Count(HeldBy(y), x)
  {
    var n := |ws| - 1;
    if w == n {
      assert ws[w := y][..n] == ws[..n];
    } else {
      HeldUpdate(ws[..n], w, y, x);
      assert ws[w := y][..n] == ws[..n][w := y];
    }
  }

  function One(b: bool): nat { if b then 1 else 0 }

  lemma CountAppend(ts: seq<Task>, t: Task, x: Task)
    ensures Count(ts + [t], x) == Count(ts, x) + One(t == x)
  {
  }

  lemma CountWithout(ts: seq<Task>, i: nat, x: Task)
    requires i < |ts|
    ensures Count(ts, x) == Count(Without(ts, i), x) + One(ts[i] == x)
  {
    assert ts == ts[..i] + [ts[i]] + ts[i + 1..];
  }

  lemma QueueWithout(q: seq<Entry>, i: nat, x: Task)
    requires i < |q|
    ensures Count(TasksOf(q), x) == Count(TasksOf(Without(q, i)), x) + One(q[i].task == x)
  {
    CountWithout(TasksOf(q), i, x);
    assert TasksOf(Without(q, i)) == Without(TasksOf(q), i);
  }

  lemma QueueAppend(q: seq<Entry>, e: Entry, x: Task)
    ensures Count(TasksOf(q + [e]), x) == Count(TasksOf(q), x) + One(e.task == x)
  {
    assert TasksOf(q + [e]) == TasksOf(q) + [e.task];
  }

  lemma {:induction false} QueueBatch(q: seq<Entry>, batch: seq<Task>, x: Task)
    ensures Count(TasksOf(q + AsEntries(batch)), x) == Count(TasksOf(q), x) + Count(batch, x)
  {
    if batch == [] {
      assert q + AsEntries(batch) == q;
    } else {
      var n := |batch| - 1;
      var front := q + AsEntries(batch[..n]);
      QueueBatch(q, batch[..n], x);
      assert q + AsEntries(batch) == front + [Entry(batch[n], ANY_THREAD)];
      QueueAppend(front, Entry(batch[n], ANY_THREAD), x);
      assert batch == batch[..n] + [batch[n]];
    }
  }

  // How the parts of the state count.

  lemma {:induction false} MoveLive(s: State, w: nat, y: Worker, x: Task)
    requires w < |s.workers|
    ensures Live(s.(workers := s.workers[w := y]), x) + Count(HeldBy(s.workers[w]), x) ==
            Live(s, x) + Count(HeldBy(y), x)
  {
    HeldUpdate(s.workers, w, y, x);
  }

  lemma {:induction false} QueueLive(s: State, q: seq<Entry>, x: Task)
    ensures Live(s.(queue := q), x) + Count(TasksOf(s.queue), x) == Live(s, x) + Count(TasksOf(q), x)
  {
  }

  lemma {:induction false} EnqueueLive(s: State, t: Task, pin: int, x: Task)
    ensures Live(Enqueue(s, t, pin), x) == Live(s, x) + One(t == x)
  {
    QueueAppend(s.queue, Entry(t, pin), x);
  }

  lemma {:induction false} AppendLive(s: State, src: Source, t: Task, x: Task)
    ensures Live(WithPool(s, src, Pool(s, src) + [t]), x) == Live(s, x) + One(t == x)
  {
    CountAppend(Pool(s, src), t, x);
  }

  lemma {:induction false} RemoveLive(s: State, src: Source, i: nat, x: Task)
    requires i < |Pool(s, src)|
    ensures Live(WithPool(s, src, Without(Pool(s, src), i)), x) + One(Pool(s, src)[i] == x) == Live(s, x)
  {
    CountWithout(Pool(s, src), i, x);
  }

  lemma {:induction false} FireLive(s: State, src: Source, i: nat, x: Task)
    requires i < |Pool(s, src)|
    ensures Live(DoFire(s, src, i), x) == Live(s, x)
  {
    RemoveLive(s, src, i, x);
    EnqueueLive(WithPool(s, src, Without(Pool(s, src), i)), Pool(s, src)[i], ANY_THREAD, x);
  }

  lemma {:induction false} FibersLive(s: State, t: State, x: Task)
    requires t.queue == s.queue && t.timers == s.timers && t.events == s.events && t.parked == s.parked
    requires t.workers == s.workers
    ensures Live(t, x) == Live(s, x)
  {
  }

  // What one step does.

  ghost predicate Balanced(s: State, step: Step, t: State, x: Task) {
    Live(t, x) + One(Spent(s, step) == Some(x)) == Live(s, x) + One(Issued(s, step) == Some(x))
  }

  lemma {:induction false} ScanBalanced(s: State, w: nat, x: Task)
    requires w < |s.workers| && s.workers[w].phase.Scanning?
    ensures Live(DoScan(s, w), x) == Live(s, x)
  {
    var i := Pick(s.queue, w, States(s));
    if i < |s.queue| {
      var u := s.(queue := Without(s.queue, i), active := s.active + 1);
      QueueWithout(s.queue, i, x);
      QueueLive(s, u.queue, x);
      FibersLive(s.(queue := u.queue), u, x);
      MoveLive(u, w, s.workers[w].(phase := Took(s.queue[i])), x);
    } else {
      MoveLive(s, w, DoScan(s, w).workers[w], x);
    }
  }

  /** Any other turn of the loop changes its worker, fibers and the active count. */
  lemma {:induction false} LoopBalanced(s: State, w: nat, loop: LoopStep, x: Task)
    requires CanLoop(s, w, loop) && !loop.Scan?
    ensures Balanced(s, Loop(w, loop), DoLoop(s, w, loop), x)
  {
    var t := DoLoop(s, w, loop);
    MoveLive(s, w, t.workers[w], x);
    LoopFrame(s, w, loop);
    FibersLive(s.(workers := s.workers[w := t.workers[w]]), t, x);
  }

  lemma {:induction false} LoopFrame(s: State, w: nat, loop: LoopStep)
    requires CanLoop(s, w, loop) && !loop.Scan?
    ensures var t := DoLoop(s, w, loop);
      && t.queue == s.queue && t.timers == s.timers && t.events == s.events && t.parked == s.parked
      && |t.workers| == |s.workers| && t.workers == s.workers[w := t.workers[w]]
      && (loop.SwapIn? || loop.SkipFinished? || loop.StartCall? ==> s.workers[w].phase.Took?)
      && HeldBy(t.workers[w]) == []
      && (loop.CountDown? || loop.Settle? ==> HeldBy(s.workers[w]) == [])
  {
  }

  lemma {:induction false} LeaveBalanced(s: State, w: nat, f: nat, st: FiberState, x: Task)
    requires RunBy(s, w) == Some(f)
    ensures Live(DoLeave(s, w, f, st), x) == Live(s, x)
  {
    var t := DoLeave(s, w, f, st);
    MoveLive(s, w, t.workers[w], x);
    FibersLive(s.(workers := t.workers), t, x);
  }

  lemma {:induction false} TaskBalanced(s: State, w: nat, task: FiberStep, x: Task)
    requires RunBy(s, w).Some? && (task.Deliver? ==> s.fibers[RunBy(s, w).value].carry.Some?)
    ensures Balanced(s, Step.Task(w, task), DoTask(s, w, task), x)
  {
    var f := RunBy(s, w).value;
    match task
    case Arm(src, added) => AppendLive(s, src, added, x);
    case ScheduleSelf(pin) => EnqueueLive(s, Resume(f), pin, x);
    case Deliver =>
      var u := s.(fibers := s.fibers[f := s.fibers[f].(carry := None)]);
      FibersLive(s, u, x);
      EnqueueLive(u, Resume(s.fibers[f].carry.value), ANY_THREAD, x);
    case Yield => LeaveBalanced(s, w, f, s.fibers[f].state, x);
    case Finish(normally) => LeaveBalanced(s, w, f, if normally then TERM else EXCEPT, x);
  }

  lemma {:induction false} SharedBalanced(s: State, who: Actor, shared: SharedStep, x: Task)
    requires CanShare(s, who, shared)
    ensures Balanced(s, Shared(who, shared), DoShared(s, who, shared), x)
  {
    match shared
    case Spawn(pin) =>
      var u := s.(fibers := s.fibers + [Fiber(INIT, None, None, None)]);
      FibersLive(s, u, x);
      EnqueueLive(u, Resume(|s.fibers|), pin, x);
    case Post(pin) => EnqueueLive(s, Call(None), pin, x);
    case AddCallback(src) => AppendLive(s, src, Call(None), x);
    case Fire(src, i) => FireLive(s, src, i, x);
    case Discard(src, i) => RemoveLive(s, src, i, x);
  }

  lemma {:induction false} ExpireBalanced(s: State, w: nat, i: nat, again: bool, x: Task)
    requires CanIdle(s, w, Expire(i, again))
    ensures Live(DoExpire(s, w, i, again), x) == Live(s, x) + One(again && s.timers[i] == x)
  {
    var u := if again then s else WithPool(s, Timers, Without(s.timers, i));
    if !again {
      RemoveLive(s, Timers, i, x);
    }
    BatchGrows(u, w, s.timers[i], x);
  }

  lemma {:induction false} BatchGrows(s: State, w: nat, t: Task, x: Task)
    requires w < |s.workers| && s.workers[w].phase.IdleExpiring?
    ensures Live(WithPhase(s, w, IdleExpiring(s.workers[w].phase.batch + [t])), x) == Live(s, x) + One(t == x)
  {
    var batch := s.workers[w].phase.batch;
    CountAppend(batch, t, x);
    MoveLive(s, w, s.workers[w].(phase := IdleExpiring(batch + [t])), x);
  }

  lemma {:induction false} BatchBalanced(s: State, w: nat, x: Task)
    requires CanIdle(s, w, ScheduleBatch)
    ensures Live(DoScheduleBatch(s, w), x) == Live(s, x)
  {
    var batch := s.workers[w].phase.batch;
    var q := s.queue + AsEntries(batch);
    QueueBatch(s.queue, batch, x);
    QueueLive(s, q, x);
    MoveLive(s.(queue := q), w, s.workers[w].(phase := IdleDispatching), x);
  }

  lemma {:induction false} ReadBalanced(s: State, w: nat, quiet: bool, x: Task)
    requires w < |s.workers| && s.workers[w].phase.Stopping?
    ensures Live(DoRead(s, w, quiet), x) == Live(s, x)
  {
    MoveLive(s, w, AfterRead(s.workers[w], quiet), x);
  }

  lemma {:induction false} ReadsBalanced(s: State, w: nat, idle: IdleStep, x: Task)
    requires CanIdle(s, w, idle) && (idle.ReadTimers? || idle.ReadPending? || idle.ReadScheduler?)
    ensures Live(DoIdle(s, w, idle), x) == Live(s, x)
  {
    match idle
    case ReadTimers => ReadBalanced(s, w, s.timers == [], x);
    case ReadPending => ReadBalanced(s, w, s.events == [], x);
    case ReadScheduler => ReadBalanced(s, w, SchedulerQuiet(s), x);
  }

  /** In the idle loop only the hand-out of a recurring callback adds a task. */
  lemma {:induction false} IdleSum(s: State, w: nat, idle: IdleStep, x: Task)
    requires CanIdle(s, w, idle)
    ensures Live(DoIdle(s, w, idle), x) == Live(s, x) + One(idle.Expire? && idle.again && s.timers[idle.i] == x)
  {
    match idle
    case Expire(i, again) => ExpireBalanced(s, w, i, again, x);
    case ScheduleBatch => BatchBalanced(s, w, x);
    case Dispatch(i) => FireLive(s, Events, i, x);
    case IdleYield => MoveLive(s, w, s.workers[w].(phase := Scanning), x);
    case _ => ReadsBalanced(s, w, idle, x);
  }

  lemma {:induction false} IdleBalanced(s: State, w: nat, idle: IdleStep, x: Task)
    requires CanIdle(s, w, idle)
    ensures Balanced(s, Idle(w, idle), DoIdle(s, w, idle), x)
  {
    IdleSum(s, w, idle, x);
    assert Spent(s, Idle(w, idle)) == None;
    assert Issued(s, Idle(w, idle)) == if idle.Expire? && idle.again then Some(s.timers[idle.i]) else None;
  }

  lemma {:induction false} StepBalanced(s: State, step: Step, x: Task)
    requires Enabled(s, step)
    ensures Balanced(s, step, Apply(s, step), x)
  {
    match step
    case Loop(w, loop) => if loop.Scan? { ScanBalanced(s, w, x); } else { LoopBalanced(s, w, loop, x); }
    case Task(w, task) => TaskBalanced(s, w, task, x);
    case Shared(who, shared) => SharedBalanced(s, who, shared, x);
    case Idle(w, idle) => IdleBalanced(s, w, idle, x);
    case RequestStop => FibersLive(s, s.(autoStop := true), x);
    case MarkStopping => FibersLive(s, s.(stopping := true), x);
    case CallStop(w) => MoveLive(s, w, s.workers[w].(phase := Stopping(0, true)), x);
  }

  /** How many tasks `x` a run has brought into being. */
  ghost function AllIssued(s0: State, steps: seq<Step>, x: Task): nat {
    if steps == [] then 0
    else
      var n := |steps| - 1;
      AllIssued(s0, steps[..n], x) +
      match Exec(s0, steps[..n]) case None => 0 case Some(t) => One(Issued(t, steps[n]) == Some(x))
  }

  /** How many it has used up. */
  ghost function AllSpent(s0: State, steps: seq<Step>, x: Task): nat {
    if steps == [] then 0
    else
      var n := |steps| - 1;
      AllSpent(s0, steps[..n], x) +
      match Exec(s0, steps[..n]) case None => 0 case Some(t) => One(Spent(t, steps[n]) == Some(x))
  }

  lemma {:induction false} NothingAtFirst(s: State, x: Task)
    requires Init(s)
    ensures Live(s, x) == 0
  {
    EmptyHands(s.workers, x);
  }

  lemma {:induction false} EmptyHands(ws: seq<Worker>, x: Task)
    requires forall w :: 0 <= w < |ws| ==> HeldBy(ws[w]) == []
    ensures Held(ws, x) == 0
  {
    if ws != [] {
      EmptyHands(ws[..|ws| - 1], x);
    }
  }

  /** Conservation of tasks. In every run, of every task: as many were issued as are still waiting - in the task
      list, in a timer, in an event registration, with a semaphore, in a batch or in a worker's hand - or were
      started, skipped or discarded. */
  lemma {:induction false} TaskConservation(s0: State, steps: seq<Step>, s: State, x: Task)
    requires Init(s0) && Exec(s0, steps) == Some(s)
    ensures AllIssued(s0, steps, x) == Live(s, x) + AllSpent(s0, steps, x)
  {
    if steps == [] {
      NothingAtFirst(s0, x);
    } else {
      var n := |steps| - 1;
      var t := Exec(s0, steps[..n]).value;
      TaskConservation(s0, steps[..n], t, x);
      StepBalanced(t, steps[n], x);
    }
  }

  /** An orderly shutdown leaves no work undone: every task ever issued was started, skipped or discarded, except
      the wake-ups still with a semaphore. */
  lemma {:induction false} AllWorkDone(s0: State, steps: seq<Step>, s: State, x: Task)
    requires Init(s0) && Exec(s0, steps) == Some(s) && AllLeft(s) && UndisturbedTests(s0, steps)
    ensures AllIssued(s0, steps, x) == AllSpent(s0, steps, x) + Count(s.parked, x)
  {
    TaskConservation(s0, steps, s, x);
    ShutdownExact(s0, steps, s);
    EmptyHands(s.workers, x);
    assert TasksOf(s.queue) == [];
  }
}
