/** The fiber runtime as a step system: any number of workers in `Scheduler::run`, the fibers they
    switch to, the timers and I/O events that hold wake-ups, and the shutdown test.

    Each step is one stretch of the source that no other thread can observe half done: a locked
    section, one atomic counter update, one write of a fiber's state, or one context switch. A
    worker may be interrupted by any other worker between two of its own steps.

    A *wake-up* of fiber f is the right to schedule f once. It sits in the task list, in a timer or
    event registration, in a semaphore's waiter list, in a batch of expired callbacks, in a
    worker's hand, or with a running callback that will schedule f. */
module Runtime {
  import opened Common
  import opened TaskQueue

  /** `carry` is the fiber the running callback still has to schedule; `on` is the worker whose
      stack the fiber occupies; `home` is the worker keeping it as its reusable callback fiber. */
  datatype Fiber = Fiber(state: FiberState, carry: Option<nat>, on: Option<nat>, home: Option<nat>)

  /** Where a worker is. `viaCb` tells the callback branch of `run` from the fiber branch.
      `Stopping(k, root)` has made k of the three reads of `IOManager::stopping`, either from the
      idle fiber or (`root`) from `Scheduler::stop`. */
  datatype Phase =
    | Unstarted
    | Scanning
    | Took(entry: Entry)
    | Running(fiber: nat, viaCb: bool)
    | SwappedOut(fiber: nat, viaCb: bool)
    | Settling(fiber: nat, viaCb: bool)
    | Stopping(done: nat, root: bool)
    | IdleExpiring(batch: seq<Task>)
    | IdleDispatching
    | Left

  /** `idleLive`: this worker's idle fiber has not terminated. */
  datatype Worker = Worker(phase: Phase, idleLive: bool, cbFiber: Option<nat>)

  datatype State = State(
    fibers: seq<Fiber>,
    queue: seq<Entry>,
    timers: seq<Task>,
    events: seq<Task>,
    parked: seq<Task>,
    workers: seq<Worker>,
    active: int,
    autoStop: bool,
    stopping: bool)

  datatype Source = Timers | Events | Parked

  /** A running task of a worker, or a thread that is not a worker. */
  type Actor = Option<nat>

  /** What a worker does in the loop of `run`. */
  datatype LoopStep = Scan | SwapIn | SkipFinished | StartCall | CountDown | Settle

  /** What a running fiber does about its own suspension. */
  datatype FiberStep =
    | Arm(src: Source, task: Task)
    | ScheduleSelf(pin: int)
    | Deliver
    | Yield
    | Finish(normally: bool)

  /** What a running fiber, or a thread outside the scheduler, does to the shared structures:
      `Fire` is `cancelEvent` or a semaphore's `notify`, `Discard` is `Timer::cancel` or `delEvent`. */
  datatype SharedStep =
    | Spawn(pin: int)
    | Post(pin: int)
    | AddCallback(src: Source)
    | Fire(src: Source, i: nat)
    | Discard(src: Source, i: nat)

  /** What a worker does in `IOManager::idle`, or (the reads) in `Scheduler::stop`. */
  datatype IdleStep =
    | ReadTimers
    | ReadPending
    | ReadScheduler
    | Expire(i: nat, again: bool)
    | ScheduleBatch
    | Dispatch(i: nat)
    | IdleYield

  datatype Step =
    | Loop(w: nat, loop: LoopStep)
    | Task(w: nat, task: FiberStep)
    | Shared(who: Actor, shared: SharedStep)
    | Idle(w: nat, idle: IdleStep)
    | RequestStop
    | MarkStopping
    | CallStop(w: nat)

  // ----- Wake-ups --------------------------------------------------------------------------

  function TaskWake(t: Task): multiset<nat> {
    match t
    case Resume(f) => multiset{f}
    case Call(None) => multiset{}
    case Call(Some(f)) => multiset{f}
  }

  function EntryWake(e: Entry): multiset<nat> {
    TaskWake(e.task)
  }

  ghost function PhaseWake(w: Worker): multiset<nat> {
    match w.phase
    case Took(e) => EntryWake(e)
    case IdleExpiring(b) => Sum(TaskWake, b)
    case _ => multiset{}
  }

  function CarryWake(f: Fiber): multiset<nat> {
    if f.carry.Some? then multiset{f.carry.value} else multiset{}
  }

  /** The wake-ups in the task list and the three kinds of registration. */
  ghost function Stored(s: State): multiset<nat> {
    Sum(EntryWake, s.queue) + Sum(TaskWake, s.timers) + Sum(TaskWake, s.events) + Sum(TaskWake, s.parked)
  }

  /** All outstanding wake-ups, with multiplicity. */
  ghost function Wakes(s: State): multiset<nat> {
    Stored(s) + Sum(PhaseWake, s.workers) + Sum(CarryWake, s.fibers)
  }

  // ----- Steps -----------------------------------------------------------------------------

  function Pool(s: State, src: Source): seq<Task> {
    match src
    case Timers => s.timers
    case Events => s.events
    case Parked => s.parked
  }

  function WithPool(s: State, src: Source, p: seq<Task>): State {
    match src
    case Timers => s.(timers := p)
    case Events => s.(events := p)
    case Parked => s.(parked := p)
  }

  function States(s: State): seq<FiberState> {
    seq(|s.fibers|, k requires 0 <= k < |s.fibers| => s.fibers[k].state)
  }

  function Enqueue(s: State, t: Task, pin: int): State {
    s.(queue := s.queue + [Entry(t, pin)])
  }

  function WithPhase(s: State, w: nat, p: Phase): State
    requires w < |s.workers|
  {
    s.(workers := s.workers[w := s.workers[w].(phase := p)])
  }

  predicate Over(st: FiberState) {
    st == TERM || st == EXCEPT
  }

  /** What `Scheduler::stopping` sees under its lock. */
  predicate SchedulerQuiet(s: State) {
    s.autoStop && s.stopping && s.queue == [] && s.active == 0
  }

  predicate MayAct(s: State, who: Actor) {
    match who
    case None => !(s.autoStop && s.stopping)
    case Some(w) => w < |s.workers| && s.workers[w].phase.Running?
  }

  /** The fiber that worker `w` is running. */
  function RunBy(s: State, w: nat): (f: Option<nat>)
    ensures f.Some? ==> w < |s.workers| && s.workers[w].phase.Running? && f.value < |s.fibers|
  {
    if w < |s.workers| && s.workers[w].phase.Running? && s.workers[w].phase.fiber < |s.fibers|
    then Some(s.workers[w].phase.fiber) else None
  }

  /** The fiber that worker `w` has taken from the task list and not yet switched to. */
  function ResumedBy(s: State, w: nat): (f: Option<nat>)
    ensures f.Some? ==> w < |s.workers| && s.workers[w].phase.Took? && f.value < |s.fibers|
  {
    if w < |s.workers| && s.workers[w].phase.Took? && s.workers[w].phase.entry.task.Resume?
       && s.workers[w].phase.entry.task.fiber < |s.fibers|
    then Some(s.workers[w].phase.entry.task.fiber) else None
  }

  function StateOf(s: State, f: Option<nat>): FiberState {
    if f.Some? && f.value < |s.fibers| then s.fibers[f.value].state else INIT
  }

  predicate CanLoop(s: State, w: nat, step: LoopStep) {
    && w < |s.workers|
    && match step
       case Scan => s.workers[w].phase.Scanning?
       case SwapIn => ResumedBy(s, w).Some? && !Over(StateOf(s, ResumedBy(s, w)))
       case SkipFinished => ResumedBy(s, w).Some? && Over(StateOf(s, ResumedBy(s, w)))
       case StartCall =>
         && s.workers[w].phase.Took? && s.workers[w].phase.entry.task.Call?
         && (s.workers[w].cbFiber.Some? ==> s.workers[w].cbFiber.value < |s.fibers|)
       case CountDown => s.workers[w].phase.SwappedOut?
       case Settle => s.workers[w].phase.Settling? && s.workers[w].phase.fiber < |s.fibers|
  }

  /** A fiber registers at most one wake-up for itself at a time, suspends only when it has one,
      and ends only when it has none; a callback schedules the fiber it wakes before it suspends
      or ends. */
  ghost predicate CanTask(s: State, w: nat, step: FiberStep) {
    && RunBy(s, w).Some?
    && (var f := RunBy(s, w).value;
        match step
        case Arm(src, task) =>
          Wakes(s)[f] == 0 && (task == Call(Some(f)) || (src != Timers && task == Resume(f)))
        case ScheduleSelf(_) => Wakes(s)[f] == 0
        case Deliver => s.fibers[f].carry.Some?
        case Yield => Wakes(s)[f] == 1 && s.fibers[f].carry.None?
        case Finish(_) => Wakes(s)[f] == 0 && s.fibers[f].carry.None?)
  }

  predicate CanShare(s: State, who: Actor, step: SharedStep) {
    && MayAct(s, who)
    && match step
       case Spawn(_) => true
       case Post(_) => true
       case AddCallback(src) => src != Parked
       case Fire(src, i) => src != Timers && i < |Pool(s, src)|
       case Discard(src, i) => src != Parked && i < |Pool(s, src)| && Pool(s, src)[i] == Call(None)
  }

  predicate CanIdle(s: State, w: nat, step: IdleStep) {
    && w < |s.workers|
    && (var p := s.workers[w].phase;
        match step
        case ReadTimers => p.Stopping? && p.done == 0
        case ReadPending => p.Stopping? && p.done == 1
        case ReadScheduler => p.Stopping? && p.done == 2
        case Expire(i, again) => p.IdleExpiring? && i < |s.timers| && (again ==> s.timers[i] == Call(None))
        case ScheduleBatch => p.IdleExpiring?
        case Dispatch(i) => p.IdleDispatching? && i < |s.events|
        case IdleYield => p.IdleDispatching?)
  }

  ghost predicate Enabled(s: State, step: Step) {
    match step
    case Loop(w, loop) => CanLoop(s, w, loop)
    case Task(w, task) => CanTask(s, w, task)
    case Shared(who, shared) => CanShare(s, who, shared)
    case Idle(w, idle) => CanIdle(s, w, idle)
    case RequestStop => true
    case MarkStopping => s.autoStop
    case CallStop(w) => w < |s.workers| && s.workers[w].phase.Unstarted? && s.autoStop && s.stopping
  }

  /** One turn of the scan: take an entry, or fall through to the idle fiber, or leave `run`. */
  function DoScan(s: State, w: nat): State
    requires w < |s.workers|
  {
    var i := Pick(s.queue, w, States(s));
    if i < |s.queue| then
      WithPhase(s.(queue := Without(s.queue, i), active := s.active + 1), w, Took(s.queue[i]))
    else
      WithPhase(s, w, if s.workers[w].idleLive then Stopping(0, false) else Left)
  }

  function DoSwapIn(s: State, w: nat, f: nat): State
    requires w < |s.workers| && f < |s.fibers|
  {
    WithPhase(s.(fibers := s.fibers[f := s.fibers[f].(state := EXEC, on := Some(w))]), w, Running(f, false))
  }

  /** The callback branch of `run`: reset the kept fiber, or make a new one, and switch to it. */
  function DoStartCall(s: State, w: nat, wakes: Option<nat>): State
    requires w < |s.workers| && (s.workers[w].cbFiber.Some? ==> s.workers[w].cbFiber.value < |s.fibers|)
  {
    var started := Fiber(EXEC, wakes, Some(w), Some(w));
    if s.workers[w].cbFiber.Some? then
      var g := s.workers[w].cbFiber.value;
      WithPhase(s.(fibers := s.fibers[g := started]), w, Running(g, true))
    else
      var g := |s.fibers|;
      s.(fibers := s.fibers + [started],
         workers := s.workers[w := s.workers[w].(phase := Running(g, true), cbFiber := Some(g))])
  }

  function DoSpawn(s: State, pin: int): State {
    Enqueue(s.(fibers := s.fibers + [Fiber(INIT, None, None, None)]), Resume(|s.fibers|), pin)
  }

  function DoFire(s: State, src: Source, i: nat): State
    requires i < |Pool(s, src)|
  {
    Enqueue(WithPool(s, src, Without(Pool(s, src), i)), Pool(s, src)[i], ANY_THREAD)
  }

  function DoDeliver(s: State, f: nat): State
    requires f < |s.fibers| && s.fibers[f].carry.Some?
  {
    Enqueue(s.(fibers := s.fibers[f := s.fibers[f].(carry := None)]), Resume(s.fibers[f].carry.value), ANY_THREAD)
  }

  /** The fiber's side of a switch back to the worker; `st` is EXEC for `YieldToHold`. */
  function DoLeave(s: State, w: nat, f: nat, st: FiberState): State
    requires w < |s.workers| && s.workers[w].phase.Running? && f < |s.fibers|
  {
    WithPhase(s.(fibers := s.fibers[f := s.fibers[f].(state := st)]), w, SwappedOut(f, s.workers[w].phase.viaCb))
  }

  function DoCountDown(s: State, w: nat): State
    requires w < |s.workers| && s.workers[w].phase.SwappedOut?
  {
    WithPhase(s.(active := s.active - 1), w, Settling(s.workers[w].phase.fiber, s.workers[w].phase.viaCb))
  }

  /** The worker's side: HOLD is written here, after the switch and after the count went down. */
  function DoSettle(s: State, w: nat): State
    requires w < |s.workers| && s.workers[w].phase.Settling? && s.workers[w].phase.fiber < |s.fibers|
  {
    var f, viaCb := s.workers[w].phase.fiber, s.workers[w].phase.viaCb;
    var over := Over(s.fibers[f].state);
    var release := viaCb && !over;
    var st := if !over then HOLD else if viaCb then INIT else s.fibers[f].state;
    var home := if release then None else s.fibers[f].home;
    var cbFiber := if release then None else s.workers[w].cbFiber;
    s.(fibers := s.fibers[f := s.fibers[f].(state := st, on := None, home := home)],
       workers := s.workers[w := s.workers[w].(phase := Scanning, cbFiber := cbFiber)])
  }

  /** One read of `stopping`: go on if it saw nothing, else the caller is not stopping. */
  function AfterRead(x: Worker, quiet: bool): Worker
    requires x.phase.Stopping?
  {
    var p := x.phase;
    if !quiet then x.(phase := if p.root then Scanning else IdleExpiring([]))
    else if p.done < 2 then x.(phase := Stopping(p.done + 1, p.root))
    else x.(phase := if p.root then Left else Scanning, idleLive := false)
  }

  function DoRead(s: State, w: nat, quiet: bool): State
    requires w < |s.workers| && s.workers[w].phase.Stopping?
  {
    s.(workers := s.workers[w := AfterRead(s.workers[w], quiet)])
  }

  function DoExpire(s: State, w: nat, i: nat, again: bool): State
    requires w < |s.workers| && s.workers[w].phase.IdleExpiring? && i < |s.timers|
  {
    WithPhase(if again then s else s.(timers := Without(s.timers, i)),
              w, IdleExpiring(s.workers[w].phase.batch + [s.timers[i]]))
  }

  function AsEntries(batch: seq<Task>): seq<Entry> {
    if batch == [] then [] else AsEntries(batch[..|batch| - 1]) + [Entry(batch[|batch| - 1], ANY_THREAD)]
  }

  function DoScheduleBatch(s: State, w: nat): State
    requires w < |s.workers| && s.workers[w].phase.IdleExpiring?
  {
    WithPhase(s.(queue := s.queue + AsEntries(s.workers[w].phase.batch)), w, IdleDispatching)
  }

  function DoLoop(s: State, w: nat, step: LoopStep): State
    requires CanLoop(s, w, step)
  {
    match step
    case Scan => DoScan(s, w)
    case SwapIn => DoSwapIn(s, w, ResumedBy(s, w).value)
    case SkipFinished => WithPhase(s.(active := s.active - 1), w, Scanning)
    case StartCall => DoStartCall(s, w, s.workers[w].phase.entry.task.wakes)
    case CountDown => DoCountDown(s, w)
    case Settle => DoSettle(s, w)
  }

  function DoTask(s: State, w: nat, step: FiberStep): State
    requires RunBy(s, w).Some? && (step.Deliver? ==> s.fibers[RunBy(s, w).value].carry.Some?)
  {
    var f := RunBy(s, w).value;
    match step
    case Arm(src, task) => WithPool(s, src, Pool(s, src) + [task])
    case ScheduleSelf(pin) => Enqueue(s, Resume(f), pin)
    case Deliver => DoDeliver(s, f)
    case Yield => DoLeave(s, w, f, s.fibers[f].state)
    case Finish(normally) => DoLeave(s, w, f, if normally then TERM else EXCEPT)
  }

  function DoShared(s: State, who: Actor, step: SharedStep): (t: State)
    requires CanShare(s, who, step)
    ensures t.workers == s.workers && t.active == s.active && t.autoStop == s.autoStop && t.stopping == s.stopping
  {
    match step
    case Spawn(pin) => DoSpawn(s, pin)
    case Post(pin) => Enqueue(s, Call(None), pin)
    case AddCallback(src) => WithPool(s, src, Pool(s, src) + [Call(None)])
    case Fire(src, i) => DoFire(s, src, i)
    case Discard(src, i) => WithPool(s, src, Without(Pool(s, src), i))
  }

  function DoIdle(s: State, w: nat, step: IdleStep): State
    requires CanIdle(s, w, step)
  {
    match step
    case ReadTimers => DoRead(s, w, s.timers == [])
    case ReadPending => DoRead(s, w, s.events == [])
    case ReadScheduler => DoRead(s, w, SchedulerQuiet(s))
    case Expire(i, again) => DoExpire(s, w, i, again)
    case ScheduleBatch => DoScheduleBatch(s, w)
    case Dispatch(i) => DoFire(s, Events, i)
    case IdleYield => WithPhase(s, w, Scanning)
  }

  ghost function Apply(s: State, step: Step): State
    requires Enabled(s, step)
  {
    match step
    case Loop(w, loop) => DoLoop(s, w, loop)
    case Task(w, task) => DoTask(s, w, task)
    case Shared(who, shared) => DoShared(s, who, shared)
    case Idle(w, idle) => DoIdle(s, w, idle)
    case RequestStop => s.(autoStop := true)
    case MarkStopping => s.(stopping := true)
    case CallStop(w) => WithPhase(s, w, Stopping(0, true))
  }

  /** The assertions that the loop executes: `swapIn` on a fiber that is not EXEC, and `reset` (at
      the start of a callback, and after one that ended) on one that is INIT, TERM or EXCEPT. */
  predicate LoopAsserts(s: State, w: nat, step: LoopStep)
    requires CanLoop(s, w, step)
  {
    match step
    case SwapIn => StateOf(s, ResumedBy(s, w)) != EXEC
    case StartCall =>
      var cb := s.workers[w].cbFiber;
      cb.Some? ==> StateOf(s, cb) in {INIT, TERM, EXCEPT}
    case _ => true
  }

  /** `YieldToHold` asserts that the fiber is EXEC. */
  ghost predicate AssertionsHold(s: State, step: Step)
    requires Enabled(s, step)
  {
    match step
    case Loop(w, loop) => LoopAsserts(s, w, loop)
    case Task(w, task) => task.Yield? ==> StateOf(s, RunBy(s, w)) == EXEC
    case _ => true
  }

  /** Nothing has been scheduled yet; `stopping` starts out true in the source and is cleared by
      `start`, so both values are allowed. */
  predicate Init(s: State) {
    && s.fibers == [] && s.queue == [] && s.timers == [] && s.events == [] && s.parked == []
    && s.active == 0 && !s.autoStop
    && s.workers != []
    && forall w :: 0 <= w < |s.workers| ==>
         s.workers[w] in {Worker(Unstarted, true, None), Worker(Scanning, true, None)}
  }

  /** This step is a shutdown test succeeding for the last worker whose idle fiber is alive. */
  predicate LastStop(s: State, step: Step) {
    && step.Idle? && step.idle.ReadScheduler? && SchedulerQuiet(s)
    && forall v :: 0 <= v < |s.workers| && v != step.w ==> !s.workers[v].idleLive
  }

  /** If it is that step, what the first two reads of the test saw still holds. */
  predicate FreshStop(s: State, step: Step) {
    LastStop(s, step) ==> s.timers == [] && s.events == []
  }

  /** The state after `steps`, or `None` if one of them was not possible. */
  ghost function Exec(s: State, steps: seq<Step>): Option<State> {
    if steps == [] then Some(s)
    else
      var n := |steps| - 1;
      match Exec(s, steps[..n])
      case None => None
      case Some(t) => if Enabled(t, steps[n]) then Some(Apply(t, steps[n])) else None
  }

  /** The last successful shutdown test of the run, if there is one, was fresh. */
  ghost predicate FreshStops(s: State, steps: seq<Step>) {
    steps == [] ||
    (var n := |steps| - 1;
     FreshStops(s, steps[..n]) && match Exec(s, steps[..n]) case None => true case Some(t) => FreshStop(t, steps[n]))
  }
}
