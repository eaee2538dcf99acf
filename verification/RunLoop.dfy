/** What one step does to the task list, to a fiber's state and to a worker's place in the loop, in terms of
    the state before it. */
module RunLoop {
  import opened Common
  import opened TaskQueue
  import opened Runtime
  import opened RuntimeSafety
  import opened RuntimeTheorems

  // ----- The task list ------------------------------------------------------------------------

  /** What a step puts at the back of the task list. A thread pin is given by whoever schedules; wake-ups
      and expired callbacks are free. */
  function Appended(s: State, step: Step): seq<Entry> {
    match step
    case Task(w, ScheduleSelf(pin)) => if RunBy(s, w).Some? then [Entry(Resume(RunBy(s, w).value), pin)] else []
    case Task(w, Deliver) =>
      if RunBy(s, w).Some? && s.fibers[RunBy(s, w).value].carry.Some?
      then [Entry(Resume(s.fibers[RunBy(s, w).value].carry.value), -1)] else []
    case Shared(_, Spawn(pin)) => [Entry(Resume(|s.fibers|), pin)]
    case Shared(_, Post(pin)) => [Entry(Call(None), pin)]
    case Shared(_, Fire(src, i)) => if i < |Pool(s, src)| then [Entry(Pool(s, src)[i], -1)] else []
    case Idle(_, Dispatch(i)) => if i < |s.events| then [Entry(s.events[i], -1)] else []
    case Idle(w, ScheduleBatch) =>
      if w < |s.workers| && s.workers[w].phase.IdleExpiring? then Freed(s.workers[w].phase.batch) else []
    case _ => []
  }

  /** A batch as entries, in order. */
  function Freed(batch: seq<Task>): (r: seq<Entry>)
    ensures |r| == |batch| && forall k :: 0 <= k < |r| ==> r[k] == Entry(batch[k], -1)
  {
    seq(|batch|, k requires 0 <= k < |batch| => Entry(batch[k], -1))
  }

  lemma {:induction false} FreedIs(batch: seq<Task>)
    ensures AsEntries(batch) == Freed(batch)
  {
    if batch != [] {
      FreedIs(batch[..|batch| - 1]);
    }
  }

  /** The entry that a scan by `w` takes: the first one, from position `i`, that is free or its own and whose fiber
      nobody is executing. */
  predicate TakesAt(s: State, w: nat, i: nat) {
    && i < |s.queue|
    && MayTake(s, w, s.queue[i])
    && forall j :: 0 <= j < i ==> !MayTake(s, w, s.queue[j])
  }

  predicate MayTake(s: State, w: nat, e: Entry) {
    && (e.pin == -1 || e.pin == w)
    && !(e.task.Resume? && e.task.fiber < |s.fibers| && s.fibers[e.task.fiber].state == EXEC)
  }

  lemma MayTakeIs(s: State, w: nat, e: Entry)
    ensures MayTake(s, w, e) == Eligible(e, w, States(s))
  {
  }

  lemma {:induction false} PickTakes(s: State, w: nat)
    ensures var i := Pick(s.queue, w, States(s));
      if i < |s.queue| then TakesAt(s, w, i) else forall j: nat :: !TakesAt(s, w, j)
  {
    forall e ensures MayTake(s, w, e) == Eligible(e, w, States(s)) { MayTakeIs(s, w, e); }
  }

  lemma {:induction false} TaskAppends(s: State, w: nat, task: FiberStep)
    requires RunBy(s, w).Some? && (task.Deliver? ==> s.fibers[RunBy(s, w).value].carry.Some?)
    ensures DoTask(s, w, task).queue == s.queue + Appended(s, Step.Task(w, task))
  {
  }

  lemma {:induction false} SharedAppends(s: State, who: Actor, shared: SharedStep)
    requires CanShare(s, who, shared)
    ensures DoShared(s, who, shared).queue == s.queue + Appended(s, Shared(who, shared))
  {
  }

  lemma {:induction false} IdleAppends(s: State, w: nat, idle: IdleStep)
    requires CanIdle(s, w, idle)
    ensures DoIdle(s, w, idle).queue == s.queue + Appended(s, Idle(w, idle))
  {
    if idle.ScheduleBatch? {
      FreedIs(s.workers[w].phase.batch);
    }
  }

  /** The task list, step by step: a scan takes out the entry it may take, if there is one, and leaves the rest in
      order; every other step leaves the list alone or appends to it. */
  lemma {:induction false} ListEvolves(s: State, step: Step)
    requires Enabled(s, step)
    ensures step.Loop? && step.loop.Scan? ==>
      || (exists i: nat :: TakesAt(s, step.w, i) && Apply(s, step).queue == s.queue[..i] + s.queue[i + 1..])
      || ((forall i: nat :: !TakesAt(s, step.w, i)) && Apply(s, step).queue == s.queue)
    ensures !(step.Loop? && step.loop.Scan?) ==> Apply(s, step).queue == s.queue + Appended(s, step)
  {
    match step
    case Loop(w, loop) => PickTakes(s, w);
    case Task(w, task) => TaskAppends(s, w, task);
    case Shared(who, shared) => SharedAppends(s, who, shared);
    case Idle(w, idle) => IdleAppends(s, w, idle);
    case _ =>
  }

  // ----- The states of a fiber ------------------------------------------------------------------

  /** What may happen to the state of fiber `f`, from `a` to `b`. */
  predicate StateMoves(s: State, step: Step, f: nat, a: FiberState, b: FiberState) {
    match step
    case Loop(w, SwapIn) => if ResumedBy(s, w) == Some(f) then a in {INIT, HOLD} && b == EXEC else b == a
    case Loop(w, StartCall) =>
      if w < |s.workers| && s.workers[w].cbFiber == Some(f) then a == INIT && b == EXEC else b == a
    case Task(w, Finish(normally)) =>
      if RunBy(s, w) == Some(f) then a == EXEC && b == (if normally then TERM else EXCEPT) else b == a
    case Loop(w, Settle) =>
      if w < |s.workers| && s.workers[w].phase.Settling? && s.workers[w].phase.fiber == f then
        if a == EXEC then b == HOLD
        else a in {TERM, EXCEPT} && b == (if s.workers[w].phase.viaCb then INIT else a)
      else b == a
    case _ => b == a
  }

  lemma {:induction false} LoopStates(s: State, m: multiset<nat>, w: nat, loop: LoopStep, f: nat)
    requires Shape(s, m) && CanLoop(s, w, loop) && f < |s.fibers|
    requires forall v :: 0 <= v < |s.workers| && ResumedBy(s, v).Some? ==> m[ResumedBy(s, v).value] >= 1
    ensures f < |DoLoop(s, w, loop).fibers|
    ensures StateMoves(s, Loop(w, loop), f, s.fibers[f].state, DoLoop(s, w, loop).fibers[f].state)
  {
    assert WorkerOk(s, w) && FiberOk(s, f, m[f]);
  }

  lemma {:induction false} TaskStates(s: State, m: multiset<nat>, w: nat, task: FiberStep, f: nat)
    requires Shape(s, m) && RunBy(s, w).Some? && (task.Deliver? ==> s.fibers[RunBy(s, w).value].carry.Some?)
    requires f < |s.fibers|
    ensures f < |DoTask(s, w, task).fibers|
    ensures StateMoves(s, Step.Task(w, task), f, s.fibers[f].state, DoTask(s, w, task).fibers[f].state)
  {
    assert WorkerOk(s, w) && FiberOk(s, f, m[f]);
  }

  /** Nobody else touches the states. */
  lemma {:induction false} OtherStates(s: State, step: Step, f: nat)
    requires Enabled(s, step) && f < |s.fibers| && (step.Shared? || step.Idle?)
    ensures f < |Apply(s, step).fibers| && Apply(s, step).fibers[f].state == s.fibers[f].state
  {
    match step
    case Shared(who, shared) => SharedFibers(s, who, shared);
    case Idle(w, idle) => IdleFibers(s, w, idle);
  }

  lemma {:induction false} SharedFibers(s: State, who: Actor, shared: SharedStep)
    requires CanShare(s, who, shared)
    ensures s.fibers <= DoShared(s, who, shared).fibers
  {
  }

  lemma {:induction false} IdleFibers(s: State, w: nat, idle: IdleStep)
    requires CanIdle(s, w, idle)
    ensures DoIdle(s, w, idle).fibers == s.fibers
  {
  }

  /** The life of a fiber. In every run, each step moves each fiber as `StateMoves` says: it is EXEC from the switch to
      it until its worker writes HOLD or its function ends, normally or by an exception, and a worker's callback
      fiber is INIT between two callbacks. */
  lemma {:induction false} FiberLife(s0: State, steps: seq<Step>, s: State, step: Step, f: nat)
    requires Init(s0) && Exec(s0, steps) == Some(s) && Enabled(s, step) && f < |s.fibers|
    ensures f < |Apply(s, step).fibers|
    ensures StateMoves(s, step, f, s.fibers[f].state, Apply(s, step).fibers[f].state)
  {
    RunIsSound(s0, steps, s);
    match step
    case Loop(w, loop) =>
      TakenIsHeld(s);
      LoopStates(s, Wakes(s), w, loop, f);
    case Task(w, task) => TaskStates(s, Wakes(s), w, task, f);
    case Shared(_, _) => OtherStates(s, step, f);
    case Idle(_, _) => OtherStates(s, step, f);
    case _ =>
  }

  // ----- The loop of a worker -------------------------------------------------------------------

  /** One read of the shutdown test: on to the next, or out of the test; after the `last` one the idle fiber ends, or
      the root thread is done. */
  predicate ReadMoves(quiet: bool, last: bool, x: Worker, y: Worker) {
    && x.phase.Stopping?
    && if !quiet then y == x.(phase := if x.phase.root then Scanning else IdleExpiring([]))
       else if last then y == x.(phase := if x.phase.root then Left else Scanning, idleLive := false)
       else y == x.(phase := Stopping(x.phase.done + 1, x.phase.root))
  }

  /** The worker `w` of `step` goes from `x` to `y`. */
  ghost predicate WorkerMoves(s: State, step: Step, w: nat, x: Worker, y: Worker) {
    match step
    case Loop(_, Scan) =>
      if exists i: nat :: TakesAt(s, w, i) then exists i: nat :: TakesAt(s, w, i) && y == x.(phase := Took(s.queue[i]))
      else y == x.(phase := if x.idleLive then Stopping(0, false) else Left)
    case Loop(_, SwapIn) =>
      x.phase.Took? && x.phase.entry.task.Resume? && y == x.(phase := Running(x.phase.entry.task.fiber, false))
    case Loop(_, SkipFinished) => y == x.(phase := Scanning)
    case Loop(_, StartCall) =>
      y.phase == Running(if x.cbFiber.Some? then x.cbFiber.value else |s.fibers|, true) && y.idleLive == x.idleLive
    case Loop(_, CountDown) => x.phase.SwappedOut? && y == x.(phase := Settling(x.phase.fiber, x.phase.viaCb))
    case Loop(_, Settle) => y.phase == Scanning && y.idleLive == x.idleLive
    case Task(_, Yield) => x.phase.Running? && y == x.(phase := SwappedOut(x.phase.fiber, x.phase.viaCb))
    case Task(_, Finish(_)) => x.phase.Running? && y == x.(phase := SwappedOut(x.phase.fiber, x.phase.viaCb))
    case Idle(_, Expire(i, _)) =>
      x.phase.IdleExpiring? && i < |s.timers| && y == x.(phase := IdleExpiring(x.phase.batch + [s.timers[i]]))
    case Idle(_, ScheduleBatch) => y == x.(phase := IdleDispatching)
    case Idle(_, IdleYield) => y == x.(phase := Scanning)
    case Idle(_, Dispatch(_)) => y == x
    case Idle(_, ReadTimers) => ReadMoves(s.timers == [], false, x, y)
    case Idle(_, ReadPending) => ReadMoves(s.events == [], false, x, y)
    case Idle(_, ReadScheduler) =>
      ReadMoves(s.autoStop && s.stopping && s.queue == [] && s.active == 0, true, x, y)
    case CallStop(_) => y == x.(phase := Stopping(0, true))
    case _ => y == x
  }

  /** Whose step it is. */
  function Mover(step: Step): Option<nat> {
    match step
    case Loop(w, _) => Some(w)
    case Task(w, _) => Some(w)
    case Idle(w, _) => Some(w)
    case CallStop(w) => Some(w)
    case _ => None
  }

  lemma {:induction false} ScanMoves(s: State, w: nat)
    requires CanLoop(s, w, Scan)
    ensures WorkerMoves(s, Loop(w, Scan), w, s.workers[w], DoScan(s, w).workers[w])
  {
    PickTakes(s, w);
  }

  lemma {:induction false} LoopMoves(s: State, w: nat, loop: LoopStep)
    requires CanLoop(s, w, loop) && !loop.Scan?
    ensures w < |DoLoop(s, w, loop).workers|
    ensures WorkerMoves(s, Loop(w, loop), w, s.workers[w], DoLoop(s, w, loop).workers[w])
  {
  }

  lemma {:induction false} TaskMoves(s: State, w: nat, task: FiberStep)
    requires RunBy(s, w).Some? && (task.Deliver? ==> s.fibers[RunBy(s, w).value].carry.Some?)
    ensures w < |DoTask(s, w, task).workers|
    ensures WorkerMoves(s, Step.Task(w, task), w, s.workers[w], DoTask(s, w, task).workers[w])
  {
  }

  lemma {:induction false} IdleMoves(s: State, w: nat, idle: IdleStep)
    requires CanIdle(s, w, idle)
    ensures w < |DoIdle(s, w, idle).workers|
    ensures WorkerMoves(s, Idle(w, idle), w, s.workers[w], DoIdle(s, w, idle).workers[w])
  {
  }

  lemma {:induction false} LoopOthers(s: State, v: nat, loop: LoopStep, w: nat)
    requires CanLoop(s, v, loop) && w < |s.workers| && v != w
    ensures w < |DoLoop(s, v, loop).workers| && DoLoop(s, v, loop).workers[w] == s.workers[w]
  {
  }

  lemma {:induction false} TaskOthers(s: State, v: nat, task: FiberStep, w: nat)
    requires RunBy(s, v).Some? && (task.Deliver? ==> s.fibers[RunBy(s, v).value].carry.Some?)
    requires w < |s.workers| && v != w
    ensures w < |DoTask(s, v, task).workers| && DoTask(s, v, task).workers[w] == s.workers[w]
  {
  }

  lemma {:induction false} IdleOthers(s: State, v: nat, idle: IdleStep, w: nat)
    requires CanIdle(s, v, idle) && w < |s.workers| && v != w
    ensures w < |DoIdle(s, v, idle).workers| && DoIdle(s, v, idle).workers[w] == s.workers[w]
  {
  }

  lemma {:induction false} OthersStay(s: State, step: Step, w: nat)
    requires Enabled(s, step) && w < |s.workers| && Mover(step) != Some(w)
    ensures w < |Apply(s, step).workers| && Apply(s, step).workers[w] == s.workers[w]
  {
    match step
    case Loop(v, loop) => LoopOthers(s, v, loop, w);
    case Task(v, task) => TaskOthers(s, v, task, w);
    case Idle(v, idle) => IdleOthers(s, v, idle, w);
    case _ =>
  }

  /** The loop of a worker: each step moves its own worker as `WorkerMoves` says, and no other. */
  lemma {:induction false} LoopFollowed(s: State, step: Step, w: nat)
    requires Enabled(s, step) && w < |s.workers|
    ensures w < |Apply(s, step).workers|
    ensures if Mover(step) == Some(w) then WorkerMoves(s, step, w, s.workers[w], Apply(s, step).workers[w])
            else Apply(s, step).workers[w] == s.workers[w]
  {
    if Mover(step) == Some(w) {
      match step
      case Loop(_, loop) => if loop.Scan? { ScanMoves(s, w); } else { LoopMoves(s, w, loop); }
      case Task(_, task) => TaskMoves(s, w, task);
      case Idle(_, idle) => IdleMoves(s, w, idle);
      case CallStop(_) =>
    } else {
      OthersStay(s, step, w);
    }
  }

  /** The two flags of `stop` are set by its two steps, in this order, and by nothing else, and never cleared. */
  lemma {:induction false} FlagsFollow(s: State, step: Step)
    requires Enabled(s, step)
    ensures Apply(s, step).autoStop == (s.autoStop || step == RequestStop)
    ensures Apply(s, step).stopping == (s.stopping || step == MarkStopping)
    ensures step == MarkStopping ==> s.autoStop
  {
    match step
    case Loop(w, loop) => LoopFlags(s, w, loop);
    case Task(w, task) => TaskFrame(s, w, task);
    case Idle(w, idle) => IdleFlags(s, w, idle);
    case _ =>
  }

  lemma {:induction false} LoopFlags(s: State, w: nat, loop: LoopStep)
    requires CanLoop(s, w, loop)
    ensures DoLoop(s, w, loop).autoStop == s.autoStop && DoLoop(s, w, loop).stopping == s.stopping
  {
  }

  lemma {:induction false} IdleFlags(s: State, w: nat, idle: IdleStep)
    requires CanIdle(s, w, idle)
    ensures DoIdle(s, w, idle).autoStop == s.autoStop && DoIdle(s, w, idle).stopping == s.stopping
  {
  }
}
