/** What the three reads of `IOManager::stopping` buy. They are made one after the other, and others act
    in between; an orderly shutdown depends on what those others did, and on nothing else. */
module Shutdown {
  import opened Common
  import opened TaskQueue
  import opened Runtime
  import opened RuntimeSafety
  import opened RuntimeTheorems

  /** By how much a step changes the number of armed timers or registered events. */
  function Delta(step: Step, src: Source): int {
    match step
    case Task(_, Arm(src', _)) => if src' == src then 1 else 0
    case Shared(_, AddCallback(src')) => if src' == src then 1 else 0
    case Shared(_, Fire(src', _)) => if src' == src then -1 else 0
    case Shared(_, Discard(src', _)) => if src' == src then -1 else 0
    case Idle(_, Expire(_, again)) => if src == Timers && !again then -1 else 0
    case Idle(_, Dispatch(_)) => if src == Events then -1 else 0
    case _ => 0
  }

  /** The read that looks at `src`. */
  function ReadOf(src: Source): IdleStep {
    if src == Timers then ReadTimers else ReadPending
  }

  /** How many timers or events were added, less those taken out, since worker `w` last read them. */
  function NetSince(steps: seq<Step>, w: nat, src: Source): int {
    if steps == [] then 0
    else
      var n := |steps| - 1;
      if steps[n] == Idle(w, ReadOf(src)) then 0 else NetSince(steps[..n], w, src) + Delta(steps[n], src)
  }

  /** How many were added since then. */
  function AddsSince(steps: seq<Step>, w: nat, src: Source): nat {
    if steps == [] then 0
    else
      var n := |steps| - 1;
      if steps[n] == Idle(w, ReadOf(src)) then 0
      else AddsSince(steps[..n], w, src) + if Delta(steps[n], src) > 0 then 1 else 0
  }

  // ----- What the reads saw, carried forward ------------------------------------------------

  lemma {:induction false} TaskDelta(s: State, w: nat, task: FiberStep, src: Source)
    requires RunBy(s, w).Some? && (task.Deliver? ==> s.fibers[RunBy(s, w).value].carry.Some?) && src != Parked
    ensures |Pool(DoTask(s, w, task), src)| == |Pool(s, src)| + Delta(Step.Task(w, task), src)
  {
  }

  lemma {:induction false} SharedDelta(s: State, who: Actor, shared: SharedStep, src: Source)
    requires CanShare(s, who, shared) && src != Parked
    ensures |Pool(DoShared(s, who, shared), src)| == |Pool(s, src)| + Delta(Shared(who, shared), src)
  {
  }

  lemma {:induction false} IdleDelta(s: State, w: nat, idle: IdleStep, src: Source)
    requires CanIdle(s, w, idle) && src != Parked
    ensures |Pool(DoIdle(s, w, idle), src)| == |Pool(s, src)| + Delta(Idle(w, idle), src)
  {
  }

  lemma {:induction false} StepDelta(s: State, step: Step, src: Source)
    requires Enabled(s, step) && src != Parked
    ensures |Pool(Apply(s, step), src)| == |Pool(s, src)| + Delta(step, src)
  {
    match step
    case Task(w, task) => TaskDelta(s, w, task, src);
    case Shared(who, shared) => SharedDelta(s, who, shared, src);
    case Idle(w, idle) => IdleDelta(s, w, idle, src);
    case _ =>
  }

  /** A worker past its first read in `t` was just there in `s`. */
  ghost predicate SamePlace(s: State, t: State, w: nat) {
    && |t.workers| == |s.workers|
    && (w < |s.workers| && t.workers[w].phase.Stopping? && t.workers[w].phase.done > 0 ==>
          s.workers[w].phase == t.workers[w].phase)
  }

  lemma {:induction false} LoopPlace(s: State, v: nat, loop: LoopStep, w: nat)
    requires CanLoop(s, v, loop)
    ensures SamePlace(s, DoLoop(s, v, loop), w)
  {
  }

  lemma {:induction false} TaskPlace(s: State, v: nat, task: FiberStep, w: nat)
    requires RunBy(s, v).Some? && (task.Deliver? ==> s.fibers[RunBy(s, v).value].carry.Some?)
    ensures SamePlace(s, DoTask(s, v, task), w)
  {
  }

  lemma {:induction false} IdlePlace(s: State, v: nat, idle: IdleStep, w: nat)
    requires CanIdle(s, v, idle)
    ensures |DoIdle(s, v, idle).workers| == |s.workers|
    ensures v != w || (idle != ReadTimers && idle != ReadPending) ==> SamePlace(s, DoIdle(s, v, idle), w)
  {
  }

  /** Nobody but the worker itself gets it on with its test. */
  lemma {:induction false} TestIsOwn(s: State, step: Step, w: nat)
    requires Enabled(s, step)
    ensures |Apply(s, step).workers| == |s.workers|
    ensures step != Idle(w, ReadTimers) && step != Idle(w, ReadPending) ==> SamePlace(s, Apply(s, step), w)
  {
    match step
    case Loop(v, loop) => LoopPlace(s, v, loop, w);
    case Task(v, task) => TaskPlace(s, v, task, w);
    case Idle(v, idle) => IdlePlace(s, v, idle, w);
    case _ =>
  }

  /** What a worker in the middle of its test may conclude: since each read found nothing, what is there now is
      what others have added since. */
  ghost predicate Seen(s: State, steps: seq<Step>, w: nat)
    requires w < |s.workers|
  {
    var p := s.workers[w].phase;
    p.Stopping? ==>
      && (p.done >= 1 ==> |s.timers| == NetSince(steps, w, Timers))
      && (p.done >= 2 ==> |s.events| == NetSince(steps, w, Events))
  }

  lemma {:induction false} OwnRead(s: State, steps: seq<Step>, step: Step, w: nat)
    requires Enabled(s, step) && w < |s.workers| && Seen(s, steps, w)
    requires step == Idle(w, ReadTimers) || step == Idle(w, ReadPending)
    ensures w < |Apply(s, step).workers| && Seen(Apply(s, step), steps + [step], w)
  {
    assert (steps + [step])[..|steps|] == steps;
  }

  lemma {:induction false} OtherStep(s: State, steps: seq<Step>, step: Step, w: nat)
    requires Enabled(s, step) && w < |s.workers| && Seen(s, steps, w)
    requires step != Idle(w, ReadTimers) && step != Idle(w, ReadPending)
    ensures w < |Apply(s, step).workers| && Seen(Apply(s, step), steps + [step], w)
  {
    assert (steps + [step])[..|steps|] == steps;
    TestIsOwn(s, step, w);
    StepDelta(s, step, Timers);
    StepDelta(s, step, Events);
  }

  lemma {:induction false} RunSees(s0: State, steps: seq<Step>, s: State, w: nat)
    requires Init(s0) && Exec(s0, steps) == Some(s) && w < |s.workers|
    ensures Seen(s, steps, w)
  {
    if steps != [] {
      var n := |steps| - 1;
      var t, step := Exec(s0, steps[..n]).value, steps[n];
      TestIsOwn(t, step, w);
      RunSees(s0, steps[..n], t, w);
      assert steps == steps[..n] + [step];
      if step == Idle(w, ReadTimers) || step == Idle(w, ReadPending) {
        OwnRead(t, steps[..n], step, w);
      } else {
        OtherStep(t, steps[..n], step, w);
      }
    }
  }

  // ----- Undisturbed tests ------------------------------------------------------------------

  /** If `step` is the test that ends the last idle fiber: everything that was added since its reads has been
      taken out again. */
  predicate Undisturbed(s: State, steps: seq<Step>, step: Step) {
    LastStop(s, step) ==> NetSince(steps, step.w, Timers) == 0 && NetSince(steps, step.w, Events) == 0
  }

  /** Nothing at all was added since its reads. */
  predicate NothingAdded(s: State, steps: seq<Step>, step: Step) {
    LastStop(s, step) ==> AddsSince(steps, step.w, Timers) == 0 && AddsSince(steps, step.w, Events) == 0
  }

  ghost predicate UndisturbedTests(s0: State, steps: seq<Step>) {
    steps == [] ||
    (var n := |steps| - 1;
     && UndisturbedTests(s0, steps[..n])
     && match Exec(s0, steps[..n])
        case None => true
        case Some(t) => Undisturbed(t, steps[..n], steps[n]))
  }

  ghost predicate NothingAddedInTests(s0: State, steps: seq<Step>) {
    steps == [] ||
    (var n := |steps| - 1;
     && NothingAddedInTests(s0, steps[..n])
     && match Exec(s0, steps[..n])
        case None => true
        case Some(t) => NothingAdded(t, steps[..n], steps[n]))
  }

  /** Every test makes its three reads in one go. */
  predicate OneStepTests(steps: seq<Step>) {
    forall n :: 0 <= n < |steps| && IsLastRead(steps[n]) ==>
      n >= 2 && steps[n - 1] == Idle(steps[n].w, ReadPending) && steps[n - 2] == Idle(steps[n].w, ReadTimers)
  }

  predicate IsLastRead(step: Step) {
    step.Idle? && step.idle.ReadScheduler?
  }

  /** A test sees what is there at its end exactly if it was undisturbed: this is where the reads count. */
  lemma {:induction false} UndisturbedIsFresh(s0: State, steps: seq<Step>, s: State, step: Step)
    requires Init(s0) && Exec(s0, steps) == Some(s) && Enabled(s, step)
    ensures Undisturbed(s, steps, step) <==> FreshStop(s, step)
  {
    if LastStop(s, step) {
      RunSees(s0, steps, s, step.w);
    }
  }

  lemma {:induction false} UndisturbedTestsAreFresh(s0: State, steps: seq<Step>, s: State)
    requires Init(s0) && Exec(s0, steps) == Some(s)
    ensures UndisturbedTests(s0, steps) <==> FreshStops(s0, steps)
  {
    if steps != [] {
      var n := |steps| - 1;
      var t := Exec(s0, steps[..n]).value;
      UndisturbedTestsAreFresh(s0, steps[..n], t);
      UndisturbedIsFresh(s0, steps[..n], t, steps[n]);
    }
  }

  lemma {:induction false} NetOfNothing(steps: seq<Step>, w: nat, src: Source)
    requires AddsSince(steps, w, src) == 0
    ensures NetSince(steps, w, src) <= 0
  {
    if steps != [] {
      var n := |steps| - 1;
      if steps[n] != Idle(w, ReadOf(src)) {
        NetOfNothing(steps[..n], w, src);
      }
    }
  }

  lemma {:induction false} NothingAddedIsUndisturbed(s0: State, steps: seq<Step>, s: State)
    requires Init(s0) && Exec(s0, steps) == Some(s) && NothingAddedInTests(s0, steps)
    ensures UndisturbedTests(s0, steps)
  {
    if steps != [] {
      var n := |steps| - 1;
      var t, step := Exec(s0, steps[..n]).value, steps[n];
      NothingAddedIsUndisturbed(s0, steps[..n], t);
      if LastStop(t, step) {
        RunSees(s0, steps[..n], t, step.w);
        NetOfNothing(steps[..n], step.w, Timers);
        NetOfNothing(steps[..n], step.w, Events);
      }
    }
  }

  lemma {:induction false} OneStepWindow(steps: seq<Step>, w: nat)
    requires |steps| >= 2 && steps[|steps| - 1] == Idle(w, ReadPending) && steps[|steps| - 2] == Idle(w, ReadTimers)
    ensures AddsSince(steps, w, Timers) == 0 && AddsSince(steps, w, Events) == 0
  {
    var n := |steps| - 1;
    assert steps[..n][n - 1] == Idle(w, ReadTimers);
    assert AddsSince(steps[..n], w, Timers) == 0;
  }

  lemma {:induction false} OneStepIsQuiet(s0: State, steps: seq<Step>)
    requires OneStepTests(steps)
    ensures NothingAddedInTests(s0, steps)
  {
    if steps != [] {
      var n := |steps| - 1;
      assert OneStepTests(steps[..n]) by {
        forall k | 0 <= k < n && IsLastRead(steps[..n][k])
          ensures k >= 2 && steps[..n][k - 1] == Idle(steps[..n][k].w, ReadPending)
          ensures steps[..n][k - 2] == Idle(steps[..n][k].w, ReadTimers)
        {
          assert IsLastRead(steps[k]);
        }
      }
      OneStepIsQuiet(s0, steps[..n]);
      if IsLastRead(steps[n]) {
        OneStepWindow(steps[..n], steps[n].w);
      }
    }
  }

  // ----- The theorems ----------------------------------------------------------------------

  /** Nothing is left behind: no task, no timer, no registered event, no worker counted as active, and every
      fiber ever started has ended, except a worker's spare callback fiber and fibers whose wake-up is still
      with a semaphore nobody has notified. */
  ghost predicate NothingLeft(s: State) {
    && s.queue == [] && s.timers == [] && s.events == [] && s.active == 0
    && forall f :: 0 <= f < |s.fibers| ==>
         || Over(s.fibers[f].state)
         || (s.fibers[f].state == INIT && s.fibers[f].home.Some?)
         || Sum(TaskWake, s.parked)[f] == 1
  }

  /** Shutdown, exactly. When every worker has left `run`, nothing is left behind if and only if the test that
      ended the last idle fiber was undisturbed: as many timers were taken out as were added after its first
      read, and as many events as were added after its second. */
  lemma {:induction false} ShutdownExact(s0: State, steps: seq<Step>, s: State)
    requires Init(s0) && Exec(s0, steps) == Some(s) && AllLeft(s)
    ensures UndisturbedTests(s0, steps) <==> NothingLeft(s)
  {
    UndisturbedTestsAreFresh(s0, steps, s);
    FreshOrStranded(s0, steps, s);
    if FreshStops(s0, steps) {
      FreshShutdown(s0, steps, s);
    }
  }

  /** If no other worker adds a timer or an event while the last test goes on, nothing is left behind. */
  lemma {:induction false} QuietShutdown(s0: State, steps: seq<Step>, s: State)
    requires Init(s0) && Exec(s0, steps) == Some(s) && AllLeft(s) && NothingAddedInTests(s0, steps)
    ensures NothingLeft(s)
  {
    NothingAddedIsUndisturbed(s0, steps, s);
    ShutdownExact(s0, steps, s);
  }

  /** With `stopping` read in one step, every shutdown is orderly, although a worker whose idle fiber has ended
      may still take tasks, and expired callbacks are for a while in neither timer set nor task list. */
  lemma {:induction false} OrderlyShutdown(s0: State, steps: seq<Step>, s: State)
    requires Init(s0) && Exec(s0, steps) == Some(s) && AllLeft(s) && OneStepTests(steps)
    ensures NothingLeft(s)
  {
    OneStepIsQuiet(s0, steps);
    QuietShutdown(s0, steps, s);
  }

  /** As long as there is work and no last test has been disturbed, some idle fiber is alive to drive it. */
  lemma {:induction false} WorkIsDriven(s0: State, steps: seq<Step>, s: State)
    requires Init(s0) && Exec(s0, steps) == Some(s) && UndisturbedTests(s0, steps)
    ensures Work(s) ==> SomeIdleLive(s)
  {
    UndisturbedTestsAreFresh(s0, steps, s);
    FreshRunIsLive(s0, steps, s);
  }
}
