/** The blocking calls and the semaphore as clients of the runtime: they keep the rule that the runtime
    demands of fibers - register one wake-up, switch out with one, end with none. */
module Clients {
  import opened Common
  import opened TaskQueue
  import opened Runtime
  import opened RuntimeSafety
  import T = TimedIo
  import S = FiberSemaphore

  /** A calling fiber's wake-ups: the registration and what is queued but not taken. */
  function Outstanding(t: T.State): int {
    |t.ledger.regs| + |t.ledger.queued| - t.resumed
  }

  /** The runtime holds as many wake-ups of the fiber as its calls have outstanding. */
  ghost predicate Agree(t: T.State, r: State) {
    T.Inv(t) && Wakes(r)[t.fiber] == Outstanding(t)
  }

  /** Worker `w` runs the fiber. */
  ghost predicate Runs(t: T.State, r: State, w: nat) {
    && t.place != T.Parked
    && RunBy(r, w) == Some(t.fiber) && r.fibers[t.fiber].carry == None
  }

  lemma {:induction false} OutstandingIs(t: T.State)
    requires T.WakesOk(t)
    ensures Outstanding(t) == if T.Waiting(t) then 1 else 0
  {
  }

  /** A successful `addEvent` is a registration that the runtime allows. */
  lemma {:induction false} AddIsArm(t: T.State, r: State, w: nat)
    requires Agree(t, r) && Runs(t, r, w) && t.place == T.Adding && t.call.key !in t.others
    ensures var step := Step.Task(w, Arm(Events, TaskQueue.Resume(t.fiber)));
      && Enabled(r, step)
      && Agree(T.Do(t, T.Add(None)), Apply(r, step)) && Runs(T.Do(t, T.Add(None)), Apply(r, step), w)
  {
    OutstandingIs(t);
    var task := TaskQueue.Resume(t.fiber);
    T.StepKeeps(t, T.Add(None));
    OutstandingIs(T.Do(t, T.Add(None)));
    PoolAppendWakes(r, Events, task);
  }

  /** Switching out is a yield that the runtime allows, also if the wake-up is queued by then. */
  lemma {:induction false} SwitchOutIsYield(t: T.State, r: State, w: nat)
    requires Agree(t, r) && Runs(t, r, w) && t.place == T.Parking
    ensures Enabled(r, Step.Task(w, Yield)) && Agree(T.Do(t, T.SwitchOut), Apply(r, Step.Task(w, Yield)))
  {
    OutstandingIs(t);
    T.StepKeeps(t, T.SwitchOut);
    OutstandingIs(T.Do(t, T.SwitchOut));
    LeaveWakes(r, w, t.fiber, r.fibers[t.fiber].state);
  }

  /** Whoever takes the queued wake-up may switch to the fiber, and then it has none. */
  lemma {:induction false} ResumeIsSwapIn(t: T.State, r: State, w: nat)
    requires Agree(t, r) && T.Enabled(t, T.Resume) && Shape(r, Wakes(r)) && ResumedBy(r, w) == Some(t.fiber)
    ensures CanLoop(r, w, SwapIn) && LoopAsserts(r, w, SwapIn)
    ensures Agree(T.Do(t, T.Resume), DoLoop(r, w, SwapIn)) && Runs(T.Do(t, T.Resume), DoLoop(r, w, SwapIn), w)
  {
    OutstandingIs(t);
    T.StepKeeps(t, T.Resume);
    OutstandingIs(T.Do(t, T.Resume));
    TakenMayRun(r, w, t.fiber);
  }

  lemma {:induction false} TakenMayRun(r: State, w: nat, f: nat)
    requires Shape(r, Wakes(r)) && ResumedBy(r, w) == Some(f) && Wakes(r)[f] == 1
    ensures CanLoop(r, w, SwapIn) && LoopAsserts(r, w, SwapIn)
    ensures var r' := DoLoop(r, w, SwapIn);
      RunBy(r', w) == Some(f) && r'.fibers[f].carry == None && Wakes(r')[f] == 0
  {
    TakenFiber(r, Wakes(r), w, f);
    SwapInWakes(r, w, f);
  }

  lemma {:induction false} TakenFiber(r: State, m: multiset<nat>, w: nat, f: nat)
    requires Shape(r, m) && ResumedBy(r, w) == Some(f) && m[f] == 1
    ensures r.fibers[f].state in {INIT, HOLD} && r.fibers[f].carry == None
  {
    assert WorkerOk(r, w) && FiberOk(r, f, m[f]);
  }

  /** Firing the registration moves the wake-up to the task list. */
  lemma {:induction false} FiredIsFire(t: T.State, r: State, who: Actor, i: nat)
    requires Agree(t, r) && T.Registered(t) && MayAct(r, who)
    requires i < |r.events| && r.events[i] == TaskQueue.Resume(t.fiber)
    ensures Enabled(r, Shared(who, Fire(Events, i)))
    ensures Agree(T.Do(t, T.Fire(t.call.key)), Apply(r, Shared(who, Fire(Events, i))))
  {
    T.StepKeeps(t, T.Fire(t.call.key));
    OutstandingIs(t);
    OutstandingIs(T.Do(t, T.Fire(t.call.key)));
    FireWakes(r, Events, i);
  }

  /** Every other step, the fiber's own or its environment's, leaves the wake-ups alone. */
  lemma {:induction false} OtherStepsAgree(t: T.State, r: State, step: T.Step)
    requires Agree(t, r) && T.Enabled(t, step)
    requires step.Add? ==> step.error.Some? || t.call.key in t.others
    requires !step.Resume?
    ensures Agree(T.Do(t, step), r)
  {
    T.StepKeeps(t, step);
    WaitingKept(t, step);
    OutstandingIs(t);
    OutstandingIs(T.Do(t, step));
  }

  lemma {:induction false} WaitingKept(t: T.State, step: T.Step)
    requires T.Enabled(t, step) && !step.Resume? && (step.Add? ==> step.error.Some? || t.call.key in t.others)
    ensures T.Waiting(T.Do(t, step)) == T.Waiting(t) && T.Do(t, step).fiber == t.fiber
  {
  }

  /** The rule, over every run of calls: wherever the run has led, a runtime that runs the fiber and agrees with it
      allows the next registration, the next switch, and the end of the fiber between calls. */
  lemma {:induction false} CallsKeepTheRule(fiber: nat, now: nat, steps: seq<T.Step>, t: T.State, r: State, w: nat)
    requires T.Possible(T.Start(fiber, now), steps) && t == T.Run(T.Start(fiber, now), steps)
    requires Wakes(r)[fiber] == Outstanding(t) && Runs(t, r, w)
    ensures t.place == T.Adding ==> Enabled(r, Step.Task(w, Arm(Events, TaskQueue.Resume(fiber))))
    ensures t.place == T.Parking ==> Enabled(r, Step.Task(w, Yield))
    ensures t.place == T.Outside ==> forall normally :: Enabled(r, Step.Task(w, Finish(normally)))
  {
    CallsAreSound(fiber, now, steps, t);
    RuleAt(t, r, w);
  }

  lemma {:induction false} CallsAreSound(fiber: nat, now: nat, steps: seq<T.Step>, t: T.State)
    requires T.Possible(T.Start(fiber, now), steps) && t == T.Run(T.Start(fiber, now), steps)
    ensures T.Inv(t) && t.fiber == fiber
  {
    T.RunKeeps(T.Start(fiber, now), steps);
    T.FiberKept(T.Start(fiber, now), steps);
  }

  lemma {:induction false} RuleAt(t: T.State, r: State, w: nat)
    requires Agree(t, r) && Runs(t, r, w)
    ensures t.place == T.Adding ==> Enabled(r, Step.Task(w, Arm(Events, TaskQueue.Resume(t.fiber))))
    ensures t.place == T.Parking ==> Enabled(r, Step.Task(w, Yield))
    ensures t.place == T.Outside ==> forall normally :: Enabled(r, Step.Task(w, Finish(normally)))
  {
    OutstandingIs(t);
  }

  // ----- The semaphore -----------------------------------------------------------------------

  /** The waiter list as the runtime's parked wake-ups. */
  predicate Parks(s: S.State, r: State) {
    && |r.parked| == |s.waiters|
    && forall i :: 0 <= i < |s.waiters| ==> r.parked[i] == TaskQueue.Resume(s.waiters[i].fiber)
  }

  lemma {:induction false} ParkOne(s: S.State, r: State, w: nat, who: S.Waiter)
    requires Parks(s, r) && !S.Passes(s) && RunBy(r, w) == Some(who.fiber)
    ensures Parks(S.Apply(s, S.Wait(who)), DoTask(r, w, Arm(Parked, TaskQueue.Resume(who.fiber))))
  {
  }

  lemma {:induction false} ParkedWakes(r: State, w: nat, f: nat)
    requires RunBy(r, w) == Some(f)
    ensures Wakes(DoTask(r, w, Arm(Parked, TaskQueue.Resume(f)))) == Wakes(r) + multiset{f}
  {
    PoolAppendWakes(r, Parked, TaskQueue.Resume(f));
  }

  /** A `wait` that blocks registers and switches out as the runtime allows. */
  lemma {:induction false} WaitIsArm(s: S.State, r: State, w: nat, who: S.Waiter)
    requires Parks(s, r) && !S.Passes(s) && Wakes(r)[who.fiber] == 0
    requires RunBy(r, w) == Some(who.fiber) && r.fibers[who.fiber].carry == None
    ensures var step := Step.Task(w, Arm(Parked, TaskQueue.Resume(who.fiber)));
      && Enabled(r, step)
      && Parks(S.Apply(s, S.Wait(who)), Apply(r, step))
      && Enabled(Apply(r, step), Step.Task(w, Yield))
  {
    ParkOne(s, r, w, who);
    ParkedWakes(r, w, who.fiber);
    MayYield(DoTask(r, w, Arm(Parked, TaskQueue.Resume(who.fiber))), w, who.fiber);
  }

  lemma {:induction false} MayYield(r: State, w: nat, f: nat)
    requires RunBy(r, w) == Some(f) && r.fibers[f].carry == None && Wakes(r)[f] == 1
    ensures Enabled(r, Step.Task(w, Yield))
  {
  }

  lemma {:induction false} UnparkFirst(s: S.State, r: State)
    requires Parks(s, r) && s.waiters != []
    ensures var r' := DoFire(r, Parked, 0);
      && Parks(S.Apply(s, S.Notify), r')
      && r'.queue == r.queue + [Entry(TaskQueue.Resume(s.waiters[0].fiber), ANY_THREAD)]
  {
    assert Without(r.parked, 0) == r.parked[1..];
  }

  /** A `notify` with waiters fires the first of the parked wake-ups. */
  lemma {:induction false} NotifyIsFire(s: S.State, r: State, who: Actor)
    requires Parks(s, r) && s.waiters != [] && MayAct(r, who)
    ensures var step := Shared(who, Fire(Parked, 0));
      && Enabled(r, step)
      && Parks(S.Apply(s, S.Notify), Apply(r, step))
      && Apply(r, step).queue == r.queue + [Entry(TaskQueue.Resume(s.waiters[0].fiber), ANY_THREAD)]
      && Wakes(Apply(r, step)) == Wakes(r)
  {
    UnparkFirst(s, r);
    FireWakes(r, Parked, 0);
  }
}
