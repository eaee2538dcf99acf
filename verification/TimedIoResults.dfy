/** What a blocking call answers. */
module TimedIoResults {
  import opened Common
  import opened TimedIo

  /** The fiber's own steps that can settle the answer of a call. */
  predicate Deciding(step: Step) {
    step.Begin? || step.SystemCall? || step.Add? || step.Check? || step.Ask?
  }

  /** The last such step of a run. */
  function LastWord(steps: seq<Step>): Option<Step> {
    if steps == [] then None
    else if Deciding(steps[|steps| - 1]) then Some(steps[|steps| - 1])
    else LastWord(steps[..|steps| - 1])
  }

  /** The call goes to the kernel as it is: no hook, a descriptor the hook does not manage, or one that is no socket or
      that the user made non-blocking. */
  predicate PassedOn(kind: Kind, d: Descriptor) {
    !d.hooked || (if d.known then !d.closed && (!d.socket || d.userNonblock) else kind == Io)
  }

  /** The descriptor is closed, or unknown to a `connect`. */
  predicate BadDescriptor(kind: Kind, d: Descriptor) {
    d.hooked && (if d.known then d.closed else kind == Connect)
  }

  /** The kernel's answer means that the call has to wait, or was interrupted. */
  predicate Blocks(kind: Kind, o: Outcome) {
    o == Failed(if kind == Io then 11 else 115)
  }

  predicate Interrupted(kind: Kind, o: Outcome) {
    kind == Io && o == Failed(4)
  }

  /** The answer of a call whose last word was `word`. */
  predicate AnswerIs(s: State, word: Step) {
    match word
    case Begin(kind, _, _, d, direct) =>
      || (PassedOn(kind, d) && s.result == Some(Gave(direct)))
      || (BadDescriptor(kind, d) && s.result == Some(Gave(Failed(9))))
    case SystemCall(o) => s.result == Some(Gave(o)) && !Blocks(s.call.kind, o) && !Interrupted(s.call.kind, o)
    case Add(error) => error.Some? && s.call.kind == Io && s.result == Some(Gave(Failed(error.value)))
    case Check => s.cancelled && s.result == Some(TimedOut)
    case Ask(o) => s.call.kind == Connect && s.result == Some(Gave(o))
    case _ => false
  }

  /** Where a call stands and what its last word was fit together. */
  predicate Spoken(s: State, word: Option<Step>) {
    match s.place
    case Outside => word.Some? ==> AnswerIs(s, word.value)
    case Calling => word.Some?
    case Arming => word.Some? && word.value.SystemCall? && Blocks(s.call.kind, word.value.outcome)
    case Adding => word.Some? && word.value.SystemCall?
    case Refused(e) => word == Some(Add(Some(e)))
    case Parking => word == Some(Add(None))
    case Parked => word == Some(Add(None))
    case Woken => word == Some(Add(None))
    case Checking => word == Some(Add(None))
    case Asking => s.call.kind == Connect
    case Aborted => true
  }

  function WordAfter(word: Option<Step>, step: Step): Option<Step> {
    if Deciding(step) then Some(step) else word
  }

  lemma OwnSpoken(s: State, word: Option<Step>, step: Step)
    requires Spoken(s, word) && Enabled(s, step) && !step.RunCallback?
    ensures Spoken(Do(s, step), WordAfter(word, step))
  {
  }

  /** A callback can set the flag, but not of a call that is over. */
  lemma CallbackSpoken(s: State, word: Option<Step>, i: nat, fault: bool)
    requires Spoken(s, word) && i < |s.callbacks|
    ensures Spoken(DoRunCallback(s, i, fault), word)
  {
  }

  lemma {:induction false} RunSpoken(fiber: nat, now: nat, steps: seq<Step>)
    requires Possible(Start(fiber, now), steps)
    ensures Spoken(Run(Start(fiber, now), steps), LastWord(steps))
    decreases |steps|
  {
    if steps != [] {
      var n := |steps| - 1;
      var before, step := steps[..n], steps[n];
      assert steps == before + [step];
      PossiblePrefix(Start(fiber, now), before, step);
      RunSpoken(fiber, now, before);
      Extend(Start(fiber, now), before, step);
      var s := Run(Start(fiber, now), before);
      if step.RunCallback? {
        CallbackSpoken(s, LastWord(before), step.index, step.fault);
      } else {
        OwnSpoken(s, LastWord(before), step);
      }
    }
  }

  lemma {:induction false} PossiblePrefix(s: State, steps: seq<Step>, step: Step)
    requires Possible(s, steps + [step])
    ensures Possible(s, steps) && Enabled(Run(s, steps), step)
    decreases |steps|
  {
    var all := steps + [step];
    if steps != [] {
      assert all[0] == steps[0] && all[1..] == steps[1..] + [step];
      PossiblePrefix(Do(s, steps[0]), steps[1..], step);
    }
  }

  /** The answer of every call, in every run: ETIMEDOUT from the flag if and only if the last word was the look at
      the flag after a wake-up, which then was set; otherwise the outcome of the last system call, which neither
      blocked nor was interrupted, the socket error asked for after a connect, the error of a refused `addEvent`,
      or what the early exits give. */
  lemma ResultExact(fiber: nat, now: nat, steps: seq<Step>, word: Step)
    requires Possible(Start(fiber, now), steps) && LastWord(steps) == Some(word)
    requires Run(Start(fiber, now), steps).place == Outside
    ensures var s := Run(Start(fiber, now), steps);
      AnswerIs(s, word) && (s.result == Some(TimedOut) <==> word.Check?)
  {
    RunSpoken(fiber, now, steps);
  }

  // ----- After a wake-up with the flag set -------------------------------------------------------

  predicate Ending(s: State) {
    || ((s.place == Woken || s.place == Checking) && s.cancelled)
    || (s.place == Outside && s.result == Some(TimedOut))
  }

  lemma EndingStep(s: State, step: Step)
    requires Ending(s) && Enabled(s, step) && !step.Begin?
    ensures Ending(Do(s, step)) && !step.SystemCall?
  {
  }

  /** A call that is woken with its flag set makes no further system call and ends, if it ends, with ETIMEDOUT. */
  lemma {:induction false} FlagEndsCall(s: State, steps: seq<Step>)
    requires s.place == Woken && s.cancelled && Possible(s, steps)
    requires forall i :: 0 <= i < |steps| ==> !steps[i].Begin?
    ensures forall i :: 0 <= i < |steps| ==> !steps[i].SystemCall?
    ensures Run(s, steps).place == Outside ==> Run(s, steps).result == Some(TimedOut)
    ensures Run(s, steps).place in {Woken, Checking, Outside}
  {
    EndingRun(s, steps);
  }

  lemma {:induction false} EndingRun(s: State, steps: seq<Step>)
    requires Ending(s) && Possible(s, steps) && forall i :: 0 <= i < |steps| ==> !steps[i].Begin?
    ensures Ending(Run(s, steps)) && forall i :: 0 <= i < |steps| ==> !steps[i].SystemCall?
    decreases |steps|
  {
    if steps != [] {
      EndingStep(s, steps[0]);
      EndingRun(Do(s, steps[0]), steps[1..]);
      assert forall i :: 1 <= i < |steps| ==> steps[i] == steps[1..][i - 1];
    }
  }

  /** And it does end there: the two steps left to the fiber are cancelling its timer and looking at the flag. Without
      the flag `do_io` makes the system call again and `connect` asks for the socket's error. */
  lemma AfterWake(s: State)
    requires s.place == Woken
    ensures Enabled(s, CancelTimer) && Enabled(Do(s, CancelTimer), Check)
    ensures var u := Do(Do(s, CancelTimer), Check);
      if s.cancelled then u.place == Outside && u.result == Some(TimedOut)
      else u.place == (if s.call.kind == Io then Calling else Asking)
  {
  }

  /** When a call starts to wait, its timer is due exactly `to` later. */
  lemma WaitStarts(s: State, o: Outcome)
    requires s.place == Calling && Blocks(s.call.kind, o)
    ensures Enabled(s, SystemCall(o)) && Enabled(Do(s, SystemCall(o)), Arm)
    ensures var u := Do(Do(s, SystemCall(o)), Arm);
      && u.place == Adding
      && (s.call.to == None ==> u.armed == s.armed && u.timer == None)
      && (s.call.to.Some? ==>
            exists id :: u.timer == Some(id) && u.armed == s.armed[id := Armed(s.call, s.now + s.call.to.value)])
  {
  }

  /** An interrupted call is made again at once, and nothing else makes a call wait. */
  lemma SystemCallExact(s: State, o: Outcome)
    requires s.place == Calling
    ensures var t := Do(s, SystemCall(o));
      && (t.place == Arming <==> Blocks(s.call.kind, o))
      && (t.place == Calling <==> Interrupted(s.call.kind, o))
      && (t.place == Outside <==> !Blocks(s.call.kind, o) && !Interrupted(s.call.kind, o))
  {
  }
}
