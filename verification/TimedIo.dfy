/** A fiber's blocking calls (`do_io` and `connect_with_timeout`) as clients of timers and event
    registrations. The fiber makes any number of calls, one after the other. Around it, in any
    order: the clock advances, due timers are handed out, their callbacks run in three parts (test
    the flag, set the flag, cancel the event), and readiness or `close` fires registrations. */
module TimedIo {
  import opened Common
  import opened IoLedger

  datatype Kind = Io | Connect

  /** `to` is None for the source's timeout value of all ones. */
  datatype Call = Call(id: nat, kind: Kind, key: Key, to: Option<nat>)

  /** What a system call gives: a value, or -1 with an error number. */
  datatype Outcome = Value(n: int) | Failed(errno: int)

  /** The caller's result: an outcome, or the ETIMEDOUT that a timeout callback left in the
      `cancelled` field. */
  datatype Result = Gave(outcome: Outcome) | TimedOut

  const EINTR := 4
  const EBADF := 9
  const EAGAIN := 11
  const EINPROGRESS := 115

  /** Where the fiber is: outside any call; about to make the system call; about to arm the timer; about
      to add the event; added but still running; switched out; taken from the queue; `addEvent`
      failed; timer cancelled after a wake-up; about to ask for the socket's error;
      or the process has died of a failed assertion. */
  datatype Place =
    | Outside | Calling | Arming | Adding | Parking | Parked | Woken
    | Refused(errno: int) | Checking | Asking | Aborted

  datatype Armed = Armed(call: Call, due: nat)

  datatype Phase = Fresh | Passed | Marked

  /** A handed-out timeout callback of `call`, whose timer was due at `due`. */
  datatype Callback = Callback(call: Call, due: nat, phase: Phase)

  /** `timer` is the local handle and `armed` the manager's set; `ledger` holds the fiber's own
      registrations, `others` the directions registered by other fibers; `resumed` counts the queued
      wake-ups taken so far; `since` is when the current call first set out to wait. */
  datatype State = State(
    fiber: nat,
    now: nat,
    place: Place,
    call: Call,
    cancelled: bool,
    timer: Option<nat>,
    armed: map<nat, Armed>,
    timers: nat,
    callbacks: seq<Callback>,
    ledger: Ledger,
    others: set<Key>,
    resumed: nat,
    since: Option<nat>,
    result: Option<Result>)

  /** What `do_io` finds about the descriptor before it starts. */
  datatype Descriptor = Descriptor(hooked: bool, known: bool, closed: bool, socket: bool, userNonblock: bool)

  datatype Step =
    | Begin(kind: Kind, key: Key, to: Option<nat>, descriptor: Descriptor, direct: Outcome)
    | SystemCall(outcome: Outcome)
    | Arm
    | Add(error: Option<int>)
    | SwitchOut
    | Resume
    | CancelTimer
    | Check
    | Ask(answer: Outcome)
    | Tick(ms: nat)
    | Expire(id: nat)
    | RunCallback(index: nat, fault: bool)
    | Fire(target: Key)
    | OtherAdd(direction: Key)

  const NO_CALL := Call(0, Io, Key(0, READ), None)

  function Start(fiber: nat, now: nat): State {
    State(fiber, now, Outside, NO_CALL, false, None, map[], 0, [], EMPTY_LEDGER, {}, 0, None, None)
  }

  predicate Enabled(s: State, step: Step) {
    match step
    case Begin(_, _, _, _, _) => s.place == Outside
    case SystemCall(_) => s.place == Calling
    case Arm => s.place == Arming
    case Add(_) => s.place == Adding
    case SwitchOut => s.place == Parking
    case Resume => s.place == Parked && s.resumed < |s.ledger.queued|
    case CancelTimer => s.place == Woken || s.place.Refused?
    case Check => s.place == Checking
    case Ask(_) => s.place == Asking
    case Tick(_) => true
    case Expire(id) => id in s.armed && s.armed[id].due <= s.now
    case RunCallback(i, _) => i < |s.callbacks|
    case Fire(_) => true
    case OtherAdd(key) => key !in s.others && key !in s.ledger.regs
  }

  function Return(s: State, r: Result): State {
    s.(place := Outside, result := Some(r))
  }

  /** The early exits, or a new call with a new `timer_info`. A missing descriptor is handed to the
      system by `do_io` but is an error for `connect`. */
  function DoBegin(s: State, kind: Kind, key: Key, to: Option<nat>, d: Descriptor, direct: Outcome): State {
    var s0 := s.(since := None, call := Call(s.call.id + 1, kind, key, to), cancelled := false, timer := None);
    if !d.hooked || (kind == Io && !d.known) then Return(s0, Gave(direct))
    else if !d.known || d.closed then Return(s0, Gave(Failed(EBADF)))
    else if !d.socket || d.userNonblock then Return(s0, Gave(direct))
    else s0.(place := Calling, result := None)
  }

  function DoSystemCall(s: State, r: Outcome): State {
    if s.call.kind == Io && r == Failed(EINTR) then s
    else if r == Failed(if s.call.kind == Io then EAGAIN else EINPROGRESS) then s.(place := Arming)
    else Return(s, Gave(r))
  }

  function DoArm(s: State): State {
    var s1 := s.(place := Adding, since := if s.since == None then Some(s.now) else s.since);
    if s.call.to == None then s1.(timer := None)
    else s1.(timer := Some(s.timers), timers := s.timers + 1,
             armed := s.armed[s.timers := Armed(s.call, s.now + s.call.to.value)])
  }

  /** Whether some callback has passed its test and has yet to cancel an event. */
  predicate Committed(s: State) {
    HasCommitted(s.callbacks, s.call.key)
  }

  predicate HasCommitted(cs: seq<Callback>, key: Key) {
    exists i :: 0 <= i < |cs| && cs[i].phase != Fresh && cs[i].call.key == key
  }

  predicate HasCall(cs: seq<Callback>, id: nat) {
    exists i :: 0 <= i < |cs| && cs[i].call.id == id
  }

  /** `addEvent` asserts that the direction is free before it asks the kernel. */
  function DoAdd(s: State, error: Option<int>): State {
    if s.call.key in s.others then s.(place := Aborted)
    else if error == None then
      s.(place := Parking, ledger := Register(s.ledger, s.call.key, 0, FiberHandler(s.fiber)))
    else s.(place := Refused(error.value))
  }

  /** Readiness, `cancelEvent` or `close` takes a registration away, whoever holds it. */
  function Fired(s: State, key: Key): State {
    s.(ledger := Trigger(s.ledger, key), others := s.others - {key})
  }

  function DoCancelTimer(s: State): State {
    var s1 := if s.timer == None then s else s.(armed := s.armed - {s.timer.value});
    if s.place == Woken then s1.(place := Checking)
    else if s.call.kind == Io && s.place.Refused? then Return(s1, Gave(Failed(s.place.errno)))
    else s1.(place := Asking)
  }

  function DoCheck(s: State): State {
    if s.cancelled then Return(s, TimedOut)
    else if s.call.kind == Io then s.(place := Calling)
    else s.(place := Asking)
  }

  /** A callback's `timer_info` is alive just while its own call is the current one and not over. */
  predicate Alive(s: State, c: Callback) {
    c.call.id == s.call.id && s.place != Outside
  }

  /** The three parts of a callback. The kernel call in `cancelEvent` may fail; then nothing is cancelled. */
  function DoRunCallback(s: State, i: nat, fault: bool): State
    requires i < |s.callbacks|
  {
    var c := s.callbacks[i];
    match c.phase
    case Fresh =>
      if Alive(s, c) && !s.cancelled then s.(callbacks := s.callbacks[i := c.(phase := Passed)])
      else s.(callbacks := Without(s.callbacks, i))
    case Passed =>
      s.(callbacks := s.callbacks[i := c.(phase := Marked)], cancelled := s.cancelled || Alive(s, c))
    case Marked =>
      var s1 := s.(callbacks := Without(s.callbacks, i));
      if fault then s1 else Fired(s1, c.call.key)
  }

  function Do(s: State, step: Step): State
    requires Enabled(s, step)
  {
    match step
    case Begin(kind, key, to, d, direct) => DoBegin(s, kind, key, to, d, direct)
    case SystemCall(r) => DoSystemCall(s, r)
    case Arm => DoArm(s)
    case Add(error) => DoAdd(s, error)
    case SwitchOut => s.(place := Parked)
    case Resume => s.(place := Woken, resumed := s.resumed + 1)
    case CancelTimer => DoCancelTimer(s)
    case Check => DoCheck(s)
    case Ask(r) => Return(s, Gave(r))
    case Tick(ms) => s.(now := s.now + ms)
    case Expire(id) => s.(armed := s.armed - {id},
                          callbacks := s.callbacks + [Callback(s.armed[id].call, s.armed[id].due, Fresh)])
    case RunCallback(i, fault) => DoRunCallback(s, i, fault)
    case Fire(key) => Fired(s, key)
    case OtherAdd(key) => s.(others := s.others + {key})
  }

  ghost predicate Possible(s: State, steps: seq<Step>)
    decreases |steps|
  {
    steps == [] || (Enabled(s, steps[0]) && Possible(Do(s, steps[0]), steps[1..]))
  }

  ghost function Run(s: State, steps: seq<Step>): State
    requires Possible(s, steps)
    decreases |steps|
  {
    if steps == [] then s else Run(Do(s, steps[0]), steps[1..])
  }

  // ----- What every step keeps ------------------------------------------------------------

  predicate Waiting(s: State) {
    s.place == Parking || s.place == Parked
  }

  predicate Registered(s: State) {
    s.call.key in s.ledger.regs
  }

  predicate HoldsTimer(s: State) {
    s.place == Adding || Waiting(s) || s.place == Woken || s.place.Refused? || s.place == Aborted
  }

  /** Every registration so far was the fiber's own; all but the one still registered were queued,
      each once and in order; all but the one being waited for were taken. */
  ghost predicate WakesOk(s: State) {
    var l := s.ledger;
    && l.deleted == []
    && (forall i :: 0 <= i < |l.queued| ==> l.queued[i] == Registration(i, 0, FiberHandler(s.fiber)))
    && l.issued == s.resumed + (if Waiting(s) then 1 else 0)
    && (if Registered(s) then
          && l.regs == map[s.call.key := Registration(|l.queued|, 0, FiberHandler(s.fiber))]
          && l.issued == |l.queued| + 1
        else l.regs == map[] && l.issued == |l.queued|)
    && s.resumed <= |l.queued|
    && (forall k :: k in l.regs ==> k !in s.others)
  }

  /** `due` is not before the earliest moment at which the current call may time out. */
  predicate NotBefore(s: State, due: nat) {
    s.since.Some? && s.call.to.Some? && s.since.value + s.call.to.value <= due
  }

  predicate CallbackOk(s: State, c: Callback) {
    && c.call.id <= s.call.id
    && (c.call.id == s.call.id ==>
          && c.call == s.call && NotBefore(s, c.due) && c.due <= s.now
          && (c.phase == Marked && s.place != Outside ==> s.cancelled))
  }

  ghost predicate ArmedOk(s: State) {
    forall id :: id in s.armed ==>
      HoldsTimer(s) && s.timer == Some(id) && s.armed[id].call == s.call && NotBefore(s, s.armed[id].due)
  }

  predicate CallbacksOk(s: State) {
    forall i :: 0 <= i < |s.callbacks| ==> CallbackOk(s, s.callbacks[i])
  }

  ghost predicate TimersOk(s: State) {
    && ArmedOk(s)
    && CallbacksOk(s)
    && (s.cancelled ==> NotBefore(s, s.now))
    && (s.result == Some(TimedOut) && s.place == Outside ==> NotBefore(s, s.now))
    && (s.since.Some? ==> s.since.value <= s.now)
  }

  /** A callback of the current call that has not set the flag yet, or the timer itself. */
  predicate Watched(s: State) {
    || HasCall(s.callbacks, s.call.id)
    || (s.timer.Some? && s.timer.value in s.armed)
  }

  /** While there is a timeout and the flag is clear, something is there to end the wait. */
  predicate GuardOk(s: State) {
    (s.place == Adding || Waiting(s)) && s.call.to.Some? && !s.cancelled ==> Watched(s)
  }

  ghost predicate Inv(s: State) {
    WakesOk(s) && TimersOk(s) && GuardOk(s)
  }

  // The wake-ups.

  lemma FiredWakes(s: State, key: Key)
    requires WakesOk(s)
    ensures WakesOk(Fired(s, key))
  {
    if key in s.ledger.regs {
      assert s.ledger.regs - {key} == map[];
    }
  }

  lemma AddWakes(s: State)
    requires WakesOk(s) && s.place == Adding && s.call.key !in s.others
    ensures WakesOk(DoAdd(s, None))
  {
    assert s.ledger.regs == map[];
  }

  lemma FrameWakes(s: State, s': State)
    requires WakesOk(s) && s'.ledger == s.ledger && s'.resumed == s.resumed
    requires s'.fiber == s.fiber && s'.others == s.others
    requires Waiting(s') == Waiting(s) && (s'.call == s.call || !Waiting(s))
    ensures WakesOk(s')
  {
    assert !Waiting(s) ==> s.ledger.regs == map[];
  }

  lemma CallbackWakes(s: State, i: nat, fault: bool)
    requires WakesOk(s) && i < |s.callbacks|
    ensures WakesOk(DoRunCallback(s, i, fault))
  {
    var c := s.callbacks[i];
    FiredWakes(s, c.call.key);
    FrameWakes(if c.phase == Marked && !fault then Fired(s, c.call.key) else s, DoRunCallback(s, i, fault));
  }

  lemma OtherWakes(s: State, key: Key)
    requires WakesOk(s) && Enabled(s, OtherAdd(key))
    ensures WakesOk(Do(s, OtherAdd(key)))
  {
  }

  lemma OwnWakes(s: State, step: Step)
    requires WakesOk(s) && Enabled(s, step)
    requires !step.Fire? && !step.RunCallback? && !step.Resume? && !step.Add? && !step.OtherAdd?
    ensures WakesOk(Do(s, step))
  {
    FrameWakes(s, Do(s, step));
  }

  lemma ResumeWakes(s: State)
    requires WakesOk(s) && Enabled(s, Resume)
    ensures WakesOk(Do(s, Resume))
  {
  }

  lemma {:induction false} StepWakes(s: State, step: Step)
    requires WakesOk(s) && Enabled(s, step)
    ensures WakesOk(Do(s, step))
  {
    match step
    case Fire(key) => FiredWakes(s, key);
    case OtherAdd(key) => OtherWakes(s, key);
    case RunCallback(i, fault) => CallbackWakes(s, i, fault);
    case Add(error) =>
      if error == None && s.call.key !in s.others { AddWakes(s); } else { FrameWakes(s, Do(s, step)); }
    case Resume => ResumeWakes(s);
    case _ => OwnWakes(s, step);
  }

  // The timers and their callbacks.

  lemma CallbackTimers(s: State, i: nat, fault: bool)
    requires TimersOk(s) && i < |s.callbacks|
    ensures TimersOk(DoRunCallback(s, i, fault))
  {
    var s' := DoRunCallback(s, i, fault);
    assert CallbackOk(s, s.callbacks[i]);
    if |s'.callbacks| == |s.callbacks| {
      AdvanceCallback(s, i, fault);
    } else {
      DropCallback(s, s', i);
    }
    CallbackFrame(s, i, fault);
  }

  /** A callback leaves the timers alone, and sets the flag only when its own deadline has passed. */
  lemma CallbackFrame(s: State, i: nat, fault: bool)
    requires TimersOk(s) && i < |s.callbacks|
    ensures var s' := DoRunCallback(s, i, fault);
      ArmedOk(s') && (s'.cancelled ==> NotBefore(s', s'.now)) && s'.result == s.result && s'.place == s.place
  {
    assert CallbackOk(s, s.callbacks[i]);
  }

  lemma DropCallback(s: State, s': State, i: nat)
    requires CallbacksOk(s) && i < |s.callbacks|
    requires s' == s.(callbacks := Without(s.callbacks, i), ledger := s'.ledger, others := s'.others)
    ensures CallbacksOk(s')
  {
    forall j | 0 <= j < |s'.callbacks| ensures CallbackOk(s', s'.callbacks[j]) {
      assert CallbackOk(s, s.callbacks[if j < i then j else j + 1]);
    }
  }

  lemma AdvanceCallback(s: State, i: nat, fault: bool)
    requires CallbacksOk(s) && i < |s.callbacks| && |DoRunCallback(s, i, fault).callbacks| == |s.callbacks|
    ensures CallbacksOk(DoRunCallback(s, i, fault))
  {
    var s' := DoRunCallback(s, i, fault);
    forall j | 0 <= j < |s'.callbacks| ensures CallbackOk(s', s'.callbacks[j]) {
      assert CallbackOk(s, s.callbacks[j]);
    }
  }

  lemma ExpireTimers(s: State, id: nat)
    requires TimersOk(s) && Enabled(s, Expire(id))
    ensures TimersOk(Do(s, Expire(id)))
  {
    var s' := Do(s, Expire(id));
    forall j | 0 <= j < |s'.callbacks| ensures CallbackOk(s', s'.callbacks[j]) {
      assert j < |s.callbacks| ==> CallbackOk(s, s.callbacks[j]);
    }
  }

  lemma BeginTimers(s: State, step: Step)
    requires TimersOk(s) && Enabled(s, step) && step.Begin?
    ensures TimersOk(Do(s, step))
  {
    var s' := Do(s, step);
    forall j | 0 <= j < |s'.callbacks| ensures CallbackOk(s', s'.callbacks[j]) {
      assert CallbackOk(s, s.callbacks[j]);
    }
  }

  lemma FrameCallbacks(s: State, s': State)
    requires CallbacksOk(s) && s'.callbacks == s.callbacks && s'.call == s.call && s'.cancelled == s.cancelled
    requires s'.now >= s.now && (s.since.Some? ==> s'.since == s.since)
    requires s.place != Outside || s'.place == Outside
    ensures CallbacksOk(s')
  {
    forall j | 0 <= j < |s'.callbacks| ensures CallbackOk(s', s'.callbacks[j]) {
      assert CallbackOk(s, s.callbacks[j]);
    }
  }

  lemma ArmTimers(s: State)
    requires TimersOk(s) && Enabled(s, Arm)
    ensures TimersOk(Do(s, Arm))
  {
    FrameCallbacks(s, Do(s, Arm));
  }

  lemma CancelTimers(s: State)
    requires TimersOk(s) && Enabled(s, CancelTimer)
    ensures TimersOk(Do(s, CancelTimer))
  {
    FrameCallbacks(s, Do(s, CancelTimer));
  }

  /** The fiber's own steps within a call, and the clock, leave the callbacks alone. */
  lemma OwnTimers(s: State, step: Step)
    requires TimersOk(s) && Enabled(s, step)
    requires !step.Begin? && !step.Arm? && !step.CancelTimer? && !step.Expire? && !step.RunCallback?
    ensures TimersOk(Do(s, step))
  {
    FrameCallbacks(s, Do(s, step));
  }

  lemma StepTimers(s: State, step: Step)
    requires TimersOk(s) && Enabled(s, step)
    ensures TimersOk(Do(s, step))
  {
    match step
    case Begin(_, _, _, _, _) => BeginTimers(s, step);
    case Expire(id) => ExpireTimers(s, id);
    case RunCallback(i, fault) => CallbackTimers(s, i, fault);
    case Arm => ArmTimers(s);
    case CancelTimer => CancelTimers(s);
    case _ => OwnTimers(s, step);
  }

  // The guard of a wait.

  lemma UpdateCallback(cs: seq<Callback>, i: nat, c: Callback, call: Call)
    requires i < |cs|
    ensures HasCommitted(cs[i := c], call.key) <==>
              HasCommitted(Without(cs, i), call.key) || (c.phase != Fresh && c.call.key == call.key)
    ensures HasCall(cs[i := c], call.id) <==> HasCall(Without(cs, i), call.id) || c.call.id == call.id
  {
    var ws, us := Without(cs, i), cs[i := c];
    assert forall j :: 0 <= j < |ws| ==> ws[j] == us[if j < i then j else j + 1];
    assert forall j :: 0 <= j < |us| && j != i ==> us[j] == ws[if j < i then j else j - 1];
    assert us[i] == c;
  }

  lemma CallbackGuard(s: State, i: nat, fault: bool)
    requires Inv(s) && i < |s.callbacks|
    ensures GuardOk(DoRunCallback(s, i, fault))
  {
    var c := s.callbacks[i];
    assert CallbackOk(s, c);
    assert s.callbacks[i := c] == s.callbacks;
    UpdateCallback(s.callbacks, i, c, s.call);
    UpdateCallback(s.callbacks, i, c.(phase := Passed), s.call);
    UpdateCallback(s.callbacks, i, c.(phase := Marked), s.call);
  }

  lemma ExpireGuard(s: State, id: nat)
    requires Inv(s) && Enabled(s, Expire(id))
    ensures GuardOk(Do(s, Expire(id)))
  {
    assert Do(s, Expire(id)).callbacks[|s.callbacks|].call.id == s.call.id;
  }

  /** There is no wait to guard. */
  lemma OutsideGuard(s: State)
    requires !Waiting(s) && s.place != Adding
    ensures GuardOk(s)
  {
  }

  /** Steps that leave timers, callbacks and flag alone. */
  lemma WaitGuard(s: State, s': State)
    requires GuardOk(s) && s'.call == s.call && s'.cancelled == s.cancelled
    requires s'.callbacks == s.callbacks && s'.armed == s.armed && s'.timer == s.timer
    requires (s'.place == Adding || Waiting(s')) ==> (s.place == Adding || Waiting(s))
    ensures GuardOk(s')
  {
  }

  lemma {:induction false} StepGuard(s: State, step: Step)
    requires Inv(s) && Enabled(s, step)
    ensures GuardOk(Do(s, step))
  {
    match step
    case Expire(id) => ExpireGuard(s, id);
    case RunCallback(i, fault) => CallbackGuard(s, i, fault);
    case Arm =>
    case Begin(_, _, _, _, _) => OutsideGuard(Do(s, step));
    case CancelTimer => OutsideGuard(Do(s, step));
    case _ => WaitGuard(s, Do(s, step));
  }

  lemma StepKeeps(s: State, step: Step)
    requires Inv(s) && Enabled(s, step)
    ensures Inv(Do(s, step))
  {
    StepWakes(s, step);
    StepTimers(s, step);
    StepGuard(s, step);
  }

  lemma {:induction false} RunKeeps(s: State, steps: seq<Step>)
    requires Inv(s) && Possible(s, steps)
    ensures Inv(Run(s, steps))
    decreases |steps|
  {
    if steps != [] {
      StepKeeps(s, steps[0]);
      RunKeeps(Do(s, steps[0]), steps[1..]);
    }
  }

  // ----- The theorems, for every run ------------------------------------------------------

  /** One wake-up per registration, whoever gets to it first: the n-th registration, once fired, is the
      n-th and only wake-up queued for it; a waiting fiber is registered or has exactly one wake-up
      queued, never both; a fiber that is not waiting has neither, so the assertion in the next
      `addEvent` fails exactly when another fiber holds the direction. */
  lemma OneWakePerWait(fiber: nat, now: nat, steps: seq<Step>)
    requires Possible(Start(fiber, now), steps)
    ensures var s := Run(Start(fiber, now), steps); var untaken := |s.ledger.queued| - s.resumed;
      && (forall i :: 0 <= i < |s.ledger.queued| ==> s.ledger.queued[i] == Registration(i, 0, FiberHandler(fiber)))
      && s.ledger.issued == |s.ledger.queued| + |s.ledger.regs|
      && |s.ledger.regs| + untaken == (if Waiting(s) then 1 else 0)
      && 0 <= untaken
      && (s.place == Adding ==> s.call.key !in s.ledger.regs)
      && (s.place == Adding ==> (Do(s, Add(None)).place == Aborted <==> s.call.key in s.others))
  {
    RunKeeps(Start(fiber, now), steps);
    FiberKept(Start(fiber, now), steps);
  }

  lemma {:induction false} FiberKept(s: State, steps: seq<Step>)
    requires Possible(s, steps)
    ensures Run(s, steps).fiber == s.fiber
    decreases |steps|
  {
    if steps != [] {
      FiberKept(Do(s, steps[0]), steps[1..]);
    }
  }

  /** ETIMEDOUT is reported only if at least `to` has passed since the call first set out to wait, also
      when the callback that reported it belongs to an earlier attempt of the call. */
  lemma NoEarlyTimeout(fiber: nat, now: nat, steps: seq<Step>)
    requires Possible(Start(fiber, now), steps)
    requires var s := Run(Start(fiber, now), steps); s.place == Outside && s.result == Some(TimedOut)
    ensures var s := Run(Start(fiber, now), steps);
      s.since.Some? && s.call.to.Some? && s.now - s.since.value >= s.call.to.value
  {
    RunKeeps(Start(fiber, now), steps);
  }

  /** No timer of a call outlives it; while it runs only the current attempt's timer is armed. */
  lemma NoTimerLeft(fiber: nat, now: nat, steps: seq<Step>)
    requires Possible(Start(fiber, now), steps)
    ensures var s := Run(Start(fiber, now), steps);
      && (s.place == Outside ==> s.armed == map[])
      && |s.armed| <= 1
  {
    RunKeeps(Start(fiber, now), steps);
    var s := Run(Start(fiber, now), steps);
    if s.timer.Some? {
      assert s.armed.Keys <= {s.timer.value};
      assert s.armed.Keys == {} || s.armed.Keys == {s.timer.value};
      assert |s.armed| == |s.armed.Keys|;
    } else {
      assert s.armed == map[];
    }
  }

  /** Steps of the timeout machinery: the clock, expiry, callbacks. */
  predicate OfTimeout(step: Step) {
    step.Tick? || step.Expire? || step.RunCallback?
  }

  /** The call has a timeout and its flag is clear, or a callback past its test has yet to cancel. */
  predicate CanTimeOut(s: State) {
    (s.call.to.Some? && !s.cancelled) || Committed(s)
  }

  /** A wait that cannot time out: whatever the clock, the timers, the callbacks, other fibers and the fiber
      itself do, it goes on until somebody else fires the registration. */
  lemma {:induction false} UnguardedWaits(s: State, steps: seq<Step>)
    requires Inv(s) && Waiting(s) && Registered(s) && !CanTimeOut(s) && Possible(s, steps)
    requires Fire(s.call.key) !in steps
    ensures var s' := Run(s, steps); Waiting(s') && Registered(s') && !CanTimeOut(s')
    decreases |steps|
  {
    if steps != [] {
      StepKeeps(s, steps[0]);
      UnguardedStep(s, steps[0]);
      UnguardedWaits(Do(s, steps[0]), steps[1..]);
    }
  }

  lemma UnguardedCallback(s: State, i: nat, fault: bool)
    requires Inv(s) && Waiting(s) && Registered(s) && !CanTimeOut(s) && i < |s.callbacks|
    ensures var s' := DoRunCallback(s, i, fault); Waiting(s') && Registered(s') && !CanTimeOut(s') && s'.call == s.call
  {
    var c := s.callbacks[i];
    assert CallbackOk(s, c);
    assert s.callbacks[i := c] == s.callbacks;
    UpdateCallback(s.callbacks, i, c, s.call);
    UpdateCallback(s.callbacks, i, c.(phase := Marked), s.call);
  }

  lemma UnguardedStep(s: State, step: Step)
    requires Inv(s) && Waiting(s) && Registered(s) && !CanTimeOut(s) && Enabled(s, step) && step != Fire(s.call.key)
    ensures var s' := Do(s, step); Waiting(s') && Registered(s') && !CanTimeOut(s') && s'.call == s.call
  {
    if step.RunCallback? {
      UnguardedCallback(s, step.index, step.fault);
    } else if step.Expire? {
      var s' := Do(s, step);
      assert forall i :: 0 <= i < |s.callbacks| ==> s'.callbacks[i] == s.callbacks[i];
    }
  }

  lemma CommittedEnds(s: State, i: nat) returns (steps: seq<Step>)
    requires Inv(s) && Waiting(s) && Registered(s)
    requires i < |s.callbacks| && s.callbacks[i].phase != Fresh && s.callbacks[i].call.key == s.call.key
    ensures Ends(s, steps)
    decreases s.callbacks[i].phase == Passed
  {
    var step := RunCallback(i, false);
    var s1 := Do(s, step);
    if s.callbacks[i].phase == Marked {
      steps := [];
    } else {
      StepKeeps(s, step);
      steps := CommittedEnds(s1, i);
    }
    steps := Before(s, step, steps);
  }

  lemma FreshEnds(s: State, i: nat) returns (steps: seq<Step>)
    requires Inv(s) && Waiting(s) && Registered(s) && !s.cancelled
    requires i < |s.callbacks| && s.callbacks[i].call.id == s.call.id && s.callbacks[i].phase == Fresh
    ensures Ends(s, steps)
  {
    var step := RunCallback(i, false);
    assert CallbackOk(s, s.callbacks[i]);
    StepKeeps(s, step);
    steps := CommittedEnds(Do(s, step), i);
    steps := Before(s, step, steps);
  }

  lemma ArmedEnds(s: State) returns (steps: seq<Step>)
    requires Inv(s) && Waiting(s) && Registered(s) && !s.cancelled && s.timer.Some? && s.timer.value in s.armed
    ensures Ends(s, steps)
  {
    var wait, step := Tick(s.armed[s.timer.value].due), Expire(s.timer.value);
    StepKeeps(s, wait);
    var s1 := Do(s, wait);
    StepKeeps(s1, step);
    steps := FreshEnds(Do(s1, step), |s.callbacks|);
    steps := Before(s1, step, steps);
    steps := Before(s, wait, steps);
  }

  /** The timeout machinery alone takes the registration away and queues the fiber. */
  ghost predicate Ends(s: State, steps: seq<Step>) {
    && (forall i :: 0 <= i < |steps| ==> OfTimeout(steps[i]))
    && Possible(s, steps)
    && Waiting(Run(s, steps)) && !Registered(Run(s, steps))
  }

  lemma Before(s: State, step: Step, rest: seq<Step>) returns (steps: seq<Step>)
    requires Enabled(s, step) && OfTimeout(step) && Ends(Do(s, step), rest)
    ensures Ends(s, steps)
  {
    steps := [step] + rest;
    assert steps[1..] == rest;
  }

  lemma GuardedEnds(s: State) returns (steps: seq<Step>)
    requires Inv(s) && Waiting(s) && Registered(s) && CanTimeOut(s)
    ensures Ends(s, steps)
  {
    if Committed(s) {
      var i :| 0 <= i < |s.callbacks| && s.callbacks[i].phase != Fresh && s.callbacks[i].call.key == s.call.key;
      steps := CommittedEnds(s, i);
    } else if HasCall(s.callbacks, s.call.id) {
      var i :| 0 <= i < |s.callbacks| && s.callbacks[i].call.id == s.call.id;
      assert CallbackOk(s, s.callbacks[i]);
      steps := FreshEnds(s, i);
    } else {
      steps := ArmedEnds(s);
    }
  }

  /** When the timeout works. At every moment of every wait, the timeout machinery can end the wait if and
      only if the call has a timeout and its flag is clear, or a callback past its test has yet to cancel;
      if not, the wait lasts until somebody else fires the registration, however late. */
  lemma TimeoutExact(fiber: nat, now: nat, steps: seq<Step>)
    requires Possible(Start(fiber, now), steps)
    requires var s := Run(Start(fiber, now), steps); Waiting(s) && Registered(s)
    ensures var s := Run(Start(fiber, now), steps);
      && (CanTimeOut(s) <==> exists more :: Ends(s, more))
      && (!CanTimeOut(s) ==>
            forall more :: Possible(s, more) && Fire(s.call.key) !in more ==> Waiting(Run(s, more)))
  {
    RunKeeps(Start(fiber, now), steps);
    var s := Run(Start(fiber, now), steps);
    if CanTimeOut(s) {
      var more := GuardedEnds(s);
      assert Ends(s, more);
    } else {
      forall more | Possible(s, more) && Fire(s.call.key) !in more ensures Waiting(Run(s, more)) {
        UnguardedWaits(s, more);
      }
      forall more | Ends(s, more) ensures false {
        assert Fire(s.call.key) !in more;
        UnguardedWaits(s, more);
      }
    }
  }

  /** The same, asked just before an `addEvent` that succeeds. */
  lemma TimeoutAtAdd(fiber: nat, now: nat, steps: seq<Step>)
    requires Possible(Start(fiber, now), steps)
    requires var s := Run(Start(fiber, now), steps); s.place == Adding && Do(s, Add(None)).place == Parking
    ensures var s := Run(Start(fiber, now), steps); var s' := Do(s, Add(None));
      && (CanTimeOut(s) <==> exists more :: Ends(s', more))
      && (!CanTimeOut(s) ==>
            forall more :: Possible(s', more) && Fire(s.call.key) !in more ==> Waiting(Run(s', more)))
  {
    Extend(Start(fiber, now), steps, Add(None));
    TimeoutExact(fiber, now, steps + [Add(None)]);
  }

  lemma {:induction false} Extend(s: State, steps: seq<Step>, step: Step)
    requires Possible(s, steps) && Enabled(Run(s, steps), step)
    ensures Possible(s, steps + [step]) && Run(s, steps + [step]) == Do(Run(s, steps), step)
    decreases |steps|
  {
    var all := steps + [step];
    assert all[0] == if steps == [] then step else steps[0];
    if steps == [] {
      assert all[1..] == [];
    } else {
      assert all[1..] == steps[1..] + [step];
      Extend(Do(s, steps[0]), steps[1..], step);
    }
  }

  ghost predicate Reaches(steps: seq<Step>, s: State) {
    Possible(Start(0, 0), steps) && Run(Start(0, 0), steps) == s
  }

  lemma Next(steps: seq<Step>, s: State, step: Step) returns (steps': seq<Step>, s': State)
    requires Reaches(steps, s) && Enabled(s, step)
    ensures Reaches(steps', s') && s' == Do(s, step)
  {
    Extend(Start(0, 0), steps, step);
    steps', s' := steps + [step], Do(s, step);
  }

  const LATE := Call(1, Io, Key(3, READ), Some(10))

  /** A first wait that readiness ends just after its timer was handed out. */
  lemma FirstWait() returns (steps: seq<Step>, s: State)
    ensures Reaches(steps, s)
    ensures s == State(0, 10, Parked, LATE, false, Some(0), map[], 1, [Callback(LATE, 10, Fresh)],
                       Ledger(map[], [Registration(0, 0, FiberHandler(0))], [], 1), {}, 0, Some(0), None)
  {
    steps, s := SetOut();
    steps, s := Next(steps, s, Add(None));
    steps, s := Next(steps, s, SwitchOut);
    steps, s := Next(steps, s, Tick(10));
    steps, s := Next(steps, s, Expire(0));
    steps, s := Next(steps, s, Fire(LATE.key));
  }

  lemma SetOut() returns (steps: seq<Step>, s: State)
    ensures Reaches(steps, s)
    ensures s == State(0, 0, Adding, LATE, false, Some(0), map[0 := Armed(LATE, 10)], 1, [],
                       EMPTY_LEDGER, {}, 0, Some(0), None)
  {
    steps, s := [], Start(0, 0);
    steps, s := Next(steps, s, Begin(Io, LATE.key, Some(10), Descriptor(true, true, false, true, false), Value(0)));
    steps, s := Next(steps, s, SystemCall(Failed(EAGAIN)));
    steps, s := Next(steps, s, Arm);
  }

  /** The fiber is back in the system call, the callback of its first wait still to run. */
  lemma SecondTry() returns (steps: seq<Step>, s: State)
    ensures Reaches(steps, s)
    ensures s == State(0, 10, Calling, LATE, false, Some(0), map[], 1, [Callback(LATE, 10, Fresh)],
                       Ledger(map[], [Registration(0, 0, FiberHandler(0))], [], 1), {}, 1, Some(0), None)
  {
    steps, s := FirstWait();
    steps, s := Next(steps, s, Resume);
    steps, s := Next(steps, s, CancelTimer);
    steps, s := Next(steps, s, Check);
  }

  /** There the callback runs, with nothing to cancel. */
  lemma StaleCallback() returns (steps: seq<Step>, s: State)
    ensures Reaches(steps, s)
    ensures s == State(0, 10, Calling, LATE, true, Some(0), map[], 1, [],
                       Ledger(map[], [Registration(0, 0, FiberHandler(0))], [], 1), {}, 1, Some(0), None)
  {
    steps, s := SecondTry();
    steps, s := Next(steps, s, RunCallback(0, false));
    steps, s := Next(steps, s, RunCallback(0, false));
    steps, s := Next(steps, s, RunCallback(0, false));
  }

  /** The timeout can be lost: the first attempt's callback runs while the fiber makes its second system
      call, finds nothing to cancel, and leaves the flag set for the second attempt's callback to see. */
  lemma LostTimeout() returns (steps: seq<Step>)
    ensures Possible(Start(0, 0), steps)
    ensures var s := Run(Start(0, 0), steps); s.place == Adding && s.call.to == Some(10)
    ensures forall more :: Possible(Do(Run(Start(0, 0), steps), Add(None)), more) && Fire(LATE.key) !in more ==>
      Waiting(Run(Do(Run(Start(0, 0), steps), Add(None)), more))
  {
    var s;
    steps, s := StaleCallback();
    steps, s := Next(steps, s, SystemCall(Failed(EAGAIN)));
    steps, s := Next(steps, s, Arm);
    TimeoutAtAdd(0, 0, steps);
  }
}
