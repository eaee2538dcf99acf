/** What every step of the runtime keeps: fiber states, stacks and wake-ups fit together, the active
    count counts the workers that hold a task, and work that is left has an idle fiber to drive it. */
module RuntimeSafety {
  import opened Common
  import opened TaskQueue
  import opened Runtime

  // ----- The invariant ---------------------------------------------------------------------

  /** The fiber whose stack a worker in phase `p` occupies. */
  function OnStack(p: Phase): Option<nat> {
    match p
    case Running(f, _) => Some(f)
    case SwappedOut(f, _) => Some(f)
    case Settling(f, _) => Some(f)
    case _ => None
  }

  predicate ViaCb(p: Phase) {
    match p
    case Running(_, b) => b
    case SwappedOut(_, b) => b
    case Settling(_, b) => b
    case _ => false
  }

  predicate InIdle(p: Phase) {
    p.Unstarted? || p.Stopping? || p.IdleExpiring? || p.IdleDispatching?
  }

  /** A fiber's state, its outstanding wake-ups (`n` of them) and its place fit together. */
  predicate FiberOk(s: State, f: nat, n: nat)
    requires f < |s.fibers|
  {
    var x := s.fibers[f];
    match x.on
    case Some(w) =>
      && w < |s.workers| && OnStack(s.workers[w].phase) == Some(f)
      && x.home == (if ViaCb(s.workers[w].phase) then Some(w) else None)
      && (if s.workers[w].phase.Running? then x.state == EXEC && n <= 1
          else x.carry == None && ((x.state == EXEC && n == 1) || (Over(x.state) && n == 0)))
    case None =>
      && x.carry == None
      && (match x.home
          case Some(w) => x.state == INIT && n == 0
          case None => (x.state in {INIT, HOLD} && n == 1) || (Over(x.state) && n == 0))
  }

  predicate WorkerOk(s: State, w: nat)
    requires w < |s.workers|
  {
    var x := s.workers[w];
    && (OnStack(x.phase).Some? ==>
          OnStack(x.phase).value < |s.fibers| && s.fibers[OnStack(x.phase).value].on == Some(w))
    && (ViaCb(x.phase) ==> x.cbFiber == OnStack(x.phase))
    && (x.cbFiber.Some? ==> x.cbFiber.value < |s.fibers| && s.fibers[x.cbFiber.value].home == Some(w))
    && (x.phase.Took? && x.phase.entry.task.Resume? ==>
          x.phase.entry.task.fiber < |s.fibers| && s.fibers[x.phase.entry.task.fiber].on == None)
    && (InIdle(x.phase) ==> x.idleLive)
    && (x.phase.Left? ==> !x.idleLive)
  }

  predicate HomesOk(s: State) {
    forall f :: 0 <= f < |s.fibers| && s.fibers[f].home.Some? ==>
      s.fibers[f].home.value < |s.workers| && s.workers[s.fibers[f].home.value].cbFiber == Some(f)
  }

  /** The structural part of the invariant, given the outstanding wake-ups `m`. */
  ghost predicate Shape(s: State, m: multiset<nat>) {
    && (forall f :: 0 <= f < |s.fibers| ==> FiberOk(s, f, m[f]))
    && (forall w :: 0 <= w < |s.workers| ==> WorkerOk(s, w))
    && HomesOk(s)
    && (forall f :: f in m ==> f < |s.fibers|)
  }

  function ActiveMark(w: Worker): multiset<nat> {
    if w.phase.Took? || w.phase.Running? || w.phase.SwappedOut? then multiset{0} else multiset{}
  }

  /** The active count is the number of workers holding a taken entry. */
  ghost predicate CountOk(s: State) {
    s.active == |Sum(ActiveMark, s.workers)|
  }

  ghost predicate HasBatch(s: State) {
    exists w :: 0 <= w < |s.workers| && s.workers[w].phase.IdleExpiring? && s.workers[w].phase.batch != []
  }

  ghost predicate SomeIdleLive(s: State) {
    exists w :: 0 <= w < |s.workers| && s.workers[w].idleLive
  }

  /** There is something left to do. */
  ghost predicate Work(s: State) {
    s.queue != [] || s.timers != [] || s.events != [] || s.active > 0 || HasBatch(s)
  }

  /** As long as there is work, some worker's idle fiber is still there to drive it. */
  ghost predicate LiveOk(s: State) {
    && (Work(s) ==> SomeIdleLive(s))
    && (!(s.autoStop && s.stopping) ==> s.workers != [] && forall w :: 0 <= w < |s.workers| ==> s.workers[w].idleLive)
  }

  ghost predicate Inv(s: State) {
    Shape(s, Wakes(s)) && CountOk(s) && LiveOk(s)
  }

  // ----- Wake-ups per step -----------------------------------------------------------------

  lemma {:induction false} PoolWakes(s: State, src: Source, p: seq<Task>)
    ensures Wakes(WithPool(s, src, p)) + Sum(TaskWake, Pool(s, src)) == Wakes(s) + Sum(TaskWake, p)
  {}

  lemma {:induction false} EnqueueWakes(s: State, t: Task, pin: int)
    ensures Wakes(Enqueue(s, t, pin)) == Wakes(s) + TaskWake(t)
  {
    SumAppend(EntryWake, s.queue, Entry(t, pin));
  }

  lemma {:induction false} ReplaceSummands(rest: multiset<nat>, a: multiset<nat>, b: multiset<nat>, c: multiset<nat>,
      d: multiset<nat>)
    requires c + d == a + b
    ensures rest + c + d == rest + a + b
  {
    assert rest + c + d == rest + (c + d);
    assert rest + a + b == rest + (a + b);
  }

  lemma {:induction false} Cancel(x: multiset<nat>, y: multiset<nat>, c: multiset<nat>)
    requires x + c == y + c
    ensures x == y
  {
    assert (x + c) - c == x && (y + c) - c == y;
  }

  lemma {:induction false} AddDrop(a: multiset<nat>, k: multiset<nat>)
    ensures (a + k) - k == a
  {}

  lemma {:induction false} WorkerWakes(s: State, w: nat, x: Worker)
    requires w < |s.workers|
    ensures Wakes(s.(workers := s.workers[w := x])) + PhaseWake(s.workers[w]) == Wakes(s) + PhaseWake(x)
  {
    SumUpdate(PhaseWake, s.workers, w, x);
    var before, after := Sum(PhaseWake, s.workers), Sum(PhaseWake, s.workers[w := x]);
    var carried := Sum(CarryWake, s.fibers);
    assert Wakes(s) == Stored(s) + carried + before;
    assert Wakes(s.(workers := s.workers[w := x])) == Stored(s) + carried + after;
    ReplaceSummands(Stored(s) + carried, before, PhaseWake(x), after, PhaseWake(s.workers[w]));
  }

  lemma {:induction false} WorkerWakesSame(s: State, w: nat, x: Worker)
    requires w < |s.workers| && PhaseWake(x) == PhaseWake(s.workers[w])
    ensures Wakes(s.(workers := s.workers[w := x])) == Wakes(s)
  {
    WorkerWakes(s, w, x);
    Cancel(Wakes(s.(workers := s.workers[w := x])), Wakes(s), PhaseWake(x));
  }

  lemma {:induction false} WorkerWakesDrop(s: State, w: nat, x: Worker)
    requires w < |s.workers| && PhaseWake(x) == multiset{}
    ensures Wakes(s.(workers := s.workers[w := x])) == Wakes(s) - PhaseWake(s.workers[w])
  {
    WorkerWakes(s, w, x);
    Cancel(Wakes(s.(workers := s.workers[w := x])), Wakes(s) - PhaseWake(s.workers[w]), PhaseWake(s.workers[w]));
  }

  /** A worker lets go of the wake-ups `k` that had just been added elsewhere. */
  lemma {:induction false} WorkerWakesDropTo(s: State, w: nat, x: Worker, k: multiset<nat>, base: multiset<nat>)
    requires w < |s.workers| && PhaseWake(x) == multiset{} && PhaseWake(s.workers[w]) == k && Wakes(s) == base + k
    ensures Wakes(s.(workers := s.workers[w := x])) == base
  {
    WorkerWakesDrop(s, w, x);
    AddDrop(base, k);
  }

  lemma {:induction false} BatchPhaseWake(x: Worker)
    requires x.phase.IdleExpiring?
    ensures PhaseWake(x) == Sum(TaskWake, x.phase.batch)
  {}

  lemma {:induction false} TookPhaseWake(x: Worker)
    requires x.phase.Took?
    ensures PhaseWake(x) == TaskWake(x.phase.entry.task)
  {}

  lemma {:induction false} WorkerWakesAdd(s: State, w: nat, x: Worker, k: multiset<nat>)
    requires w < |s.workers| && PhaseWake(x) == PhaseWake(s.workers[w]) + k
    ensures Wakes(s.(workers := s.workers[w := x])) == Wakes(s) + k
  {
    WorkerWakes(s, w, x);
    var p := PhaseWake(s.workers[w]);
    assert Wakes(s) + (p + k) == (Wakes(s) + k) + p;
    Cancel(Wakes(s.(workers := s.workers[w := x])), Wakes(s) + k, p);
  }

  lemma {:induction false} FiberWakes(s: State, f: nat, x: Fiber)
    requires f < |s.fibers|
    ensures Wakes(s.(fibers := s.fibers[f := x])) + CarryWake(s.fibers[f]) == Wakes(s) + CarryWake(x)
  {
    SumUpdate(CarryWake, s.fibers, f, x);
    var held := Stored(s) + Sum(PhaseWake, s.workers);
    var before, after := Sum(CarryWake, s.fibers), Sum(CarryWake, s.fibers[f := x]);
    assert Wakes(s) == held + before && Wakes(s.(fibers := s.fibers[f := x])) == held + after;
    ReplaceSummands(held, before, CarryWake(x), after, CarryWake(s.fibers[f]));
  }

  lemma {:induction false} FiberWakesSame(s: State, f: nat, x: Fiber)
    requires f < |s.fibers| && x.carry == s.fibers[f].carry
    ensures Wakes(s.(fibers := s.fibers[f := x])) == Wakes(s)
  {
    FiberWakes(s, f, x);
    Cancel(Wakes(s.(fibers := s.fibers[f := x])), Wakes(s), CarryWake(x));
  }

  lemma {:induction false} Balance(a: multiset<nat>, b: multiset<nat>, c: multiset<nat>,
                                   p: multiset<nat>, p': multiset<nat>, k: multiset<nat>, k': multiset<nat>)
    requires b + k == a + k' && c + p == b + p' && p + k == p' + k'
    ensures c == a
  {
    calc {
      c + (p + k);
      (c + p) + k;
      (b + p') + k;
      (b + k) + p';
      (a + k') + p';
      a + (p' + k');
    }
    Cancel(c, a, p + k);
  }

  /** A worker and a fiber change, handing wake-ups only to each other. */
  lemma {:induction false} UpdateWakes(s: State, w: nat, x: Worker, f: nat, y: Fiber)
    requires w < |s.workers| && f < |s.fibers|
    requires PhaseWake(x) + CarryWake(y) == PhaseWake(s.workers[w]) + CarryWake(s.fibers[f])
    ensures Wakes(Update(s, w, x, f, y)) == Wakes(s)
  {
    var u := s.(fibers := s.fibers[f := y]);
    FiberWakes(s, f, y);
    WorkerWakes(u, w, x);
    assert u.(workers := u.workers[w := x]) == Update(s, w, x, f, y);
    Balance(Wakes(s), Wakes(u), Wakes(Update(s, w, x, f, y)),
            PhaseWake(s.workers[w]), PhaseWake(x), CarryWake(s.fibers[f]), CarryWake(y));
  }

  lemma {:induction false} NewFiberWakes(s: State, x: Fiber)
    ensures Wakes(s.(fibers := s.fibers + [x])) == Wakes(s) + CarryWake(x)
  {
    SumAppend(CarryWake, s.fibers, x);
  }

  lemma {:induction false} QueueWakes(s: State, i: nat)
    requires i < |s.queue|
    ensures Wakes(s.(queue := Without(s.queue, i))) + EntryWake(s.queue[i]) == Wakes(s)
  {
    SumWithout(EntryWake, s.queue, i);
  }

  /** The worker's own hand is part of the outstanding wake-ups. */
  lemma {:induction false} HeldWake(s: State, w: nat)
    requires w < |s.workers|
    ensures PhaseWake(s.workers[w]) <= Wakes(s)
  {
    SumElement(PhaseWake, s.workers, w);
  }

  lemma {:induction false} TwoHeldWakes(s: State, v: nat, w: nat)
    requires v < |s.workers| && w < |s.workers| && v != w
    ensures PhaseWake(s.workers[v]) + PhaseWake(s.workers[w]) <= Wakes(s)
  {
    SumPair(PhaseWake, s.workers, Min(v, w), if v < w then w else v);
  }

  lemma {:induction false} CountKept(s: State, t: State, w: nat, x: Worker)
    requires CountOk(s) && w < |s.workers| && t.workers == s.workers[w := x]
    requires t.active + |ActiveMark(s.workers[w])| == s.active + |ActiveMark(x)|
    ensures CountOk(t)
  {
    SumUpdate(ActiveMark, s.workers, w, x);
    var before, after := Sum(ActiveMark, s.workers), Sum(ActiveMark, s.workers[w := x]);
    assert |after + ActiveMark(s.workers[w])| == |before + ActiveMark(x)|;
  }

  // ----- Shape per step --------------------------------------------------------------------

  /** A worker that is on no fiber's stack, before and after, changes its phase. */
  lemma {:induction false} PlainPhaseShape(s: State, m: multiset<nat>, w: nat, x: Worker)
    requires Shape(s, m) && w < |s.workers|
    requires OnStack(s.workers[w].phase) == None && OnStack(x.phase) == None
    requires x.phase.Took? ==> x.phase.entry.task.Call?
    requires x.cbFiber == s.workers[w].cbFiber
    requires InIdle(x.phase) ==> x.idleLive
    requires x.phase.Left? ==> !x.idleLive
    ensures Shape(s.(workers := s.workers[w := x]), m)
  {
    var t := s.(workers := s.workers[w := x]);
    forall f | 0 <= f < |t.fibers| ensures FiberOk(t, f, m[f]) { assert FiberOk(s, f, m[f]); }
    forall v | 0 <= v < |t.workers| ensures WorkerOk(t, v) { assert WorkerOk(s, v); }
  }

  /** Taking a wake-up of a fiber that is not EXEC leaves it off every stack. */
  lemma {:induction false} TakeShape(s: State, m: multiset<nat>, w: nat, e: Entry)
    requires Shape(s, m) && w < |s.workers| && s.workers[w].phase.Scanning?
    requires EntryWake(e) <= m && !Executing(e.task, States(s))
    ensures Shape(WithPhase(s, w, Took(e)), m)
  {
    var t := WithPhase(s, w, Took(e));
    if e.task.Resume? {
      assert e.task.fiber in EntryWake(e);
      assert FiberOk(s, e.task.fiber, m[e.task.fiber]);
    }
    forall f | 0 <= f < |t.fibers| ensures FiberOk(t, f, m[f]) { assert FiberOk(s, f, m[f]); }
    forall v | 0 <= v < |t.workers| ensures WorkerOk(t, v) { assert WorkerOk(s, v); }
  }

  /** A running fiber without a wake-up gets one. */
  lemma {:induction false} ArmShape(s: State, m: multiset<nat>, w: nat, f: nat)
    requires Shape(s, m) && RunBy(s, w) == Some(f) && m[f] == 0
    ensures Shape(s, m + multiset{f})
  {
    assert WorkerOk(s, w);
    forall g | 0 <= g < |s.fibers| ensures FiberOk(s, g, (m + multiset{f})[g]) { assert FiberOk(s, g, m[g]); }
  }

  /** Worker `w` and fiber `f` change together, the fiber belonging to that worker or to none. */
  ghost predicate Separable(s: State, w: nat, x: Worker, f: nat, y: Fiber) {
    && w < |s.workers| && f < |s.fibers|
    && s.fibers[f].on in {None, Some(w)} && s.fibers[f].home in {None, Some(w)}
    && OnStack(s.workers[w].phase) in {None, Some(f)}
    && (x.cbFiber == s.workers[w].cbFiber || (s.workers[w].cbFiber in {None, Some(f)} && x.cbFiber in {None, Some(f)}))
    && y.home == (if x.cbFiber == Some(f) then Some(w) else None)
  }

  function Update(s: State, w: nat, x: Worker, f: nat, y: Fiber): State
    requires w < |s.workers| && f < |s.fibers|
  {
    s.(workers := s.workers[w := x], fibers := s.fibers[f := y])
  }

  lemma {:induction false} OtherFiberOk(s: State, w: nat, x: Worker, f: nat, y: Fiber, g: nat, n: nat)
    requires Separable(s, w, x, f, y) && g < |s.fibers| && g != f && FiberOk(s, g, n)
    ensures FiberOk(Update(s, w, x, f, y), g, n)
  {}

  lemma {:induction false} OtherWorkerOk(s: State, w: nat, x: Worker, f: nat, y: Fiber, v: nat)
    requires Separable(s, w, x, f, y) && v < |s.workers| && v != w && WorkerOk(s, v)
    requires y.on.Some? && s.fibers[f].on == None ==> ResumedBy(s, v) != Some(f)
    ensures WorkerOk(Update(s, w, x, f, y), v)
  {}

  lemma {:induction false} HomesStayOk(s: State, w: nat, x: Worker, f: nat, y: Fiber)
    requires Separable(s, w, x, f, y) && HomesOk(s) && WorkerOk(s, w)
    ensures HomesOk(Update(s, w, x, f, y))
  {}

  /** Of such a change only the worker and the fiber themselves need checking. */
  lemma {:induction false} UpdateShape(s: State, m: multiset<nat>, m': multiset<nat>, w: nat, x: Worker, f: nat,
      y: Fiber)
    requires Shape(s, m) && Separable(s, w, x, f, y)
    requires forall g :: g != f ==> m'[g] == m[g]
    requires y.on.Some? && s.fibers[f].on == None ==>
      forall v :: 0 <= v < |s.workers| && v != w ==> ResumedBy(s, v) != Some(f)
    requires FiberOk(Update(s, w, x, f, y), f, m'[f]) && WorkerOk(Update(s, w, x, f, y), w)
    ensures Shape(Update(s, w, x, f, y), m')
  {
    var t := Update(s, w, x, f, y);
    forall g | 0 <= g < |t.fibers| ensures FiberOk(t, g, m'[g]) {
      if g != f { OtherFiberOk(s, w, x, f, y, g, m[g]); }
    }
    forall v | 0 <= v < |t.workers| ensures WorkerOk(t, v) {
      if v != w { OtherWorkerOk(s, w, x, f, y, v); }
    }
    HomesStayOk(s, w, x, f, y);
  }

  /** Switching to a taken fiber uses up its wake-up. No other worker can hold one for it. */
  lemma {:induction false} SwapInShape(s: State, m: multiset<nat>, w: nat, f: nat)
    requires Shape(s, m) && ResumedBy(s, w) == Some(f) && !Over(s.fibers[f].state)
    requires m[f] >= 1
    requires forall v :: 0 <= v < |s.workers| && v != w ==> ResumedBy(s, v) != Some(f)
    ensures s.fibers[f].state != EXEC
    ensures Shape(DoSwapIn(s, w, f), m - multiset{f})
  {
    assert WorkerOk(s, w) && FiberOk(s, f, m[f]);
    UpdateShape(s, m, m - multiset{f}, w, s.workers[w].(phase := Running(f, false)),
                f, s.fibers[f].(state := EXEC, on := Some(w)));
  }

  /** Starting a callback turns the wake-up it will deliver into the running fiber's own. */
  lemma {:induction false} StartCallShape(s: State, m: multiset<nat>, w: nat)
    requires Shape(s, m) && CanLoop(s, w, StartCall)
    requires forall v :: 0 <= v < |s.workers| && ResumedBy(s, v).Some? ==> m[ResumedBy(s, v).value] >= 1
    ensures LoopAsserts(s, w, StartCall)
    ensures Shape(DoStartCall(s, w, s.workers[w].phase.entry.task.wakes), m)
  {
    assert WorkerOk(s, w);
    var wakes := s.workers[w].phase.entry.task.wakes;
    if s.workers[w].cbFiber.Some? {
      var g := s.workers[w].cbFiber.value;
      assert FiberOk(s, g, m[g]);
      UpdateShape(s, m, m, w, s.workers[w].(phase := Running(g, true)), g, Fiber(EXEC, wakes, Some(w), Some(w)));
    } else {
      StartFreshCallShape(s, m, w);
    }
  }

  lemma {:induction false} StartFreshCallShape(s: State, m: multiset<nat>, w: nat)
    requires Shape(s, m) && CanLoop(s, w, StartCall) && s.workers[w].cbFiber == None
    ensures Shape(DoStartCall(s, w, s.workers[w].phase.entry.task.wakes), m)
  {
    var t := DoStartCall(s, w, s.workers[w].phase.entry.task.wakes);
    assert WorkerOk(s, w);
    FreshCallFibers(s, t, m, w);
    forall v | 0 <= v < |t.workers| ensures WorkerOk(t, v) { assert WorkerOk(s, v); }
  }

  lemma {:induction false} FreshCallFibers(s: State, t: State, m: multiset<nat>, w: nat)
    requires Shape(s, m) && CanLoop(s, w, StartCall) && s.workers[w].cbFiber == None
    requires t == DoStartCall(s, w, s.workers[w].phase.entry.task.wakes)
    ensures forall g :: 0 <= g < |t.fibers| ==> FiberOk(t, g, m[g])
  {
    forall g | 0 <= g < |t.fibers| ensures FiberOk(t, g, m[g]) {
      if g < |s.fibers| { assert FiberOk(s, g, m[g]); }
    }
  }

  /** A new fiber starts with the one wake-up that was queued for it. */
  lemma {:induction false} SpawnShape(s: State, m: multiset<nat>)
    requires Shape(s, m)
    ensures Shape(s.(fibers := s.fibers + [Fiber(INIT, None, None, None)]), m + multiset{|s.fibers|})
  {
    var t, m' := s.(fibers := s.fibers + [Fiber(INIT, None, None, None)]), m + multiset{|s.fibers|};
    forall g | 0 <= g < |t.fibers| ensures FiberOk(t, g, m'[g]) {
      if g < |s.fibers| { assert FiberOk(s, g, m[g]); }
    }
    forall v | 0 <= v < |t.workers| ensures WorkerOk(t, v) { assert WorkerOk(s, v); }
  }

  /** Leaving the processor: with one wake-up out the fiber is suspended, with none it is over. */
  lemma {:induction false} LeaveShape(s: State, m: multiset<nat>, w: nat, f: nat, st: FiberState)
    requires Shape(s, m) && RunBy(s, w) == Some(f) && s.fibers[f].carry == None
    requires (st == EXEC && m[f] == 1) || (Over(st) && m[f] == 0)
    ensures s.fibers[f].state == EXEC
    ensures Shape(WithPhase(s.(fibers := s.fibers[f := s.fibers[f].(state := st)]), w,
                            SwappedOut(f, s.workers[w].phase.viaCb)), m)
  {
    assert WorkerOk(s, w) && FiberOk(s, f, m[f]);
    UpdateShape(s, m, m, w, s.workers[w].(phase := SwappedOut(f, s.workers[w].phase.viaCb)),
                f, s.fibers[f].(state := st));
  }

  lemma {:induction false} DeliverShape(s: State, m: multiset<nat>, w: nat, f: nat)
    requires Shape(s, m) && RunBy(s, w) == Some(f)
    ensures Shape(s.(fibers := s.fibers[f := s.fibers[f].(carry := None)]), m)
  {
    assert WorkerOk(s, w) && FiberOk(s, f, m[f]);
    UpdateShape(s, m, m, w, s.workers[w], f, s.fibers[f].(carry := None));
    assert s.workers[w := s.workers[w]] == s.workers;
  }

  lemma {:induction false} CountDownShape(s: State, m: multiset<nat>, w: nat)
    requires Shape(s, m) && CanLoop(s, w, CountDown)
    ensures Shape(WithPhase(s, w, Settling(s.workers[w].phase.fiber, s.workers[w].phase.viaCb)), m)
  {
    var f := s.workers[w].phase.fiber;
    assert WorkerOk(s, w) && FiberOk(s, f, m[f]);
    UpdateShape(s, m, m, w, s.workers[w].(phase := Settling(f, s.workers[w].phase.viaCb)), f, s.fibers[f]);
    assert s.fibers[f := s.fibers[f]] == s.fibers;
  }

  /** The state write after a switch back: HOLD only now, so nobody took the fiber before. */
  lemma {:induction false} SettleShape(s: State, m: multiset<nat>, w: nat)
    requires Shape(s, m) && CanLoop(s, w, Settle)
    ensures Shape(DoSettle(s, w), m)
  {
    var t, f := DoSettle(s, w), s.workers[w].phase.fiber;
    assert WorkerOk(s, w) && FiberOk(s, f, m[f]);
    UpdateShape(s, m, m, w, t.workers[w], f, t.fibers[f]);
  }

  // ----- Liveness and counting per step ----------------------------------------------------

  /** The idle fibers alive are the same before and after. */
  predicate SameIdle(s: State, t: State) {
    && |t.workers| == |s.workers|
    && (t.autoStop && t.stopping <==> s.autoStop && s.stopping)
    && forall w :: 0 <= w < |s.workers| ==> t.workers[w].idleLive == s.workers[w].idleLive
  }

  lemma {:induction false} LiveKept(s: State, t: State)
    requires LiveOk(s) && SameIdle(s, t) && (Work(t) ==> SomeIdleLive(s))
    ensures LiveOk(t)
  {
    if SomeIdleLive(s) {
      var w :| 0 <= w < |s.workers| && s.workers[w].idleLive;
      assert t.workers[w].idleLive;
    }
  }

  lemma {:induction false} BusyWorker(s: State, w: nat)
    requires CountOk(s) && w < |s.workers| && ActiveMark(s.workers[w]) != multiset{}
    ensures s.active > 0 && Work(s)
  {
    SumElement(ActiveMark, s.workers, w);
    assert 0 in ActiveMark(s.workers[w]);
    assert 0 in Sum(ActiveMark, s.workers);
  }

  lemma {:induction false} ActorLive(s: State, who: Actor)
    requires CountOk(s) && LiveOk(s) && MayAct(s, who)
    ensures SomeIdleLive(s)
  {
    match who
    case Some(w) =>
      assert ActiveMark(s.workers[w]) == multiset{0};
      BusyWorker(s, w);
    case None =>
      assert s.workers[0].idleLive;
  }

  /** Every fiber a worker is about to resume has its wake-up in that worker's hand. */
  lemma {:induction false} TakenIsHeld(s: State)
    ensures forall v :: 0 <= v < |s.workers| && ResumedBy(s, v).Some? ==> Wakes(s)[ResumedBy(s, v).value] >= 1
  {
    forall v | 0 <= v < |s.workers| && ResumedBy(s, v).Some?
      ensures Wakes(s)[ResumedBy(s, v).value] >= 1
    {
      HeldWake(s, v);
      assert ResumedBy(s, v).value in PhaseWake(s.workers[v]);
    }
  }

  // ----- Every step keeps the invariant ----------------------------------------------------

  /** `Shape` looks at the fibers and the workers only. */
  lemma {:induction false} ShapeSame(s: State, t: State, m: multiset<nat>)
    requires Shape(s, m) && t.fibers == s.fibers && t.workers == s.workers
    ensures Shape(t, m)
  {
    forall f | 0 <= f < |t.fibers| ensures FiberOk(t, f, m[f]) { assert FiberOk(s, f, m[f]); }
    forall w | 0 <= w < |t.workers| ensures WorkerOk(t, w) { assert WorkerOk(s, w); }
  }

  lemma {:induction false} TakeWakes(s: State, w: nat, i: nat)
    requires w < |s.workers| && s.workers[w].phase.Scanning? && i < |s.queue|
    ensures EntryWake(s.queue[i]) <= Wakes(s)
    ensures Wakes(WithPhase(s.(queue := Without(s.queue, i), active := s.active + 1), w, Took(s.queue[i]))) == Wakes(s)
  {
    QueueWakes(s, i);
    var u := s.(queue := Without(s.queue, i), active := s.active + 1);
    assert Wakes(u) == Wakes(s.(queue := Without(s.queue, i)));
    TookPhaseWake(s.workers[w].(phase := Took(s.queue[i])));
    WorkerWakesAdd(u, w, s.workers[w].(phase := Took(s.queue[i])), EntryWake(s.queue[i]));
  }

  lemma {:induction false} ScanTakesShape(s: State, w: nat, i: nat)
    requires Shape(s, Wakes(s)) && w < |s.workers| && s.workers[w].phase.Scanning?
    requires i == Pick(s.queue, w, States(s)) && i < |s.queue|
    ensures Shape(DoScan(s, w), Wakes(DoScan(s, w)))
  {
    TakeWakes(s, w, i);
    TakeShape(s, Wakes(s), w, s.queue[i]);
    ShapeSame(WithPhase(s, w, Took(s.queue[i])), DoScan(s, w), Wakes(s));
  }

  /** A change of a worker's phase that moves no wake-up. */
  lemma {:induction false} PlainStepShape(s: State, w: nat, x: Worker)
    requires Shape(s, Wakes(s)) && w < |s.workers|
    requires OnStack(s.workers[w].phase) == None && OnStack(x.phase) == None
    requires x.phase.Took? ==> x.phase.entry.task.Call?
    requires x.cbFiber == s.workers[w].cbFiber && PhaseWake(x) == PhaseWake(s.workers[w])
    requires InIdle(x.phase) ==> x.idleLive
    requires x.phase.Left? ==> !x.idleLive
    ensures Shape(s.(workers := s.workers[w := x]), Wakes(s.(workers := s.workers[w := x])))
  {
    PlainPhaseShape(s, Wakes(s), w, x);
    WorkerWakesSame(s, w, x);
  }

  lemma {:induction false} ScanShape(s: State, w: nat)
    requires Shape(s, Wakes(s)) && w < |s.workers| && s.workers[w].phase.Scanning?
    ensures Shape(DoScan(s, w), Wakes(DoScan(s, w)))
  {
    var i := Pick(s.queue, w, States(s));
    if i < |s.queue| {
      ScanTakesShape(s, w, i);
    } else {
      PlainStepShape(s, w, DoScan(s, w).workers[w]);
    }
  }

  lemma {:induction false} SoleHolder(s: State, w: nat, f: nat)
    requires Shape(s, Wakes(s)) && ResumedBy(s, w) == Some(f)
    ensures Wakes(s)[f] >= 1
    ensures forall v :: 0 <= v < |s.workers| && v != w ==> ResumedBy(s, v) != Some(f)
  {
    TakenIsHeld(s);
    assert FiberOk(s, f, Wakes(s)[f]);
    forall v | 0 <= v < |s.workers| && v != w
      ensures ResumedBy(s, v) != Some(f)
    {
      TwoHeldWakes(s, v, w);
      assert PhaseWake(s.workers[w]) == multiset{f};
    }
  }

  lemma {:induction false} SwapInWakes(s: State, w: nat, f: nat)
    requires ResumedBy(s, w) == Some(f)
    ensures Wakes(DoSwapIn(s, w, f)) == Wakes(s) - multiset{f}
  {
    var t := DoSwapIn(s, w, f);
    FiberWakesSame(s, f, t.fibers[f]);
    WorkerWakesDrop(s.(fibers := t.fibers), w, t.workers[w]);
  }

  lemma {:induction false} SwapInKeepsShape(s: State, w: nat, f: nat)
    requires Shape(s, Wakes(s)) && ResumedBy(s, w) == Some(f) && !Over(s.fibers[f].state)
    ensures s.fibers[f].state != EXEC
    ensures Shape(DoSwapIn(s, w, f), Wakes(DoSwapIn(s, w, f)))
  {
    SoleHolder(s, w, f);
    SwapInShape(s, Wakes(s), w, f);
    SwapInWakes(s, w, f);
  }

  lemma {:induction false} FreshCallWakes(s: State, w: nat, wakes: Option<nat>)
    requires w < |s.workers| && s.workers[w].phase.Took? && s.workers[w].phase.entry.task == Call(wakes)
    requires s.workers[w].cbFiber == None
    ensures Wakes(DoStartCall(s, w, wakes)) == Wakes(s)
  {
    var g, x := |s.fibers|, Fiber(EXEC, wakes, Some(w), Some(w));
    NewFiberWakes(s, x);
    TookPhaseWake(s.workers[w]);
    WorkerWakesDropTo(s.(fibers := s.fibers + [x]), w, s.workers[w].(phase := Running(g, true), cbFiber := Some(g)),
                      CarryWake(x), Wakes(s));
  }

  lemma {:induction false} StartCallWakes(s: State, w: nat, wakes: Option<nat>)
    requires w < |s.workers| && s.workers[w].phase.Took? && s.workers[w].phase.entry.task == Call(wakes)
    requires s.workers[w].cbFiber.Some? ==>
      s.workers[w].cbFiber.value < |s.fibers| && s.fibers[s.workers[w].cbFiber.value].carry == None
    ensures Wakes(DoStartCall(s, w, wakes)) == Wakes(s)
  {
    if s.workers[w].cbFiber.Some? {
      var g := s.workers[w].cbFiber.value;
      UpdateWakes(s, w, s.workers[w].(phase := Running(g, true)), g, Fiber(EXEC, wakes, Some(w), Some(w)));
    } else {
      FreshCallWakes(s, w, wakes);
    }
  }

  lemma {:induction false} StartCallKeepsShape(s: State, w: nat)
    requires Shape(s, Wakes(s)) && CanLoop(s, w, StartCall)
    ensures LoopAsserts(s, w, StartCall)
    ensures var t := DoStartCall(s, w, s.workers[w].phase.entry.task.wakes); Shape(t, Wakes(t))
  {
    TakenIsHeld(s);
    assert WorkerOk(s, w);
    if s.workers[w].cbFiber.Some? {
      var g := s.workers[w].cbFiber.value;
      assert FiberOk(s, g, Wakes(s)[g]);
    }
    StartCallShape(s, Wakes(s), w);
    StartCallWakes(s, w, s.workers[w].phase.entry.task.wakes);
  }

  /** A finished fiber has no wake-up, so it is never found in the task list. */
  lemma {:induction false} NeverSkips(s: State, w: nat, f: nat)
    requires Shape(s, Wakes(s)) && ResumedBy(s, w) == Some(f)
    ensures !Over(s.fibers[f].state)
  {
    TakenIsHeld(s);
    assert WorkerOk(s, w) && FiberOk(s, f, Wakes(s)[f]);
  }

  lemma {:induction false} SpawnWakes(s: State, pin: int)
    ensures Wakes(DoSpawn(s, pin)) == Wakes(s) + multiset{|s.fibers|}
  {
    var x := Fiber(INIT, None, None, None);
    var u := s.(fibers := s.fibers + [x]);
    NewFiberWakes(s, x);
    EnqueueWakes(u, Resume(|s.fibers|), pin);
    SpawnIsEnqueue(s, u, pin);
    SpawnSum(Wakes(s), Wakes(u), Wakes(Enqueue(u, Resume(|s.fibers|), pin)), x, |s.fibers|);
  }

  lemma {:induction false} SpawnSum(before: multiset<nat>, made: multiset<nat>, queued: multiset<nat>, x: Fiber, f: nat)
    requires x.carry == None && made == before + CarryWake(x) && queued == made + TaskWake(Resume(f))
    ensures queued == before + multiset{f}
  {
  }

  lemma {:induction false} SpawnIsEnqueue(s: State, u: State, pin: int)
    requires u == s.(fibers := s.fibers + [Fiber(INIT, None, None, None)])
    ensures DoSpawn(s, pin) == Enqueue(u, Resume(|s.fibers|), pin)
  {
  }

  lemma {:induction false} SpawnKeepsShape(s: State, pin: int)
    requires Shape(s, Wakes(s))
    ensures Shape(DoSpawn(s, pin), Wakes(DoSpawn(s, pin)))
  {
    var u := s.(fibers := s.fibers + [Fiber(INIT, None, None, None)]);
    SpawnShape(s, Wakes(s));
    SpawnWakes(s, pin);
    ShapeSame(u, DoSpawn(s, pin), Wakes(s) + multiset{|s.fibers|});
  }

  /** Pools and task list change, the wake-ups in them do not. */
  lemma {:induction false} MoveKeepsShape(s: State, t: State)
    requires Shape(s, Wakes(s)) && t.fibers == s.fibers && t.workers == s.workers && Wakes(t) == Wakes(s)
    ensures Shape(t, Wakes(t))
  {
    ShapeSame(s, t, Wakes(s));
  }

  lemma {:induction false} PoolWithoutWakes(s: State, src: Source, i: nat)
    requires i < |Pool(s, src)|
    ensures Wakes(WithPool(s, src, Without(Pool(s, src), i))) + TaskWake(Pool(s, src)[i]) == Wakes(s)
  {
    var p := Pool(s, src);
    SumWithout(TaskWake, p, i);
    PoolWakes(s, src, Without(p, i));
    var a := Wakes(WithPool(s, src, Without(p, i)));
    assert a + TaskWake(p[i]) + Sum(TaskWake, Without(p, i)) == a + Sum(TaskWake, p);
    Cancel(a + TaskWake(p[i]), Wakes(s), Sum(TaskWake, Without(p, i)));
  }

  lemma {:induction false} PoolAppendWakes(s: State, src: Source, t: Task)
    ensures Wakes(WithPool(s, src, Pool(s, src) + [t])) == Wakes(s) + TaskWake(t)
  {
    var p := Pool(s, src);
    SumAppend(TaskWake, p, t);
    PoolWakes(s, src, p + [t]);
    var a := Wakes(WithPool(s, src, p + [t]));
    assert Wakes(s) + Sum(TaskWake, p + [t]) == Wakes(s) + TaskWake(t) + Sum(TaskWake, p);
    Cancel(a, Wakes(s) + TaskWake(t), Sum(TaskWake, p));
  }

  /** Firing moves a wake-up, it neither makes nor loses one. */
  lemma {:induction false} FireWakes(s: State, src: Source, i: nat)
    requires i < |Pool(s, src)|
    ensures Wakes(DoFire(s, src, i)) == Wakes(s)
  {
    PoolWithoutWakes(s, src, i);
    EnqueueWakes(WithPool(s, src, Without(Pool(s, src), i)), Pool(s, src)[i], ANY_THREAD);
  }

  lemma {:induction false} FireKeepsShape(s: State, src: Source, i: nat)
    requires Shape(s, Wakes(s)) && i < |Pool(s, src)|
    ensures Shape(DoFire(s, src, i), Wakes(DoFire(s, src, i)))
  {
    FireWakes(s, src, i);
    MoveKeepsShape(s, DoFire(s, src, i));
  }

  lemma {:induction false} DiscardKeepsShape(s: State, src: Source, i: nat)
    requires Shape(s, Wakes(s)) && i < |Pool(s, src)| && Pool(s, src)[i] == Call(None)
    ensures var t := WithPool(s, src, Without(Pool(s, src), i)); Shape(t, Wakes(t))
  {
    PoolWithoutWakes(s, src, i);
    MoveKeepsShape(s, WithPool(s, src, Without(Pool(s, src), i)));
  }

  lemma {:induction false} AddCallbackKeepsShape(s: State, src: Source)
    requires Shape(s, Wakes(s))
    ensures var t := WithPool(s, src, Pool(s, src) + [Call(None)]); Shape(t, Wakes(t))
  {
    PoolAppendWakes(s, src, Call(None));
    MoveKeepsShape(s, WithPool(s, src, Pool(s, src) + [Call(None)]));
  }

  lemma {:induction false} PostKeepsShape(s: State, pin: int)
    requires Shape(s, Wakes(s))
    ensures Shape(Enqueue(s, Call(None), pin), Wakes(Enqueue(s, Call(None), pin)))
  {
    EnqueueWakes(s, Call(None), pin);
    MoveKeepsShape(s, Enqueue(s, Call(None), pin));
  }

  lemma {:induction false} ArmKeepsShape(s: State, w: nat, f: nat, src: Source, task: Task)
    requires Shape(s, Wakes(s)) && RunBy(s, w) == Some(f) && Wakes(s)[f] == 0 && TaskWake(task) == multiset{f}
    ensures var t := WithPool(s, src, Pool(s, src) + [task]); Shape(t, Wakes(t))
  {
    ArmShape(s, Wakes(s), w, f);
    PoolAppendWakes(s, src, task);
    ShapeSame(s, WithPool(s, src, Pool(s, src) + [task]), Wakes(s) + multiset{f});
  }

  lemma {:induction false} ScheduleSelfKeepsShape(s: State, w: nat, f: nat, pin: int)
    requires Shape(s, Wakes(s)) && RunBy(s, w) == Some(f) && Wakes(s)[f] == 0
    ensures Shape(Enqueue(s, Resume(f), pin), Wakes(Enqueue(s, Resume(f), pin)))
  {
    ArmShape(s, Wakes(s), w, f);
    EnqueueWakes(s, Resume(f), pin);
    ShapeSame(s, Enqueue(s, Resume(f), pin), Wakes(s) + multiset{f});
  }

  lemma {:induction false} DeliverKeepsShape(s: State, w: nat, f: nat)
    requires Shape(s, Wakes(s)) && RunBy(s, w) == Some(f) && s.fibers[f].carry.Some?
    ensures Shape(DoDeliver(s, f), Wakes(DoDeliver(s, f)))
  {
    var u := s.(fibers := s.fibers[f := s.fibers[f].(carry := None)]);
    DeliverShape(s, Wakes(s), w, f);
    FiberWakes(s, f, s.fibers[f].(carry := None));
    EnqueueWakes(u, Resume(s.fibers[f].carry.value), ANY_THREAD);
    ShapeSame(u, DoDeliver(s, f), Wakes(s));
  }

  lemma {:induction false} LeaveKeepsShape(s: State, w: nat, f: nat, st: FiberState)
    requires Shape(s, Wakes(s)) && RunBy(s, w) == Some(f) && s.fibers[f].carry == None
    requires (st == EXEC && Wakes(s)[f] == 1) || (Over(st) && Wakes(s)[f] == 0)
    ensures s.fibers[f].state == EXEC
    ensures Shape(DoLeave(s, w, f, st), Wakes(DoLeave(s, w, f, st)))
  {
    LeaveShape(s, Wakes(s), w, f, st);
    LeaveWakes(s, w, f, st);
  }

  lemma {:induction false} LeaveWakes(s: State, w: nat, f: nat, st: FiberState)
    requires RunBy(s, w) == Some(f)
    ensures Wakes(DoLeave(s, w, f, st)) == Wakes(s)
  {
    var t := DoLeave(s, w, f, st);
    UpdateWakes(s, w, t.workers[w], f, t.fibers[f]);
  }

  lemma {:induction false} CountDownKeepsShape(s: State, w: nat)
    requires Shape(s, Wakes(s)) && CanLoop(s, w, CountDown)
    ensures Shape(DoCountDown(s, w), Wakes(DoCountDown(s, w)))
  {
    var t := DoCountDown(s, w);
    CountDownShape(s, Wakes(s), w);
    WorkerWakesSame(s, w, t.workers[w]);
    ShapeSame(s.(workers := t.workers), t, Wakes(s));
    assert Wakes(t) == Wakes(s.(workers := t.workers));
  }

  lemma {:induction false} SettleWakes(s: State, w: nat)
    requires CanLoop(s, w, Settle)
    ensures Wakes(DoSettle(s, w)) == Wakes(s)
  {
    var t, f := DoSettle(s, w), s.workers[w].phase.fiber;
    UpdateWakes(s, w, t.workers[w], f, t.fibers[f]);
    assert t == Update(s, w, t.workers[w], f, t.fibers[f]);
  }

  lemma {:induction false} SettleKeepsShape(s: State, w: nat)
    requires Shape(s, Wakes(s)) && CanLoop(s, w, Settle)
    ensures Shape(DoSettle(s, w), Wakes(DoSettle(s, w)))
  {
    SettleShape(s, Wakes(s), w);
    SettleWakes(s, w);
  }

  lemma {:induction false} ReadFacts(x: Worker, quiet: bool)
    requires x.phase.Stopping? && x.idleLive
    ensures var y := AfterRead(x, quiet);
      && OnStack(y.phase) == None && !y.phase.Took? && y.cbFiber == x.cbFiber
      && PhaseWake(y) == multiset{}
      && (InIdle(y.phase) ==> y.idleLive) && (y.phase.Left? ==> !y.idleLive)
  {}

  lemma {:induction false} ReadKeepsShape(s: State, w: nat, quiet: bool)
    requires Shape(s, Wakes(s)) && w < |s.workers| && s.workers[w].phase.Stopping?
    ensures Shape(DoRead(s, w, quiet), Wakes(DoRead(s, w, quiet)))
  {
    assert WorkerOk(s, w);
    ReadFacts(s.workers[w], quiet);
    PlainStepShape(s, w, AfterRead(s.workers[w], quiet));
  }

  lemma {:induction false} BatchWakes(s: State, w: nat, task: Task)
    requires w < |s.workers| && s.workers[w].phase.IdleExpiring?
    ensures Wakes(WithPhase(s, w, IdleExpiring(s.workers[w].phase.batch + [task]))) == Wakes(s) + TaskWake(task)
  {
    var batch := s.workers[w].phase.batch;
    var x := s.workers[w].(phase := IdleExpiring(batch + [task]));
    SumAppend(TaskWake, batch, task);
    BatchPhaseWake(s.workers[w]);
    BatchPhaseWake(x);
    WorkerWakesAdd(s, w, x, TaskWake(task));
  }

  lemma {:induction false} ExpireWakes(s: State, w: nat, i: nat, again: bool)
    requires w < |s.workers| && s.workers[w].phase.IdleExpiring? && i < |s.timers|
    requires again ==> s.timers[i] == Call(None)
    ensures Wakes(DoExpire(s, w, i, again)) == Wakes(s)
  {
    if again {
      BatchWakes(s, w, s.timers[i]);
    } else {
      PoolWithoutWakes(s, Timers, i);
      BatchWakes(WithPool(s, Timers, Without(s.timers, i)), w, s.timers[i]);
    }
  }

  lemma {:induction false} ExpireKeepsShape(s: State, w: nat, i: nat, again: bool)
    requires Shape(s, Wakes(s)) && w < |s.workers| && s.workers[w].phase.IdleExpiring? && i < |s.timers|
    requires again ==> s.timers[i] == Call(None)
    ensures Shape(DoExpire(s, w, i, again), Wakes(DoExpire(s, w, i, again)))
  {
    assert WorkerOk(s, w);
    var t := DoExpire(s, w, i, again);
    PlainPhaseShape(s, Wakes(s), w, t.workers[w]);
    ShapeSame(s.(workers := t.workers), t, Wakes(s));
    ExpireWakes(s, w, i, again);
  }

  lemma {:induction false} AsEntriesWakes(batch: seq<Task>)
    ensures Sum(EntryWake, AsEntries(batch)) == Sum(TaskWake, batch)
  {
    if batch != [] {
      var n := |batch| - 1;
      AsEntriesWakes(batch[..n]);
      SumAppend(EntryWake, AsEntries(batch[..n]), Entry(batch[n], ANY_THREAD));
    }
  }

  lemma {:induction false} EnqueueAllWakes(s: State, batch: seq<Task>)
    ensures Wakes(s.(queue := s.queue + AsEntries(batch))) == Wakes(s) + Sum(TaskWake, batch)
  {
    SumConcat(EntryWake, s.queue, AsEntries(batch));
    AsEntriesWakes(batch);
  }

  lemma {:induction false} ScheduleBatchWakes(s: State, w: nat)
    requires w < |s.workers| && s.workers[w].phase.IdleExpiring?
    ensures Wakes(DoScheduleBatch(s, w)) == Wakes(s)
  {
    var batch := s.workers[w].phase.batch;
    EnqueueAllWakes(s, batch);
    BatchPhaseWake(s.workers[w]);
    WorkerWakesDropTo(s.(queue := s.queue + AsEntries(batch)), w, s.workers[w].(phase := IdleDispatching),
                      Sum(TaskWake, batch), Wakes(s));
  }

  lemma {:induction false} ScheduleBatchKeepsShape(s: State, w: nat)
    requires Shape(s, Wakes(s)) && w < |s.workers| && s.workers[w].phase.IdleExpiring?
    ensures Shape(DoScheduleBatch(s, w), Wakes(DoScheduleBatch(s, w)))
  {
    assert WorkerOk(s, w);
    var t := DoScheduleBatch(s, w);
    PlainPhaseShape(s, Wakes(s), w, t.workers[w]);
    ShapeSame(s.(workers := t.workers), t, Wakes(s));
    ScheduleBatchWakes(s, w);
  }

  lemma {:induction false} YieldKeepsShape(s: State, w: nat, f: nat)
    requires Shape(s, Wakes(s)) && RunBy(s, w) == Some(f) && s.fibers[f].carry == None && Wakes(s)[f] == 1
    ensures s.fibers[f].state == EXEC
    ensures var t := DoLeave(s, w, f, s.fibers[f].state); Shape(t, Wakes(t))
  {
    assert WorkerOk(s, w) && FiberOk(s, f, Wakes(s)[f]);
    LeaveKeepsShape(s, w, f, EXEC);
  }

  lemma {:induction false} IdlePhaseKeepsShape(s: State, w: nat, p: Phase)
    requires Shape(s, Wakes(s)) && w < |s.workers|
    requires s.workers[w].phase.IdleDispatching? || s.workers[w].phase.Unstarted?
    requires p.Scanning? || p.Stopping?
    ensures Shape(WithPhase(s, w, p), Wakes(WithPhase(s, w, p)))
  {
    assert WorkerOk(s, w);
    PlainStepShape(s, w, s.workers[w].(phase := p));
  }

  lemma {:induction false} LoopKeepsShape(s: State, w: nat, step: LoopStep)
    requires Shape(s, Wakes(s)) && CanLoop(s, w, step)
    ensures LoopAsserts(s, w, step)
    ensures Shape(DoLoop(s, w, step), Wakes(DoLoop(s, w, step)))
  {
    match step
    case Scan => ScanShape(s, w);
    case SwapIn => SwapInKeepsShape(s, w, ResumedBy(s, w).value);
    case SkipFinished => NeverSkips(s, w, ResumedBy(s, w).value);
    case StartCall => StartCallKeepsShape(s, w);
    case CountDown => CountDownKeepsShape(s, w);
    case Settle => SettleKeepsShape(s, w);
  }

  lemma {:induction false} TaskKeepsShape(s: State, w: nat, step: FiberStep)
    requires Shape(s, Wakes(s)) && CanTask(s, w, step)
    ensures step.Yield? ==> StateOf(s, RunBy(s, w)) == EXEC
    ensures Shape(DoTask(s, w, step), Wakes(DoTask(s, w, step)))
  {
    var f := RunBy(s, w).value;
    match step
    case Arm(src, task) => ArmKeepsShape(s, w, f, src, task);
    case ScheduleSelf(pin) => ScheduleSelfKeepsShape(s, w, f, pin);
    case Deliver => DeliverKeepsShape(s, w, f);
    case Yield => YieldKeepsShape(s, w, f);
    case Finish(normally) => LeaveKeepsShape(s, w, f, if normally then TERM else EXCEPT);
  }

  lemma {:induction false} SharedKeepsShape(s: State, who: Actor, step: SharedStep)
    requires Shape(s, Wakes(s)) && CanShare(s, who, step)
    ensures Shape(DoShared(s, who, step), Wakes(DoShared(s, who, step)))
  {
    match step
    case Spawn(pin) => SpawnKeepsShape(s, pin);
    case Post(pin) => PostKeepsShape(s, pin);
    case AddCallback(src) => AddCallbackKeepsShape(s, src);
    case Fire(src, i) => FireKeepsShape(s, src, i);
    case Discard(src, i) => DiscardKeepsShape(s, src, i);
  }

  lemma {:induction false} IdleKeepsShape(s: State, w: nat, step: IdleStep)
    requires Shape(s, Wakes(s)) && CanIdle(s, w, step)
    ensures Shape(DoIdle(s, w, step), Wakes(DoIdle(s, w, step)))
  {
    match step
    case ReadTimers => ReadKeepsShape(s, w, s.timers == []);
    case ReadPending => ReadKeepsShape(s, w, s.events == []);
    case ReadScheduler => ReadKeepsShape(s, w, SchedulerQuiet(s));
    case Expire(i, again) => ExpireKeepsShape(s, w, i, again);
    case ScheduleBatch => ScheduleBatchKeepsShape(s, w);
    case Dispatch(i) => FireKeepsShape(s, Events, i);
    case IdleYield => IdlePhaseKeepsShape(s, w, Scanning);
  }

  lemma {:induction false} StepShape(s: State, step: Step)
    requires Shape(s, Wakes(s)) && Enabled(s, step)
    ensures AssertionsHold(s, step)
    ensures Shape(Apply(s, step), Wakes(Apply(s, step)))
  {
    match step
    case Loop(w, loop) => LoopKeepsShape(s, w, loop);
    case Task(w, task) => TaskKeepsShape(s, w, task);
    case Shared(who, shared) => SharedKeepsShape(s, who, shared);
    case Idle(w, idle) => IdleKeepsShape(s, w, idle);
    case RequestStop => MoveKeepsShape(s, s.(autoStop := true));
    case MarkStopping => MoveKeepsShape(s, s.(stopping := true));
    case CallStop(w) => IdlePhaseKeepsShape(s, w, Stopping(0, true));
  }

  lemma {:induction false} LoopCount(s: State, w: nat, step: LoopStep)
    requires CountOk(s) && CanLoop(s, w, step)
    ensures CountOk(DoLoop(s, w, step))
  {
    var t := DoLoop(s, w, step);
    CountKept(s, t, w, t.workers[w]);
  }

  lemma {:induction false} IdleCount(s: State, w: nat, step: IdleStep)
    requires CountOk(s) && CanIdle(s, w, step)
    ensures CountOk(DoIdle(s, w, step))
  {
    var t := DoIdle(s, w, step);
    if !step.Dispatch? { CountKept(s, t, w, t.workers[w]); }
  }

  /** A running fiber's steps leave its worker active, with the same idle fiber. */
  lemma {:induction false} TaskFrame(s: State, w: nat, step: FiberStep)
    requires RunBy(s, w).Some? && (step.Deliver? ==> s.fibers[RunBy(s, w).value].carry.Some?)
    ensures var t := DoTask(s, w, step);
      && t.active == s.active && t.autoStop == s.autoStop && t.stopping == s.stopping
      && (|| t.workers == s.workers
          || exists f, viaCb :: t.workers == s.workers[w := s.workers[w].(phase := SwappedOut(f, viaCb))])
  {
    var f := RunBy(s, w).value;
    if step.Yield? || step.Finish? {
      var viaCb := s.workers[w].phase.viaCb;
      assert DoTask(s, w, step).workers == s.workers[w := s.workers[w].(phase := SwappedOut(f, viaCb))];
    }
  }

  lemma {:induction false} LeavingCount(s: State, t: State, w: nat, f: nat, viaCb: bool)
    requires CountOk(s) && w < |s.workers| && s.workers[w].phase.Running? && t.active == s.active
    requires t.workers == s.workers[w := s.workers[w].(phase := SwappedOut(f, viaCb))]
    ensures CountOk(t)
  {
    CountKept(s, t, w, s.workers[w].(phase := SwappedOut(f, viaCb)));
  }

  lemma {:induction false} TaskCount(s: State, w: nat, step: FiberStep)
    requires CountOk(s) && CanTask(s, w, step)
    ensures CountOk(DoTask(s, w, step))
  {
    TaskFrame(s, w, step);
    var t := DoTask(s, w, step);
    if t.workers != s.workers {
      var f, viaCb :| t.workers == s.workers[w := s.workers[w].(phase := SwappedOut(f, viaCb))];
      LeavingCount(s, t, w, f, viaCb);
    }
  }

  lemma {:induction false} SameCount(s: State, t: State)
    requires CountOk(s) && t.workers == s.workers && t.active == s.active
    ensures CountOk(t)
  {}

  lemma {:induction false} StepCount(s: State, step: Step)
    requires CountOk(s) && Enabled(s, step)
    ensures CountOk(Apply(s, step))
  {
    match step
    case Loop(w, loop) => LoopCount(s, w, loop);
    case Task(w, task) => TaskCount(s, w, task);
    case Shared(who, shared) => SameCount(s, DoShared(s, who, shared));
    case Idle(w, idle) => IdleCount(s, w, idle);
    case RequestStop => SameCount(s, s.(autoStop := true));
    case MarkStopping => SameCount(s, s.(stopping := true));
    case CallStop(w) => CountKept(s, Apply(s, step), w, s.workers[w].(phase := Stopping(0, true)));
  }

  // Which idle fibers are alive, and whether there is work for them.

  lemma {:induction false} ScanLive(s: State, w: nat)
    requires CountOk(s) && LiveOk(s) && w < |s.workers| && s.workers[w].phase.Scanning?
    ensures LiveOk(DoScan(s, w))
  {
    LiveKept(s, DoScan(s, w));
  }

  lemma {:induction false} LoopLive(s: State, w: nat, step: LoopStep)
    requires CountOk(s) && LiveOk(s) && CanLoop(s, w, step)
    ensures LiveOk(DoLoop(s, w, step))
  {
    if step.Scan? {
      ScanLive(s, w);
    } else {
      if !step.Settle? { BusyWorker(s, w); }
      LiveKept(s, DoLoop(s, w, step));
    }
  }

  lemma {:induction false} BusyLive(s: State, t: State, w: nat)
    requires CountOk(s) && LiveOk(s) && SameIdle(s, t) && w < |s.workers| && s.workers[w].phase.Running?
    ensures LiveOk(t)
  {
    BusyWorker(s, w);
    LiveKept(s, t);
  }

  lemma {:induction false} TaskLive(s: State, w: nat, step: FiberStep)
    requires CountOk(s) && LiveOk(s) && RunBy(s, w).Some? && (step.Deliver? ==> s.fibers[RunBy(s, w).value].carry.Some?)
    ensures LiveOk(DoTask(s, w, step))
  {
    TaskFrame(s, w, step);
    BusyLive(s, DoTask(s, w, step), w);
  }

  lemma {:induction false} ActorKeepsLive(s: State, t: State, who: Actor)
    requires CountOk(s) && LiveOk(s) && MayAct(s, who)
    requires t.workers == s.workers && t.autoStop == s.autoStop && t.stopping == s.stopping
    ensures LiveOk(t)
  {
    ActorLive(s, who);
    LiveKept(s, t);
  }

  lemma {:induction false} IdleLive(s: State, w: nat, step: IdleStep)
    requires LiveOk(s) && CanIdle(s, w, step) && s.workers[w].idleLive
    requires !(step.ReadScheduler? && SchedulerQuiet(s))
    ensures LiveOk(DoIdle(s, w, step))
  {
    LiveKept(s, DoIdle(s, w, step));
  }

  /** The step that ends an idle fiber: either another one is alive, or the test was fresh and
      whatever could remain would be a batch in the hands of another live worker. */
  lemma {:induction false} LastReadLive(s: State, w: nat, m: multiset<nat>)
    requires Shape(s, m) && CanIdle(s, w, ReadScheduler) && SchedulerQuiet(s)
    requires FreshStop(s, Idle(w, ReadScheduler))
    ensures LiveOk(DoIdle(s, w, ReadScheduler))
  {
    var t := DoIdle(s, w, ReadScheduler);
    if HasBatch(t) {
      var v :| 0 <= v < |t.workers| && t.workers[v].phase.IdleExpiring? && t.workers[v].phase.batch != [];
      assert WorkerOk(s, v);
      assert t.workers[v].idleLive;
    } else if !LastStop(s, Idle(w, ReadScheduler)) {
      var v :| 0 <= v < |s.workers| && v != w && s.workers[v].idleLive;
      assert t.workers[v].idleLive;
    }
  }

  lemma {:induction false} StepLive(s: State, step: Step)
    requires Inv(s) && Enabled(s, step) && FreshStop(s, step)
    ensures LiveOk(Apply(s, step))
  {
    match step
    case Loop(w, loop) => LoopLive(s, w, loop);
    case Task(w, task) => TaskLive(s, w, task);
    case Shared(who, shared) => ActorKeepsLive(s, DoShared(s, who, shared), who);
    case Idle(w, idle) => IdleStepLive(s, w, idle, Wakes(s));
    case RequestStop => FlagsLive(s, s.(autoStop := true));
    case MarkStopping => FlagsLive(s, s.(stopping := true));
    case CallStop(w) => LiveKept(s, WithPhase(s, w, Stopping(0, true)));
  }

  lemma {:induction false} IdleStepLive(s: State, w: nat, idle: IdleStep, m: multiset<nat>)
    requires Shape(s, m) && LiveOk(s) && CanIdle(s, w, idle) && FreshStop(s, Idle(w, idle))
    ensures LiveOk(DoIdle(s, w, idle))
  {
    assert WorkerOk(s, w);
    if idle.ReadScheduler? && SchedulerQuiet(s) {
      LastReadLive(s, w, m);
    } else {
      IdleLive(s, w, idle);
    }
  }

  lemma {:induction false} FlagsLive(s: State, t: State)
    requires LiveOk(s) && t == s.(autoStop := t.autoStop, stopping := t.stopping)
    requires (s.autoStop ==> t.autoStop) && (s.stopping ==> t.stopping)
    ensures LiveOk(t)
  {
    if SomeIdleLive(s) {
      var w :| 0 <= w < |s.workers| && s.workers[w].idleLive;
      assert t.workers[w].idleLive;
    }
  }
}
