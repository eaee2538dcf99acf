/** The fiber semaphore refines one integer and grants in arrival order. */
module FiberSemaphore {
  /** A waiting fiber with the scheduler to put it back on. */
  datatype Waiter = Waiter(scheduler: nat, fiber: nat)

  datatype Op = Wait(who: Waiter) | TryWait | Notify

  /** The counter and the queue, with three histories: who called `wait` in order, whose `wait` was
      granted in order (at once or by a `notify`), and the integer the semaphore stands for. */
  datatype State = State(concurrency: nat, waiters: seq<Waiter>, arrived: seq<Waiter>, granted: seq<Waiter>, value: int)

  function Start(n: nat): State { State(n, [], [], [], n) }

  /** Whether the caller goes on at once. */
  predicate Passes(s: State) {
    s.concurrency > 0
  }

  function Apply(s: State, op: Op): State {
    match op
    case Wait(w) =>
      var s1 := s.(arrived := s.arrived + [w], value := s.value - 1);
      if Passes(s) then s1.(concurrency := s.concurrency - 1, granted := s.granted + [w])
      else s1.(waiters := s.waiters + [w])
    case TryWait =>
      if Passes(s) then s.(concurrency := s.concurrency - 1, value := s.value - 1) else s
    case Notify =>
      var s1 := s.(value := s.value + 1);
      if s.waiters != [] then s1.(waiters := s.waiters[1..], granted := s.granted + [s.waiters[0]])
      else s1.(concurrency := s.concurrency + 1)
  }

  function Run(n: nat, ops: seq<Op>): State {
    if ops == [] then Start(n) else Apply(Run(n, ops[..|ops| - 1]), ops[|ops| - 1])
  }

  function Max0(x: int): nat { if x > 0 then x else 0 }

  /** The semaphore is its integer: positive is spare concurrency, negative is waiters; and the waits
      granted so far, followed by those still waiting, are all the waits in the order they came. */
  predicate Refines(s: State) {
    && s.concurrency == Max0(s.value)
    && |s.waiters| == Max0(-s.value)
    && s.granted + s.waiters == s.arrived
  }

  lemma StepRefines(s: State, op: Op)
    requires Refines(s)
    ensures Refines(Apply(s, op))
  {
    match op
    case Wait(w) =>
      if Passes(s) {
        assert s.granted == s.arrived;
      } else {
        assert s.granted + (s.waiters + [w]) == s.arrived + [w];
      }
    case TryWait =>
    case Notify =>
      if s.waiters != [] {
        assert (s.granted + [s.waiters[0]]) + s.waiters[1..] == s.granted + s.waiters;
      }
  }

  /** Semaphore refinement: every run of wait, tryWait and notify, from any initial count. */
  lemma {:induction false} SemaphoreRefinement(n: nat, ops: seq<Op>)
    ensures Refines(Run(n, ops))
  {
    if ops != [] {
      SemaphoreRefinement(n, ops[..|ops| - 1]);
      StepRefines(Run(n, ops[..|ops| - 1]), ops[|ops| - 1]);
    }
  }

  function Waits(ops: seq<Op>): nat {
    if ops == [] then 0 else Waits(ops[..|ops| - 1]) + if ops[|ops| - 1].Wait? then 1 else 0
  }

  function Notifies(ops: seq<Op>): nat {
    if ops == [] then 0 else Notifies(ops[..|ops| - 1]) + if ops[|ops| - 1].Notify? then 1 else 0
  }

  /** How many `tryWait` calls of the run returned true. */
  function Taken(n: nat, ops: seq<Op>): nat {
    if ops == [] then 0
    else
      var k := |ops| - 1;
      Taken(n, ops[..k]) + if ops[k].TryWait? && Passes(Run(n, ops[..k])) then 1 else 0
  }

  /** The integer is the initial count plus notifies minus waits minus successful tryWaits, so the
      balance of calls alone decides how many fibers wait and how many permits are left. */
  lemma {:induction false} CallsDecide(n: nat, ops: seq<Op>)
    ensures var s := Run(n, ops); var v := n + Notifies(ops) - Waits(ops) - Taken(n, ops);
      s.value == v && s.concurrency == Max0(v) && |s.waiters| == Max0(-v)
  {
    SemaphoreRefinement(n, ops);
    if ops != [] {
      CallsDecide(n, ops[..|ops| - 1]);
    }
  }

  class Semaphore {
    var concurrency: nat
    var waiters: seq<Waiter>
    /** What the schedulers were asked to run. */
    var scheduled: seq<Waiter>
    ghost var state: State

    constructor (n: nat)
      ensures Valid() && state == Start(n) && scheduled == []
    {
      concurrency, waiters, scheduled, state := n, [], [], Start(n);
    }

    ghost predicate Valid()
      reads this
    {
      concurrency == state.concurrency && waiters == state.waiters && Refines(state)
    }

    method TryWait() returns (r: bool)
      requires Valid()
      modifies this`concurrency, this`state
      ensures Valid() && state == Apply(old(state), Op.TryWait)
      ensures r == (old(state).value > 0)
      ensures concurrency == if r then old(concurrency) - 1 else old(concurrency)
    {
      StepRefines(state, Op.TryWait);
      r := false;
      if concurrency > 0 {
        concurrency := concurrency - 1;
        r := true;
      }
      state := Apply(state, Op.TryWait);
    }

    /** `blocks`: the caller is queued and must switch out. */
    method Wait(who: Waiter) returns (blocks: bool)
      requires Valid()
      modifies this`concurrency, this`waiters, this`state
      ensures Valid() && state == Apply(old(state), Op.Wait(who))
      ensures blocks == (old(state).value <= 0)
      ensures if blocks then waiters == old(waiters) + [who] && concurrency == old(concurrency)
              else waiters == old(waiters) && concurrency == old(concurrency) - 1
    {
      StepRefines(state, Op.Wait(who));
      if concurrency > 0 {
        concurrency := concurrency - 1;
        blocks := false;
      } else {
        waiters := waiters + [who];
        blocks := true;
      }
      state := Apply(state, Op.Wait(who));
    }

    /** Wakes the longest waiting fiber, if there is one, and nobody else. */
    method Notify()
      requires Valid()
      modifies this
      ensures Valid() && state == Apply(old(state), Op.Notify)
      ensures if old(waiters) == [] then scheduled == old(scheduled) && concurrency == old(concurrency) + 1
              else scheduled == old(scheduled) + [old(waiters)[0]] && concurrency == old(concurrency)
    {
      StepRefines(state, Op.Notify);
      if waiters != [] {
        var next := waiters[0];
        waiters := waiters[1..];
        scheduled := scheduled + [next];
      } else {
        concurrency := concurrency + 1;
      }
      state := Apply(state, Op.Notify);
    }
  }
}
