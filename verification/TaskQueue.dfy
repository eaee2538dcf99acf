/** The shared task list of the scheduler: what `schedule` appends to and what a worker's
    scan under the scheduler lock takes from. */
module TaskQueue {
  import opened Common

  datatype FiberState = INIT | HOLD | EXEC | TERM | READY | EXCEPT

  /** A fiber to switch to, or a callback to run on a fresh fiber. `wakes` is the fiber, if any,
      that the callback's own body schedules (the timer callbacks of the sleep hooks do this). */
  datatype Task = Resume(fiber: nat) | Call(wakes: Option<nat>)

  /** A task with the thread it is bound to; `ANY_THREAD` leaves it free. */
  datatype Entry = Entry(task: Task, pin: int)

  const ANY_THREAD: int := -1

  predicate PinnedElsewhere(e: Entry, me: int) {
    e.pin != ANY_THREAD && e.pin != me
  }

  predicate Executing(t: Task, states: seq<FiberState>) {
    t.Resume? && t.fiber < |states| && states[t.fiber] == EXEC
  }

  predicate Eligible(e: Entry, me: int, states: seq<FiberState>) {
    !PinnedElsewhere(e, me) && !Executing(e.task, states)
  }

  /** The position of the first entry that worker `me` may take, or `|q|` if there is none. */
  function Pick(q: seq<Entry>, me: int, states: seq<FiberState>): (i: nat)
    ensures i <= |q|
    ensures i < |q| ==> Eligible(q[i], me, states)
    ensures forall j :: 0 <= j < i ==> !Eligible(q[j], me, states)
  {
    if q == [] then 0
    else if Eligible(q[0], me, states) then 0
    else
      var rest := Pick(q[1..], me, states);
      assert forall j :: 0 < j < rest + 1 ==> q[j] == q[1..][j - 1];
      rest + 1
  }

  /** Whether the scan asks for another worker to be woken. */
  ghost predicate WantsTickle(q: seq<Entry>, me: int, states: seq<FiberState>) {
    var i := Pick(q, me, states);
    i + 1 < |q| || exists j :: 0 <= j < i && PinnedElsewhere(q[j], me)
  }

  /** A scan in the entries' own fields: it stops at the first entry that is for any thread (-1) or for this one and
      whose fiber, if it is one, is not EXEC; and it asks for a tickle exactly when it passed an entry for
      another thread or left one behind where it stopped. */
  lemma ScanMeans(q: seq<Entry>, me: int, states: seq<FiberState>)
    ensures var i := Pick(q, me, states);
      && (forall j :: 0 <= j <= i && j < |q| ==>
            (j == i <==> (q[j].pin == -1 || q[j].pin == me) &&
                         !(q[j].task.Resume? && q[j].task.fiber < |states| && states[q[j].task.fiber] == EXEC)))
      && (WantsTickle(q, me, states) <==>
            i + 1 < |q| || exists j :: 0 <= j < i && q[j].pin != -1 && q[j].pin != me)
  {
    var i := Pick(q, me, states);
    forall j | 0 <= j <= i && j < |q| ensures j == i <==> Eligible(q[j], me, states) {
    }
  }

  /** What scheduling a batch appends is, in order, its non-empty tasks, for any thread: batch by batch, and one by
      one. */
  lemma {:induction false} UnpinnedMeans(a: seq<Option<Task>>, b: seq<Option<Task>>, t: Task)
    ensures Unpinned(a + b) == Unpinned(a) + Unpinned(b)
    ensures Unpinned([Some(t)]) == [Entry(t, -1)] && Unpinned([None]) == []
  {
    assert [Some(t)][..0] == [] && [Option<Task>.None][..0] == [];
    if b == [] {
      assert a + b == a;
    } else {
      var n := |b| - 1;
      UnpinnedMeans(a, b[..n], t);
      assert (a + b)[..|a + b| - 1] == a + b[..n];
    }
  }

  class Scheduler {
    var fibers: seq<Entry>
    var activeThreadCount: nat

    constructor ()
      ensures fibers == [] && activeThreadCount == 0
    {
      fibers, activeThreadCount := [], 0;
    }

    /** `schedulerNoLock`: an empty task is dropped, anything else goes to the back. */
    method ScheduleNoLock(task: Option<Task>, pin: int) returns (needTickle: bool)
      modifies this`fibers
      ensures needTickle == (old(fibers) == [])
      ensures fibers == if task.Some? then old(fibers) + [Entry(task.value, pin)] else old(fibers)
    {
      needTickle := fibers == [];
      if task.Some? {
        fibers := fibers + [Entry(task.value, pin)];
      }
    }

    /** The batch form of `schedule`: every task of the batch in order and unpinned; the wake-up
        is asked for exactly when the list was empty beforehand. */
    method ScheduleAll(batch: seq<Option<Task>>) returns (needTickle: bool)
      modifies this`fibers
      ensures fibers == old(fibers) + Unpinned(batch)
      ensures needTickle == (batch != [] && old(fibers) == [])
    {
      needTickle := false;
      var k := 0;
      while k < |batch|
        invariant k <= |batch|
        invariant fibers == old(fibers) + Unpinned(batch[..k])
        invariant needTickle == (k > 0 && old(fibers) == [])
      {
        var need := ScheduleNoLock(batch[k], ANY_THREAD);
        needTickle := need || needTickle;
        assert batch[..k + 1][..k] == batch[..k];
        k := k + 1;
      }
      assert batch[..k] == batch;
    }

    /** The locked part of one turn of `run`: take the first entry this worker may run. */
    method Take(me: int, states: seq<FiberState>) returns (taken: Option<Entry>, tickleMe: bool)
      modifies this
      ensures var q := old(fibers); var i := Pick(q, me, states);
        if i < |q| then
          taken == Some(q[i]) && fibers == Without(q, i) && activeThreadCount == old(activeThreadCount) + 1
        else
          taken == None && fibers == q && activeThreadCount == old(activeThreadCount)
      ensures tickleMe <==> WantsTickle(old(fibers), me, states)
    {
      taken, tickleMe := None, false;
      var it, end := 0, |fibers|;
      while it < end && taken.None?
        invariant it <= end
        invariant taken.None? ==>
          fibers == old(fibers) && activeThreadCount == old(activeThreadCount) && end == |fibers|
        invariant taken.None? ==> forall j :: 0 <= j < it ==> !Eligible(fibers[j], me, states)
        invariant taken.None? ==> (tickleMe <==> exists j :: 0 <= j < it && PinnedElsewhere(fibers[j], me))
        invariant taken.Some? ==> it < |old(fibers)| && it == Pick(old(fibers), me, states)
        invariant taken.Some? ==> taken.value == old(fibers)[it] && fibers == Without(old(fibers), it)
        invariant taken.Some? ==> activeThreadCount == old(activeThreadCount) + 1 && end == |old(fibers)| - 1
        invariant taken.Some? ==> (tickleMe <==> exists j :: 0 <= j < it && PinnedElsewhere(old(fibers)[j], me))
        decreases end - it, taken.None?
      {
        var e := fibers[it];
        if e.pin != ANY_THREAD && e.pin != me {
          it := it + 1;
          tickleMe := true;
        } else if Executing(e.task, states) {
          it := it + 1;
        } else {
          taken := Some(e);
          fibers := Without(fibers, it);
          end := end - 1;
          activeThreadCount := activeThreadCount + 1;
        }
      }
      tickleMe := tickleMe || it != end;
    }
  }

  /** The entries that scheduling a batch appends. */
  function Unpinned(batch: seq<Option<Task>>): seq<Entry> {
    if batch == [] then []
    else
      var last := batch[|batch| - 1];
      Unpinned(batch[..|batch| - 1]) + (if last.Some? then [Entry(last.value, ANY_THREAD)] else [])
  }

  // ----- Conservation over runs ------------------------------------------------------------

  datatype QueueOp = Push(entry: Entry) | TakeFor(me: int, states: seq<FiberState>)

  /** Everything accepted so far, with the tickets (arrival numbers) still queued and those taken. */
  datatype Ledger = Ledger(accepted: seq<Entry>, queue: seq<nat>, taken: seq<nat>)
  {
    ghost predicate Valid() {
      forall k :: 0 <= k < |queue| ==> queue[k] < |accepted|
    }
    /** The task list as the scheduler holds it. */
    function Entries(): seq<Entry>
      requires Valid()
    {
      seq(|queue|, k requires 0 <= k < |queue| => accepted[queue[k]])
    }
  }

  ghost function Record(l: Ledger, op: QueueOp): (l': Ledger)
    requires l.Valid()
    ensures l'.Valid()
  {
    match op
    case Push(e) => Ledger(l.accepted + [e], l.queue + [|l.accepted|], l.taken)
    case TakeFor(me, states) =>
      var i := Pick(l.Entries(), me, states);
      if i < |l.queue| then Ledger(l.accepted, Without(l.queue, i), l.taken + [l.queue[i]]) else l
  }

  ghost function RecordAll(ops: seq<QueueOp>): (l: Ledger)
    ensures l.Valid()
  {
    if ops == [] then Ledger([], [], []) else Record(RecordAll(ops[..|ops| - 1]), ops[|ops| - 1])
  }

  ghost predicate Increasing(s: seq<nat>) {
    forall i, j :: 0 <= i < j < |s| ==> s[i] < s[j]
  }

  /** The list operations of the scheduler are those of the ledger. */
  lemma LedgerFollowsQueue(l: Ledger, op: QueueOp)
    requires l.Valid()
    ensures op.Push? ==> Record(l, op).Entries() == l.Entries() + [op.entry]
    ensures op.TakeFor? ==>
      var q := l.Entries(); var i := Pick(q, op.me, op.states);
      Record(l, op).Entries() == if i < |q| then Without(q, i) else q
  {
    match op
    case Push(e) =>
      assert Record(l, op).Entries() == l.Entries() + [e];
    case TakeFor(me, states) =>
      var q := l.Entries();
      var i := Pick(q, me, states);
      if i < |q| {
        assert Record(l, op).Entries() == Without(q, i);
      }
  }

  /** Every accepted ticket is queued or taken, exactly once in all. */
  ghost predicate EachOnce(l: Ledger) {
    forall t: nat :: multiset(l.queue)[t] + multiset(l.taken)[t] == if t < |l.accepted| then 1 else 0
  }

  lemma TakeKeepsEachOnce(l: Ledger, i: nat)
    requires EachOnce(l) && i < |l.queue|
    ensures EachOnce(Ledger(l.accepted, Without(l.queue, i), l.taken + [l.queue[i]]))
  {
    assert l.queue == l.queue[..i] + [l.queue[i]] + l.queue[i + 1..];
    assert multiset(l.queue) == multiset(Without(l.queue, i)) + multiset{l.queue[i]};
    assert multiset(l.taken + [l.queue[i]]) == multiset(l.taken) + multiset{l.queue[i]};
  }

  lemma PushKeepsEachOnce(l: Ledger, e: Entry)
    requires EachOnce(l)
    ensures EachOnce(Ledger(l.accepted + [e], l.queue + [|l.accepted|], l.taken))
  {
    var ticket: nat := |l.accepted|;
    assert multiset(l.queue + [ticket]) == multiset(l.queue) + multiset{ticket};
  }

  lemma StepKeepsEachOnce(l: Ledger, op: QueueOp)
    requires l.Valid() && EachOnce(l) && Increasing(l.queue)
    ensures EachOnce(Record(l, op)) && Increasing(Record(l, op).queue)
  {
    match op
    case Push(e) =>
      PushKeepsEachOnce(l, e);
    case TakeFor(me, states) =>
      var i := Pick(l.Entries(), me, states);
      if i < |l.queue| {
        TakeKeepsEachOnce(l, i);
      }
  }

  /** Whatever is pushed and scanned, in any order and by any workers: every accepted entry is
      either still queued or was taken, exactly once in all, and those still queued are in
      arrival order. */
  lemma {:induction false} QueueConservation(ops: seq<QueueOp>)
    ensures EachOnce(RecordAll(ops)) && Increasing(RecordAll(ops).queue)
  {
    if ops != [] {
      QueueConservation(ops[..|ops| - 1]);
      StepKeepsEachOnce(RecordAll(ops[..|ops| - 1]), ops[|ops| - 1]);
    }
  }
}
