/** `Timer` and `TimerManager`: the objects, and the value-level operations they are proved to
    perform on the ordered set. */
module Timers {
  import opened Common
  import opened TimerSet

  /** What the manager holds: the set, the "already notified" flag and the last time seen. */
  datatype View = View(timers: seq<Rec>, tickled: bool, previous: nat)

  ghost predicate WellFormed(v: View) {
    Ordered(v.timers) && DistinctAddrs(v.timers) && v.previous < TWO_64
  }

  /** The position of the timer with identity `addr`, or `|s|`. */
  function Locate(s: seq<Rec>, addr: nat): (i: nat)
    ensures i <= |s|
    ensures i < |s| ==> s[i].addr == addr
    ensures forall j :: 0 <= j < i ==> s[j].addr != addr
  {
    if s == [] || s[0].addr == addr then 0
    else
      var rest := Locate(s[1..], addr);
      assert forall j :: 0 < j < rest + 1 ==> s[j] == s[1..][j - 1];
      rest + 1
  }

  /** The timer is in the set and has a callback to run. */
  predicate Armed(s: seq<Rec>, addr: nat) {
    var i := Locate(s, addr);
    i < |s| && s[i].cb.Some?
  }

  /** Insertion with the notification rule: whoever inserts at the front first since the last
      `getNextTimer` notifies. */
  function Inserted(v: View, r: Rec): View {
    v.(timers := Insert(v.timers, r), tickled := v.tickled || Notifies(v, r))
  }

  predicate Notifies(v: View, r: Rec) {
    LowerBound(v.timers, r.next, r.addr) == 0 && !v.tickled
  }

  function Cancelled(v: View, addr: nat): View {
    if Armed(v.timers, addr) then v.(timers := Without(v.timers, Locate(v.timers, addr))) else v
  }

  function Refreshed(v: View, addr: nat, now: nat): View {
    if Armed(v.timers, addr) then
      var i := Locate(v.timers, addr);
      v.(timers := Insert(Without(v.timers, i), v.timers[i].(next := Add64(now, v.timers[i].ms))))
    else v
  }

  function Restarted(r: Rec, ms: nat, fromNow: bool, now: nat): Rec {
    var start := if fromNow then now else Sub64(r.next, r.ms);
    r.(ms := ms, next := Add64(start, ms))
  }

  /** The new deadline: the new period from now, or from the start of the current period, modulo 2^64. */
  lemma RestartedMeans(r: Rec, ms: nat, fromNow: bool, now: nat)
    ensures var next := if fromNow then now + ms else r.next - r.ms + ms;
      Restarted(r, ms, fromNow, now) == r.(ms := ms, next := next % 0x1_0000_0000_0000_0000)
  {
  }

  /** Whether a `reset` of an armed timer moves it at all. */
  predicate Moves(r: Rec, ms: nat, fromNow: bool) {
    ms != r.ms || fromNow
  }

  function ResetView(v: View, addr: nat, ms: nat, fromNow: bool, now: nat): View {
    var i := Locate(v.timers, addr);
    if Armed(v.timers, addr) && Moves(v.timers[i], ms, fromNow) then
      Inserted(v.(timers := Without(v.timers, i)), Restarted(v.timers[i], ms, fromNow, now))
    else v
  }

  /** The timers that an expiry at `now` hands out. */
  function DueTimers(v: View, now: nat): seq<Rec> {
    v.timers[..DueCount(v.timers, now, Rollover(v.previous, now))]
  }

  function Expired(v: View, now: nat): View {
    if v.timers == [] then v
    else
      var due := DueTimers(v, now);
      v.(timers := PutBack(v.timers[|due|..], due, now), previous := now)
  }

  // ----- The objects -----------------------------------------------------------------------

  /** Timer objects by identity. The set holds identities and is ordered by what the objects say. */
  type Heap = map<nat, Rec>

  ghost predicate Pointing(heap: Heap, timers: seq<nat>) {
    && (forall i :: 0 <= i < |timers| ==> timers[i] in heap)
    && (forall p :: p in heap ==> heap[p].addr == p)
  }

  function Values(heap: Heap, timers: seq<nat>): (s: seq<Rec>)
    requires Pointing(heap, timers)
    ensures |s| == |timers|
    ensures forall i :: 0 <= i < |s| ==> s[i] == heap[timers[i]] && s[i].addr == timers[i]
  {
    seq(|timers|, i requires 0 <= i < |timers| => heap[timers[i]])
  }

  /** A timer made with a callback is in the set exactly when its callback is still there. */
  ghost predicate ArmedInSet(heap: Heap, timers: seq<nat>, bare: set<nat>) {
    && (forall p :: p in heap && p !in bare ==> (heap[p].cb.Some? <==> p in timers))
    && (forall p :: p in heap && p in bare ==> heap[p].cb == None)
  }

  lemma LocateMember(heap: Heap, timers: seq<nat>, bare: set<nat>, p: nat)
    requires Pointing(heap, timers) && ArmedInSet(heap, timers, bare) && p in heap
    requires Ordered(Values(heap, timers))
    ensures var i := Locate(Values(heap, timers), p);
      && (p in timers <==> i < |timers|)
      && (i < |timers| ==> timers[i] == p && Find(Values(heap, timers), heap[p].next, p) == i)
      && (Armed(Values(heap, timers), p) == heap[p].cb.Some?)
  {
    var s := Values(heap, timers);
    var i := Locate(s, p);
    if p in timers {
      var k :| 0 <= k < |timers| && timers[k] == p;
      assert s[k].addr == p;
    }
    if i < |timers| {
      assert timers[i] in timers;
      FindNeverMisses(s, i);
    }
  }

  lemma ValuesWithout(heap: Heap, timers: seq<nat>, i: nat, r: Rec)
    requires Pointing(heap, timers) && i < |timers| && r.addr == timers[i] && DistinctAddrs(Values(heap, timers))
    ensures Pointing(heap[timers[i] := r], Without(timers, i))
    ensures Values(heap[timers[i] := r], Without(timers, i)) == Without(Values(heap, timers), i)
    ensures forall q :: q in Without(timers, i) <==> q in timers && q != timers[i]
  {
    var s := Values(heap, timers);
    assert forall j, k :: 0 <= j < k < |timers| ==> s[j].addr != s[k].addr;
    WithoutMembers(timers, i);
  }

  lemma ValuesInsert(heap: Heap, timers: seq<nat>, at: nat, p: nat)
    requires Pointing(heap, timers) && at <= |timers| && p in heap
    ensures Pointing(heap, InsertAt(timers, at, p))
    ensures Values(heap, InsertAt(timers, at, p)) == InsertAt(Values(heap, timers), at, heap[p])
    ensures forall q :: q in InsertAt(timers, at, p) <==> q in timers || q == p
  {
    InsertAtMembers(timers, at, p);
  }

  /** The timers from position `k` on. */
  ghost function Tail(ps: seq<nat>, k: nat): set<nat> {
    set j | k <= j < |ps| :: ps[j]
  }

  /** From position `k` on, the timers are different and still as `due` says. */
  ghost predicate Untouched(heap: Heap, ps: seq<nat>, due: seq<Rec>, k: nat) {
    && |ps| == |due|
    && (forall i, j :: 0 <= i < j < |ps| ==> ps[i] != ps[j])
    && (forall j :: k <= j < |ps| ==> ps[j] in heap && heap[ps[j]] == due[j])
  }

  /** What an expired timer object becomes: re-armed from now, or disarmed. */
  function HandedOut(r: Rec, now: nat): Rec {
    if r.recurring then Rearmed(r, now) else r.(cb := None)
  }

  /** The timer objects in `done` were handed out, and no other object was touched. */
  ghost predicate Settled(heap: Heap, heap': Heap, done: set<nat>, now: nat) {
    && heap'.Keys == heap.Keys
    && forall p :: p in heap ==> heap'[p] == if p in done then HandedOut(heap[p], now) else heap[p]
  }

  lemma HeadStep(ps: seq<nat>, k: nat)
    requires k < |ps| && forall i, j :: 0 <= i < j < |ps| ==> ps[i] != ps[j]
    ensures Tail(ps, 0) - Tail(ps, k + 1) == Tail(ps, 0) - Tail(ps, k) + {ps[k]} && ps[k] !in Tail(ps, 0) - Tail(ps, k)
  {
  }

  /** Handing out the timer at position `k` of `ps` settles it and leaves the later ones untouched. */
  lemma SettleOne(heap0: Heap, heap: Heap, ps: seq<nat>, due: seq<Rec>, k: nat, now: nat)
    requires k < |ps| && Untouched(heap, ps, due, k) && Settled(heap0, heap, Tail(ps, 0) - Tail(ps, k), now)
    ensures var heap' := heap[ps[k] := HandedOut(heap[ps[k]], now)];
      Untouched(heap', ps, due, k + 1) && Settled(heap0, heap', Tail(ps, 0) - Tail(ps, k + 1), now)
  {
    HeadStep(ps, k);
  }

  lemma TailStep(ps: seq<nat>, k: nat)
    requires k < |ps| && forall i, j :: 0 <= i < j < |ps| ==> ps[i] != ps[j]
    ensures ps[k] in Tail(ps, k) && Tail(ps, k) - {ps[k]} == Tail(ps, k + 1)
  {
  }

  lemma {:induction false} PutBackOne(s: seq<Rec>, due: seq<Rec>, k: nat, now: nat)
    requires k < |due|
    ensures var before := PutBack(s, due[..k], now);
      PutBack(s, due[..k + 1], now) == if due[k].recurring then Insert(before, Rearmed(due[k], now)) else before
    ensures Callbacks(due[..k + 1]) == Callbacks(due[..k]) + [due[k].cb]
  {
    assert due[..k + 1][..k] == due[..k];
  }

  /** Cutting the first `it` timers off leaves the rest in order and the others as they were. */
  lemma SplitOff(heap: Heap, timers: seq<nat>, bare: set<nat>, it: nat)
    requires Pointing(heap, timers) && ArmedInSet(heap, timers, bare) && it <= |timers|
    requires Ordered(Values(heap, timers)) && DistinctAddrs(Values(heap, timers))
    ensures Pointing(heap, timers[it..]) && ArmedInSet(heap - Tail(timers[..it], 0), timers[it..], bare)
    ensures Values(heap, timers[it..]) == Values(heap, timers)[it..]
    ensures Ordered(Values(heap, timers)[it..]) && DistinctAddrs(Values(heap, timers)[it..])
    ensures Untouched(heap, timers[..it], Values(heap, timers)[..it], 0)
    ensures forall p :: p in Tail(timers[..it], 0) ==>
      p in heap && p !in timers[it..] && (p !in bare <==> heap[p].cb.Some?)
  {
    var s := Values(heap, timers);
    assert forall j, k :: 0 <= j < k < |timers| ==> s[j].addr != s[k].addr;
    forall p | p in timers ensures p in Tail(timers[..it], 0) || p in timers[it..] {
      var k :| 0 <= k < |timers| && timers[k] == p;
      if k < it { assert timers[..it][k] == p; } else { assert timers[it..][k - it] == p; }
    }
    forall p | p in Tail(timers[..it], 0) ensures p in timers && p !in timers[it..] {
      var k :| 0 <= k < it && timers[..it][k] == p;
      assert timers[k] == p;
    }
  }

  class TimerManager {
    var heap: Heap
    var timers: seq<nat>
    var tickled: bool
    var previous: nat
    /** How often `onTimerInsertedAtFront` was called. */
    var notified: nat
    /** Timers made without a callback. */
    ghost var bare: set<nat>

    constructor (now: nat)
      requires now < TWO_64
      ensures Valid() && Model() == View([], false, now) && notified == 0 && heap == map[]
    {
      heap, timers, tickled, previous, notified, bare := map[], [], false, now, 0, {};
    }

    ghost predicate Valid()
      reads this
    {
      Pointing(heap, timers) && ArmedInSet(heap, timers, bare) && WellFormed(Model())
    }

    /** In order but for the timers in `out`, which are out of the set and about to be put back or
        disarmed. */
    ghost predicate ValidBut(out: set<nat>)
      reads this
    {
      && Pointing(heap, timers) && ArmedInSet(heap - out, timers, bare) && WellFormed(Model())
      && (forall p :: p in out ==> p in heap && p !in timers && (p !in bare <==> heap[p].cb.Some?))
    }

    function Model(): View
      reads this
      requires Pointing(heap, timers)
    {
      View(Values(heap, timers), tickled, previous)
    }

    /** `Timer::cancel`: disarm and take out of the set; true exactly when the timer was armed. */
    method Cancel(p: nat) returns (r: bool)
      requires Valid() && p in heap
      modifies this`heap, this`timers
      ensures Valid() && heap == old(heap)[p := old(heap)[p].(cb := None)]
      ensures r == Armed(old(Model()).timers, p)
      ensures Model() == Cancelled(old(Model()), p)
    {
      LocateMember(heap, timers, bare, p);
      if heap[p].cb.Some? {
        var it := Find(Values(heap, timers), heap[p].next, p);
        ValuesWithout(heap, timers, it, heap[p].(cb := None));
        WithoutKeeps(Values(heap, timers), it);
        heap := heap[p := heap[p].(cb := None)];
        timers := Without(timers, it);
        return true;
      }
      return false;
    }

    /** `Timer::refresh`: start the period again from now, silently. */
    method Refresh(p: nat, now: nat) returns (r: bool)
      requires Valid() && p in heap
      modifies this`heap, this`timers
      ensures Valid()
      ensures heap == if r then old(heap)[p := Rearmed(old(heap)[p], now)] else old(heap)
      ensures r == Armed(old(Model()).timers, p)
      ensures Model() == Refreshed(old(Model()), p, now)
    {
      LocateMember(heap, timers, bare, p);
      if heap[p].cb.None? {
        return false;
      }
      var it := Find(Values(heap, timers), heap[p].next, p);
      if it == |timers| {
        return false;
      }
      Rekey(p, it, heap[p].(next := Add64(now, heap[p].ms)));
      return true;
    }

    /** Erase, write, insert again. */
    method Rekey(p: nat, it: nat, changed: Rec)
      requires Valid() && it < |timers| && timers[it] == p
      requires changed == heap[p].(next := changed.next, ms := changed.ms) && changed.cb.Some?
      modifies this`heap, this`timers
      ensures Valid() && heap == old(heap)[p := changed]
      ensures Model() == old(Model()).(timers := Insert(Without(old(Model()).timers, it), changed))
    {
      TakeOut(p, it, changed);
      var _ := InsertPointer(p, {p});
    }

    /** `Timer::reset`: change the period, counting from now or from the start of the current
        period. With nothing to change it returns true without looking whether the timer is armed. */
    method Reset(p: nat, ms: nat, fromNow: bool, now: nat) returns (r: bool)
      requires Valid() && p in heap
      modifies this`heap, this`timers, this`tickled, this`notified
      ensures Valid()
      ensures heap == if old(heap)[p].cb.Some? && (ms != old(heap)[p].ms || fromNow)
        then old(heap)[p := Restarted(old(heap)[p], ms, fromNow, now)] else old(heap)
      ensures r == ((ms == old(heap)[p].ms && !fromNow) || old(heap)[p].cb.Some?)
      ensures Model() == ResetView(old(Model()), p, ms, fromNow, now)
      ensures notified == old(notified) + if tickled && !old(tickled) then 1 else 0
    {
      LocateMember(heap, timers, bare, p);
      if ms == heap[p].ms && !fromNow {
        return true;
      }
      if heap[p].cb.None? {
        return false;
      }
      var it := Find(Values(heap, timers), heap[p].next, p);
      if it == |timers| {
        return false;
      }
      var start := if fromNow then now else Sub64(heap[p].next, heap[p].ms);
      MoveTo(p, it, heap[p].(ms := ms, next := Add64(start, ms)));
      return true;
    }

    /** Erase, write, and insert again as a new timer would be. */
    method MoveTo(p: nat, it: nat, changed: Rec)
      requires Valid() && it < |timers| && timers[it] == p
      requires changed == heap[p].(next := changed.next, ms := changed.ms) && changed.cb.Some?
      modifies this`heap, this`timers, this`tickled, this`notified
      ensures Valid() && heap == old(heap)[p := changed]
      ensures var v := old(Model()); Model() == Inserted(v.(timers := Without(v.timers, it)), changed)
      ensures notified == old(notified) + if tickled && !old(tickled) then 1 else 0
    {
      TakeOut(p, it, changed);
      AddLocked(p);
    }

    /** Erase the timer at `it` and only then write its new contents. */
    method TakeOut(p: nat, it: nat, changed: Rec)
      requires Valid() && it < |timers| && timers[it] == p
      requires changed == heap[p].(next := changed.next, ms := changed.ms) && changed.cb.Some?
      modifies this`heap, this`timers
      ensures ValidBut({p}) && heap == old(heap)[p := changed]
      ensures Model() == old(Model()).(timers := Without(old(Model()).timers, it))
    {
      ValuesWithout(heap, timers, it, changed);
      WithoutKeeps(Values(heap, timers), it);
      timers := Without(timers, it);
      heap := heap[p := changed];
    }

    /** `std::set::insert`; returns the position. */
    method InsertPointer(p: nat, ghost out: set<nat>) returns (at: nat)
      requires ValidBut(out) && p in out
      modifies this`timers
      ensures ValidBut(out - {p})
      ensures at == LowerBound(old(Model()).timers, heap[p].next, p)
      ensures Model() == old(Model()).(timers := Insert(old(Model()).timers, heap[p]))
    {
      at := LowerBound(Values(heap, timers), heap[p].next, p);
      assert !HasAddr(Values(heap, timers), p) by {
        assert forall i :: 0 <= i < |timers| ==> timers[i] in timers;
      }
      InsertKeeps(Values(heap, timers), heap[p]);
      ValuesInsert(heap, timers, at, p);
      timers := InsertAt(timers, at, p);
    }

    /** The locked `addTimer`: insert, and notify if this is the first insertion at the front since
        the last `getNextTimer`. */
    method AddLocked(p: nat)
      requires ValidBut({p})
      modifies this`timers, this`tickled, this`notified
      ensures Valid() && Model() == Inserted(old(Model()), heap[p])
      ensures notified == old(notified) + if Notifies(old(Model()), heap[p]) then 1 else 0
    {
      var at := InsertPointer(p, {p});
      var atFront := at == 0 && !tickled;
      if atFront {
        tickled := true;
        notified := notified + 1;
      }
    }

    method AddTimer(p: nat, ms: nat, cb: Option<nat>, recurring: bool, now: nat)
      requires Valid() && p !in heap
      modifies this
      ensures Valid() && heap == old(heap)[p := Rec(p, (now + ms) % 0x1_0000_0000_0000_0000, ms, recurring, cb)]
      ensures Model() == Inserted(old(Model()), heap[p])
      ensures notified == old(notified) + if Notifies(old(Model()), heap[p]) then 1 else 0
    {
      ghost var was := Values(heap, timers);
      heap := heap[p := Rec(p, Add64(now, ms), ms, recurring, cb)];
      if cb.None? {
        bare := bare + {p};
      } else {
        bare := bare - {p};
      }
      assert Values(heap, timers) == was;
      AddLocked(p);
    }

    /** Time to the earliest deadline, or all ones for an empty set; re-enables notification. */
    method GetNextTimer(now: nat) returns (ms: nat)
      requires Valid()
      modifies this`tickled
      ensures Valid() && Model() == old(Model()).(tickled := false)
      ensures ms == if timers == [] then TWO_64 - 1
                    else if now >= heap[timers[0]].next then 0 else heap[timers[0]].next - now
    {
      tickled := false;
      if timers == [] {
        return TWO_64 - 1;
      }
      var next := heap[timers[0]].next;
      if now >= next {
        return 0;
      }
      return next - now;
    }

    /** The clock went back by more than an hour, or by anything if the previous time is below one hour. */
    method DetectClockRollover(now: nat) returns (rollover: bool)
      requires previous < TWO_64
      modifies this`previous
      ensures rollover <==> now < old(previous) && (old(previous) < 3600000 || now + 3600000 < old(previous))
      ensures previous == now
    {
      RolloverMeans(previous, now);
      rollover := false;
      if now < previous && now < Sub64(previous, HOUR_MS) {
        rollover := true;
      }
      previous := now;
    }

    /** `listExpiredCb`: hand out, in deadline order, the callbacks of the timers that are due (all of
        them after a clock rollover), disarm the one-shot ones and re-arm the recurring ones.
        `sentinel` is the address the search key happens to get. */
    method ListExpiredCb(now: nat, sentinel: nat) returns (cbs: seq<Option<nat>>)
      requires Valid() && now < TWO_64
      modifies this`heap, this`timers, this`previous
      ensures Valid() && Settled(old(heap), heap, Tail(old(timers)[..|DueTimers(old(Model()), now)|], 0), now)
      ensures Model() == Expired(old(Model()), now)
      ensures var due := DueTimers(old(Model()), now);
        |cbs| == |due| && forall i :: 0 <= i < |due| ==> cbs[i] == due[i].cb
    {
      if timers == [] {
        return [];
      }
      ghost var s := Values(heap, timers);
      RolloverMeans(previous, now);
      var rollover := DetectClockRollover(now);
      if !rollover && heap[timers[0]].next > now {
        return [];
      }
      var it := FirstNotDue(now, sentinel, rollover);
      var expired := timers[..it];
      SplitOff(heap, timers, bare, it);
      timers := timers[it..];
      cbs := HandOut(expired, s[..it], now);
    }

    /** `lower_bound` of the sentinel, then past the equal deadlines. */
    method FirstNotDue(now: nat, sentinel: nat, rollover: bool) returns (it: nat)
      requires Valid()
      ensures it == DueCount(Values(heap, timers), now, rollover)
    {
      it := if rollover then |timers| else LowerBound(Values(heap, timers), now, sentinel);
      ghost var first := it;
      while it < |timers| && heap[timers[it]].next == now
        invariant first <= it <= |timers|
        invariant forall j :: first <= j < it ==> Values(heap, timers)[j].next == now
      {
        it := it + 1;
      }
      if !rollover { SentinelDoesNotMatter(Values(heap, timers), now, sentinel, it); }
    }

    /** The loop over the expired timers, which are out of the set; `due` is what they were. */
    method HandOut(expired: seq<nat>, ghost due: seq<Rec>, now: nat) returns (cbs: seq<Option<nat>>)
      requires ValidBut(Tail(expired, 0)) && Untouched(heap, expired, due, 0)
      modifies this`heap, this`timers
      ensures Valid() && Settled(old(heap), heap, Tail(expired, 0), now)
      ensures Model() == old(Model()).(timers := PutBack(old(Model()).timers, due, now))
      ensures cbs == Callbacks(due)
    {
      cbs := [];
      ghost var rest := Values(heap, timers);
      var k := 0;
      while k < |expired|
        invariant k <= |expired|
        invariant ValidBut(Tail(expired, k)) && Untouched(heap, expired, due, k)
        invariant Settled(old(heap), heap, Tail(expired, 0) - Tail(expired, k), now)
        invariant Values(heap, timers) == PutBack(rest, due[..k], now)
        invariant cbs == Callbacks(due[..k])
      {
        PutBackOne(rest, due, k, now);
        TailStep(expired, k);
        SettleOne(old(heap), heap, expired, due, k, now);
        var cb := HandOutOne(expired[k], Tail(expired, k), now);
        cbs := cbs + [cb];
        k := k + 1;
      }
      assert due[..k] == due;
    }

    method HandOutOne(p: nat, ghost out: set<nat>, now: nat) returns (cb: Option<nat>)
      requires ValidBut(out) && p in out
      modifies this`heap, this`timers
      ensures ValidBut(out - {p}) && cb == old(heap)[p].cb
      ensures var r := old(heap)[p];
        heap == old(heap)[p := HandedOut(r, now)]
      ensures var r := old(heap)[p]; var v := old(Model());
        Model() == if r.recurring then v.(timers := Insert(v.timers, Rearmed(r, now))) else v
    {
      cb := heap[p].cb;
      ghost var was := Values(heap, timers);
      if heap[p].recurring {
        heap := heap[p := heap[p].(next := Add64(now, heap[p].ms))];
        assert Values(heap, timers) == was;
        var _ := InsertPointer(p, out);
      } else {
        heap := heap[p := heap[p].(cb := None)];
        assert Values(heap, timers) == was;
      }
    }
  }
}
