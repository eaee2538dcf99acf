/** What holds over any sequence of timer operations: a one-shot timer ends in exactly one way. */
module TimerRuns {
  import opened Common
  import opened TimerSet
  import opened Timers

  datatype Op =
    | Add(addr: nat, ms: nat, cb: Option<nat>, recurring: bool, made: nat)
    | Cancel(addr: nat)
    | Refresh(addr: nat)
    | Reset(addr: nat, ms: nat, fromNow: bool)
    | Next
    | Expire

  /** An operation with the clock at which it takes effect. `made` is the clock reading of the
      timer's constructor, taken before the lock. */
  datatype Event = Event(op: Op, now: nat)

  function NewRec(op: Op): Rec
    requires op.Add?
  {
    Rec(op.addr, Add64(op.made, op.ms), op.ms, op.recurring, op.cb)
  }

  function After(v: View, e: Event): View {
    match e.op
    case Add(_, _, _, _, _) => Inserted(v, NewRec(e.op))
    case Cancel(a) => Cancelled(v, a)
    case Refresh(a) => Refreshed(v, a, e.now)
    case Reset(a, ms, fromNow) => ResetView(v, a, ms, fromNow, e.now)
    case Next => v.(tickled := false)
    case Expire => Expired(v, e.now)
  }

  /** The timers whose callbacks the event hands out. */
  function HandedBy(v: View, e: Event): seq<Rec> {
    if e.op.Expire? then DueTimers(v, e.now) else []
  }

  /** Whether the event calls `onTimerInsertedAtFront`; see the contracts of `AddTimer` and `Reset`. */
  predicate NotifiedBy(v: View, e: Event) {
    match e.op
    case Add(_, _, _, _, _) => Notifies(v, NewRec(e.op))
    case Reset(_, _, _) => After(v, e).tickled && !v.tickled
    case _ => false
  }

  function Addrs(s: seq<Rec>): seq<nat> {
    seq(|s|, i requires 0 <= i < |s| => s[i].addr)
  }

  /** The manager with the history of its timers: which were made with a callback (and whether
      recurring), what was handed out, which `cancel` calls returned true, and for notification the
      earliest deadline at the last `getNextTimer` and the notifications since. */
  datatype History = History(
    view: View,
    made: map<nat, Op>,
    handed: seq<nat>,
    cancelled: seq<nat>,
    front: Option<nat>,
    notified: nat,
    clock: nat)

  predicate Possible(h: History, e: Event) {
    && e.now < TWO_64
    && (e.op.Add? ==> e.op.addr !in h.made)
    && (e.op.Cancel? || e.op.Refresh? || e.op.Reset? ==> e.op.addr in h.made)
  }

  function Front(s: seq<Rec>): Option<nat> {
    if s == [] then None else Some(s[0].next)
  }

  function Step(h: History, e: Event): History {
    var v := After(h.view, e);
    var asked := e.op.Next?;
    History(
      v,
      if e.op.Add? then h.made[e.op.addr := e.op] else h.made,
      h.handed + Addrs(HandedBy(h.view, e)),
      if e.op.Cancel? && Armed(h.view.timers, e.op.addr) then h.cancelled + [e.op.addr] else h.cancelled,
      if asked then Front(v.timers) else h.front,
      if asked then 0 else if NotifiedBy(h.view, e) then h.notified + 1 else h.notified,
      if e.now > h.clock then e.now else h.clock)
  }

  function Start(now: nat): History {
    History(View([], false, now), map[], [], [], None, 0, now)
  }

  function Run(now: nat, events: seq<Event>): History {
    if events == [] then Start(now) else Step(Run(now, events[..|events| - 1]), events[|events| - 1])
  }

  ghost predicate AllPossible(now: nat, events: seq<Event>) {
    events == [] ||
    (var n := |events| - 1; AllPossible(now, events[..n]) && Possible(Run(now, events[..n]), events[n]))
  }

  // ----- The set stays a set ---------------------------------------------------------------

  /** The timers in the set were made, and are what they were made as. */
  ghost predicate Tracked(h: History) {
    && WellFormed(h.view)
    && forall r :: r in h.view.timers ==>
         r.addr in h.made && h.made[r.addr].Add? && r.cb == h.made[r.addr].cb && r.recurring == h.made[r.addr].recurring
  }

  lemma LocateIs(s: seq<Rec>, r: Rec)
    requires DistinctAddrs(s) && r in s
    ensures Locate(s, r.addr) < |s| && s[Locate(s, r.addr)] == r
  {
    var k :| 0 <= k < |s| && s[k] == r;
  }

  lemma HasAddrMeans(s: seq<Rec>, a: nat)
    ensures HasAddr(s, a) <==> Locate(s, a) < |s|
  {}

  lemma NotThere(h: History, a: nat)
    requires Tracked(h) && a !in h.made
    ensures !HasAddr(h.view.timers, a)
  {}

  /** The contents of the set after re-keying the timer at position `i`. */
  lemma Rekeyed(s: seq<Rec>, i: nat, r: Rec)
    requires Ordered(s) && DistinctAddrs(s) && i < |s| && r.addr == s[i].addr
    ensures var t := Insert(Without(s, i), r);
      Ordered(t) && DistinctAddrs(t) && forall x :: x in t <==> (x in s && x != s[i]) || x == r
  {
    WithoutKeeps(s, i);
    InsertKeeps(Without(s, i), r);
  }

  /** The due timers are exactly the first `k`. */
  lemma DueExact(s: seq<Rec>, now: nat, rollover: bool, k: nat)
    requires Ordered(s) && k == DueCount(s, now, rollover)
    ensures forall r :: r in s[..k] <==> r in s && Due(r, now, rollover)
    ensures forall r :: r in s[k..] <==> r in s && !Due(r, now, rollover)
  {
    forall i | 0 <= i < |s| ensures Due(s[i], now, rollover) <==> i < k { DueIsPrefix(s, now, rollover, i); }
    forall r | r in s ensures if Due(r, now, rollover) then r in s[..k] else r in s[k..] {
      var i :| 0 <= i < |s| && s[i] == r;
      if i < k { assert s[..k][i] == r; } else { assert s[k..][i - k] == r; }
    }
  }

  /** Expiry is exact: what is handed out is what was due, what stays is what was not due plus the
      recurring due timers re-armed. */
  lemma ExpiryExact(v: View, now: nat)
    requires WellFormed(v) && now < TWO_64
    ensures WellFormed(Expired(v, now))
    ensures forall r :: r in DueTimers(v, now) <==> r in v.timers && Due(r, now, Rollover(v.previous, now))
    ensures DistinctAddrs(DueTimers(v, now))
    ensures forall r :: r in Expired(v, now).timers <==>
      || (r in v.timers && !Due(r, now, Rollover(v.previous, now)))
      || CameBack(r, DueTimers(v, now), now)
  {
    var s := v.timers;
    var k := DueCount(s, now, Rollover(v.previous, now));
    DueExact(s, now, Rollover(v.previous, now), k);
    PutBackKeeps(s[k..], s[..k], now);
  }

  /** The clock went back by more than an hour, or at all if the last time seen is below one hour. */
  predicate WentBack(previous: nat, now: nat) {
    now < previous && (previous < 3600000 || now + 3600000 < previous)
  }

  /** The same in the timers' own fields: due is what has reached its deadline, or everything if the clock went back;
      the due timers are handed out in the order of the set, which is that of their deadlines; a recurring one is
      due again a period from now, modulo 2^64; the time is remembered. */
  lemma ExpiryMeans(v: View, now: nat)
    requires WellFormed(v) && now < TWO_64
    ensures forall r: Rec :: r in DueTimers(v, now) <==> r in v.timers && (r.next <= now || WentBack(v.previous, now))
    ensures DueTimers(v, now) <= v.timers
    ensures forall i, j :: 0 <= i < j < |v.timers| ==> v.timers[i].next <= v.timers[j].next
    ensures forall x: Rec :: x in Expired(v, now).timers <==>
      || (x in v.timers && !(x.next <= now || WentBack(v.previous, now)))
      || exists r: Rec ::
           r in DueTimers(v, now) && r.recurring && x == r.(next := (now + r.ms) % 0x1_0000_0000_0000_0000)
    ensures Expired(v, now).previous == (if v.timers == [] then v.previous else now)
    ensures Expired(v, now).tickled == v.tickled
  {
    var due := DueTimers(v, now);
    ExpiryExact(v, now);
    RolloverMeans(v.previous, now);
    forall i, j | 0 <= i < j < |v.timers| ensures v.timers[i].next <= v.timers[j].next {
      assert Before(v.timers[i], v.timers[j]);
    }
    forall x: Rec ensures CameBack(x, due, now) <==>
        exists r: Rec :: r in due && r.recurring && x == r.(next := (now + r.ms) % 0x1_0000_0000_0000_0000)
    {
      CameBackMeans(x, due, now);
    }
  }

  lemma CameBackMeans(x: Rec, due: seq<Rec>, now: nat)
    ensures CameBack(x, due, now) <==>
      exists r: Rec :: r in due && r.recurring && x == r.(next := (now + r.ms) % 0x1_0000_0000_0000_0000)
  {
    if CameBack(x, due, now) {
      var i :| 0 <= i < |due| && due[i].recurring && x == Rearmed(due[i], now);
      assert due[i] in due;
    }
    if r: Rec :| r in due && r.recurring && x == r.(next := (now + r.ms) % 0x1_0000_0000_0000_0000) {
      var i :| 0 <= i < |due| && due[i] == r;
    }
  }

  /** `refresh`, exactly: an armed timer is due a period from now, modulo 2^64; no other timer changes. */
  lemma RefreshMeans(v: View, r: Rec, now: nat)
    requires WellFormed(v) && r in v.timers
    ensures var r' := if r.cb.Some? then r.(next := (now + r.ms) % 0x1_0000_0000_0000_0000) else r;
      forall x :: x in Refreshed(v, r.addr, now).timers <==> (x in v.timers && x != r) || x == r'
  {
    LocateIs(v.timers, r);
    if r.cb.Some? {
      Rekeyed(v.timers, Locate(v.timers, r.addr), r.(next := Add64(now, r.ms)));
    }
  }

  /** An insertion notifies exactly when nobody has since the last `getNextTimer` and the new timer is first. */
  lemma NotifiesMeans(v: View, r: Rec)
    requires WellFormed(v) && !HasAddr(v.timers, r.addr)
    ensures Notifies(v, r) <==>
      !v.tickled && forall x: Rec :: x in v.timers ==> r.next < x.next || (r.next == x.next && r.addr < x.addr)
  {
    var s := v.timers;
    if LowerBound(s, r.next, r.addr) == 0 {
      forall x: Rec | x in s ensures r.next < x.next || (r.next == x.next && r.addr < x.addr) {
        var k :| 0 <= k < |s| && s[k] == x;
        assert s[0].addr != r.addr;
        assert k > 0 ==> Before(s[0], s[k]);
      }
    } else {
      assert s[0] in s;
    }
  }

  /** How an operation other than expiry changes the contents of the set. */
  lemma AfterContents(v: View, e: Event)
    requires WellFormed(v) && !e.op.Expire? && (e.op.Add? ==> !HasAddr(v.timers, e.op.addr))
    ensures WellFormed(After(v, e))
    ensures e.op.Add? ==> forall x :: x in After(v, e).timers <==> x in v.timers || x == NewRec(e.op)
    ensures e.op.Cancel? ==>
      forall x :: x in After(v, e).timers <==> x in v.timers && !(x.addr == e.op.addr && x.cb.Some?)
    ensures e.op.Refresh? || e.op.Reset? ==>
      var t := After(v, e).timers; var a := e.op.addr;
      && (forall x: Rec :: x.addr != a ==> (x in t <==> x in v.timers))
      && (forall x :: x in t && x.addr == a ==>
            exists r :: r in v.timers && r.addr == a && x == r.(next := x.next, ms := x.ms))
      && (HasAddr(v.timers, a) ==> HasAddr(t, a))
  {
    match e.op
    case Add(_, _, _, _, _) => InsertKeeps(v.timers, NewRec(e.op));
    case Cancel(a) => CancelContents(v, a);
    case Refresh(a) =>
      if Armed(v.timers, a) {
        var i := Locate(v.timers, a);
        RekeyContents(v.timers, i, v.timers[i].(next := Add64(e.now, v.timers[i].ms)));
      }
    case Reset(a, ms, fromNow) =>
      var i := Locate(v.timers, a);
      if Armed(v.timers, a) && Moves(v.timers[i], ms, fromNow) {
        RekeyContents(v.timers, i, Restarted(v.timers[i], ms, fromNow, e.now));
      }
    case Next =>
    case Expire =>
  }

  lemma CancelContents(v: View, a: nat)
    requires WellFormed(v)
    ensures WellFormed(Cancelled(v, a))
    ensures forall x :: x in Cancelled(v, a).timers <==> x in v.timers && !(x.addr == a && x.cb.Some?)
  {
    var i := Locate(v.timers, a);
    if Armed(v.timers, a) {
      WithoutKeeps(v.timers, i);
    }
    forall x | x in v.timers && x.addr == a ensures i < |v.timers| && x == v.timers[i] {
      LocateIs(v.timers, x);
    }
  }

  lemma RekeyContents(s: seq<Rec>, i: nat, r: Rec)
    requires Ordered(s) && DistinctAddrs(s) && i < |s| && r == s[i].(next := r.next, ms := r.ms)
    ensures var t := Insert(Without(s, i), r);
      && Ordered(t) && DistinctAddrs(t) && HasAddr(t, r.addr)
      && (forall x: Rec :: x.addr != r.addr ==> (x in t <==> x in s))
      && (forall x :: x in t && x.addr == r.addr ==> x == r)
  {
    Rekeyed(s, i, r);
    var t := Insert(Without(s, i), r);
    assert r in t;
    var k :| 0 <= k < |t| && t[k] == r;
    forall x | x in s && x.addr == r.addr ensures x == s[i] {
      LocateIs(s, x);
      LocateIs(s, s[i]);
    }
  }

  /** `reset`, exactly: an armed timer whose period changes, or that is to count from now, gets the period and the
      deadline that the new period gives, from now or from the start of its current period, modulo 2^64; no other
      timer changes. */
  lemma ResetExact(v: View, r: Rec, ms: nat, fromNow: bool, now: nat)
    requires WellFormed(v) && r in v.timers
    ensures var next := if fromNow then now + ms else r.next - r.ms + ms;
      var moved := r.(ms := ms, next := next % 0x1_0000_0000_0000_0000);
      var r' := if r.cb.Some? && (ms != r.ms || fromNow) then moved else r;
      forall x :: x in ResetView(v, r.addr, ms, fromNow, now).timers <==> (x in v.timers && x != r) || x == r'
  {
    LocateIs(v.timers, r);
    RestartedMeans(r, ms, fromNow, now);
    if r.cb.Some? && Moves(r, ms, fromNow) {
      Rekeyed(v.timers, Locate(v.timers, r.addr), Restarted(r, ms, fromNow, now));
    }
  }

  lemma StepTracked(h: History, e: Event)
    requires Tracked(h) && Possible(h, e)
    ensures Tracked(Step(h, e))
  {
    if e.op.Expire? {
      ExpiryExact(h.view, e.now);
    } else {
      if e.op.Add? { NotThere(h, e.op.addr); }
      AfterContents(h.view, e);
    }
  }

  // ----- One-shot timers -------------------------------------------------------------------

  ghost function InSet(s: seq<Rec>, a: nat): nat {
    if HasAddr(s, a) then 1 else 0
  }

  /** A timer made with a callback: if one-shot it is waiting, was handed out once, or was cancelled
      once, and exactly one of these; if recurring it is waiting or was cancelled once. */
  ghost predicate Accounted(h: History, a: nat)
    requires a in h.made && h.made[a].Add?
  {
    h.made[a].cb.Some? ==>
      var ended := multiset(h.cancelled)[a] + if h.made[a].recurring then 0 else multiset(h.handed)[a];
      InSet(h.view.timers, a) + ended == 1
  }

  ghost predicate AllAccounted(h: History) {
    && Tracked(h)
    && (forall a :: a in h.made ==> h.made[a].Add? && Accounted(h, a))
    && (forall i :: 0 <= i < |h.cancelled| ==> h.cancelled[i] in h.made)
    && (forall i :: 0 <= i < |h.handed| ==> h.handed[i] in h.made)
  }

  lemma {:induction false} CountAddrs(s: seq<Rec>, a: nat)
    requires DistinctAddrs(s)
    ensures multiset(Addrs(s))[a] == InSet(s, a)
  {
    var q := Addrs(s);
    if s != [] {
      var n := |s| - 1;
      CountAddrs(s[..n], a);
      assert q == Addrs(s[..n]) + [s[n].addr];
      if HasAddr(s[..n], a) {
        var i :| 0 <= i < n && s[..n][i].addr == a;
        assert s[i].addr == a;
      }
      if HasAddr(s, a) && s[n].addr != a {
        var i :| 0 <= i < |s| && s[i].addr == a;
        assert s[..n][i].addr == a;
      }
    }
  }

  /** Expiry moves each due one-shot timer from the set to the handed-out list. */
  lemma ExpireAccount(v: View, now: nat, a: nat)
    requires WellFormed(v) && now < TWO_64
    ensures HasAddr(v.timers, a) ==>
      var r := v.timers[Locate(v.timers, a)];
      InSet(Expired(v, now).timers, a) + (if r.recurring then 0 else multiset(Addrs(DueTimers(v, now)))[a]) == 1
    ensures !HasAddr(v.timers, a) ==>
      InSet(Expired(v, now).timers, a) == 0 && multiset(Addrs(DueTimers(v, now)))[a] == 0
  {
    var due, t := DueTimers(v, now), Expired(v, now).timers;
    ExpiryExact(v, now);
    CountAddrs(due, a);
    HasAddrIn(due, a);
    HasAddrIn(t, a);
    HasAddrIn(v.timers, a);
    if HasAddr(v.timers, a) {
      var r := v.timers[Locate(v.timers, a)];
      forall x | x in v.timers && x.addr == a ensures x == r { LocateIs(v.timers, x); }
      if r in due && r.recurring {
        assert Rearmed(r, now) in t by {
          var i :| 0 <= i < |due| && due[i] == r;
          assert CameBack(Rearmed(r, now), due, now);
        }
      }
    }
  }

  lemma HasAddrIn(s: seq<Rec>, a: nat)
    ensures HasAddr(s, a) <==> exists x :: x in s && x.addr == a
    ensures HasAddr(s, a) ==> Locate(s, a) < |s|
  {
    if HasAddr(s, a) {
      var i :| 0 <= i < |s| && s[i].addr == a;
      assert s[i] in s;
    }
  }

  /** Operations other than expiry: only `Add` and a successful `Cancel` change who is in the set. */
  lemma PlainAccount(h: History, e: Event, a: nat)
    requires Tracked(h) && Possible(h, e) && !e.op.Expire?
    ensures e.op.Add? && e.op.addr == a ==> InSet(After(h.view, e).timers, a) == 1
    ensures e.op.Cancel? && e.op.addr == a && Armed(h.view.timers, a) ==>
      InSet(h.view.timers, a) == 1 && InSet(After(h.view, e).timers, a) == 0
    ensures !(e.op.Add? && e.op.addr == a) && !(e.op.Cancel? && e.op.addr == a && Armed(h.view.timers, a)) ==>
      InSet(After(h.view, e).timers, a) == InSet(h.view.timers, a)
  {
    var s, t := h.view.timers, After(h.view, e).timers;
    if e.op.Add? { NotThere(h, e.op.addr); }
    AfterContents(h.view, e);
    HasAddrIn(s, a);
    HasAddrIn(t, a);
    if e.op.Add? && e.op.addr == a {
      assert NewRec(e.op) in t;
    }
    if e.op.Cancel? && e.op.addr == a && Armed(s, a) {
      forall x | x in s && x.addr == a ensures x == s[Locate(s, a)] { LocateIs(s, x); }
    }
  }

  lemma StepAccounted(h: History, e: Event, a: nat)
    requires AllAccounted(h) && Possible(h, e) && a in Step(h, e).made
    ensures Step(h, e).made[a].Add? && Accounted(Step(h, e), a)
  {
    var h' := Step(h, e);
    if e.op.Expire? {
      ExpireAccount(h.view, e.now, a);
      assert multiset(h'.handed)[a] == multiset(h.handed)[a] + multiset(Addrs(DueTimers(h.view, e.now)))[a];
    } else {
      PlainAccount(h, e, a);
      assert h'.handed == h.handed;
      if h'.cancelled != h.cancelled {
        assert multiset(h'.cancelled)[a] == multiset(h.cancelled)[a] + if a == e.op.addr then 1 else 0;
      }
    }
  }

  lemma StepAllAccounted(h: History, e: Event)
    requires AllAccounted(h) && Possible(h, e)
    ensures AllAccounted(Step(h, e))
  {
    var h' := Step(h, e);
    StepTracked(h, e);
    forall a | a in h'.made ensures h'.made[a].Add? && Accounted(h', a) {
      StepAccounted(h, e, a);
    }
    forall i | 0 <= i < |h'.handed| ensures h'.handed[i] in h'.made {
      if i >= |h.handed| {
        var r := HandedBy(h.view, e)[i - |h.handed|];
        assert r in h.view.timers;
      }
    }
  }

  /** One-shot timers. Over any run of the timer operations, a one-shot timer made with a callback is
      in exactly one of three situations: in the set and never handed out or cancelled; handed out
      exactly once; or cancelled by exactly one call that returned true. A recurring one is in the
      set unless exactly one `cancel` returned true. */
  lemma {:induction false} OneShotRuns(now: nat, events: seq<Event>)
    requires now < TWO_64 && AllPossible(now, events)
    ensures AllAccounted(Run(now, events))
  {
    if events != [] {
      OneShotRuns(now, events[..|events| - 1]);
      StepAllAccounted(Run(now, events[..|events| - 1]), events[|events| - 1]);
    }
  }

  /** `cancel` returns true exactly when the one-shot timer was neither handed out nor cancelled
      before, and then it is never handed out afterwards. */
  lemma CancelResult(h: History, a: nat)
    requires AllAccounted(h) && a in h.made && h.made[a].cb.Some? && !h.made[a].recurring
    ensures Armed(h.view.timers, a) <==> multiset(h.handed)[a] == 0 && multiset(h.cancelled)[a] == 0
    ensures multiset(h.cancelled)[a] > 0 ==> multiset(h.handed)[a] == 0
  {
    assert Accounted(h, a);
    HasAddrMeans(h.view.timers, a);
    var i := Locate(h.view.timers, a);
    if i < |h.view.timers| { assert h.view.timers[i] in h.view.timers; }
  }

  /** Nothing is handed out before its current deadline, unless the clock was found rolled over. */
  lemma HandedWhenDue(v: View, e: Event, r: Rec)
    requires WellFormed(v) && e.now < TWO_64 && r in HandedBy(v, e)
    ensures r in v.timers && (r.next <= e.now || Rollover(v.previous, e.now))
  {
    ExpiryExact(v, e.now);
  }
}
