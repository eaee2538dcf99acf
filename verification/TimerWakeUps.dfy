/** When the sleeping thread is told that the earliest deadline has moved forward. */
module TimerWakeUps {
  import opened Common
  import opened TimerSet
  import opened Timers
  import opened TimerRuns

  predicate Earlier(a: Option<nat>, b: Option<nat>) {
    a.Some? && (b.None? || a.value < b.value)
  }

  /** Since the last `getNextTimer` (or the start) the manager has notified at most once, and if the
      earliest deadline is now earlier than it was then, exactly once. */
  predicate Told(h: History) {
    h.notified <= 1 && (Earlier(Front(h.view.timers), h.front) ==> h.notified == 1)
  }

  /** The flag remembers whether there was a notification. */
  predicate Flagged(h: History) {
    h.notified == if h.view.tickled then 1 else 0
  }

  /** An event about to move a deadline in front of what the sleeping thread knows, without a word: the flag
      is down, and a refresh, or the re-arming of a due recurring timer, computes an earlier deadline. All of
      it can be read before the event. */
  ghost predicate Silent(h: History, e: Event) {
    var s := h.view.timers;
    && !h.view.tickled
    && match e.op
       case Refresh(a) => Armed(s, a) && Earlier(Some(Add64(e.now, s[Locate(s, a)].ms)), h.front)
       case Expire =>
         exists r :: r in DueTimers(h.view, e.now) && r.recurring && Earlier(Some(Add64(e.now, r.ms)), h.front)
       case _ => false
  }

  // ----- One event ---------------------------------------------------------------------------

  lemma FrontIsLeast(s: seq<Rec>, r: Rec)
    requires Ordered(s) && r in s
    ensures s[0].next <= r.next
  {
    var k :| 0 <= k < |s| && s[k] == r;
    if k > 0 { assert Before(s[0], s[k]); }
  }

  /** The front is earlier than `front` exactly when some member is. */
  lemma FrontDecides(s: seq<Rec>, front: Option<nat>)
    requires Ordered(s)
    ensures Earlier(Front(s), front) <==> exists r: Rec :: r in s && Earlier(Some(r.next), front)
  {
    if s != [] { assert s[0] in s; }
    if r: Rec :| r in s && Earlier(Some(r.next), front) {
      FrontIsLeast(s, r);
    }
  }

  /** An insertion that moves the front forward is notified, now or already. */
  lemma InsertTells(v: View, r: Rec, front: Option<nat>)
    requires Earlier(Front(v.timers), front) ==> v.tickled
    ensures Earlier(Front(Inserted(v, r).timers), front) ==> Inserted(v, r).tickled
  {
    var i := LowerBound(v.timers, r.next, r.addr);
    if i > 0 { assert Insert(v.timers, r)[0] == v.timers[0]; }
  }

  lemma RemovalTells(v: View, i: nat, front: Option<nat>)
    requires WellFormed(v) && i < |v.timers| && (Earlier(Front(v.timers), front) ==> v.tickled)
    ensures Earlier(Front(Without(v.timers, i)), front) ==> v.tickled
  {
    WithoutKeeps(v.timers, i);
    FrontDecides(v.timers, front);
    FrontDecides(Without(v.timers, i), front);
  }

  lemma ResetTells(v: View, e: Event, front: Option<nat>)
    requires WellFormed(v) && e.op.Reset? && (Earlier(Front(v.timers), front) ==> v.tickled)
    ensures Earlier(Front(After(v, e).timers), front) ==> After(v, e).tickled
  {
    var s, a := v.timers, e.op.addr;
    var i := Locate(s, a);
    if Armed(s, a) && Moves(s[i], e.op.ms, e.op.fromNow) {
      RemovalTells(v, i, front);
      InsertTells(v.(timers := Without(s, i)), Restarted(s[i], e.op.ms, e.op.fromNow, e.now), front);
    }
  }

  /** A refresh puts one deadline in the place of another. */
  lemma RefreshExact(v: View, a: nat, now: nat, front: Option<nat>)
    requires WellFormed(v) && Armed(v.timers, a) && !Earlier(Front(v.timers), front)
    ensures Earlier(Front(Refreshed(v, a, now).timers), front) <==>
      Earlier(Some(Add64(now, v.timers[Locate(v.timers, a)].ms)), front)
  {
    var s := v.timers;
    var i := Locate(s, a);
    var r := s[i].(next := Add64(now, s[i].ms));
    Rekeyed(s, i, r);
    FrontDecides(s, front);
    FrontDecides(Insert(Without(s, i), r), front);
  }

  /** Expiry takes timers out and puts the recurring ones back with new deadlines. */
  lemma ExpireExact(v: View, now: nat, front: Option<nat>)
    requires WellFormed(v) && now < TWO_64 && !Earlier(Front(v.timers), front)
    ensures Earlier(Front(Expired(v, now).timers), front) <==>
      exists r :: r in DueTimers(v, now) && r.recurring && Earlier(Some(Add64(now, r.ms)), front)
  {
    var s, t, due := v.timers, Expired(v, now).timers, DueTimers(v, now);
    ExpiryExact(v, now);
    FrontDecides(s, front);
    FrontDecides(t, front);
    if r: Rec :| r in t && Earlier(Some(r.next), front) {
      assert r !in s;
      var d := Source(r, due, now);
    }
    if r: Rec :| r in due && r.recurring && Earlier(Some(Add64(now, r.ms)), front) {
      Returns(r, due, now);
    }
  }

  lemma Source(r: Rec, due: seq<Rec>, now: nat) returns (d: Rec)
    requires CameBack(r, due, now)
    ensures d in due && d.recurring && r == Rearmed(d, now)
  {
    var i :| 0 <= i < |due| && due[i].recurring && r == Rearmed(due[i], now);
    d := due[i];
  }

  lemma Returns(d: Rec, due: seq<Rec>, now: nat)
    requires d in due && d.recurring
    ensures CameBack(Rearmed(d, now), due, now)
  {
    var i :| 0 <= i < |due| && due[i] == d;
  }

  lemma StepFlagged(h: History, e: Event)
    requires Flagged(h)
    ensures Flagged(Step(h, e))
    ensures h.view.tickled && !e.op.Next? ==> After(h.view, e).tickled
  {
  }

  /** One event, exactly: it keeps the promise if and only if it is not silent. */
  lemma StepExact(h: History, e: Event)
    requires Tracked(h) && Flagged(h) && Told(h) && Possible(h, e)
    ensures Told(Step(h, e)) <==> !Silent(h, e)
  {
    StepFlagged(h, e);
    if !h.view.tickled {
      match e.op
      case Add(_, _, _, _, _) => InsertTells(h.view, NewRec(e.op), h.front);
      case Cancel(a) => if Armed(h.view.timers, a) { RemovalTells(h.view, Locate(h.view.timers, a), h.front); }
      case Refresh(a) => if Armed(h.view.timers, a) { RefreshExact(h.view, a, e.now, h.front); }
      case Reset(_, _, _) => ResetTells(h.view, e, h.front);
      case Next =>
      case Expire => ExpireExact(h.view, e.now, h.front);
    }
  }

  // ----- Runs --------------------------------------------------------------------------------

  /** The promise holds after every prefix of the run. */
  ghost predicate AlwaysTold(now: nat, events: seq<Event>) {
    Told(Run(now, events)) && (events == [] || AlwaysTold(now, events[..|events| - 1]))
  }

  ghost predicate NeverSilent(now: nat, events: seq<Event>) {
    events == [] || (var n := |events| - 1; NeverSilent(now, events[..n]) && !Silent(Run(now, events[..n]), events[n]))
  }

  lemma {:induction false} RunTracked(now: nat, events: seq<Event>)
    requires now < TWO_64 && AllPossible(now, events)
    ensures Tracked(Run(now, events)) && Flagged(Run(now, events))
  {
    if events != [] {
      var n := |events| - 1;
      RunTracked(now, events[..n]);
      StepTracked(Run(now, events[..n]), events[n]);
      StepFlagged(Run(now, events[..n]), events[n]);
    }
  }

  /** Timer wake-up, exactly. Over any run of the timer operations, whatever the clock does and even if
      deadlines wrap around: the sleeping thread has been told, at every point of the run, if and only if no
      event of the run was silent. */
  lemma {:induction false} WakeUpExact(now: nat, events: seq<Event>)
    requires now < TWO_64 && AllPossible(now, events)
    ensures AlwaysTold(now, events) <==> NeverSilent(now, events)
  {
    if events != [] {
      var n := |events| - 1;
      WakeUpExact(now, events[..n]);
      if AlwaysTold(now, events[..n]) {
        RunTracked(now, events[..n]);
        StepExact(Run(now, events[..n]), events[n]);
      }
    }
  }

  // ----- A clock that does not go back ----------------------------------------------------------

  /** The clock does not go back and no deadline overflows. */
  predicate Timely(h: History, e: Event) {
    && h.clock <= e.now
    && (forall r :: r in h.view.timers ==> e.now + r.ms < TWO_64)
    && (e.op.Add? ==> e.op.made <= e.now && e.op.made + e.op.ms < TWO_64)
    && (e.op.Reset? ==> e.now + e.op.ms < TWO_64)
  }

  ghost predicate AllTimely(now: nat, events: seq<Event>) {
    events == [] ||
    (var n := |events| - 1; AllTimely(now, events[..n]) && Timely(Run(now, events[..n]), events[n]))
  }

  /** Every timer in the set was started no later than the clock. */
  ghost predicate Started(h: History) {
    h.view.previous <= h.clock && forall r :: r in h.view.timers ==> r.ms <= r.next <= h.clock + r.ms
  }

  lemma RearmedLater(r: Rec, now: nat)
    requires r.next <= now && now + r.ms < TWO_64
    ensures var x := Rearmed(r, now); x.ms == r.ms && r.next <= x.next == now + r.ms
  {
  }

  /** Putting a timer with a new start and period in the place of another. */
  lemma RekeyStarted(s: seq<Rec>, i: nat, r: Rec, now: nat)
    requires Ordered(s) && DistinctAddrs(s) && i < |s| && r.addr == s[i].addr && r.ms <= r.next <= now + r.ms
    requires forall x :: x in s ==> x.ms <= x.next <= now + x.ms
    ensures forall x :: x in Insert(Without(s, i), r) ==> x.ms <= x.next <= now + x.ms
  {
    Rekeyed(s, i, r);
  }

  lemma RefreshStarted(h: History, e: Event)
    requires Tracked(h) && Started(h) && Timely(h, e) && e.op.Refresh?
    ensures Started(Step(h, e))
  {
    var s, a := h.view.timers, e.op.addr;
    if Armed(s, a) {
      var i := Locate(s, a);
      assert s[i] in s;
      RefreshedStarted(s[i], e.now);
      RekeyStarted(s, i, s[i].(next := Add64(e.now, s[i].ms)), e.now);
    }
  }

  lemma RefreshedStarted(r: Rec, now: nat)
    requires now + r.ms < TWO_64
    ensures var x := r.(next := Add64(now, r.ms)); x.ms <= x.next <= now + x.ms
  {
  }

  lemma ResetStarted(h: History, e: Event)
    requires Tracked(h) && Started(h) && Timely(h, e) && e.op.Reset?
    ensures Started(Step(h, e))
  {
    var s, a := h.view.timers, e.op.addr;
    var i := Locate(s, a);
    if Armed(s, a) && Moves(s[i], e.op.ms, e.op.fromNow) {
      assert s[i] in s;
      RestartedStarted(s[i], e.op.ms, e.op.fromNow, h.clock, e.now);
      RekeyStarted(s, i, Restarted(s[i], e.op.ms, e.op.fromNow, e.now), e.now);
    }
  }

  lemma RestartedStarted(r: Rec, ms: nat, fromNow: bool, clock: nat, now: nat)
    requires r.ms <= r.next <= clock + r.ms && clock <= now && now + ms < TWO_64 && now + r.ms < TWO_64
    ensures var x := Restarted(r, ms, fromNow, now); x.ms == ms && x.ms <= x.next <= now + x.ms
  {
  }

  lemma ExpireStarted(h: History, e: Event)
    requires Tracked(h) && Started(h) && Timely(h, e) && Possible(h, e) && e.op.Expire?
    ensures Started(Step(h, e))
  {
    var due := DueTimers(h.view, e.now);
    ExpiryExact(h.view, e.now);
    forall x | x in Expired(h.view, e.now).timers ensures x.ms <= x.next <= e.now + x.ms {
      if x !in h.view.timers {
        var d := Source(x, due, e.now);
        RearmedLater(d, e.now);
      }
    }
  }

  lemma StepStarted(h: History, e: Event)
    requires Tracked(h) && Started(h) && Timely(h, e) && Possible(h, e)
    ensures Started(Step(h, e))
  {
    match e.op
    case Add(_, _, _, _, _) =>
      NotThere(h, e.op.addr);
      AfterContents(h.view, e);
      assert NewRec(e.op).next == e.op.made + e.op.ms;
    case Cancel(a) => CancelContents(h.view, a);
    case Refresh(_) => RefreshStarted(h, e);
    case Reset(_, _, _) => ResetStarted(h, e);
    case Next =>
    case Expire => ExpireStarted(h, e);
  }

  /** With such a clock a refresh and a re-arming can only push deadlines back. */
  lemma TimelyIsNotSilent(h: History, e: Event)
    requires Tracked(h) && Flagged(h) && Told(h) && Started(h) && Timely(h, e) && Possible(h, e)
    ensures !Silent(h, e)
  {
    var s := h.view.timers;
    FrontDecides(s, h.front);
    if e.op.Refresh? && Armed(s, e.op.addr) {
      assert s[Locate(s, e.op.addr)] in s;
    }
    if e.op.Expire? {
      ExpiryExact(h.view, e.now);
      forall r | r in DueTimers(h.view, e.now) ensures r in s && r.next <= Add64(e.now, r.ms) {
        RearmedLater(r, e.now);
      }
    }
  }

  lemma {:induction false} TimelyRun(now: nat, events: seq<Event>)
    requires now < TWO_64 && AllPossible(now, events) && AllTimely(now, events)
    ensures Started(Run(now, events)) && NeverSilent(now, events) && AlwaysTold(now, events)
  {
    if events != [] {
      var n := |events| - 1;
      var h := Run(now, events[..n]);
      TimelyRun(now, events[..n]);
      RunTracked(now, events[..n]);
      StepStarted(h, events[n]);
      TimelyIsNotSilent(h, events[n]);
    }
    WakeUpExact(now, events);
  }

  /** Timer wake-up. With a clock that does not go back and no overflow, the promise holds in every run. */
  lemma TimerWakeUp(now: nat, events: seq<Event>)
    requires now < TWO_64 && AllPossible(now, events) && AllTimely(now, events)
    ensures Told(Run(now, events))
  {
    TimelyRun(now, events);
  }

  /** Without the clock assumption the claim fails: the clock goes back by a second and a refresh
      moves the only timer forward, silently. */
  lemma SilentRefresh()
    ensures var events := [Event(Add(1, 100, Some(7), false, 5000), 5000), Event(Next, 5000), Event(Refresh(1), 4000)];
      var h := Run(5000, events);
      AllPossible(5000, events) && Earlier(Front(h.view.timers), h.front) && h.notified == 0
  {
    var e1, e2, e3 := Event(Add(1, 100, Some(7), false, 5000), 5000), Event(Next, 5000), Event(Refresh(1), 4000);
    assert [e1, e2, e3][..2] == [e1, e2] && [e1, e2][..1] == [e1] && [e1][..0] == [];
    var r := Rec(1, 5100, 100, false, Some(7));
    assert AllPossible(5000, []);
    assert Run(5000, [e1]).view == View([r], true, 5000) && AllPossible(5000, [e1]);
    assert Run(5000, [e1, e2]).view == View([r], false, 5000) && AllPossible(5000, [e1, e2]);
    assert Without([r], 0) == [];
    assert Run(5000, [e1, e2, e3]).view == View([r.(next := 4100)], false, 5000);
  }
}
