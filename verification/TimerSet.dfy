/** The deadline-ordered set of timers as a value: the comparator, the searches a `std::set` offers
    through it, and what expiry removes and puts back. */
module TimerSet {
  import opened Common

  const TWO_64: nat := 0x1_0000_0000_0000_0000
  const HOUR_MS: nat := 60 * 60 * 1000

  function Add64(a: nat, b: nat): nat { (a + b) % TWO_64 }

  function Sub64(a: nat, b: nat): nat { (a - b) % TWO_64 }

  /** One timer. `addr` stands for the object's identity; `cb` is `None` once disarmed. */
  datatype Rec = Rec(addr: nat, next: nat, ms: nat, recurring: bool, cb: Option<nat>)

  /** `Timer::Comparator`, null pointers first. */
  predicate Less(l: Option<Rec>, r: Option<Rec>) {
    match (l, r)
    case (None, None) => false
    case (None, Some(_)) => true
    case (Some(_), None) => false
    case (Some(a), Some(b)) => KeyLess(a.next, a.addr, b.next, b.addr)
  }

  predicate KeyLess(next: nat, addr: nat, next': nat, addr': nat) {
    if next < next' then true
    else if next' < next then false
    else addr < addr'
  }

  predicate Before(a: Rec, b: Rec) {
    KeyLess(a.next, a.addr, b.next, b.addr)
  }

  /** The comparator is by deadline, then by identity, null first; it is a strict order, and total on timers with
      different identities. */
  lemma ComparatorOrders(a: Option<Rec>, b: Option<Rec>, c: Option<Rec>)
    ensures a.Some? && b.Some? ==>
      (Less(a, b) <==> a.value.next < b.value.next || (a.value.next == b.value.next && a.value.addr < b.value.addr))
    ensures a.None? || b.None? ==> (Less(a, b) <==> a.None? && b.Some?)
    ensures !Less(a, a)
    ensures Less(a, b) && Less(b, c) ==> Less(a, c)
    ensures a.Some? && b.Some? && a.value.addr != b.value.addr ==> Less(a, b) || Less(b, a)
  {}

  ghost predicate Ordered(s: seq<Rec>) {
    forall i, j :: 0 <= i < j < |s| ==> Before(s[i], s[j])
  }

  ghost predicate DistinctAddrs(s: seq<Rec>) {
    forall i, j :: 0 <= i < j < |s| ==> s[i].addr != s[j].addr
  }

  ghost predicate HasAddr(s: seq<Rec>, addr: nat) {
    exists i :: 0 <= i < |s| && s[i].addr == addr
  }

  // ----- Searching -------------------------------------------------------------------------

  /** The first position that is not before the key. */
  function LowerBound(s: seq<Rec>, next: nat, addr: nat): (i: nat)
    ensures i <= |s|
    ensures forall j :: 0 <= j < i ==> KeyLess(s[j].next, s[j].addr, next, addr)
    ensures i < |s| ==> !KeyLess(s[i].next, s[i].addr, next, addr)
  {
    if s == [] || !KeyLess(s[0].next, s[0].addr, next, addr) then 0
    else
      var rest := LowerBound(s[1..], next, addr);
      assert forall j :: 0 < j < rest + 1 ==> s[j] == s[1..][j - 1];
      rest + 1
  }

  /** `find`: the position of an element equivalent to the key, or `|s|`. */
  function Find(s: seq<Rec>, next: nat, addr: nat): (i: nat)
    ensures i <= |s|
    ensures i < |s| ==> s[i].next == next && s[i].addr == addr
  {
    var i := LowerBound(s, next, addr);
    if i < |s| && !KeyLess(next, addr, s[i].next, s[i].addr) then i else |s|
  }

  /** In an ordered set, `find` finds whatever is there. */
  lemma FindNeverMisses(s: seq<Rec>, i: nat)
    requires Ordered(s) && i < |s|
    ensures Find(s, s[i].next, s[i].addr) == i
  {
    var k := LowerBound(s, s[i].next, s[i].addr);
    assert k < i ==> Before(s[k], s[i]);
  }

  // ----- Changing --------------------------------------------------------------------------

  function Insert(s: seq<Rec>, r: Rec): seq<Rec> {
    InsertAt(s, LowerBound(s, r.next, r.addr), r)
  }

  lemma InsertKeeps(s: seq<Rec>, r: Rec)
    requires Ordered(s) && DistinctAddrs(s) && !HasAddr(s, r.addr)
    ensures Ordered(Insert(s, r)) && DistinctAddrs(Insert(s, r))
    ensures forall x :: x in Insert(s, r) <==> x in s || x == r
  {
    var i, t := LowerBound(s, r.next, r.addr), Insert(s, r);
    InsertAtMembers(s, i, r);
    forall j | i <= j < |s| ensures Before(r, s[j]) {
      assert s[i].addr != r.addr && s[j].addr != r.addr;
      assert i < j ==> Before(s[i], s[j]);
    }
    assert forall j :: 0 <= j < |t| ==> t[j] == if j < i then s[j] else if j == i then r else s[j - 1];
  }

  lemma WithoutKeeps(s: seq<Rec>, i: nat)
    requires Ordered(s) && DistinctAddrs(s) && i < |s|
    ensures Ordered(Without(s, i)) && DistinctAddrs(Without(s, i))
    ensures forall x :: x in Without(s, i) <==> x in s && x != s[i]
    ensures !HasAddr(Without(s, i), s[i].addr)
  {
    var t := Without(s, i);
    assert forall j :: 0 <= j < |t| ==> t[j] == if j < i then s[j] else s[j + 1];
    forall x | x in s && x != s[i] ensures x in t {
      var j :| 0 <= j < |s| && s[j] == x;
      assert t[if j < i then j else j - 1] == x;
    }
  }

  // ----- Expiry ----------------------------------------------------------------------------

  /** The clock went back by more than an hour; below one hour the source's unsigned subtraction
      wraps, and any step back counts. */
  predicate Rollover(previous: nat, now: nat) {
    now < previous && now < Sub64(previous, HOUR_MS)
  }

  lemma RolloverMeans(previous: nat, now: nat)
    requires previous < TWO_64
    ensures Rollover(previous, now) <==> now < previous && (previous < 3600000 || now + 3600000 < previous)
  {
    if previous < HOUR_MS {
      assert Sub64(previous, HOUR_MS) == previous - HOUR_MS + TWO_64;
    } else {
      assert Sub64(previous, HOUR_MS) == previous - HOUR_MS;
    }
  }

  predicate Due(r: Rec, now: nat, rollover: bool) {
    rollover || r.next <= now
  }

  /** How many timers at the front are due. */
  function DueCount(s: seq<Rec>, now: nat, rollover: bool): (k: nat)
    ensures k <= |s|
    ensures forall i :: 0 <= i < k ==> Due(s[i], now, rollover)
    ensures k < |s| ==> !Due(s[k], now, rollover)
  {
    if s == [] || !Due(s[0], now, rollover) then 0
    else
      var rest := DueCount(s[1..], now, rollover);
      assert forall i :: 0 < i < rest + 1 ==> s[i] == s[1..][i - 1];
      rest + 1
  }

  /** In an ordered set the due timers are exactly those at the front. */
  lemma DueIsPrefix(s: seq<Rec>, now: nat, rollover: bool, i: nat)
    requires Ordered(s) && i < |s|
    ensures Due(s[i], now, rollover) <==> i < DueCount(s, now, rollover)
  {
    var k := DueCount(s, now, rollover);
    assert k < i ==> Before(s[k], s[i]);
  }

  /** Searching for the sentinel `(now, sentinel)` and then stepping over equal deadlines stops at
      the first timer that is not due, whatever the sentinel's address. */
  lemma SentinelDoesNotMatter(s: seq<Rec>, now: nat, sentinel: nat, it: nat)
    requires Ordered(s) && LowerBound(s, now, sentinel) <= it <= |s|
    requires forall j :: LowerBound(s, now, sentinel) <= j < it ==> s[j].next == now
    requires it < |s| ==> s[it].next != now
    ensures it == DueCount(s, now, false)
  {
    var lb, k := LowerBound(s, now, sentinel), DueCount(s, now, false);
    assert it < k ==> s[it].next < now;
    assert lb < it < |s| ==> Before(s[lb], s[it]);
    assert k < it ==> s[k].next > now;
  }

  function Rearmed(r: Rec, now: nat): Rec {
    r.(next := Add64(now, r.ms))
  }

  /** `s` with the recurring timers among `due` put back, in order. */
  function PutBack(s: seq<Rec>, due: seq<Rec>, now: nat): seq<Rec> {
    if due == [] then s
    else
      var n := |due| - 1;
      var before := PutBack(s, due[..n], now);
      if due[n].recurring then Insert(before, Rearmed(due[n], now)) else before
  }

  function Callbacks(due: seq<Rec>): seq<Option<nat>> {
    seq(|due|, i requires 0 <= i < |due| => due[i].cb)
  }

  ghost predicate CameBack(r: Rec, due: seq<Rec>, now: nat) {
    exists i :: 0 <= i < |due| && due[i].recurring && r == Rearmed(due[i], now)
  }

  lemma {:induction false} PutBackKeeps(s: seq<Rec>, due: seq<Rec>, now: nat)
    requires Ordered(s) && DistinctAddrs(s) && DistinctAddrs(due)
    requires forall i :: 0 <= i < |due| ==> !HasAddr(s, due[i].addr)
    ensures Ordered(PutBack(s, due, now)) && DistinctAddrs(PutBack(s, due, now))
    ensures forall r :: r in PutBack(s, due, now) <==> r in s || CameBack(r, due, now)
  {
    if due != [] {
      var n := |due| - 1;
      var before := PutBack(s, due[..n], now);
      PutBackKeeps(s, due[..n], now);
      if due[n].recurring {
        assert !HasAddr(before, due[n].addr) by {
          forall i | 0 <= i < |before| ensures before[i].addr != due[n].addr {
            assert before[i] in before;
            if before[i] in s {
              var k :| 0 <= k < |s| && s[k] == before[i];
            }
          }
        }
        InsertKeeps(before, Rearmed(due[n], now));
      }
      forall r
        ensures CameBack(r, due, now) <==> CameBack(r, due[..n], now) || (due[n].recurring && r == Rearmed(due[n], now))
      {
        if CameBack(r, due[..n], now) {
          var i :| 0 <= i < n && due[..n][i].recurring && r == Rearmed(due[..n][i], now);
          assert due[i] == due[..n][i];
        }
        if CameBack(r, due, now) {
          var i :| 0 <= i < |due| && due[i].recurring && r == Rearmed(due[i], now);
          assert i < n ==> due[..n][i] == due[i];
        }
      }
    }
  }
}
