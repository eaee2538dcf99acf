/** Event registrations as a ledger: every successful `addEvent` issues a ticket, and a ticket is
    either still registered, was handed to a scheduler's task list, or was silently deleted. */
module IoLedger {
  datatype Event = READ | WRITE

  /** What a registration runs when it fires. */
  datatype Handler = FiberHandler(fiber: nat) | CbHandler(cb: nat)

  datatype Key = Key(fd: nat, event: Event)

  datatype Registration = Registration(ticket: nat, scheduler: nat, handler: Handler)

  datatype Ledger = Ledger(
    regs: map<Key, Registration>,
    queued: seq<Registration>,
    deleted: seq<Registration>,
    issued: nat)

  const EMPTY_LEDGER := Ledger(map[], [], [], 0)

  function Register(l: Ledger, key: Key, scheduler: nat, handler: Handler): Ledger {
    l.(regs := l.regs[key := Registration(l.issued, scheduler, handler)], issued := l.issued + 1)
  }

  /** Fire a registration: exactly its handler goes to exactly its scheduler. */
  function Trigger(l: Ledger, key: Key): Ledger {
    if key in l.regs then l.(regs := l.regs - {key}, queued := l.queued + [l.regs[key]]) else l
  }

  function Delete(l: Ledger, key: Key): Ledger {
    if key in l.regs then l.(regs := l.regs - {key}, deleted := l.deleted + [l.regs[key]]) else l
  }

  /** Fire the given directions of a descriptor, READ first. */
  function TriggerAll(l: Ledger, fd: nat, events: set<Event>): Ledger {
    var l1 := if READ in events then Trigger(l, Key(fd, READ)) else l;
    if WRITE in events then Trigger(l1, Key(fd, WRITE)) else l1
  }

  // ----- Exactly once ----------------------------------------------------------------------

  datatype Op = RegisterOp(key: Key, scheduler: nat, handler: Handler) | TriggerOp(key: Key) | DeleteOp(key: Key)

  /** The source asserts that a direction is not registered twice. */
  predicate Allowed(l: Ledger, op: Op) {
    op.RegisterOp? ==> op.key !in l.regs
  }

  function Apply(l: Ledger, op: Op): Ledger {
    match op
    case RegisterOp(key, scheduler, handler) => Register(l, key, scheduler, handler)
    case TriggerOp(key) => Trigger(l, key)
    case DeleteOp(key) => Delete(l, key)
  }

  function Run(ops: seq<Op>): Ledger {
    if ops == [] then EMPTY_LEDGER else Apply(Run(ops[..|ops| - 1]), ops[|ops| - 1])
  }

  ghost predicate AllAllowed(ops: seq<Op>) {
    ops == [] || (var n := |ops| - 1; AllAllowed(ops[..n]) && Allowed(Run(ops[..n]), ops[n]))
  }

  function Tickets(rs: seq<Registration>): (ts: seq<nat>)
    ensures |ts| == |rs|
  {
    seq(|rs|, i requires 0 <= i < |rs| => rs[i].ticket)
  }

  ghost predicate Open(l: Ledger, t: nat) {
    exists k :: k in l.regs && l.regs[k].ticket == t
  }

  /** A ticket is registered, queued or deleted, once in all. */
  ghost predicate Once(l: Ledger, t: nat) {
    (if Open(l, t) then 1 else 0) + multiset(Tickets(l.queued))[t] + multiset(Tickets(l.deleted))[t]
      == if t < l.issued then 1 else 0
  }

  ghost predicate AllOnce(l: Ledger) {
    && (forall t: nat :: Once(l, t))
    && (forall j, k :: j in l.regs && k in l.regs && l.regs[j].ticket == l.regs[k].ticket ==> j == k)
  }

  lemma TicketsAppend(rs: seq<Registration>, r: Registration, t: nat)
    ensures multiset(Tickets(rs + [r]))[t] == multiset(Tickets(rs))[t] + if r.ticket == t then 1 else 0
  {
    assert Tickets(rs + [r]) == Tickets(rs) + [r.ticket];
  }

  lemma RegisterOnce(l: Ledger, key: Key, scheduler: nat, handler: Handler)
    requires AllOnce(l) && key !in l.regs
    ensures AllOnce(Register(l, key, scheduler, handler))
  {
    var l' := Register(l, key, scheduler, handler);
    assert forall k :: k in l.regs ==> l.regs[k].ticket < l.issued by {
      forall k | k in l.regs ensures l.regs[k].ticket < l.issued { assert Once(l, l.regs[k].ticket); }
    }
    forall t: nat ensures Once(l', t) {
      assert Once(l, t);
      if Open(l, t) {
        var k :| k in l.regs && l.regs[k].ticket == t;
        assert l'.regs[k].ticket == t;
      }
      assert l'.regs[key].ticket == l.issued;
    }
  }

  /** Whoever takes a registration out takes its ticket with it. */
  lemma TakeOut(l: Ledger, key: Key, t: nat)
    requires AllOnce(l) && key in l.regs
    ensures var r := l.regs[key]; var l' := l.(regs := l.regs - {key});
      (if Open(l', t) then 1 else 0) + (if r.ticket == t then 1 else 0) == if Open(l, t) then 1 else 0
  {
    var l' := l.(regs := l.regs - {key});
    assert l.regs[key].ticket == t ==> Open(l, t);
    if Open(l, t) && l.regs[key].ticket != t {
      var k :| k in l.regs && l.regs[k].ticket == t;
      assert k in l'.regs;
    }
  }

  lemma ConsumeOnce(l: Ledger, key: Key)
    requires AllOnce(l)
    ensures AllOnce(Trigger(l, key)) && AllOnce(Delete(l, key))
  {
    if key in l.regs {
      var r := l.regs[key];
      forall t: nat ensures Once(Trigger(l, key), t) && Once(Delete(l, key), t) {
        assert Once(l, t);
        TakeOut(l, key, t);
        TicketsAppend(l.queued, r, t);
        TicketsAppend(l.deleted, r, t);
        var l' := l.(regs := l.regs - {key});
        assert Open(Trigger(l, key), t) == Open(l', t) == Open(Delete(l, key), t);
      }
    }
  }

  /** Exactly-once wake. Over any run of registrations, firings and deletions on any descriptors:
      every ticket issued is registered, or was queued, or was deleted - one of these, once - and
      no other ticket appears anywhere. */
  lemma {:induction false} ExactlyOnce(ops: seq<Op>)
    requires AllAllowed(ops)
    ensures AllOnce(Run(ops))
  {
    if ops != [] {
      var n := |ops| - 1;
      ExactlyOnce(ops[..n]);
      match ops[n]
      case RegisterOp(key, scheduler, handler) => RegisterOnce(Run(ops[..n]), key, scheduler, handler);
      case TriggerOp(key) => ConsumeOnce(Run(ops[..n]), key);
      case DeleteOp(key) => ConsumeOnce(Run(ops[..n]), key);
    }
  }
}
