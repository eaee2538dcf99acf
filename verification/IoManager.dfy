/** `IOManager`'s event registrations: the per-descriptor contexts, the pending counter and the
    kernel's interest table, all shown to agree with the ledger of registrations. */
module IoManager {
  import opened Common
  import opened IoLedger

  datatype EventContext = EventContext(scheduler: Option<nat>, fiber: Option<nat>, cb: Option<nat>)

  const NO_CONTEXT := EventContext(None, None, None)

  datatype FdContext = FdContext(read: EventContext, write: EventContext, events: set<Event>)
  {
    function Get(e: Event): EventContext {
      if e.READ? then read else write
    }
    function Set(e: Event, c: EventContext): (x: FdContext)
      ensures x.Get(e) == c && x.events == events
      ensures forall o :: o != e ==> x.Get(o) == Get(o)
    {
      if e.READ? then this.(read := c) else this.(write := c)
    }
  }

  const NO_FD := FdContext(NO_CONTEXT, NO_CONTEXT, {})

  datatype CtlOp = ADD | MOD | DEL

  datatype Report = Report(fd: nat, epollIn: bool, epollOut: bool, errOrHup: bool)

  /** A task as the scheduler gets it. */
  datatype Queued = Queued(scheduler: nat, handler: Handler)

  datatype AddResult = Added | CtlRefused | AlreadyRegistered
  datatype DispatchResult = Stale | CtlFailed | Fired | TriggerAsserted

  function Loaded(r: Registration): EventContext {
    match r.handler
    case FiberHandler(f) => EventContext(Some(r.scheduler), Some(f), None)
    case CbHandler(c) => EventContext(Some(r.scheduler), None, Some(c))
  }

  function AsQueued(rs: seq<Registration>): seq<Queued> {
    seq(|rs|, i requires 0 <= i < |rs| => Queued(rs[i].scheduler, rs[i].handler))
  }

  /** The directions a report stands for; an error or hang-up counts as every registered one. */
  function RealEvents(r: Report, events: set<Event>): set<Event> {
    (if r.epollIn then {READ} else {}) + (if r.epollOut then {WRITE} else {}) + (if r.errOrHup then events else {})
  }

  /** The contents of one descriptor's context and of the kernel's entry for it. */
  ghost predicate FdOk(fd: nat, c: FdContext, kernel: map<nat, set<Event>>, regs: map<Key, Registration>) {
    && (forall e :: e in c.events <==> Key(fd, e) in regs)
    && (forall e :: c.Get(e) == if Key(fd, e) in regs then Loaded(regs[Key(fd, e)]) else NO_CONTEXT)
    && (fd in kernel <==> c.events != {})
    && (fd in kernel ==> kernel[fd] == c.events)
  }

  ghost predicate TableOk(contexts: seq<FdContext>, kernel: map<nat, set<Event>>, regs: map<Key, Registration>) {
    && (forall fd :: 0 <= fd < |contexts| ==> FdOk(fd, contexts[fd], kernel, regs))
    && (forall fd :: fd in kernel ==> fd < |contexts|)
    && (forall k :: k in regs ==> k.fd < |contexts|)
  }

  /** A change to one descriptor: only that descriptor needs checking. */
  lemma {:induction false} ChangeOne(contexts: seq<FdContext>, kernel: map<nat, set<Event>>,
      regs: map<Key, Registration>,
                  fd: nat, c: FdContext, kernel': map<nat, set<Event>>, regs': map<Key, Registration>)
    requires TableOk(contexts, kernel, regs) && fd < |contexts| && FdOk(fd, c, kernel', regs')
    requires kernel' - {fd} == kernel - {fd}
    requires forall k: Key :: k.fd != fd ==> (k in regs' <==> k in regs) && (k in regs ==> regs'[k] == regs[k])
    ensures TableOk(contexts[fd := c], kernel', regs')
  {
    var contexts' := contexts[fd := c];
    forall i | 0 <= i < |contexts'| ensures FdOk(i, contexts'[i], kernel', regs') {
      if i != fd {
        assert FdOk(i, contexts[i], kernel, regs);
        assert i in kernel' <==> i in kernel' - {fd};
        assert i in kernel <==> i in kernel - {fd};
        assert i in kernel ==> kernel'[i] == (kernel' - {fd})[i] == (kernel - {fd})[i] == kernel[i];
      }
    }
    forall i | i in kernel' ensures i < |contexts| {
      assert i != fd ==> i in kernel' - {fd};
    }
  }

  /** A context after one direction has fired or was deleted. */
  function Fired1(c: FdContext, event: Event): FdContext {
    c.Set(event, NO_CONTEXT).(events := c.events - {event})
  }

  /** The kernel's entry for a descriptor whose mask is `mask`. */
  function WithMask(kernel: map<nat, set<Event>>, fd: nat, mask: set<Event>): map<nat, set<Event>> {
    if mask == {} then kernel - {fd} else kernel[fd := mask]
  }

  /** A context after one direction was registered. */
  function Registered1(c: FdContext, event: Event, r: Registration): FdContext {
    c.Set(event, Loaded(r)).(events := c.events + {event})
  }

  lemma {:induction false} RegisterFdOk(fd: nat, c: FdContext, kernel: map<nat, set<Event>>,
      regs: map<Key, Registration>,
                                        event: Event, r: Registration)
    requires FdOk(fd, c, kernel, regs)
    ensures FdOk(fd, Registered1(c, event, r), kernel[fd := c.events + {event}], regs[Key(fd, event) := r])
  {
    var c' := Registered1(c, event, r);
    assert forall e :: c'.Get(e) == if e == event then Loaded(r) else c.Get(e);
  }

  lemma {:induction false} RegisterKeeps(contexts: seq<FdContext>, kernel: map<nat, set<Event>>,
      regs: map<Key, Registration>,
                                         fd: nat, event: Event, r: Registration)
    requires TableOk(contexts, kernel, regs) && fd < |contexts| && Key(fd, event) !in regs
    ensures TableOk(contexts[fd := Registered1(contexts[fd], event, r)],
                    kernel[fd := contexts[fd].events + {event}], regs[Key(fd, event) := r])
    ensures |regs[Key(fd, event) := r]| == |regs| + 1
  {
    var c, kernel' := contexts[fd], kernel[fd := contexts[fd].events + {event}];
    RegisterFdOk(fd, c, kernel, regs, event, r);
    assert kernel' - {fd} == kernel - {fd};
    ChangeOne(contexts, kernel, regs, fd, Registered1(c, event, r), kernel', regs[Key(fd, event) := r]);
  }

  /** Taking out one registration of a descriptor, with the kernel told the remaining mask. */
  lemma {:induction false} RemoveKeeps(contexts: seq<FdContext>, kernel: map<nat, set<Event>>,
      regs: map<Key, Registration>, fd: nat, event: Event)
    requires TableOk(contexts, kernel, regs) && fd < |contexts| && Key(fd, event) in regs
    ensures var c := contexts[fd];
      && TableOk(contexts[fd := Fired1(c, event)],
                 WithMask(kernel, fd, c.events - {event}), regs - {Key(fd, event)})
      && |regs - {Key(fd, event)}| == |regs| - 1
  {
    var c, regs' := contexts[fd], regs - {Key(fd, event)};
    assert FdOk(fd, c, kernel, regs);
    var c' := Fired1(c, event);
    assert forall e :: c'.Get(e) == if e == event then NO_CONTEXT else c.Get(e);
    ChangeOne(contexts, kernel, regs, fd, c', WithMask(kernel, fd, c.events - {event}), regs');
    assert regs.Keys == regs'.Keys + {Key(fd, event)};
  }

  /** Telling the kernel the masks one direction at a time ends where telling it at once does. */
  lemma {:induction false} TwoMasks(kernel: map<nat, set<Event>>, fd: nat, events: set<Event>, hit: set<Event>)
    requires hit != {}
    ensures var one := if READ in hit then WithMask(kernel, fd, events - {READ}) else kernel;
      var events1 := if READ in hit then events - {READ} else events;
      WithMask(kernel, fd, events - hit) == if WRITE in hit then WithMask(one, fd, events1 - {WRITE}) else one
  {
    var one := if READ in hit then WithMask(kernel, fd, events - {READ}) else kernel;
    var events1 := if READ in hit then events - {READ} else events;
    var left := if WRITE in hit then events1 - {WRITE} else events1;
    assert events - hit == left by {
      forall e ensures e in events - hit <==> e in left {
        match e
        case READ =>
        case WRITE =>
      }
    }
    assert one - {fd} == kernel - {fd};
    assert one[fd := left] == kernel[fd := left];
    var e :| e in hit;
    assert e == READ || e == WRITE;
  }

  /** The directions of `fd` that are registered. */
  function Mask(l: Ledger, fd: nat): set<Event> {
    (if Key(fd, READ) in l.regs then {READ} else {}) + (if Key(fd, WRITE) in l.regs then {WRITE} else {})
  }

  lemma {:induction false} MaskIs(l: Ledger, fd: nat, events: set<Event>)
    requires forall e :: e in events <==> Key(fd, e) in l.regs
    ensures Mask(l, fd) == events
  {
    forall e ensures e in Mask(l, fd) <==> e in events {
      match e
      case READ =>
      case WRITE =>
    }
  }

  lemma Directions(es: set<Event>)
    ensures es == {} <==> READ !in es && WRITE !in es
  {
    if e :| e in es {
      assert e == READ || e == WRITE;
    }
  }

  /** A report is fresh if what it says (besides errors) is still registered, or nothing of it is. */
  predicate Fresh(l: Ledger, r: Report) {
    var hit := RealEvents(r, Mask(l, r.fd));
    hit <= Mask(l, r.fd) || hit * Mask(l, r.fd) == {}
  }

  /** What a registration, if there is one, asks to be run, and by whom. */
  function HandlerOf(l: Ledger, key: Key): seq<Queued> {
    if key in l.regs then [Queued(l.regs[key].scheduler, l.regs[key].handler)] else []
  }

  /** The kernel says the direction is ready: EPOLLIN for reading, EPOLLOUT for writing. */
  predicate Says(r: Report, e: Event) {
    match e
    case READ => r.epollIn
    case WRITE => r.epollOut
  }

  /** The report is for a registered direction: by name, or because of an error or hang-up. */
  predicate Hits(l: Ledger, r: Report, e: Event) {
    Key(r.fd, e) in l.regs && (Says(r, e) || r.errOrHup)
  }

  /** The report names a direction that is not registered any more. */
  predicate Misses(l: Ledger, r: Report, e: Event) {
    Key(r.fd, e) !in l.regs && Says(r, e)
  }

  /** The registered handler of a direction that the report hits, for its scheduler. */
  function FiredOf(l: Ledger, r: Report, e: Event): seq<Queued> {
    if Hits(l, r, e) then HandlerOf(l, Key(r.fd, e)) else []
  }

  lemma {:induction false} AllHandlers(l: Ledger, fd: nat)
    ensures AsQueued(TriggerAll(l, fd, {READ, WRITE}).queued) ==
            AsQueued(l.queued) + (HandlerOf(l, Key(fd, READ)) + HandlerOf(l, Key(fd, WRITE)))
  {
  }

  lemma HitsAre(l: Ledger, r: Report, e: Event)
    ensures e in Mask(l, r.fd) <==> Key(r.fd, e) in l.regs
    ensures e in RealEvents(r, Mask(l, r.fd)) * Mask(l, r.fd) <==> Hits(l, r, e)
    ensures e in RealEvents(r, Mask(l, r.fd)) - Mask(l, r.fd) <==> Misses(l, r, e)
  {
    match e
    case READ =>
    case WRITE =>
  }

  /** What fires, in order, when nothing is missed. */
  lemma {:induction false} FiresHits(l: Ledger, r: Report)
    requires !Misses(l, r, READ) && !Misses(l, r, WRITE)
    ensures var l' := TriggerAll(l, r.fd, RealEvents(r, Mask(l, r.fd)));
      && (forall e :: Key(r.fd, e) in l'.regs <==> Key(r.fd, e) in l.regs && !Hits(l, r, e))
      && AsQueued(l'.queued) == AsQueued(l.queued) + FiredOf(l, r, READ) + FiredOf(l, r, WRITE)
  {
    HitsAre(l, r, READ);
    HitsAre(l, r, WRITE);
    var l' := TriggerAll(l, r.fd, RealEvents(r, Mask(l, r.fd)));
    forall e ensures Key(r.fd, e) in l'.regs <==> Key(r.fd, e) in l.regs && !Hits(l, r, e) {
      match e
      case READ =>
      case WRITE =>
    }
  }

  /** What one report fires. */
  function DispatchOne(l: Ledger, r: Report, fault: bool): Ledger {
    if fault then l else TriggerAll(l, r.fd, RealEvents(r, Mask(l, r.fd)))
  }

  /** What a buffer of reports does, given which kernel calls fail. */
  function Dispatched(l: Ledger, reports: seq<Report>, faults: seq<bool>): Ledger
    requires |faults| == |reports|
    decreases |reports|
  {
    if reports == [] then l else Dispatched(DispatchOne(l, reports[0], faults[0]), reports[1..], faults[1..])
  }

  /** Every report, met in the state the earlier ones leave, is fresh (or its kernel call fails). */
  predicate AllFresh(l: Ledger, reports: seq<Report>, faults: seq<bool>)
    requires |faults| == |reports|
    decreases |reports|
  {
    reports == [] ||
    ((faults[0] || Fresh(l, reports[0])) && AllFresh(DispatchOne(l, reports[0], faults[0]), reports[1..], faults[1..]))
  }

  lemma {:induction false} UnfoldOne(l: Ledger, reports: seq<Report>, faults: seq<bool>, i: nat)
    requires |faults| == |reports| && i < |reports|
    ensures var l' := DispatchOne(l, reports[i], faults[i]);
      && Dispatched(l, reports[i..], faults[i..]) == Dispatched(l', reports[i + 1..], faults[i + 1..])
      && (AllFresh(l, reports[i..], faults[i..]) <==>
            (faults[i] || Fresh(l, reports[i])) && AllFresh(l', reports[i + 1..], faults[i + 1..]))
  {
    assert reports[i..][1..] == reports[i + 1..] && faults[i..][1..] == faults[i + 1..];
  }

  /** With `i` reports done, the others do to `now` what all do to `start`. */
  ghost predicate Underway(start: Ledger, now: Ledger, reports: seq<Report>, faults: seq<bool>, i: nat)
    requires |faults| == |reports| && i <= |reports|
  {
    && Dispatched(start, reports, faults) == Dispatched(now, reports[i..], faults[i..])
    && (AllFresh(start, reports, faults) <==> AllFresh(now, reports[i..], faults[i..]))
  }

  lemma {:induction false} UnderwayAtStart(l: Ledger, reports: seq<Report>, faults: seq<bool>)
    requires |faults| == |reports|
    ensures Underway(l, l, reports, faults, 0)
  {
    assert reports[0..] == reports && faults[0..] == faults;
  }

  lemma {:induction false} UnderwayOn(start: Ledger, now: Ledger, reports: seq<Report>, faults: seq<bool>, i: nat)
    requires |faults| == |reports| && i < |reports| && Underway(start, now, reports, faults, i)
    ensures !faults[i] && !Fresh(now, reports[i]) ==> !AllFresh(start, reports, faults)
    ensures faults[i] || Fresh(now, reports[i]) ==>
      Underway(start, DispatchOne(now, reports[i], faults[i]), reports, faults, i + 1)
  {
    UnfoldOne(now, reports, faults, i);
  }

  lemma {:induction false} UnderwayAtEnd(start: Ledger, now: Ledger, reports: seq<Report>, faults: seq<bool>)
    requires |faults| == |reports| && Underway(start, now, reports, faults, |reports|)
    ensures now == Dispatched(start, reports, faults) == Effect(start, DispatchOp(reports, faults))
    ensures AllFresh(start, reports, faults)
  {
    assert reports[|reports|..] == [];
  }

  // ----- Exactly once, over the manager's own operations --------------------------------------

  /** The operations as the contracts of `IOManager` state them; `fault` says that the kernel call fails. */
  datatype IoOp =
    | AddOp(key: Key, scheduler: nat, handler: Handler, fault: bool)
    | DelOp(key: Key, fault: bool)
    | CancelOp(key: Key, fault: bool)
    | CancelAllOp(fd: nat, fault: bool)
    | DispatchOp(reports: seq<Report>, faults: seq<bool>)

  function Effect(l: Ledger, op: IoOp): Ledger {
    match op
    case AddOp(key, scheduler, handler, fault) =>
      if key in l.regs || fault then l else Register(l, key, scheduler, handler)
    case DelOp(key, fault) => if fault then l else Delete(l, key)
    case CancelOp(key, fault) => if fault then l else Trigger(l, key)
    case CancelAllOp(fd, fault) => if fault then l else TriggerAll(l, fd, {READ, WRITE})
    case DispatchOp(reports, faults) => if |faults| == |reports| then Dispatched(l, reports, faults) else l
  }

  function IoRun(ops: seq<IoOp>): Ledger {
    if ops == [] then EMPTY_LEDGER else Effect(IoRun(ops[..|ops| - 1]), ops[|ops| - 1])
  }

  lemma {:induction false} TriggerAllOnce(l: Ledger, fd: nat, events: set<Event>)
    requires AllOnce(l)
    ensures AllOnce(TriggerAll(l, fd, events))
  {
    ConsumeOnce(l, Key(fd, READ));
    ConsumeOnce(if READ in events then Trigger(l, Key(fd, READ)) else l, Key(fd, WRITE));
  }

  lemma {:induction false} DispatchedOnce(l: Ledger, reports: seq<Report>, faults: seq<bool>)
    requires |faults| == |reports| && AllOnce(l)
    ensures AllOnce(Dispatched(l, reports, faults))
    decreases |reports|
  {
    if reports != [] {
      TriggerAllOnce(l, reports[0].fd, RealEvents(reports[0], Mask(l, reports[0].fd)));
      DispatchedOnce(DispatchOne(l, reports[0], faults[0]), reports[1..], faults[1..]);
    }
  }

  /** Exactly-once wake: over any run of add, delete, cancel, cancel-all and dispatch on any descriptors, with
      any kernel calls failing, every registration is still registered, was queued once, or was deleted once. */
  lemma {:induction false} WokenOnce(ops: seq<IoOp>)
    ensures AllOnce(IoRun(ops))
  {
    if ops != [] {
      var l, op := IoRun(ops[..|ops| - 1]), ops[|ops| - 1];
      WokenOnce(ops[..|ops| - 1]);
      match op
      case AddOp(key, scheduler, handler, fault) => if key !in l.regs { RegisterOnce(l, key, scheduler, handler); }
      case DelOp(key, fault) => ConsumeOnce(l, key);
      case CancelOp(key, fault) => ConsumeOnce(l, key);
      case CancelAllOp(fd, fault) => TriggerAllOnce(l, fd, {READ, WRITE});
      case DispatchOp(reports, faults) => if |faults| == |reports| { DispatchedOnce(l, reports, faults); }
    }
  }

  class IOManager {
    var contexts: seq<FdContext>
    var pending: int
    var queue: seq<Queued>
    /** The kernel's interest table. */
    var kernel: map<nat, set<Event>>
    ghost var ledger: Ledger

    constructor ()
      ensures Valid() && ledger == EMPTY_LEDGER && queue == []
    {
      contexts, pending, queue, kernel, ledger := seq(32, _ => NO_FD), 0, [], map[], EMPTY_LEDGER;
    }

    /** The registration bit of a direction is set exactly when its context holds a scheduler and
        exactly one of fiber and callback; the kernel's table equals the masks; the pending counter
        is the number of registrations; and the queue is what was fired. */
    ghost predicate Valid()
      reads this
    {
      && |contexts| >= 32
      && TableOk(contexts, kernel, ledger.regs)
      && pending == |ledger.regs|
      && queue == AsQueued(ledger.queued)
    }

    /** The kernel accepts an addition only for an absent descriptor, a change or removal only for a
        present one. That this holds is for the caller to prove; the call may still fail. */
    method EpollCtl(op: CtlOp, fd: nat, mask: set<Event>, fault: bool) returns (rt: int)
      requires op == ADD <==> fd !in kernel
      modifies this`kernel
      ensures fault ==> rt == -1 && kernel == old(kernel)
      ensures !fault ==> rt == 0 && kernel == if op == DEL then old(kernel) - {fd} else old(kernel)[fd := mask]
    {
      if fault {
        return -1;
      }
      kernel := if op == DEL then kernel - {fd} else kernel[fd := mask];
      return 0;
    }

    /** Grow (or cut) the table to `size` contexts. */
    method ContextResize(size: nat)
      modifies this`contexts
      ensures |contexts| == size
      ensures forall i :: 0 <= i < size ==> contexts[i] == if i < |old(contexts)| then old(contexts)[i] else NO_FD
    {
      if size <= |contexts| {
        contexts := contexts[..size];
      }
      while |contexts| < size
        invariant |contexts| <= size
        invariant |contexts| >= |old(contexts)| || |contexts| == size
        invariant forall i :: 0 <= i < |contexts| ==>
          contexts[i] == if i < |old(contexts)| then old(contexts)[i] else NO_FD
      {
        contexts := contexts + [NO_FD];
      }
    }

    /** The context for `fd`, growing the table if it is not there yet. */
    method LookUpOrGrow(fd: nat)
      requires Valid()
      modifies this`contexts
      ensures Valid() && fd < |contexts|
    {
      if |contexts| <= fd {
        ghost var was := |contexts|;
        ContextResize(fd * 3 / 2);
        assert forall i :: was <= i < |contexts| ==> contexts[i] == NO_FD;
      }
    }

    method AddEvent(fd: nat, event: Event, cb: Option<nat>, scheduler: nat, self: nat, fault: bool)
      returns (r: AddResult)
      requires Valid()
      modifies this
      ensures Valid() && queue == old(queue)
      ensures r.AlreadyRegistered? <==> Key(fd, event) in old(ledger).regs
      ensures r.CtlRefused? <==> !r.AlreadyRegistered? && fault
      ensures var handler := if cb.Some? then CbHandler(cb.value) else FiberHandler(self);
        && ledger == (if r.Added? then Register(old(ledger), Key(fd, event), scheduler, handler) else old(ledger))
        && ledger == Effect(old(ledger), AddOp(Key(fd, event), scheduler, handler, fault))
        && (r.Added? ==> ledger.regs ==
                         old(ledger).regs[Key(fd, event) := Registration(old(ledger).issued, scheduler, handler)])
    {
      LookUpOrGrow(fd);
      var ctx := contexts[fd];
      if event in ctx.events {
        return AlreadyRegistered;
      }
      assert FdOk(fd, ctx, kernel, ledger.regs);
      var op := if ctx.events != {} then MOD else ADD;
      var rt := EpollCtl(op, fd, ctx.events + {event}, fault);
      if rt != 0 {
        return CtlRefused;
      }
      ghost var handler := if cb.Some? then CbHandler(cb.value) else FiberHandler(self);
      RegisterKeeps(contexts, old(kernel), ledger.regs, fd, event, Registration(ledger.issued, scheduler, handler));
      pending := pending + 1;
      assert ctx.Get(event) == NO_CONTEXT;
      var loaded := if cb.Some? then EventContext(Some(scheduler), None, cb)
                    else EventContext(Some(scheduler), Some(self), None);
      contexts := contexts[fd := ctx.Set(event, loaded).(events := ctx.events + {event})];
      ledger := Register(ledger, Key(fd, event), scheduler, handler);
      return Added;
    }

    /** Fire one direction: the handler leaves its context and goes to its scheduler. The source
        asserts that the direction is registered. */
    method TriggerEvent(fd: nat, event: Event) returns (ok: bool)
      requires fd < |contexts| && queue == AsQueued(ledger.queued)
      requires event in contexts[fd].events <==> Key(fd, event) in ledger.regs
      requires event in contexts[fd].events ==> contexts[fd].Get(event) == Loaded(ledger.regs[Key(fd, event)])
      modifies this`contexts, this`queue, this`ledger
      ensures ok == (event in old(contexts)[fd].events)
      ensures contexts == if ok then old(contexts)[fd := Fired1(old(contexts)[fd], event)] else old(contexts)
      ensures ledger == if ok then Trigger(old(ledger), Key(fd, event)) else old(ledger)
      ensures queue == AsQueued(ledger.queued) && queue == old(queue) + HandlerOf(old(ledger), Key(fd, event))
    {
      var ctx := contexts[fd];
      if event !in ctx.events {
        return false;
      }
      var c := ctx.Get(event);
      if c.cb.Some? {
        queue := queue + [Queued(c.scheduler.value, CbHandler(c.cb.value))];
        c := c.(cb := None);
      } else {
        queue := queue + [Queued(c.scheduler.value, FiberHandler(c.fiber.value))];
        c := c.(fiber := None);
      }
      contexts := contexts[fd := ctx.Set(event, c.(scheduler := None)).(events := ctx.events - {event})];
      ledger := Trigger(ledger, Key(fd, event));
      return true;
    }

    method DelEvent(fd: nat, event: Event, fault: bool) returns (r: bool)
      requires Valid()
      modifies this
      ensures Valid() && queue == old(queue)
      ensures r <==> Key(fd, event) in old(ledger).regs && !fault
      ensures ledger == if r then Delete(old(ledger), Key(fd, event)) else old(ledger)
      ensures ledger == Effect(old(ledger), DelOp(Key(fd, event), fault))
    {
      if |contexts| <= fd {
        return false;
      }
      var ctx := contexts[fd];
      assert FdOk(fd, ctx, kernel, ledger.regs);
      if event !in ctx.events {
        return false;
      }
      var left := ctx.events - {event};
      var rt := EpollCtl(if left != {} then MOD else DEL, fd, left, fault);
      if rt != 0 {
        return false;
      }
      RemoveKeeps(contexts, old(kernel), ledger.regs, fd, event);
      pending := pending - 1;
      contexts := contexts[fd := ctx.Set(event, NO_CONTEXT).(events := left)];
      ledger := Delete(ledger, Key(fd, event));
      return true;
    }

    method CancelEvent(fd: nat, event: Event, fault: bool) returns (r: bool)
      requires Valid()
      modifies this
      ensures Valid()
      ensures r <==> Key(fd, event) in old(ledger).regs && !fault
      ensures ledger == if r then Trigger(old(ledger), Key(fd, event)) else old(ledger)
      ensures ledger == Effect(old(ledger), CancelOp(Key(fd, event), fault))
      ensures queue == if r then old(queue) + HandlerOf(old(ledger), Key(fd, event)) else old(queue)
    {
      if |contexts| <= fd {
        return false;
      }
      var ctx := contexts[fd];
      assert FdOk(fd, ctx, kernel, ledger.regs);
      if event !in ctx.events {
        return false;
      }
      var left := ctx.events - {event};
      var rt := EpollCtl(if left != {} then MOD else DEL, fd, left, fault);
      if rt != 0 {
        return false;
      }
      RemoveKeeps(contexts, old(kernel), ledger.regs, fd, event);
      var ok := TriggerEvent(fd, event);
      pending := pending - 1;
      return true;
    }

    /** Fire the registered directions in `hit`, READ first, counting each down. The kernel has been
        told the remaining mask already; `kernel0` is its table before that. */
    method FireDirections(fd: nat, hit: set<Event>, ghost kernel0: map<nat, set<Event>>)
      requires |contexts| >= 32 && fd < |contexts| && TableOk(contexts, kernel0, ledger.regs)
      requires hit <= contexts[fd].events && kernel == WithMask(kernel0, fd, contexts[fd].events - hit)
      requires hit != {} && pending == |ledger.regs| && queue == AsQueued(ledger.queued)
      modifies this`contexts, this`queue, this`ledger, this`pending
      ensures Valid()
      ensures ledger == TriggerAll(old(ledger), fd, hit)
      ensures |contexts| == |old(contexts)| && contexts[fd].events == old(contexts)[fd].events - hit
    {
      ghost var k := kernel0;
      if READ in hit {
        assert FdOk(fd, contexts[fd], k, ledger.regs);
        RemoveKeeps(contexts, k, ledger.regs, fd, READ);
        k := WithMask(k, fd, contexts[fd].events - {READ});
        var _ := TriggerEvent(fd, READ);
        pending := pending - 1;
      }
      if WRITE in hit {
        assert FdOk(fd, contexts[fd], k, ledger.regs);
        RemoveKeeps(contexts, k, ledger.regs, fd, WRITE);
        k := WithMask(k, fd, contexts[fd].events - {WRITE});
        var _ := TriggerEvent(fd, WRITE);
        pending := pending - 1;
      }
      TwoMasks(kernel0, fd, old(contexts)[fd].events, hit);
    }

    /** Used by `close`: fire whatever is registered. The assertion that nothing is left holds. */
    method CancelAll(fd: nat, fault: bool) returns (r: bool)
      requires Valid()
      modifies this
      ensures Valid()
      ensures r <==> (exists e :: Key(fd, e) in old(ledger).regs) && !fault
      ensures ledger == if r then TriggerAll(old(ledger), fd, {READ, WRITE}) else old(ledger)
      ensures r ==> forall e :: Key(fd, e) !in ledger.regs
      ensures ledger == Effect(old(ledger), CancelAllOp(fd, fault))
      ensures var l := old(ledger);
        queue == old(queue) + if r then HandlerOf(l, Key(fd, READ)) + HandlerOf(l, Key(fd, WRITE)) else []
    {
      if |contexts| <= fd {
        return false;
      }
      var events := contexts[fd].events;
      assert FdOk(fd, contexts[fd], kernel, ledger.regs);
      if events == {} {
        return false;
      }
      assert exists e :: Key(fd, e) in ledger.regs by {
        var e :| e in events;
        assert Key(fd, e) in ledger.regs;
      }
      var rt := EpollCtl(DEL, fd, {}, fault);
      if rt != 0 {
        return false;
      }
      AllHandlers(ledger, fd);
      FireDirections(fd, events, old(kernel));
      assert FdOk(fd, contexts[fd], kernel, ledger.regs);
      assert contexts[fd].events == {};
      return true;
    }

    /** One epoll report in `idle`. If part of what it reports is no longer registered while another
        part is, the assertion in `triggerEvent` fails; otherwise exactly the reported directions
        that are registered fire. */
    method Dispatch(r: Report, fault: bool) returns (res: DispatchResult)
      requires Valid() && r.fd < |contexts|
      modifies this
      ensures res.Stale? <==> !Hits(old(ledger), r, READ) && !Hits(old(ledger), r, WRITE)
      ensures res.CtlFailed? <==> !res.Stale? && fault
      ensures res.TriggerAsserted? <==> !res.Stale? && !fault &&
                                        (Misses(old(ledger), r, READ) || Misses(old(ledger), r, WRITE))
      ensures res.Fired? ==>
        && (forall e :: Key(r.fd, e) in ledger.regs <==> Key(r.fd, e) in old(ledger).regs && !Hits(old(ledger), r, e))
        && queue == old(queue) + FiredOf(old(ledger), r, READ) + FiredOf(old(ledger), r, WRITE)
      ensures res.Stale? || res.CtlFailed? ==> ledger == old(ledger) && queue == old(queue)
      ensures res.TriggerAsserted? <==> !fault && !Fresh(old(ledger), r)
      ensures !res.TriggerAsserted? ==>
        Valid() && |contexts| == |old(contexts)| && ledger == DispatchOne(old(ledger), r, fault)
    {
      var events := contexts[r.fd].events;
      assert FdOk(r.fd, contexts[r.fd], kernel, ledger.regs);
      MaskIs(ledger, r.fd, events);
      var hit := RealEvents(r, events);
      HitsAre(ledger, r, READ);
      HitsAre(ledger, r, WRITE);
      assert events * hit == {} <==> READ !in hit * events && WRITE !in hit * events by { Directions(events * hit); }
      if events * hit == {} {
        return Stale;
      }
      assert hit <= events <==> READ !in hit - events && WRITE !in hit - events by { Directions(hit - events); }
      var left := events - hit;
      var rt := EpollCtl(if left != {} then MOD else DEL, r.fd, left, fault);
      if rt != 0 {
        return CtlFailed;
      }
      if !(hit <= events) {
        return TriggerAsserted;
      }
      FiresHits(ledger, r);
      FireDirections(r.fd, hit, old(kernel));
      return Fired;
    }

    /** The loop of `idle` over the event buffer; it ends early only if the process dies. */
    method DispatchAll(reports: seq<Report>, faults: seq<bool>) returns (alive: bool)
      requires Valid() && |faults| == |reports| && forall r :: r in reports ==> r.fd < |contexts|
      modifies this
      ensures alive ==> Valid() && ledger == Dispatched(old(ledger), reports, faults)
      ensures alive ==> ledger == Effect(old(ledger), DispatchOp(reports, faults))
      ensures alive <==> AllFresh(old(ledger), reports, faults)
    {
      var i := 0;
      UnderwayAtStart(ledger, reports, faults);
      while i < |reports|
        invariant i <= |reports| && Valid() && forall r :: r in reports ==> r.fd < |contexts|
        invariant Underway(old(ledger), ledger, reports, faults, i)
      {
        assert reports[i] in reports;
        UnderwayOn(old(ledger), ledger, reports, faults, i);
        var res := Dispatch(reports[i], faults[i]);
        if res.TriggerAsserted? {
          return false;
        }
        i := i + 1;
      }
      UnderwayAtEnd(old(ledger), ledger, reports, faults);
      return true;
    }
  }

  /** A partly stale report happens: both directions of a descriptor are registered and the kernel reports both;
      before the report is met, the write registration is deleted. The dispatch then fails the assertion in
      `triggerEvent`. `watched` is the kernel's mask when it reported. */
  method PartlyStaleReport(fd: nat, scheduler: nat, fiber: nat) returns (watched: set<Event>, res: DispatchResult)
    ensures watched == {READ, WRITE} && res.TriggerAsserted?
  {
    var io := new IOManager();
    var r1 := io.AddEvent(fd, READ, None, scheduler, fiber, false);
    var r2 := io.AddEvent(fd, WRITE, None, scheduler, fiber, false);
    assert Key(fd, READ) in io.ledger.regs && Key(fd, WRITE) in io.ledger.regs;
    assert FdOk(fd, io.contexts[fd], io.kernel, io.ledger.regs);
    watched := io.kernel[fd];
    assert watched == {READ, WRITE};
    var report := Report(fd, READ in watched, WRITE in watched, false);
    var gone := io.DelEvent(fd, WRITE, false);
    assert gone && Mask(io.ledger, fd) == {READ};
    assert READ in RealEvents(report, {READ}) * {READ};
    res := io.Dispatch(report, false);
  }
}
