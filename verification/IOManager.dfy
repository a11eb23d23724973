/**
  Event registration and delivery of the I/O manager (yk/iomanager.cc).

  Whether an epoll_ctl call succeeds and which events epoll_wait reports are inputs of the steps.
  A failed assertion of the original ends the run, and so does the dereference of a null scheduler.
 */
module Events {
  import opened Common

  datatype Event = READ | WRITE

  /** A set of events, as a bit mask. */
  datatype Mask = Mask(read: bool, write: bool)

  const NONE: Mask := Mask(false, false)

  predicate Has(m: Mask, e: Event) {
    match e
    case READ => m.read
    case WRITE => m.write
  }

  function Set(m: Mask, e: Event, on: bool): Mask {
    match e
    case READ => m.(read := on)
    case WRITE => m.(write := on)
  }

  function And(m: Mask, n: Mask): Mask { Mask(m.read && n.read, m.write && n.write) }

  function Or(m: Mask, n: Mask): Mask { Mask(m.read || n.read, m.write || n.write) }

  function Minus(m: Mask, n: Mask): Mask { Mask(m.read && !n.read, m.write && !n.write) }

  predicate Within(m: Mask, n: Mask) { And(m, n) == m }

  function Count(m: Mask): nat { (if m.read then 1 else 0) + (if m.write then 1 else 0) }

  /** What a registration resumes: a fiber or a callback. */
  datatype Waiter = Resume(fiber: nat) | Call(cb: nat)

  /** Registrations are numbered in the order in which they are made.  A caller outside any scheduler registers none. */
  datatype Waiting = Waiting(id: nat, scheduler: Option<nat>, waiter: Waiter)

  datatype EventContext = EventContext(id: nat, scheduler: Option<nat>, fiber: Option<nat>, cb: Option<nat>)

  const EMPTY: EventContext := EventContext(0, None, None, None)

  /** The registered events of one file descriptor and their contexts. */
  datatype FdContext = FdContext(read: EventContext, write: EventContext, events: Mask)

  const FRESH: FdContext := FdContext(EMPTY, EMPTY, NONE)

  function Context(c: FdContext, e: Event): EventContext {
    match e
    case READ => c.read
    case WRITE => c.write
  }

  function WithContext(c: FdContext, e: Event, x: EventContext): FdContext {
    match e
    case READ => c.(read := x)
    case WRITE => c.(write := x)
  }

  // ---------------------------------------------------------------- one descriptor

  /** A context with exactly one of fiber and callback. */
  predicate Filled(x: EventContext) {
    x.fiber.Some? != x.cb.Some?
  }

  /** The registration in a context; meant for one that is filled. */
  function WaitingOf(x: EventContext): Waiting {
    Waiting(x.id, x.scheduler, if x.cb.Some? then Call(x.cb.value) else if x.fiber.Some? then Resume(x.fiber.value) else Resume(0))
  }

  function FilledWith(w: Waiting): (x: EventContext)
    ensures Filled(x) && WaitingOf(x) == w
  {
    match w.waiter
    case Resume(f) => EventContext(w.id, w.scheduler, Some(f), None)
    case Call(cb) => EventContext(w.id, w.scheduler, None, Some(cb))
  }

  /** A bit is set exactly when its context is filled; a context whose bit is clear is empty. */
  predicate FdValid(c: FdContext) {
    && (if c.events.read then Filled(c.read) else c.read == EMPTY)
    && (if c.events.write then Filled(c.write) else c.write == EMPTY)
  }

  /** How often w is registered with one context. */
  function HeldBy(c: FdContext, w: Waiting): nat {
    (if c.events.read && WaitingOf(c.read) == w then 1 else 0) + (if c.events.write && WaitingOf(c.write) == w then 1 else 0)
  }

  function Registered(c: FdContext, e: Event, w: Waiting): FdContext {
    WithContext(c, e, FilledWith(w)).(events := Set(c.events, e, true))
  }

  function Cleared(c: FdContext, e: Event): FdContext {
    WithContext(c, e, EMPTY).(events := Set(c.events, e, false))
  }

  lemma RegisteredCounts(c: FdContext, e: Event, w: Waiting)
    requires FdValid(c) && !Has(c.events, e)
    ensures FdValid(Registered(c, e, w)) && Count(Registered(c, e, w).events) == Count(c.events) + 1
    ensures forall v :: HeldBy(Registered(c, e, w), v) == HeldBy(c, v) + if v == w then 1 else 0
  {
  }

  lemma ClearedCounts(c: FdContext, e: Event)
    requires FdValid(c) && Has(c.events, e)
    ensures FdValid(Cleared(c, e)) && Count(Cleared(c, e).events) == Count(c.events) - 1
    ensures forall v :: HeldBy(Cleared(c, e), v) == HeldBy(c, v) - if v == WaitingOf(Context(c, e)) then 1 else 0
  {
  }

  // ---------------------------------------------------------------- the state

  /** `added`, `scheduled` and `deleted` record what registrations were made and what became of them, in order. */
  datatype State = State(contexts: seq<FdContext>, pending: int,
                         added: seq<Waiting>, scheduled: seq<Waiting>, deleted: seq<Waiting>)

  predicate AllValid(cs: seq<FdContext>) {
    forall i :: 0 <= i < |cs| ==> FdValid(cs[i])
  }

  /** How many events are registered in all. */
  ghost function Bits(cs: seq<FdContext>): nat {
    if cs == [] then 0 else Count(cs[0].events) + Bits(cs[1..])
  }

  /** How often w is registered in all. */
  ghost function Held(cs: seq<FdContext>, w: Waiting): nat {
    if cs == [] then 0 else HeldBy(cs[0], w) + Held(cs[1..], w)
  }

  /** How often w was made: once, if it is the registration with its number. */
  function Made(added: seq<Waiting>, w: Waiting): nat {
    if w.id < |added| && added[w.id] == w then 1 else 0
  }

  ghost predicate Numbered(added: seq<Waiting>) {
    forall n :: 0 <= n < |added| ==> added[n].id == n
  }

  /** How often w occurs. */
  function Times(ws: seq<Waiting>, w: Waiting): nat { multiset(ws)[w] }

  /** Every registration made was scheduled once, deleted once, or is still held, and nothing else was. */
  ghost predicate Conserved(s: State) {
    forall w :: Made(s.added, w) == Times(s.scheduled, w) + Times(s.deleted, w) + Held(s.contexts, w)
  }

  /** The counter is the number of registered events, bits and contexts agree, and nothing got lost. */
  ghost predicate Inv(s: State) {
    AllValid(s.contexts) && s.pending == Bits(s.contexts) && Numbered(s.added) && Conserved(s)
  }

  lemma {:induction false} UpdateBits(cs: seq<FdContext>, i: nat, c: FdContext)
    requires i < |cs|
    ensures Bits(cs[i := c]) == Bits(cs) - Count(cs[i].events) + Count(c.events)
    decreases i
  {
    if i == 0 {
      assert cs[i := c][1..] == cs[1..];
    } else {
      assert cs[i := c][1..] == cs[1..][i - 1 := c];
      UpdateBits(cs[1..], i - 1, c);
    }
  }

  lemma {:induction false} UpdateHeld(cs: seq<FdContext>, i: nat, c: FdContext, w: Waiting)
    requires i < |cs| && AllValid(cs) && FdValid(c)
    ensures AllValid(cs[i := c]) && Held(cs[i := c], w) == Held(cs, w) - HeldBy(cs[i], w) + HeldBy(c, w)
    decreases i
  {
    if i == 0 {
      assert cs[i := c][1..] == cs[1..];
    } else {
      assert cs[i := c][1..] == cs[1..][i - 1 := c];
      UpdateHeld(cs[1..], i - 1, c, w);
    }
  }

  lemma UpdateAll(cs: seq<FdContext>, i: nat, c: FdContext)
    requires i < |cs| && AllValid(cs) && FdValid(c)
    ensures AllValid(cs[i := c]) && Bits(cs[i := c]) == Bits(cs) - Count(cs[i].events) + Count(c.events)
    ensures forall w :: Held(cs[i := c], w) == Held(cs, w) - HeldBy(cs[i], w) + HeldBy(c, w)
  {
    UpdateBits(cs, i, c);
    assert AllValid(cs[i := c]);
    forall w ensures Held(cs[i := c], w) == Held(cs, w) - HeldBy(cs[i], w) + HeldBy(c, w) {
      UpdateHeld(cs, i, c, w);
    }
  }

  lemma {:induction false} AppendBits(cs: seq<FdContext>, ds: seq<FdContext>)
    ensures Bits(cs + ds) == Bits(cs) + Bits(ds)
    decreases |cs|
  {
    if cs == [] {
      assert cs + ds == ds;
    } else {
      assert (cs + ds)[1..] == cs[1..] + ds;
      AppendBits(cs[1..], ds);
    }
  }

  lemma {:induction false} AppendHeld(cs: seq<FdContext>, ds: seq<FdContext>, w: Waiting)
    requires AllValid(cs) && AllValid(ds)
    ensures AllValid(cs + ds) && Held(cs + ds, w) == Held(cs, w) + Held(ds, w)
    decreases |cs|
  {
    if cs == [] {
      assert cs + ds == ds;
    } else {
      assert (cs + ds)[1..] == cs[1..] + ds;
      AppendHeld(cs[1..], ds, w);
    }
  }

  lemma {:induction false} FreshCounts(cs: seq<FdContext>, w: Waiting)
    requires forall i :: 0 <= i < |cs| ==> cs[i] == FRESH
    ensures Bits(cs) == 0 && AllValid(cs) && Held(cs, w) == 0
    decreases |cs|
  {
    if cs != [] { FreshCounts(cs[1..], w); }
  }

  // ---------------------------------------------------------------- operations

  /** A registration leaves its context: it is scheduled or dropped. */
  function Leave(s: State, o: nat, e: Event, schedule: bool): (s': State)
    requires o < |s.contexts| && FdValid(s.contexts[o]) && Has(s.contexts[o].events, e)
  {
    var w := WaitingOf(Context(s.contexts[o], e));
    var s1 := s.(contexts := s.contexts[o := Cleared(s.contexts[o], e)], pending := s.pending - 1);
    if schedule then s1.(scheduled := s.scheduled + [w]) else s1.(deleted := s.deleted + [w])
  }

  lemma LeaveKeeps(s: State, o: nat, e: Event, schedule: bool)
    requires Inv(s) && o < |s.contexts| && Has(s.contexts[o].events, e)
    ensures Inv(Leave(s, o, e, schedule))
  {
    ClearedCounts(s.contexts[o], e);
    UpdateAll(s.contexts, o, Cleared(s.contexts[o], e));
    var w := WaitingOf(Context(s.contexts[o], e));
    OneTime(if schedule then s.scheduled else s.deleted, w);
  }

  lemma OneTime(ws: seq<Waiting>, w: Waiting)
    ensures forall v :: Times(ws + [w], v) == Times(ws, v) + if v == w then 1 else 0
  {
  }

  /** The registrations of a context for the given events are scheduled, READ before WRITE. */
  function TriggerAll(s: State, o: nat, events: Mask): (s': State)
    requires Inv(s) && o < |s.contexts| && Within(events, s.contexts[o].events)
    ensures Inv(s') && |s'.contexts| == |s.contexts|
    ensures s'.contexts[o].events == Minus(s.contexts[o].events, events)
    ensures s'.added == s.added && s'.deleted == s.deleted
    ensures forall i :: 0 <= i < |s.contexts| && i != o ==> s'.contexts[i] == s.contexts[i]
  {
    TriggerOne(TriggerOne(s, o, READ, events.read), o, WRITE, events.write)
  }

  function TriggerOne(s: State, o: nat, e: Event, on: bool): (s': State)
    requires Inv(s) && o < |s.contexts| && (on ==> Has(s.contexts[o].events, e))
    ensures Inv(s') && |s'.contexts| == |s.contexts|
    ensures s'.contexts[o].events == if on then Set(s.contexts[o].events, e, false) else s.contexts[o].events
    ensures s'.added == s.added && s'.deleted == s.deleted
    ensures forall i :: 0 <= i < |s.contexts| && i != o ==> s'.contexts[i] == s.contexts[i]
  {
    if on then
      LeaveKeeps(s, o, e, true);
      Leave(s, o, e, true)
    else s
  }

  /** The next registration. */
  function Next(s: State, scheduler: Option<nat>, waiter: Waiter): Waiting {
    Waiting(|s.added|, scheduler, waiter)
  }

  function Register(s: State, o: nat, e: Event, w: Waiting): State
    requires o < |s.contexts|
  {
    s.(contexts := s.contexts[o := Registered(s.contexts[o], e, w)], pending := s.pending + 1, added := s.added + [w])
  }

  lemma RegisterKeeps(s: State, o: nat, e: Event, w: Waiting)
    requires Inv(s) && o < |s.contexts| && !Has(s.contexts[o].events, e) && w.id == |s.added|
    ensures Inv(Register(s, o, e, w))
  {
    RegisteredCounts(s.contexts[o], e, w);
    UpdateAll(s.contexts, o, Registered(s.contexts[o], e, w));
  }

  /** The part of an operation that works on one context, number o, under its lock. */
  datatype Op =
    | Add(o: nat, e: Event, scheduler: Option<nat>, waiter: Waiter, epollOk: bool)
    | Delete(o: nat, e: Event, epollOk: bool)
    | Cancel(o: nat, e: Event, epollOk: bool)
    | CancelAll(o: nat, epollOk: bool)
    | Deliver(o: nat, reported: Mask, error: bool, epollOk: bool)   // error: EPOLLERR or EPOLLHUP

  predicate IsRegistered(s: State, o: nat, e: Event) {
    o < |s.contexts| && Has(s.contexts[o].events, e)
  }

  /** The events idle() triggers for a descriptor: real_events. */
  function Due(c: FdContext, reported: Mask, error: bool): Mask {
    if error then Or(reported, c.events) else reported
  }

  /** An assertion of the original fails: a second registration, or the delivery of an unregistered event. */
  predicate Aborts(s: State, a: Op) {
    match a
    case Add(o, e, _, _, epollOk) => epollOk && IsRegistered(s, o, e)
    case Deliver(o, reported, error, epollOk) =>
      && epollOk && o < |s.contexts| && And(s.contexts[o].events, Due(s.contexts[o], reported, error)) != NONE
      && !Within(Due(s.contexts[o], reported, error), s.contexts[o].events)
    case _ => false
  }

  /** The event is registered, by a caller that was in no scheduler. */
  predicate Orphan(c: FdContext, e: Event) {
    Has(c.events, e) && Context(c, e).scheduler.None?
  }

  predicate AnyOrphan(c: FdContext, events: Mask) {
    (events.read && Orphan(c, READ)) || (events.write && Orphan(c, WRITE))
  }

  /** triggerEvent dereferences a null scheduler. */
  predicate Crashes(s: State, a: Op) {
    match a
    case Cancel(o, e, epollOk) => epollOk && o < |s.contexts| && Orphan(s.contexts[o], e)
    case CancelAll(o, epollOk) => epollOk && o < |s.contexts| && AnyOrphan(s.contexts[o], s.contexts[o].events)
    case Deliver(o, reported, error, epollOk) =>
      epollOk && o < |s.contexts| && AnyOrphan(s.contexts[o], Due(s.contexts[o], reported, error))
    case _ => false
  }

  function Apply(s: State, a: Op): (s': State)
    requires Inv(s) && a.o < |s.contexts| && !Aborts(s, a)
    ensures Inv(s') && |s'.contexts| == |s.contexts|
    ensures s'.added == if a.Add? && a.epollOk then s.added + [Next(s, a.scheduler, a.waiter)] else s.added
  {
    match a
    case Add(o, e, scheduler, waiter, epollOk) =>
      if !epollOk then s
      else
        var w := Next(s, scheduler, waiter);
        RegisterKeeps(s, o, e, w);
        Register(s, o, e, w)
    case Delete(o, e, epollOk) =>
      if !IsRegistered(s, o, e) || !epollOk then s
      else
        LeaveKeeps(s, o, e, false);
        Leave(s, o, e, false)
    case Cancel(o, e, epollOk) =>
      if !IsRegistered(s, o, e) || !epollOk then s
      else
        LeaveKeeps(s, o, e, true);
        Leave(s, o, e, true)
    case CancelAll(o, epollOk) =>
      if s.contexts[o].events == NONE || !epollOk then s
      else TriggerAll(s, o, s.contexts[o].events)
    case Deliver(o, reported, error, epollOk) =>
      if !epollOk || And(s.contexts[o].events, Due(s.contexts[o], reported, error)) == NONE then s
      else TriggerAll(s, o, Due(s.contexts[o], reported, error))
  }

  /** An operation changes its context only, and only a successful addEvent sets a bit. */
  lemma ApplyChanges(s: State, a: Op)
    requires Inv(s) && a.o < |s.contexts| && !Aborts(s, a)
    ensures forall i :: 0 <= i < |s.contexts| && i != a.o ==> Apply(s, a).contexts[i] == s.contexts[i]
    ensures if a.Add? && a.epollOk then Apply(s, a).contexts[a.o].events == Set(s.contexts[a.o].events, a.e, true)
            else Within(Apply(s, a).contexts[a.o].events, s.contexts[a.o].events)
  {
    if (a.Delete? || a.Cancel?) && IsRegistered(s, a.o, a.e) { LeaveChanges(s, a.o, a.e, a.Cancel?); }
  }

  lemma LeaveChanges(s: State, o: nat, e: Event, schedule: bool)
    requires Inv(s) && IsRegistered(s, o, e)
    ensures var cs := Leave(s, o, e, schedule).contexts;
            && |cs| == |s.contexts| && Within(cs[o].events, s.contexts[o].events)
            && forall i :: 0 <= i < |cs| && i != o ==> cs[i] == s.contexts[i]
  {
  }

  // ---------------------------------------------------------------- what an operation does with registrations

  /** Who is registered for an event. */
  function RegisteredAt(s: State, o: nat, e: Event): Option<Waiting> {
    if IsRegistered(s, o, e) then Some(WaitingOf(Context(s.contexts[o], e))) else None
  }

  /** The registrations of a context for some events, READ before WRITE. */
  function Registrations(s: State, o: nat, events: Mask): seq<Waiting> {
    (if events.read && IsRegistered(s, o, READ) then [WaitingOf(s.contexts[o].read)] else [])
    + (if events.write && IsRegistered(s, o, WRITE) then [WaitingOf(s.contexts[o].write)] else [])
  }

  /** The events whose registrations an operation takes away. */
  function TakenEvents(s: State, a: Op): Mask {
    if !a.epollOk then NONE
    else
      match a
      case Add(_, _, _, _, _) => NONE
      case Delete(_, e, _) => Set(NONE, e, true)
      case Cancel(_, e, _) => Set(NONE, e, true)
      case CancelAll(_, _) => Mask(true, true)
      case Deliver(_, reported, error, _) => if error then Mask(true, true) else reported
  }

  /**
    delEvent drops a registration and nobody is scheduled; cancelEvent, cancelAll and delivery schedule
    those they take away, and drop none; addEvent makes one; and everything else stays registered.
   */
  ghost predicate Outcome(s: State, a: Op, s': State) {
    var gone := Registrations(s, a.o, TakenEvents(s, a));
    && s'.scheduled == s.scheduled + (if a.Delete? then [] else gone)
    && s'.deleted == s.deleted + (if a.Delete? then gone else [])
    && forall o: nat, e :: RegisteredAt(s', o, e) ==
         if o == a.o && a.Add? && a.epollOk && e == a.e then Some(Waiting(|s.added|, a.scheduler, a.waiter))
         else if o == a.o && Has(TakenEvents(s, a), e) then None
         else RegisteredAt(s, o, e)
  }

  lemma OpExact(s: State, a: Op)
    requires Inv(s) && a.o < |s.contexts| && !Aborts(s, a)
    ensures Outcome(s, a, Apply(s, a))
  {
    match a
    case Add(_, _, _, _, _) => AddOutcome(s, a);
    case Deliver(_, _, _, _) => DeliverOutcome(s, a);
    case CancelAll(_, _) => CancelAllOutcome(s, a);
    case _ => OneOutcome(s, a);
  }

  lemma AddOutcome(s: State, a: Op)
    requires Inv(s) && a.Add? && a.o < |s.contexts| && !Aborts(s, a)
    ensures Outcome(s, a, Apply(s, a))
  {
  }

  lemma OneOutcome(s: State, a: Op)
    requires Inv(s) && (a.Delete? || a.Cancel?) && a.o < |s.contexts|
    ensures Outcome(s, a, Apply(s, a))
  {
    if a.epollOk && IsRegistered(s, a.o, a.e) { LeaveExact(s, a.o, a.e, a.Cancel?); }
  }

  lemma CancelAllOutcome(s: State, a: Op)
    requires Inv(s) && a.CancelAll? && a.o < |s.contexts|
    ensures Outcome(s, a, Apply(s, a))
  {
    if a.epollOk { TriggerExact(s, a.o, s.contexts[a.o].events); }
  }

  lemma DeliverOutcome(s: State, a: Op)
    requires Inv(s) && a.Deliver? && a.o < |s.contexts| && !Aborts(s, a)
    ensures Outcome(s, a, Apply(s, a))
  {
    var due := Due(s.contexts[a.o], a.reported, a.error);
    if a.epollOk && And(s.contexts[a.o].events, due) != NONE { TriggerExact(s, a.o, due); }
  }

  /** The assertions: addEvent for an event that is registered, or a delivery of one that is not while a due one is. */
  lemma AbortExact(s: State, a: Op)
    requires a.o < |s.contexts|
    ensures Aborts(s, a) <==>
            a.epollOk &&
            match a
            case Add(o, e, _, _, _) => RegisteredAt(s, o, e).Some?
            case Deliver(o, reported, error, _) =>
              var read, write := RegisteredAt(s, o, READ).Some?, RegisteredAt(s, o, WRITE).Some?;
              && (((reported.read || error) && read) || ((reported.write || error) && write))
              && ((reported.read && !read) || (reported.write && !write))
            case _ => false
  {
  }

  /** It crashes exactly when one of those it would schedule was registered outside any scheduler. */
  lemma CrashExact(s: State, a: Op)
    requires a.o < |s.contexts|
    ensures Crashes(s, a) <==> !a.Delete? && exists w :: w in Registrations(s, a.o, TakenEvents(s, a)) && w.scheduler == None
  {
    var c, m := s.contexts[a.o], TakenEvents(s, a);
    assert IsRegistered(s, a.o, READ) == c.events.read && IsRegistered(s, a.o, WRITE) == c.events.write;
    var ws := Registrations(s, a.o, m);
    assert m.read && c.events.read ==> ws[0] == WaitingOf(c.read);
    assert m.write && c.events.write ==> ws[|ws| - 1] == WaitingOf(c.write);
    assert forall w :: w in ws <==> (m.read && c.events.read && w == WaitingOf(c.read)) || (m.write && c.events.write && w == WaitingOf(c.write));
    if !a.Delete? {
      CrashOf(c, m, ws);
    }
  }

  lemma CrashOf(c: FdContext, m: Mask, ws: seq<Waiting>)
    requires forall w :: w in ws <==> (m.read && c.events.read && w == WaitingOf(c.read)) || (m.write && c.events.write && w == WaitingOf(c.write))
    ensures AnyOrphan(c, m) <==> exists w :: w in ws && w.scheduler == None
  {
    assert m.read && c.events.read ==> WaitingOf(c.read) in ws;
    assert m.write && c.events.write ==> WaitingOf(c.write) in ws;
  }

  lemma LeaveExact(s: State, o: nat, e: Event, schedule: bool)
    requires Inv(s) && IsRegistered(s, o, e)
    ensures var s', w := Leave(s, o, e, schedule), WaitingOf(Context(s.contexts[o], e));
            && s'.scheduled == s.scheduled + (if schedule then [w] else []) && s'.deleted == s.deleted + (if schedule then [] else [w])
            && forall o', e' :: RegisteredAt(s', o', e') == if o' == o && e' == e then None else RegisteredAt(s, o', e')
  {
  }

  lemma TriggerOneExact(s: State, o: nat, e: Event, on: bool)
    requires Inv(s) && o < |s.contexts| && (on ==> Has(s.contexts[o].events, e))
    ensures var s' := TriggerOne(s, o, e, on);
            && s'.scheduled == s.scheduled + (if on then [WaitingOf(Context(s.contexts[o], e))] else []) && s'.deleted == s.deleted
            && forall o', e' :: RegisteredAt(s', o', e') == if on && o' == o && e' == e then None else RegisteredAt(s, o', e')
  {
    if on { LeaveExact(s, o, e, true); }
  }

  lemma TriggerExact(s: State, o: nat, events: Mask)
    requires Inv(s) && o < |s.contexts| && Within(events, s.contexts[o].events)
    ensures var s' := TriggerAll(s, o, events);
            && s'.scheduled == s.scheduled + Registrations(s, o, events) && s'.deleted == s.deleted
            && forall o', e' :: RegisteredAt(s', o', e') == if o' == o && Has(events, e') then None else RegisteredAt(s, o', e')
  {
    var s1 := TriggerOne(s, o, READ, events.read);
    TriggerOneExact(s, o, READ, events.read);
    TriggerOneExact(s1, o, WRITE, events.write);
    assert RegisteredAt(s1, o, WRITE) == RegisteredAt(s, o, WRITE);
    assert events.write ==> RegisteredAt(s1, o, WRITE) == Some(WaitingOf(s1.contexts[o].write));
    var read := if events.read then [WaitingOf(s.contexts[o].read)] else [];
    var write := if events.write then [WaitingOf(s.contexts[o].write)] else [];
    assert s.scheduled + read + write == s.scheduled + (read + write);
  }

  // ---------------------------------------------------------------- the table and the threads

  type ThreadId = nat

  /** What a thread has found for a descriptor: its context, or that the table is too small. */
  datatype Found = At(o: nat) | TooSmall(fd: nat)

  /** `table` says which context each descriptor has; epoll and threads may still point to a context that is no longer in it. */
  datatype System = System(objects: State, table: seq<nat>, found: map<ThreadId, Found>)

  /** How many contexts a new manager has. */
  const FIRST: nat := 32

  ghost predicate TableOk(table: seq<nat>, objects: nat) {
    && FIRST <= |table|
    && (forall i :: 0 <= i < |table| ==> table[i] < objects)
    && (forall i, j :: 0 <= i < j < |table| ==> table[i] != table[j])
  }

  ghost predicate FoundOk(found: map<ThreadId, Found>, objects: nat) {
    forall t :: t in found ==> match found[t] case At(o) => o < objects case TooSmall(fd) => fd >= FIRST
  }

  ghost predicate SystemInv(m: System) {
    Inv(m.objects) && TableOk(m.table, |m.objects.contexts|) && FoundOk(m.found, |m.objects.contexts|)
  }

  /** The numbers of n new contexts, of which there are `first` already. */
  function Numbers(first: nat, n: nat): (r: seq<nat>)
    ensures |r| == n
  {
    seq(n, i requires 0 <= i < n => first + i)
  }

  function Fresh(n: nat): (r: seq<FdContext>)
    ensures |r| == n
  {
    seq(n, _ => FRESH)
  }

  /** contextResize: cuts the table, or fills it up with new contexts.  A context that is cut off is not freed. */
  function Resized(m: System, size: nat): (m': System)
    ensures |m'.table| == size
  {
    if size <= |m.table| then m.(table := m.table[..size])
    else
      var n := |m.objects.contexts|;
      m.(table := m.table + Numbers(n, size - |m.table|),
         objects := m.objects.(contexts := m.objects.contexts + Fresh(size - |m.table|)))
  }

  /** fd * 1.5, truncated. */
  function Growth(fd: nat): nat { fd * 3 / 2 }

  /** The table as addEvent needs it, when nobody else is at work. */
  function Grown(m: System, fd: nat): System {
    if fd < |m.table| then m else Resized(m, Growth(fd))
  }

  lemma FreshObjects(s: State, n: nat)
    requires Inv(s)
    ensures Inv(s.(contexts := s.contexts + Fresh(n)))
  {
    var more := Fresh(n);
    AppendBits(s.contexts, more);
    forall w ensures Bits(more) == 0 && AllValid(s.contexts + more) && Held(s.contexts + more, w) == Held(s.contexts, w) {
      FreshCounts(more, w);
      AppendHeld(s.contexts, more, w);
    }
    FreshCounts(more, Waiting(0, None, Call(0)));
  }

  /** Whatever the size, the contexts stay as they are, and new ones are empty and in the table only. */
  lemma ResizeKeeps(m: System, size: nat)
    requires SystemInv(m) && size >= FIRST
    ensures SystemInv(Resized(m, size)) && m.objects.contexts <= Resized(m, size).objects.contexts
    ensures forall o :: |m.objects.contexts| <= o < |Resized(m, size).objects.contexts| ==> Resized(m, size).objects.contexts[o] == FRESH
    ensures forall i :: 0 <= i < |m.table| && i < size ==> Resized(m, size).table[i] == m.table[i]
  {
    if size > |m.table| { FreshObjects(m.objects, size - |m.table|); }
  }

  /** Growth makes room for the descriptor and keeps the table, as long as it is not larger already. */
  lemma GrownKeeps(m: System, fd: nat)
    requires SystemInv(m)
    ensures SystemInv(Grown(m, fd)) && fd < |Grown(m, fd).table| && m.table <= Grown(m, fd).table
    ensures m.objects.contexts <= Grown(m, fd).objects.contexts
    ensures forall i :: |m.table| <= i < |Grown(m, fd).table| ==> Grown(m, fd).objects.contexts[Grown(m, fd).table[i]] == FRESH
  {
    if fd >= |m.table| { ResizeKeeps(m, Growth(fd)); }
  }

  // ---------------------------------------------------------------- steps

  /**
    addEvent, delEvent, cancelEvent and cancelAll look the context up under the table's lock, addEvent
    enlarging the table if need be, and then work on the context under its own lock.
   */
  datatype Action =
    | Look(t: ThreadId, fd: nat)       // tests the size of the table
    | Grow(t: ThreadId)                // resizes it, without testing it again
    | Do(t: ThreadId, op: Op)          // on the context it has found
    | Epoll(op: Op)                    // delivery, on a context that epoll points to

  predicate Enabled(m: System, a: Action) {
    match a
    case Look(_, _) => true
    case Grow(t) => t in m.found && m.found[t].TooSmall?
    case Do(t, op) => t in m.found && m.found[t] == At(op.o) && !op.Deliver?
    case Epoll(op) => op.Deliver? && op.o < |m.objects.contexts|
  }

  /** An assertion fails, or a null scheduler is dereferenced. */
  predicate Fails(m: System, a: Action) {
    (a.Do? || a.Epoll?) && (Aborts(m.objects, a.op) || Crashes(m.objects, a.op))
  }

  /** A step that is not enabled, or fails, leads nowhere. */
  ghost function Step(m: System, a: Action): System {
    if !SystemInv(m) || !Enabled(m, a) || Fails(m, a) then m
    else
      match a
      case Look(t, fd) => m.(found := m.found[t := if fd < |m.table| then At(m.table[fd]) else TooSmall(fd)])
      case Grow(t) =>
        var fd := m.found[t].fd;
        var m1 := Resized(m, Growth(fd));
        m1.(found := m1.found[t := At(m1.table[fd])])
      case Do(t, op) => m.(objects := Apply(m.objects, op), found := m.found - {t})
      case Epoll(op) => m.(objects := Apply(m.objects, op))
  }

  lemma StepKeeps(m: System, a: Action)
    requires SystemInv(m) && Enabled(m, a) && !Fails(m, a)
    ensures SystemInv(Step(m, a)) && |m.objects.contexts| <= |Step(m, a).objects.contexts|
    ensures Step(m, a).objects.added == m.objects.added + Numbered1(|m.objects.added|, AddOf(a))
  {
    if a.Grow? { ResizeKeeps(m, Growth(m.found[a.t].fd)); }
  }

  /** The registration an action makes, if any. */
  function AddOf(a: Action): seq<(Option<nat>, Waiter)> {
    if (a.Do? || a.Epoll?) && a.op.Add? && a.op.epollOk then [(a.op.scheduler, a.op.waiter)] else []
  }

  function Numbered1(n: nat, made: seq<(Option<nat>, Waiter)>): seq<Waiting>
    requires |made| <= 1
  {
    if made == [] then [] else [Waiting(n, made[0].0, made[0].1)]
  }

  // ---------------------------------------------------------------- runs

  /** The objects of a new manager. */
  function Initial(): (s: State)
    ensures Inv(s) && |s.contexts| == FIRST
  {
    NewTable(FIRST);
    State(Fresh(FIRST), 0, [], [], [])
  }

  lemma NewTable(size: nat)
    ensures var cs := Fresh(size); Bits(cs) == 0 && AllValid(cs) && forall w :: Held(cs, w) == 0
  {
    var cs := Fresh(size);
    assert AllValid(cs);
    forall w ensures Held(cs, w) == 0 { FreshCounts(cs, w); }
    FreshCounts(cs, Waiting(0, None, Call(0)));
  }

  /** A new manager: contextResize(32). */
  function Start(): (m: System)
    ensures SystemInv(m)
  {
    System(Initial(), Numbers(0, FIRST), map[])
  }

  /** A run, of any number of threads, in which no assertion fails and nothing crashes. */
  ghost predicate IsRun(m: System, run: seq<Action>)
    decreases |run|
  {
    run == [] || (Enabled(m, run[0]) && !Fails(m, run[0]) && IsRun(Step(m, run[0]), run[1..]))
  }

  ghost function After(m: System, run: seq<Action>): System
    decreases |run|
  {
    if run == [] then m else After(Step(m, run[0]), run[1..])
  }

  /** In every reachable state the invariant holds. */
  lemma {:induction false} RunKeeps(m: System, run: seq<Action>)
    requires SystemInv(m) && IsRun(m, run)
    ensures SystemInv(After(m, run)) && |m.objects.contexts| <= |After(m, run).objects.contexts|
    decreases |run|
  {
    if run != [] {
      StepKeeps(m, run[0]);
      RunKeeps(Step(m, run[0]), run[1..]);
    }
  }

  /** The successful calls of addEvent in a run, in order. */
  ghost function Adds(run: seq<Action>): seq<(Option<nat>, Waiter)> {
    if run == [] then [] else AddOf(run[0]) + Adds(run[1..])
  }

  /** `last` is `first` with registrations for the calls `made` behind it, numbered. */
  ghost predicate Numbering(first: seq<Waiting>, made: seq<(Option<nat>, Waiter)>, last: seq<Waiting>) {
    && |last| == |first| + |made| && first <= last
    && forall i :: 0 <= i < |made| ==> last[|first| + i] == Waiting(|first| + i, made[i].0, made[i].1)
  }

  /** Registration number n is that of the n-th successful call. */
  lemma {:induction false} RunAdds(m: System, run: seq<Action>)
    requires SystemInv(m) && IsRun(m, run)
    ensures Numbering(m.objects.added, Adds(run), After(m, run).objects.added)
    decreases |run|
  {
    if run != [] {
      var made, later, last := AddOf(run[0]), Adds(run[1..]), After(m, run).objects.added;
      StepKeeps(m, run[0]);
      RunAdds(Step(m, run[0]), run[1..]);
      if made != [] {
        NumberOne(m.objects.added, made[0], later, last);
        assert made == [made[0]];
      } else {
        assert [] + later == later && m.objects.added + [] == m.objects.added;
      }
    }
  }

  lemma NumberOne(first: seq<Waiting>, x: (Option<nat>, Waiter), later: seq<(Option<nat>, Waiter)>, last: seq<Waiting>)
    requires Numbering(first + [Waiting(|first|, x.0, x.1)], later, last)
    ensures Numbering(first, [x] + later, last)
  {
    var next := first + [Waiting(|first|, x.0, x.1)];
    forall i | 0 <= i < |later| + 1 ensures last[|first| + i] == Waiting(|first| + i, ([x] + later)[i].0, ([x] + later)[i].1) {
      if i == 0 { assert last[|first|] == next[|first|]; } else { assert last[|next| + (i - 1)].scheduler == later[i - 1].0; }
    }
  }

  /**
    Each successful addEvent leads to at most one schedule, whichever of delivery, cancelEvent,
    cancelAll or delEvent comes first, and none is forgotten: of the n-th registration, after any run,
    exactly one of these is true: it was scheduled once, it was deleted once, it is held once -- by a context
    that may have been cut off from the table.
   */
  lemma ScheduledAtMostOnce(run: seq<Action>, n: nat)
    requires IsRun(Start(), run) && n < |Adds(run)|
    ensures var s, w := After(Start(), run).objects, Waiting(n, Adds(run)[n].0, Adds(run)[n].1);
            Times(s.scheduled, w) + Times(s.deleted, w) + Held(s.contexts, w) == 1
  {
    RunNumbers(run);
    NumberedAs(Adds(run), After(Start(), run).objects.added, n);
    RunKeeps(Start(), run);
    PlacedOnce(After(Start(), run).objects, n);
  }

  lemma NumberedAs(made: seq<(Option<nat>, Waiter)>, last: seq<Waiting>, n: nat)
    requires Numbering([], made, last) && n < |last|
    ensures n < |made| && last[n] == Waiting(n, made[n].0, made[n].1)
  {
    var none: seq<Waiting> := [];
    assert last[|none| + n] == Waiting(n, made[n].0, made[n].1);
  }

  lemma PlacedOnce(s: State, n: nat)
    requires Inv(s) && n < |s.added|
    ensures Times(s.scheduled, s.added[n]) + Times(s.deleted, s.added[n]) + Held(s.contexts, s.added[n]) == 1
  {
    assert Made(s.added, s.added[n]) == 1;
  }

  /** And nothing else is ever scheduled. */
  lemma OnlyMadeIsScheduled(run: seq<Action>, w: Waiting)
    requires IsRun(Start(), run) && w in After(Start(), run).objects.scheduled
    ensures w.id < |Adds(run)| && w == Waiting(w.id, Adds(run)[w.id].0, Adds(run)[w.id].1)
  {
    RunNumbers(run);
    RunKeeps(Start(), run);
    ScheduledIsMade(After(Start(), run).objects, w);
    NumberedAs(Adds(run), After(Start(), run).objects.added, w.id);
  }

  lemma ScheduledIsMade(s: State, w: Waiting)
    requires Inv(s) && w in s.scheduled
    ensures w.id < |s.added| && s.added[w.id] == w
  {
    assert Times(s.scheduled, w) > 0;
    assert Made(s.added, w) > 0;
  }

  // ---------------------------------------------------------------- who is resumed, and by what

  /** Where the successful calls of addEvent in a run registered, in order. */
  ghost function Places(run: seq<Action>): seq<(nat, Event)> {
    if run == [] then [] else PlaceOf(run[0]) + Places(run[1..])
  }

  function PlaceOf(a: Action): seq<(nat, Event)> {
    if (a.Do? || a.Epoll?) && a.op.Add? && a.op.epollOk then [(a.op.o, a.op.e)] else []
  }

  /** What is registered was registered there. */
  ghost predicate InPlace(s: State, places: seq<(nat, Event)>) {
    && |places| == |s.added|
    && forall o: nat, e :: IsRegistered(s, o, e) ==>
         var w := RegisteredAt(s, o, e).value; w.id < |places| && places[w.id] == (o, e)
  }

  /** A step drops that registration: a delEvent for it. */
  predicate Drops(a: Action, place: (nat, Event)) {
    a.Do? && a.op == Delete(place.0, place.1, true)
  }

  /** A step resumes it: a cancelEvent for it, a cancelAll, or a delivery with it or with an error. */
  predicate Resumes(a: Action, place: (nat, Event)) {
    (a.Do? || a.Epoll?) && a.op.o == place.0 && a.op.epollOk &&
    match a.op
    case Cancel(_, e, _) => e == place.1
    case CancelAll(_, _) => true
    case Deliver(_, reported, error, _) => error || Has(reported, place.1)
    case _ => false
  }

  ghost predicate DroppedIn(run: seq<Action>, place: (nat, Event)) {
    exists i :: 0 <= i < |run| && Drops(run[i], place)
  }

  ghost predicate ResumedIn(run: seq<Action>, place: (nat, Event)) {
    exists i :: 0 <= i < |run| && Resumes(run[i], place)
  }

  lemma StepInPlace(m: System, a: Action, places: seq<(nat, Event)>)
    requires SystemInv(m) && Enabled(m, a) && !Fails(m, a) && InPlace(m.objects, places)
    ensures InPlace(Step(m, a).objects, places + PlaceOf(a))
  {
    if a.Do? || a.Epoll? {
      OpInPlace(m.objects, a.op, places);
    } else {
      if a.Grow? { ResizeKeeps(m, Growth(m.found[a.t].fd)); }
      assert places + [] == places;
      forall o: nat, e | IsRegistered(Step(m, a).objects, o, e) ensures RegisteredAt(Step(m, a).objects, o, e) == RegisteredAt(m.objects, o, e) { }
    }
  }

  lemma OpInPlace(s: State, a: Op, places: seq<(nat, Event)>)
    requires Inv(s) && a.o < |s.contexts| && !Aborts(s, a) && InPlace(s, places)
    ensures InPlace(Apply(s, a), places + if a.Add? && a.epollOk then [(a.o, a.e)] else [])
  {
    OpExact(s, a);
    var s' := Apply(s, a);
    forall o: nat, e | IsRegistered(s', o, e)
      ensures RegisteredAt(s', o, e) == RegisteredAt(s, o, e) || (a.Add? && a.epollOk && o == a.o && e == a.e)
    {
      assert RegisteredAt(s', o, e).Some?;
    }
  }

  /** What a step adds to those scheduled and to those deleted. */
  lemma StepReleases(m: System, a: Action, places: seq<(nat, Event)>, w: Waiting)
    requires SystemInv(m) && Enabled(m, a) && !Fails(m, a) && InPlace(m.objects, places)
    ensures w in Step(m, a).objects.deleted && w !in m.objects.deleted ==> w.id < |places| && Drops(a, places[w.id])
    ensures w in Step(m, a).objects.scheduled && w !in m.objects.scheduled ==> w.id < |places| && Resumes(a, places[w.id])
  {
    if a.Do? || a.Epoll? {
      OpExact(m.objects, a.op);
      var gone := Registrations(m.objects, a.op.o, TakenEvents(m.objects, a.op));
      if w in gone { TakenFrom(m.objects, a.op, places, w); }
    }
  }

  lemma TakenFrom(s: State, a: Op, places: seq<(nat, Event)>, w: Waiting)
    requires InPlace(s, places) && w in Registrations(s, a.o, TakenEvents(s, a))
    ensures w.id < |places| && places[w.id].0 == a.o && Has(TakenEvents(s, a), places[w.id].1)
  {
    if IsRegistered(s, a.o, READ) && w == WaitingOf(s.contexts[a.o].read) && TakenEvents(s, a).read {
      assert RegisteredAt(s, a.o, READ) == Some(w);
    } else {
      assert RegisteredAt(s, a.o, WRITE) == Some(w);
    }
  }

  /** The run so far has the steps that released w, if it has been released. */
  ghost predicate Explained(s: State, w: Waiting, places: seq<(nat, Event)>, before: seq<Action>) {
    && (w in s.deleted ==> w.id < |places| && DroppedIn(before, places[w.id]))
    && (w in s.scheduled ==> w.id < |places| && ResumedIn(before, places[w.id]))
  }

  lemma StillIn(before: seq<Action>, a: Action, place: (nat, Event))
    ensures DroppedIn(before, place) || Drops(a, place) ==> DroppedIn(before + [a], place)
    ensures ResumedIn(before, place) || Resumes(a, place) ==> ResumedIn(before + [a], place)
  {
    var all := before + [a];
    assert all[|before|] == a;
    if i :| 0 <= i < |before| && Drops(before[i], place) { assert Drops(all[i], place); }
    if i :| 0 <= i < |before| && Resumes(before[i], place) { assert Resumes(all[i], place); }
  }

  lemma StepExplained(m: System, a: Action, w: Waiting, places: seq<(nat, Event)>, before: seq<Action>)
    requires SystemInv(m) && Enabled(m, a) && !Fails(m, a) && InPlace(m.objects, places) && Explained(m.objects, w, places, before)
    ensures Explained(Step(m, a).objects, w, places + PlaceOf(a), before + [a])
  {
    StepReleases(m, a, places, w);
    if w.id < |places| { StillIn(before, a, places[w.id]); }
  }

  /**
    Over every run: a registration is dropped only if the run has a delEvent of its context and event, and
    scheduled only if it has a cancelEvent of them, a cancelAll of the context, or a delivery that reports
    the event or an error.
   */
  lemma {:induction false} RunReleases(m: System, run: seq<Action>, w: Waiting, places: seq<(nat, Event)>, before: seq<Action>)
    requires SystemInv(m) && IsRun(m, run) && InPlace(m.objects, places) && Explained(m.objects, w, places, before)
    ensures Explained(After(m, run).objects, w, places + Places(run), before + run)
    decreases |run|
  {
    if run == [] {
      assert places + [] == places && before + [] == before;
    } else {
      var a, rest := run[0], run[1..];
      StepKeeps(m, a);
      StepInPlace(m, a, places);
      StepExplained(m, a, w, places, before);
      RunReleases(Step(m, a), rest, w, places + PlaceOf(a), before + [a]);
      PlacesCons(run, places, before);
    }
  }

  lemma PlacesCons(run: seq<Action>, places: seq<(nat, Event)>, before: seq<Action>)
    requires run != []
    ensures places + PlaceOf(run[0]) + Places(run[1..]) == places + Places(run)
    ensures before + [run[0]] + run[1..] == before + run
  {
    Regroup(places, PlaceOf(run[0]), Places(run[1..]));
    Regroup(before, [run[0]], run[1..]);
    FirstAndRest(run);
  }

  lemma FirstAndRest(run: seq<Action>)
    requires run != []
    ensures [run[0]] + run[1..] == run
  {
  }

  /** For the n-th registration of a run of a new manager. */
  lemma ReleasedBy(run: seq<Action>, n: nat)
    requires IsRun(Start(), run) && n < |Adds(run)|
    ensures var s, w := After(Start(), run).objects, Waiting(n, Adds(run)[n].0, Adds(run)[n].1);
            && |Places(run)| == |Adds(run)|
            && (w in s.deleted ==> DroppedIn(run, Places(run)[n]))
            && (w in s.scheduled ==> ResumedIn(run, Places(run)[n]))
  {
    SamePlaces(run);
    NothingYet();
    RunReleases(Start(), run, Waiting(n, Adds(run)[n].0, Adds(run)[n].1), [], []);
    assert [] + Places(run) == Places(run) && [] + run == run;
  }

  lemma NothingYet()
    ensures InPlace(Start().objects, []) && Start().objects.deleted == [] && Start().objects.scheduled == []
  {
    assert forall o: nat :: o < FIRST ==> Fresh(FIRST)[o] == FRESH;
  }

  lemma {:induction false} SamePlaces(run: seq<Action>)
    ensures |Places(run)| == |Adds(run)|
    decreases |run|
  {
    if run != [] { SamePlaces(run[1..]); }
  }

  // ---------------------------------------------------------------- callers outside a scheduler

  lemma {:induction false} HeldAt(cs: seq<FdContext>, i: nat, w: Waiting)
    requires i < |cs| && AllValid(cs) && HeldBy(cs[i], w) > 0
    ensures Held(cs, w) > 0
    decreases i
  {
    if i > 0 { HeldAt(cs[1..], i - 1, w); }
  }

  /** What a context holds is the registration with its number. */
  lemma ContextIsMade(s: State, o: nat, e: Event)
    requires Inv(s) && IsRegistered(s, o, e)
    ensures var x := Context(s.contexts[o], e);
            Filled(x) && x.id < |s.added| && s.added[x.id] == WaitingOf(x)
  {
    var w := WaitingOf(Context(s.contexts[o], e));
    HeldAt(s.contexts, o, w);
    assert Made(s.added, w) > 0;
  }

  lemma CancelCrashesIff(s: State, o: nat, e: Event)
    requires Inv(s) && IsRegistered(s, o, e)
    ensures var n := Context(s.contexts[o], e).id;
            n < |s.added| && (Crashes(s, Cancel(o, e, true)) <==> s.added[n].scheduler == None)
  {
    ContextIsMade(s, o, e);
  }

  lemma RunNumbers(run: seq<Action>)
    requires IsRun(Start(), run)
    ensures Numbering([], Adds(run), After(Start(), run).objects.added)
  {
    RunAdds(Start(), run);
    assert Start().objects.added == [];
  }

  /**
    After every run, triggering a registered event crashes if and only if the addEvent that registered it
    was called outside a scheduler.
   */
  lemma TriggerCrashesIff(run: seq<Action>, o: nat, e: Event)
    requires IsRun(Start(), run) && IsRegistered(After(Start(), run).objects, o, e)
    ensures var s := After(Start(), run).objects; var n := Context(s.contexts[o], e).id;
            n < |Adds(run)| && (Crashes(s, Cancel(o, e, true)) <==> Adds(run)[n].0 == None)
  {
    var s := After(Start(), run).objects;
    RunKeeps(Start(), run);
    RunNumbers(run);
    CancelCrashesIff(s, o, e);
    NumberedAs(Adds(run), s.added, Context(s.contexts[o], e).id);
  }

  /** The bit is set exactly when the context holds a scheduler and one of fiber and callback. */
  predicate BitMeansScheduler(c: FdContext, e: Event) {
    && (Has(c.events, e) <==> Context(c, e).scheduler.Some?)
    && (Has(c.events, e) <==> Filled(Context(c, e)))
  }

  lemma SchedulerIsHeld(s: State, o: nat, e: Event)
    requires Inv(s) && o < |s.contexts| && forall n :: 0 <= n < |s.added| ==> s.added[n].scheduler.Some?
    ensures BitMeansScheduler(s.contexts[o], e)
  {
    assert FdValid(s.contexts[o]);
    if Has(s.contexts[o].events, e) { ContextIsMade(s, o, e); }
  }

  lemma NoOrphanNoCrash(s: State, a: Op)
    requires forall o: nat, e :: o < |s.contexts| ==> BitMeansScheduler(s.contexts[o], e)
    ensures !Crashes(s, a)
  {
    if !a.Add? && a.o < |s.contexts| {
      assert BitMeansScheduler(s.contexts[a.o], READ) && BitMeansScheduler(s.contexts[a.o], WRITE);
    }
  }

  /**
    If every addEvent is called inside a scheduler, then after every run a bit is set exactly when its
    context holds a scheduler and one fiber or callback, and no operation crashes.
   */
  lemma InsideNeverCrashes(run: seq<Action>)
    requires IsRun(Start(), run) && forall i :: 0 <= i < |Adds(run)| ==> Adds(run)[i].0.Some?
    ensures var s := After(Start(), run).objects;
            && (forall o: nat, e :: o < |s.contexts| ==> BitMeansScheduler(s.contexts[o], e))
            && (forall a :: !Crashes(s, a))
  {
    RunNumbers(run);
    RunKeeps(Start(), run);
    InsideOnly(After(Start(), run).objects, Adds(run));
  }

  lemma InsideOnly(s: State, made: seq<(Option<nat>, Waiter)>)
    requires Inv(s) && Numbering([], made, s.added) && forall i :: 0 <= i < |made| ==> made[i].0.Some?
    ensures forall o: nat, e :: o < |s.contexts| ==> BitMeansScheduler(s.contexts[o], e)
    ensures forall a :: !Crashes(s, a)
  {
    forall n | 0 <= n < |s.added| ensures s.added[n].scheduler.Some? { NumberedAs(made, s.added, n); }
    forall o: nat, e | o < |s.contexts| ensures BitMeansScheduler(s.contexts[o], e) { SchedulerIsHeld(s, o, e); }
    forall a ensures !Crashes(s, a) { NoOrphanNoCrash(s, a); }
  }

  /** A new manager's thread t has registered READ for descriptor 0. */
  lemma OneAdd(t: ThreadId, scheduler: Option<nat>, waiter: Waiter) returns (run: seq<Action>)
    ensures IsRun(Start(), run)
    ensures var s := After(Start(), run).objects;
            s.contexts != [] && s.contexts[0] == Registered(FRESH, READ, Waiting(0, scheduler, waiter)) && s.pending == 1
  {
    var m := Start();
    run := Extend(m, [], Look(t, 0));
    assert m.table[0] == 0 && m.objects.contexts[0] == FRESH;
    run := Extend(m, run, Do(t, Add(0, READ, scheduler, waiter, true)));
  }

  lemma {:induction false} Extend(m: System, run: seq<Action>, a: Action) returns (run': seq<Action>)
    requires IsRun(m, run) && Enabled(After(m, run), a) && !Fails(After(m, run), a)
    ensures run' == run + [a] && IsRun(m, run') && After(m, run') == Step(After(m, run), a)
    decreases |run|
  {
    run' := run + [a];
    if run != [] {
      var rest := Extend(Step(m, run[0]), run[1..], a);
      assert run'[1..] == rest;
    } else {
      assert run'[1..] == [];
    }
  }

  /** One call from outside, and a cancel: the failing case. */
  lemma OutsideCrashes(t: ThreadId, waiter: Waiter) returns (run: seq<Action>)
    ensures IsRun(Start(), run) && Crashes(After(Start(), run).objects, Cancel(0, READ, true))
  {
    run := OneAdd(t, None, waiter);
  }

  // ---------------------------------------------------------------- pending events, delivery, growth

  /** The counter is zero, as stopping() wants it, exactly when no event is registered. */
  lemma {:induction false} NothingPending(cs: seq<FdContext>)
    ensures Bits(cs) == 0 <==> forall i :: 0 <= i < |cs| ==> cs[i].events == NONE
    decreases |cs|
  {
    if cs != [] {
      NothingPending(cs[1..]);
      assert forall i :: 1 <= i < |cs| ==> cs[i] == cs[1..][i - 1];
      assert (forall i :: 0 <= i < |cs| ==> cs[i].events == NONE) <==>
             cs[0].events == NONE && forall i :: 0 <= i < |cs[1..]| ==> cs[1..][i].events == NONE;
    }
  }

  /** Delivery: what is scheduled, and exactly when the original's assertion fails instead. */
  lemma DeliverExact(s: State, o: nat, reported: Mask, error: bool)
    requires Inv(s) && o < |s.contexts| && And(s.contexts[o].events, Or(reported, if error then s.contexts[o].events else NONE)) != NONE
    ensures var a := Deliver(o, reported, error, true);
            && (Aborts(s, a) <==> !Within(reported, s.contexts[o].events))
            && (!Aborts(s, a) ==> Apply(s, a).contexts[o].events == if error then NONE else Minus(s.contexts[o].events, reported))
  {
  }

  /** The failing case: READ is registered, and both events are reported. */
  lemma DeliverAborts(t: ThreadId, scheduler: Option<nat>, waiter: Waiter) returns (run: seq<Action>)
    ensures IsRun(Start(), run) && Aborts(After(Start(), run).objects, Deliver(0, Mask(true, true), false, true))
  {
    run := OneAdd(t, scheduler, waiter);
  }

  // ---------------------------------------------------------------- contexts that are cut off

  /** Every registered event can be found: its context is in the table. */
  ghost predicate Findable(m: System) {
    forall o :: 0 <= o < |m.objects.contexts| && m.objects.contexts[o].events != NONE ==> o in m.table
  }

  /** No event is registered for the descriptors from `size` on. */
  ghost predicate NothingFrom(m: System, size: nat) {
    forall i :: size <= i < |m.table| && m.table[i] < |m.objects.contexts| ==> m.objects.contexts[m.table[i]].events == NONE
  }

  /**
    The step cuts off no registered event: growth, whose size check may be out of date, cuts only contexts
    without events, and an event is registered only with a context that is still in the table.
   */
  ghost predicate Spares(m: System, a: Action)
    requires Enabled(m, a)
  {
    match a
    case Grow(t) => NothingFrom(m, Growth(m.found[t].fd))
    case Do(_, op) => op.Add? && op.epollOk ==> op.o in m.table
    case _ => true
  }

  /** A step keeps every registered event findable if and only if it spares them. */
  lemma FindableStep(m: System, a: Action)
    requires SystemInv(m) && Findable(m) && Enabled(m, a) && !Fails(m, a)
    ensures Findable(Step(m, a)) <==> Spares(m, a)
  {
    match a
    case Look(_, _) =>
    case Grow(t) => ResizeFindable(m, Growth(m.found[t].fd));
    case Do(_, op) => OpFindable(m, op);
    case Epoll(op) => OpFindable(m, op);
  }

  lemma OpFindable(m: System, op: Op)
    requires SystemInv(m) && Findable(m) && op.o < |m.objects.contexts| && !Aborts(m.objects, op)
    ensures forall found :: Findable(System(Apply(m.objects, op), m.table, found)) <==> (op.Add? && op.epollOk ==> op.o in m.table)
  {
    ApplyChanges(m.objects, op);
    var cs, cs' := m.objects.contexts, Apply(m.objects, op).contexts;
    assert op.Add? && op.epollOk ==> cs'[op.o].events != NONE;
    assert !(op.Add? && op.epollOk) && cs'[op.o].events != NONE ==> cs[op.o].events != NONE;
    assert forall o :: 0 <= o < |cs| && o != op.o ==> cs'[o] == cs[o];
  }

  lemma ResizeFindable(m: System, size: nat)
    requires SystemInv(m) && Findable(m) && size >= FIRST
    ensures Findable(Resized(m, size)) <==> NothingFrom(m, size)
  {
    var m' := Resized(m, size);
    ResizeKeeps(m, size);
    if size <= |m.table| {
      CutFindable(m, size);
    } else {
      forall o | 0 <= o < |m'.objects.contexts| && m'.objects.contexts[o].events != NONE ensures o in m'.table {
        assert o < |m.objects.contexts| && o in m.table;
      }
    }
  }

  lemma CutFindable(m: System, size: nat)
    requires SystemInv(m) && Findable(m) && size <= |m.table|
    ensures Findable(m.(table := m.table[..size])) <==> NothingFrom(m, size)
  {
    var cs, cut := m.objects.contexts, m.table[..size];
    if NothingFrom(m, size) {
      forall o | 0 <= o < |cs| && cs[o].events != NONE ensures o in cut {
        var i :| 0 <= i < |m.table| && m.table[i] == o;
        assert cut[i] == o;
      }
    } else {
      var i :| size <= i < |m.table| && m.table[i] < |cs| && cs[m.table[i]].events != NONE;
      assert m.table[i] !in cut;
    }
  }

  ghost predicate StaysFindable(m: System, run: seq<Action>)
    decreases |run|
  {
    Findable(m) && (run == [] || StaysFindable(Step(m, run[0]), run[1..]))
  }

  ghost predicate EachSpares(m: System, run: seq<Action>)
    requires IsRun(m, run)
    decreases |run|
  {
    run == [] || (Spares(m, run[0]) && EachSpares(Step(m, run[0]), run[1..]))
  }

  /** Over whole runs of any number of threads: every registered event can be found at any time if and only if each step spares them. */
  lemma {:induction false} FindableIff(m: System, run: seq<Action>)
    requires SystemInv(m) && Findable(m) && IsRun(m, run)
    ensures StaysFindable(m, run) <==> EachSpares(m, run)
    decreases |run|
  {
    if run != [] {
      FindableStep(m, run[0]);
      StepKeeps(m, run[0]);
      if Spares(m, run[0]) {
        FindableIff(Step(m, run[0]), run[1..]);
      } else {
        assert !StaysFindable(Step(m, run[0]), run[1..]);
      }
    }
  }

  /** Context o is out of the table, and no thread has found it. */
  ghost predicate CutOff(m: System, o: nat) {
    o < |m.objects.contexts| && o !in m.table && forall t :: t in m.found ==> m.found[t] != At(o)
  }

  /** The run delivers nothing for context o. */
  ghost predicate NeverDelivered(run: seq<Action>, o: nat) {
    forall i :: 0 <= i < |run| && run[i].Epoll? ==> run[i].op.o != o
  }

  lemma CutOffStep(m: System, a: Action, o: nat)
    requires SystemInv(m) && CutOff(m, o) && Enabled(m, a) && !Fails(m, a)
    ensures CutOff(Step(m, a), o)
    ensures !(a.Epoll? && a.op.o == o) ==> Step(m, a).objects.contexts[o] == m.objects.contexts[o]
  {
    if a.Grow? { ResizeKeeps(m, Growth(m.found[a.t].fd)); }
    if a.Do? || a.Epoll? { ApplyChanges(m.objects, a.op); }
  }

  /**
    A context that has been cut off is never found again, so delEvent, cancelEvent and cancelAll never
    reach its events; only a delivery, for which epoll keeps a pointer, still triggers them.
   */
  lemma {:induction false} CutOffForever(m: System, run: seq<Action>, o: nat)
    requires SystemInv(m) && CutOff(m, o) && IsRun(m, run)
    ensures CutOff(After(m, run), o)
    ensures NeverDelivered(run, o) ==> After(m, run).objects.contexts[o] == m.objects.contexts[o]
    decreases |run|
  {
    if run != [] {
      CutOffStep(m, run[0], o);
      StepKeeps(m, run[0]);
      CutOffForever(Step(m, run[0]), run[1..], o);
      if NeverDelivered(run, o) {
        assert !(run[0].Epoll? && run[0].op.o == o);
        assert forall i :: 0 <= i < |run[1..]| ==> run[1..][i] == run[i + 1];
      }
    }
  }

  /** Two threads find the table too small. */
  lemma BothTooSmall(m: System, t: ThreadId, u: ThreadId, fd: nat, other: nat) returns (run: seq<Action>)
    requires SystemInv(m) && m.found == map[] && t != u && |m.table| <= fd && |m.table| <= other
    ensures IsRun(m, run) && After(m, run) == m.(found := map[t := TooSmall(fd), u := TooSmall(other)])
  {
    run := Extend(m, [], Look(t, fd));
    assert After(m, run) == m.(found := map[t := TooSmall(fd)]);
    run := Extend(m, run, Look(u, other));
    assert After(m, run).found == map[t := TooSmall(fd), u := TooSmall(other)];
  }

  /** One of them grows it. */
  lemma GrowIs(m: System, t: ThreadId, u: ThreadId, fd: nat, other: nat) returns (o: nat)
    requires SystemInv(m) && t != u && m.found == map[t := TooSmall(fd), u := TooSmall(other)] && |m.table| <= other
    ensures var m' := Step(m, Grow(u));
            && |m'.table| == Growth(other) && other < |m'.table| && m'.table[other] == o
            && o < |m'.objects.contexts| && m'.objects.contexts[o] == FRESH
            && m'.found == map[t := TooSmall(fd), u := At(o)] && m'.objects == m.objects.(contexts := m'.objects.contexts)
  {
    GrownKeeps(m, other);
    o := Grown(m, other).table[other];
    assert Step(m, Grow(u)).found == map[t := TooSmall(fd), u := At(o)];
  }

  /** And registers an event. */
  lemma AddIs(m: System, t: ThreadId, u: ThreadId, fd: nat, o: nat, w: Waiting)
    requires SystemInv(m) && t != u && m.found == map[t := TooSmall(fd), u := At(o)]
    requires o < |m.objects.contexts| && m.objects.contexts[o] == FRESH
    requires w.id == |m.objects.added|
    ensures var a := Do(u, Add(o, READ, w.scheduler, w.waiter, true));
            && Enabled(m, a) && !Fails(m, a)
            && Step(m, a) == m.(objects := Register(m.objects, o, READ, w), found := map[t := TooSmall(fd)])
  {
  }

  lemma GrowAndAdd(m: System, t: ThreadId, u: ThreadId, fd: nat, other: nat, w: Waiting) returns (run: seq<Action>, o: nat)
    requires SystemInv(m) && m.found == map[] && t != u && |m.table| <= fd && |m.table| <= other && w.id == |m.objects.added|
    ensures IsRun(m, run)
    ensures var m' := After(m, run);
            && |m'.table| == Growth(other) && other < |m'.table| && m'.table[other] == o
            && o < |m'.objects.contexts| && m'.objects.contexts[o] == Registered(FRESH, READ, w) && m'.found == map[t := TooSmall(fd)]
            && m'.objects.pending == m.objects.pending + 1 && m'.objects.scheduled == m.objects.scheduled
  {
    run := BothTooSmall(m, t, u, fd, other);
    o := GrowIs(After(m, run), t, u, fd, other);
    run := Extend(m, run, Grow(u));
    RunKeeps(m, run);
    AddIs(After(m, run), t, u, fd, o, w);
    run := Extend(m, run, Do(u, Add(o, READ, w.scheduler, w.waiter, true)));
  }

  /** The other one resizes the table, to a smaller size. */
  lemma CutIs(m: System, t: ThreadId, fd: nat, other: nat)
    requires SystemInv(m) && m.found == map[t := TooSmall(fd)] && Growth(fd) <= other < |m.table|
    ensures var m' := Step(m, Grow(t));
            |m'.table| <= other && m'.objects == m.objects && CutOff(m', m.table[other])
  {
    var size, m', o := Growth(fd), Step(m, Grow(t)), m.table[other];
    assert m'.table == m.table[..size];
    assert m'.found == map[t := At(m.table[fd])];
    assert m.table[fd] != o;
  }

  /** Delivery of the one event that is registered with a context. */
  lemma DeliverOne(s: State, o: nat, w: Waiting)
    requires Inv(s) && o < |s.contexts| && s.contexts[o] == Registered(FRESH, READ, w)
    ensures var d := Deliver(o, Mask(true, false), false, true);
            !Aborts(s, d) && Apply(s, d).scheduled == s.scheduled + [w] && Apply(s, d).pending == s.pending - 1
  {
  }

  /**
    The failing case, with two threads: one finds that the table is too small for descriptor fd and drops
    the lock; another registers an event for a larger descriptor, growing the table; then the first resizes
    it as well, to a smaller size.  The registration is cut off; it is still counted, and a delivery
    still schedules it.
   */
  lemma StaleGrowthCuts(t: ThreadId, u: ThreadId, fd: nat, other: nat, w: Waiting) returns (run: seq<Action>, o: nat)
    requires t != u && FIRST <= fd && Growth(fd) <= other && w.id == 0
    ensures IsRun(Start(), run)
    ensures var m := After(Start(), run);
            && |m.table| <= other && CutOff(m, o) && m.objects.contexts[o] == Registered(FRESH, READ, w) && m.objects.pending == 1
            && var d := Deliver(o, Mask(true, false), false, true);
               Inv(m.objects) && !Aborts(m.objects, d) && Apply(m.objects, d).scheduled == [w] && Apply(m.objects, d).pending == 0
  {
    run, o := CutFrom(Start(), t, u, fd, other, w);
    RunKeeps(Start(), run);
    DeliverOne(After(Start(), run).objects, o, w);
  }

  lemma CutFrom(m: System, t: ThreadId, u: ThreadId, fd: nat, other: nat, w: Waiting) returns (run: seq<Action>, o: nat)
    requires SystemInv(m) && m.found == map[] && t != u && |m.table| <= fd && Growth(fd) <= other && w.id == |m.objects.added|
    ensures IsRun(m, run)
    ensures var m' := After(m, run);
            && |m'.table| <= other && CutOff(m', o) && m'.objects.contexts[o] == Registered(FRESH, READ, w)
            && m'.objects.pending == m.objects.pending + 1 && m'.objects.scheduled == m.objects.scheduled
  {
    run, o := GrowAndAdd(m, t, u, fd, other, w);
    RunKeeps(m, run);
    CutIs(After(m, run), t, fd, other);
    run := Extend(m, run, Grow(t));
  }

  // ---------------------------------------------------------------- the manager

  /** How an operation that triggers events ends. */
  datatype Trigger = Answers(ok: bool) | AssertionFailed | NullScheduler

  datatype AddResult = Added | EpollFailed | AssertionFails

  class IOManager {
    var contexts: seq<FdContext>         // every context ever made
    var table: seq<nat>                  // m_fdContexts: which of them each descriptor has
    var pending: int
    var added: seq<Waiting>              // only numbers the registrations
    ghost var scheduled: seq<Waiting>
    ghost var deleted: seq<Waiting>

    ghost function Value(): State
      reads this
    {
      State(contexts, pending, added, scheduled, deleted)
    }

    /** Between calls, with no thread at work. */
    ghost function Whole(): System
      reads this
    {
      System(Value(), table, map[])
    }

    ghost predicate Valid()
      reads this
    {
      SystemInv(Whole())
    }

    constructor ()
      ensures Valid() && Whole() == Start()
    {
      contexts, table, pending, added, scheduled, deleted := [], [], 0, [], [], [];
      new;
      ContextResize(32);
      assert Whole() == Start();
    }

    method ContextResize(size: nat)
      modifies this`contexts, this`table
      ensures Whole() == Resized(old(Whole()), size)
    {
      if size <= |table| {
        table := table[..size];
        return;
      }
      ghost var n := |contexts|;
      while |table| < size
        invariant |old(table)| <= |table| <= size && |contexts| == n + (|table| - |old(table)|)
        invariant table == old(table) + Numbers(n, |table| - |old(table)|)
        invariant contexts == old(contexts) + Fresh(|table| - |old(table)|)
      {
        table := table + [|contexts|];
        contexts := contexts + [FRESH];
      }
    }

    /** addEvent; on AssertionFails the original has counted the event already and aborts. */
    method AddEvent(fd: nat, e: Event, scheduler: Option<nat>, waiter: Waiter, epollOk: bool) returns (r: AddResult)
      requires Valid()
      modifies this
      ensures var m := Grown(old(Whole()), fd);
              && SystemInv(m) && fd < |m.table|
              && var a := Add(m.table[fd], e, scheduler, waiter, epollOk);
                 && (r.AssertionFails? <==> Aborts(m.objects, a))
                 && (!r.AssertionFails? ==> Valid() && table == m.table && Value() == Apply(m.objects, a))
      ensures r == EpollFailed <==> !epollOk
    {
      GrownKeeps(Whole(), fd);
      if fd >= |table| {
        ContextResize(fd * 3 / 2);
      }
      if !epollOk {
        return EpollFailed;
      }
      r := RegisterEvent(table[fd], e, scheduler, waiter);
    }

    /** Counts the event, sets its bit and fills its context, which must be empty. */
    method RegisterEvent(o: nat, e: Event, scheduler: Option<nat>, waiter: Waiter) returns (r: AddResult)
      requires Valid() && o < |contexts|
      modifies this`contexts, this`pending, this`added
      ensures r == if Has(old(contexts)[o].events, e) then AssertionFails else Added
      ensures r.Added? ==> Valid() && Value() == Register(old(Value()), o, e, Next(old(Value()), scheduler, waiter))
    {
      ghost var s := Value();
      var w := Waiting(|added|, scheduler, waiter);
      RegisterOrAbort(s, o, e, w);
      pending := pending + 1;
      if Context(contexts[o], e) != EMPTY {
        return AssertionFails;
      }
      contexts := contexts[o := WithContext(contexts[o], e, FilledWith(w)).(events := Set(contexts[o].events, e, true))];
      added := added + [w];
      assert Value() == Register(s, o, e, w);
      return Added;
    }

    /** Takes the waiter out of a context and schedules it; there must be a scheduler. */
    method TriggerEvent(o: nat, e: Event) returns (w: Waiting)
      requires Valid() && o < |contexts| && Has(contexts[o].events, e) && !Orphan(contexts[o], e)
      modifies this`contexts, this`pending, this`scheduled
      ensures Valid() && Value() == Leave(old(Value()), o, e, true) && w == WaitingOf(Context(old(contexts)[o], e))
    {
      LeaveKeeps(Value(), o, e, true);
      var x := Context(contexts[o], e);
      w := Waiting(x.id, Some(x.scheduler.value), if x.cb.Some? then Call(x.cb.value) else Resume(x.fiber.value));
      contexts := contexts[o := WithContext(contexts[o], e, EMPTY).(events := Set(contexts[o].events, e, false))];
      pending := pending - 1;
      scheduled := scheduled + [w];
    }

    /** The context of descriptor fd is number table[fd]; without one there is nothing to do. */
    method DelEvent(fd: nat, e: Event, epollOk: bool) returns (ok: bool)
      requires Valid()
      modifies this
      ensures Valid() && table == old(table)
      ensures fd >= |table| ==> !ok && Value() == old(Value())
      ensures fd < |table| ==>
                && Value() == Apply(old(Value()), Delete(table[fd], e, epollOk))
                && (ok <==> epollOk && IsRegistered(old(Value()), table[fd], e))
      ensures scheduled == old(scheduled)
      ensures ok ==> deleted == old(deleted) + [RegisteredAt(old(Value()), table[fd], e).value]
      ensures fd < |table| && epollOk ==> RegisteredAt(Value(), table[fd], e) == None
    {
      if |table| <= fd || !Has(contexts[table[fd]].events, e) || !epollOk {
        return false;
      }
      DropEvent(table[fd], e);
      return true;
    }

    /** Takes the waiter out of a context and drops it. */
    method DropEvent(o: nat, e: Event)
      requires Valid() && o < |contexts| && Has(contexts[o].events, e)
      modifies this`contexts, this`pending, this`deleted
      ensures Valid() && Value() == Leave(old(Value()), o, e, false)
    {
      ghost var s, w := Value(), WaitingOf(Context(contexts[o], e));
      LeaveKeeps(s, o, e, false);
      pending := pending - 1;
      contexts := contexts[o := WithContext(contexts[o].(events := Set(contexts[o].events, e, false)), e, EMPTY)];
      deleted := deleted + [w];
      ClearedEitherWay(s.contexts[o], e);
      assert Value() == Leave(s, o, e, false);
    }

    method CancelEvent(fd: nat, e: Event, epollOk: bool) returns (r: Trigger)
      requires Valid()
      modifies this
      ensures table == old(table)
      ensures fd >= |table| ==> r == Answers(false) && Valid() && Value() == old(Value())
      ensures fd < |table| ==>
                var a := Cancel(table[fd], e, epollOk);
                && (r.NullScheduler? <==> Crashes(old(Value()), a))
                && (!r.NullScheduler? ==>
                      && r == Answers(epollOk && IsRegistered(old(Value()), table[fd], e))
                      && Valid() && Value() == Apply(old(Value()), a))
      ensures deleted == old(deleted)
      ensures r == Answers(true) ==>
                && scheduled == old(scheduled) + [RegisteredAt(old(Value()), table[fd], e).value]
                && RegisteredAt(Value(), table[fd], e) == None
      ensures r != Answers(true) ==> scheduled == old(scheduled)
    {
      if |table| <= fd || !Has(contexts[table[fd]].events, e) || !epollOk {
        return Answers(false);
      }
      if Context(contexts[table[fd]], e).scheduler.None? {
        return NullScheduler;
      }
      var w := TriggerEvent(table[fd], e);
      return Answers(true);
    }

    /** triggerEvent for READ, then for WRITE. */
    method TriggerEvents(o: nat, events: Mask)
      requires Valid() && o < |contexts| && Within(events, contexts[o].events) && !AnyOrphan(contexts[o], events)
      modifies this`contexts, this`pending, this`scheduled
      ensures Valid() && Value() == TriggerAll(old(Value()), o, events)
    {
      if events.read {
        var w := TriggerEvent(o, READ);
      }
      if events.write {
        var w := TriggerEvent(o, WRITE);
      }
    }

    method CancelAllEvents(fd: nat, epollOk: bool) returns (r: Trigger)
      requires Valid()
      modifies this
      ensures table == old(table)
      ensures fd >= |table| ==> r == Answers(false) && Valid() && Value() == old(Value())
      ensures fd < |table| ==>
                var a := CancelAll(table[fd], epollOk);
                && (r.NullScheduler? <==> Crashes(old(Value()), a))
                && (!r.NullScheduler? ==> r.Answers? && Valid() && Value() == Apply(old(Value()), a))
                && (r == Answers(true) ==> table[fd] < |contexts| && contexts[table[fd]].events == NONE)
      ensures deleted == old(deleted)
      ensures r == Answers(true) ==> scheduled == old(scheduled) + Registrations(old(Value()), table[fd], Mask(true, true))
      ensures r != Answers(true) ==> scheduled == old(scheduled)
    {
      if |table| <= fd || contexts[table[fd]].events == NONE || !epollOk {
        return Answers(false);
      }
      var o := table[fd];
      if AnyOrphan(contexts[o], contexts[o].events) {
        return NullScheduler;
      }
      TriggerExact(Value(), o, contexts[o].events);
      TriggerEvents(o, contexts[o].events);
      return Answers(true);
    }

    /**
      The part of idle() that handles one reported descriptor.  Where both an assertion in triggerEvent
      would fail and a scheduler is null, the run ends either way; the assertion is reported.
     */
    method DeliverEvents(o: nat, reported: Mask, error: bool, epollOk: bool) returns (r: Trigger)
      requires Valid() && o < |contexts|
      modifies this
      ensures r.AssertionFailed? <==> Aborts(old(Value()), Deliver(o, reported, error, epollOk))
      ensures r.NullScheduler? <==> !r.AssertionFailed? && Crashes(old(Value()), Deliver(o, reported, error, epollOk))
      ensures r.Answers? ==> Valid() && Value() == Apply(old(Value()), Deliver(o, reported, error, epollOk))
      ensures r.Answers? && epollOk ==>
                scheduled == old(scheduled) + Registrations(old(Value()), o, if error then Mask(true, true) else reported)
      ensures deleted == old(deleted)
    {
      var events := contexts[o].events;
      var due := Due(contexts[o], reported, error);
      DeliverIs(Value(), o, reported, error, epollOk);
      if And(events, due) == NONE || !epollOk {
        return Answers(true);
      }
      if !Within(due, events) {
        return AssertionFailed;
      }
      if AnyOrphan(contexts[o], due) {
        return NullScheduler;
      }
      TriggerExact(Value(), o, due);
      TriggerEvents(o, due);
      return Answers(true);
    }
  }

  lemma DeliverIs(s: State, o: nat, reported: Mask, error: bool, epollOk: bool)
    requires Inv(s) && o < |s.contexts|
    ensures var a, c, due := Deliver(o, reported, error, epollOk), s.contexts[o], Due(s.contexts[o], reported, error);
            var silent := And(c.events, due) == NONE || !epollOk;
            && (Aborts(s, a) <==> !silent && !Within(due, c.events))
            && (!Aborts(s, a) ==> Apply(s, a) == if silent then s else TriggerAll(s, o, due))
            && (Crashes(s, a) <==> !silent && AnyOrphan(c, due))
  {
  }

  lemma ClearedEitherWay(c: FdContext, e: Event)
    ensures WithContext(c.(events := Set(c.events, e, false)), e, EMPTY) == Cleared(c, e)
  {
  }

  lemma RegisterOrAbort(s: State, o: nat, e: Event, w: Waiting)
    requires Inv(s) && o < |s.contexts| && w.id == |s.added|
    ensures Context(s.contexts[o], e) == EMPTY <==> !Has(s.contexts[o].events, e)
    ensures !Has(s.contexts[o].events, e) ==> Inv(Register(s, o, e, w))
  {
    if !Has(s.contexts[o].events, e) { RegisterKeeps(s, o, e, w); }
  }
}
