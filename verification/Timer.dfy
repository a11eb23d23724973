/**
  The timer manager (yk/timer.cc): an ordered set of timers whose keys change in place.

  A timer is known by its id, which stands for its address; ids also break ties between equal
  deadlines.  Clock values and deadlines are 64-bit words.
 */
module Timers {
  import opened Common
  import opened Codec

  type TimerId = nat
  type Callback = nat

  const HOUR: nat := 3600000

  datatype Timer = Timer(recurring: bool, ms: nat, next: nat, cb: Option<Callback>)

  /** `order` is the set m_timers in its order; `hooks` counts the calls of
      onTimerInsertedAtFront since the last getNextTimer. */
  datatype State = State(timers: map<TimerId, Timer>, order: seq<TimerId>, tickled: bool, previous: nat, hooks: nat)

  /** Addition and subtraction of 64-bit words. */
  function Add64(a: nat, b: nat): (r: nat) ensures r < TWO_64 { (a + b) % TWO_64 }

  function Sub64(a: nat, b: nat): (r: nat) ensures r < TWO_64 { (a - b) % TWO_64 }

  // ---------------------------------------------------------------- the ordered set

  /** Timer::Comparator: by deadline, then by address. */
  predicate Less(ts: map<TimerId, Timer>, a: TimerId, b: TimerId)
    requires a in ts && b in ts
  {
    ts[a].next < ts[b].next || (ts[a].next == ts[b].next && a < b)
  }

  ghost predicate Known(ts: map<TimerId, Timer>, order: seq<TimerId>) {
    forall i :: 0 <= i < |order| ==> order[i] in ts
  }

  ghost predicate Sorted(ts: map<TimerId, Timer>, order: seq<TimerId>) {
    Known(ts, order) && forall i, j :: 0 <= i < j < |order| ==> Less(ts, order[i], order[j])
  }

  /** lower_bound from index i on: the first place that is not before timer id. */
  function Position(ts: map<TimerId, Timer>, order: seq<TimerId>, id: TimerId, i: nat): (k: nat)
    requires Known(ts, order) && id in ts && i <= |order|
    ensures i <= k <= |order|
    ensures forall j :: i <= j < k ==> Less(ts, order[j], id)
    ensures k < |order| ==> !Less(ts, order[k], id)
    decreases |order| - i
  {
    if i == |order| || !Less(ts, order[i], id) then i else Position(ts, order, id, i + 1)
  }

  function Insert(ts: map<TimerId, Timer>, order: seq<TimerId>, id: TimerId): seq<TimerId>
    requires Known(ts, order) && id in ts
  {
    var k := Position(ts, order, id, 0);
    order[..k] + [id] + order[k..]
  }

  /** find: by the order alone, as std::set does. */
  function Find(ts: map<TimerId, Timer>, order: seq<TimerId>, id: TimerId): (r: Option<nat>)
    requires Known(ts, order) && id in ts
    ensures r.Some? ==> r.value < |order| && order[r.value] == id
  {
    var k := Position(ts, order, id, 0);
    if k < |order| && !Less(ts, id, order[k]) then Some(k) else None
  }

  function Erase(order: seq<TimerId>, k: nat): (r: seq<TimerId>)
    requires k < |order|
    ensures |r| == |order| - 1
  {
    order[..k] + order[k + 1..]
  }

  lemma InsertSorted(ts: map<TimerId, Timer>, order: seq<TimerId>, id: TimerId)
    requires Sorted(ts, order) && id in ts && id !in order
    ensures Sorted(ts, Insert(ts, order, id))
    ensures forall x :: x in Insert(ts, order, id) <==> x == id || x in order
    ensures Insert(ts, order, id)[0] == id || (order != [] && Insert(ts, order, id)[0] == order[0])
  {
    var k := Position(ts, order, id, 0);
    assert k < |order| ==> Less(ts, id, order[k]);
  }

  /** In a sorted set, find finds exactly the members, at their own place. */
  lemma FindExact(ts: map<TimerId, Timer>, order: seq<TimerId>, id: TimerId)
    requires Sorted(ts, order) && id in ts
    ensures Find(ts, order, id).Some? <==> id in order
  {
    var k := Position(ts, order, id, 0);
    if id in order {
      var i :| 0 <= i < |order| && order[i] == id;
      if k < i { assert false; }
    }
  }

  lemma EraseSorted(ts: map<TimerId, Timer>, order: seq<TimerId>, k: nat)
    requires Sorted(ts, order) && k < |order|
    ensures Sorted(ts, Erase(order, k))
    ensures forall x :: x in Erase(order, k) <==> x in order && x != order[k]
  {
    var r := Erase(order, k);
    forall x ensures x in r <==> x in order && x != order[k] {
      if x in order && x != order[k] {
        var i :| 0 <= i < |order| && order[i] == x;
        assert r[if i < k then i else i - 1] == x;
      }
    }
  }

  // ---------------------------------------------------------------- the state

  /** A timer has a callback exactly when it is in the set. */
  ghost predicate CallbackIffListed(s: State) {
    forall id :: id in s.timers ==> (s.timers[id].cb.Some? <==> id in s.order)
  }

  ghost predicate Inv(s: State) {
    && Sorted(s.timers, s.order) && CallbackIffListed(s) && s.previous < TWO_64
    && forall id :: id in s.timers ==> s.timers[id].ms < TWO_64 && s.timers[id].next < TWO_64
  }

  /** The earliest deadline; None when there is no timer. */
  function Front(s: State): (r: Option<nat>)
    requires Known(s.timers, s.order)
  {
    if s.order == [] then None else Some(s.timers[s.order[0]].next)
  }

  // ---------------------------------------------------------------- operations

  /** TimerManager::addTimer(Timer::ptr, lock): a timer at the front asks for a wake-up, once per report. */
  function AddToSet(s: State, id: TimerId): State
    requires Known(s.timers, s.order) && id in s.timers
  {
    var order := Insert(s.timers, s.order, id);
    if order[0] == id && !s.tickled then s.(order := order, tickled := true, hooks := s.hooks + 1)
    else s.(order := order)
  }

  function AddTimer(s: State, id: TimerId, ms: nat, cb: Callback, recurring: bool, sample: nat): State
    requires Known(s.timers, s.order)
  {
    AddToSet(s.(timers := s.timers[id := Timer(recurring, ms, Add64(sample, ms), Some(cb))]), id)
  }

  /** The state without timer id in the set; the callback finds out whether it is there. */
  function Taken(s: State, id: TimerId): (s': State)
    requires Inv(s) && id in s.timers && s.timers[id].cb.Some?
    ensures Sorted(s'.timers, s'.order) && s' == s.(order := s'.order)
    ensures forall x :: x in s'.order <==> x in s.order && x != id
  {
    FindExact(s.timers, s.order, id);
    var k := Find(s.timers, s.order, id).value;
    EraseSorted(s.timers, s.order, k);
    s.(order := Erase(s.order, k))
  }

  /** Timer::cancel. */
  function Cancel(s: State, id: TimerId): (State, bool)
    requires Inv(s) && id in s.timers
  {
    if s.timers[id].cb.None? then (s, false)
    else
      (Taken(s, id).(timers := s.timers[id := s.timers[id].(cb := None)]), true)
  }

  /** Timer::refresh. */
  function Refresh(s: State, id: TimerId, now: nat): (State, bool)
    requires Inv(s) && id in s.timers
  {
    if s.timers[id].cb.None? then (s, false)
    else
      var s1 := Taken(s, id).(timers := s.timers[id := s.timers[id].(next := Add64(now, s.timers[id].ms))]);
      (s1.(order := Insert(s1.timers, s1.order, id)), true)
  }

  /** The timer with a new period, counted from now or from when it was last started. */
  function Restarted(t: Timer, ms: nat, fromNow: bool, now: nat): Timer {
    t.(ms := ms, next := Add64(if fromNow then now else Sub64(t.next, t.ms), ms))
  }

  /** Timer::reset. */
  function Reset(s: State, id: TimerId, ms: nat, fromNow: bool, now: nat): (State, bool)
    requires Inv(s) && id in s.timers
  {
    var t := s.timers[id];
    if ms == t.ms && !fromNow then (s, true)
    else if t.cb.None? then (s, false)
    else
      var s1 := Taken(s, id).(timers := s.timers[id := Restarted(t, ms, fromNow, now)]);
      (AddToSet(s1, id), true)
  }

  /** TimerManager::getNextTimer: the flag is cleared; a new report period begins. */
  function Reported(s: State): State {
    s.(tickled := false, hooks := 0)
  }

  /** Its result: how long until the earliest deadline. */
  function NextDelay(s: State, now: nat): nat
    requires Known(s.timers, s.order)
  {
    match Front(s)
    case None => TWO_64 - 1
    case Some(next) => if now >= next then 0 else next - now
  }

  /** The wait ends exactly at some deadline and passes none; it is zero exactly when one has passed. */
  lemma NextDelayExact(s: State, now: nat)
    requires Inv(s)
    ensures var delay := NextDelay(s, now);
            if s.order == [] then delay == TWO_64 - 1
            else if exists id :: id in s.order && s.timers[id].next <= now then delay == 0
            else (exists id :: id in s.order && s.timers[id].next == now + delay)
                 && forall id :: id in s.order ==> s.timers[id].next >= now + delay
  {
    FrontIsEarliest(s);
    if s.order != [] { assert s.order[0] in s.order; }
  }

  /** detectClockRollover's test. */
  predicate Rollover(now: nat, previous: nat) {
    now < previous && now < Sub64(previous, HOUR)
  }

  /** It means that the clock went back by more than an hour -- or at all, in the first hour of the epoch. */
  lemma RolloverMeans(now: nat, previous: nat)
    requires now < TWO_64 && previous < TWO_64
    ensures Rollover(now, previous) <==> now < previous && (previous < HOUR || previous - now > HOUR)
  {
    if previous >= HOUR { ModSmall(previous - HOUR, TWO_64); }
  }

  /** From index i on, the first timer whose deadline is not `now`: the loop behind lower_bound. */
  function SkipEqual(ts: map<TimerId, Timer>, order: seq<TimerId>, now: nat, i: nat): (k: nat)
    requires Known(ts, order) && i <= |order|
    ensures i <= k <= |order| && (k < |order| ==> ts[order[k]].next != now)
    ensures forall j :: i <= j < k ==> ts[order[j]].next == now
    decreases |order| - i
  {
    if i == |order| || ts[order[i]].next != now then i else SkipEqual(ts, order, now, i + 1)
  }

  /** How many timers expire; `probe` is the address of the timer made for the search. */
  function Cut(s: State, now: nat, probe: TimerId, rollover: bool): (k: nat)
    requires Sorted(s.timers, s.order) && probe !in s.timers
    ensures k <= |s.order|
  {
    if rollover then |s.order|
    else
      var ts := s.timers[probe := Timer(false, 0, now, None)];
      assert Known(ts, s.order);
      SkipEqual(ts, s.order, now, Position(ts, s.order, probe, 0))
  }

  /** The expired timers are exactly those with a deadline up to now. */
  lemma CutExact(s: State, now: nat, probe: TimerId)
    requires Sorted(s.timers, s.order) && probe !in s.timers
    ensures forall i :: 0 <= i < |s.order| ==> (i < Cut(s, now, probe, false) <==> s.timers[s.order[i]].next <= now)
  {
    var ts := s.timers[probe := Timer(false, 0, now, None)];
    var p := Position(ts, s.order, probe, 0);
    var k := Cut(s, now, probe, false);
    forall i | k <= i < |s.order| ensures s.timers[s.order[i]].next > now {
      assert p < |s.order| ==> !Less(ts, s.order[p], probe);
      assert k < i ==> Less(s.timers, s.order[k], s.order[i]);
      assert p < k ==> Less(s.timers, s.order[p], s.order[k]);
    }
  }

  /** What becomes of the expired timers: recurring ones go back into the set, the others lose their callback. */
  function Requeue(ts: map<TimerId, Timer>, order: seq<TimerId>, expired: seq<TimerId>, now: nat): (r: (map<TimerId, Timer>, seq<TimerId>))
    requires Known(ts, order) && Known(ts, expired)
    ensures Known(r.0, r.1) && r.0.Keys == ts.Keys
    decreases |expired|
  {
    if expired == [] then (ts, order)
    else
      var (ts1, order1) := RequeueOne(ts, order, expired[0], now);
      Requeue(ts1, order1, expired[1..], now)
  }

  function RequeueOne(ts: map<TimerId, Timer>, order: seq<TimerId>, id: TimerId, now: nat): (r: (map<TimerId, Timer>, seq<TimerId>))
    requires Known(ts, order) && id in ts
    ensures Known(r.0, r.1) && r.0.Keys == ts.Keys
  {
    if ts[id].recurring then
      var ts1 := ts[id := ts[id].(next := Add64(now, ts[id].ms))];
      (ts1, Insert(ts1, order, id))
    else (ts[id := ts[id].(cb := None)], order)
  }

  /** The timer as expiry leaves it. */
  function Expired(t: Timer, now: nat): Timer {
    if t.recurring then t.(next := Add64(now, t.ms)) else t.(cb := None)
  }

  ghost predicate Distinct(x: seq<TimerId>) {
    forall i, j :: 0 <= i < j < |x| ==> x[i] != x[j]
  }

  lemma {:induction false} RequeueExact(ts: map<TimerId, Timer>, order: seq<TimerId>, expired: seq<TimerId>, now: nat)
    requires Sorted(ts, order) && Known(ts, expired) && Distinct(expired)
    requires forall x :: x in expired ==> x !in order
    ensures var (ts', order') := Requeue(ts, order, expired, now);
            && Sorted(ts', order')
            && (forall x :: x in order' <==> x in order || (x in expired && ts[x].recurring))
            && (forall x :: x in ts ==> ts'[x] == if x in expired then Expired(ts[x], now) else ts[x])
    decreases |expired|
  {
    if expired != [] {
      var id := expired[0];
      var (ts1, order1) := RequeueOne(ts, order, id, now);
      RequeueOneExact(ts, order, id, now);
      assert forall x :: x in expired <==> x == id || x in expired[1..];
      RequeueExact(ts1, order1, expired[1..], now);
    }
  }

  lemma RequeueOneExact(ts: map<TimerId, Timer>, order: seq<TimerId>, id: TimerId, now: nat)
    requires Sorted(ts, order) && id in ts && id !in order
    ensures var (ts', order') := RequeueOne(ts, order, id, now);
            && Sorted(ts', order') && ts' == ts[id := Expired(ts[id], now)]
            && (forall x :: x in order' <==> x in order || (x == id && ts[id].recurring))
  {
    if ts[id].recurring {
      InsertSorted(ts[id := Expired(ts[id], now)], order, id);
    }
  }

  /** listExpiredCb: the new state and the timers whose callbacks are listed. */
  function ListExpired(s: State, now: nat, probe: TimerId): (State, seq<TimerId>)
    requires Inv(s) && probe !in s.timers && now < TWO_64
  {
    if s.order == [] then (s, [])
    else
      var rollover := Rollover(now, s.previous);
      var s1 := s.(previous := now);
      if !rollover && s.timers[s.order[0]].next > now then (s1, [])
      else
        var k := Cut(s, now, probe, rollover);
        (ExpireFirst(s, now, k), s.order[..k])
  }

  /** The state after the first k timers of the set have expired. */
  function ExpireFirst(s: State, now: nat, k: nat): (s': State)
    requires Inv(s) && k <= |s.order| && now < TWO_64
    ensures Inv(s') && s'.timers.Keys == s.timers.Keys
    ensures forall x :: x in s'.order <==> x in s.order && (x in s.order[..k] ==> s.timers[x].recurring)
    ensures forall x :: x in s.timers ==> s'.timers[x] == if x in s.order[..k] then Expired(s.timers[x], now) else s.timers[x]
    ensures s' == s.(timers := s'.timers, order := s'.order, previous := now)
  {
    assert forall x :: x in s.order <==> x in s.order[..k] || x in s.order[k..];
    RequeueExact(s.timers, s.order[k..], s.order[..k], now);
    var (ts, order) := Requeue(s.timers, s.order[k..], s.order[..k], now);
    s.(timers := ts, order := order, previous := now)
  }

  /**
    What expiry does: it lists exactly the timers whose deadline has passed (all on rollover) in
    deadline order, keeps the recurring ones for another period, and leaves the others without
    callback; nothing else changes.
   */
  lemma ExpiryExact(s: State, now: nat, probe: TimerId)
    requires Inv(s) && probe !in s.timers && now < TWO_64
    ensures var (s', listed) := ListExpired(s, now, probe);
            && Inv(s') && s'.timers.Keys == s.timers.Keys && Sorted(s.timers, listed)
            && (forall x :: x in listed <==> x in s.order && (Rollover(now, s.previous) || s.timers[x].next <= now))
            && (forall x :: x in s'.order <==> x in s.order && (x in listed ==> s.timers[x].recurring))
            && (forall x :: x in s.timers ==> s'.timers[x] == if x in listed then Expired(s.timers[x], now) else s.timers[x])
            && s'.tickled == s.tickled && s'.hooks == s.hooks
            && s'.previous == (if s.order == [] then s.previous else now)
  {
    if s.order != [] {
      var rollover := Rollover(now, s.previous);
      if rollover || s.timers[s.order[0]].next <= now {
        var k := Cut(s, now, probe, rollover);
        CutExact(s, now, probe);
      } else {
        assert forall i :: 0 < i < |s.order| ==> Less(s.timers, s.order[0], s.order[i]);
      }
    }
  }

  /**
    The same in plain terms: the list is ordered by deadline and then by address, an expired recurring timer
    is due its period after now, modulo 2^64, and keeps the rest, and another one loses its callback only.
   */
  lemma ExpiryMeans(s: State, now: nat, probe: TimerId)
    requires Inv(s) && probe !in s.timers && now < TWO_64
    ensures var (s', listed) := ListExpired(s, now, probe);
            && (forall i, j :: 0 <= i < j < |listed| ==>
                  var a, b := listed[i], listed[j];
                  a in s.timers && b in s.timers && (s.timers[a].next < s.timers[b].next || (s.timers[a].next == s.timers[b].next && a < b)))
            && (forall x :: x in listed ==>
                  && x in s.timers && x in s'.timers
                  && var t, t' := s.timers[x], s'.timers[x];
                     && t'.recurring == t.recurring && t'.ms == t.ms
                     && (if t.recurring then t'.cb == t.cb && t'.next == (now + t.ms) % TWO_64 else t'.cb == None && t'.next == t.next))
  {
    ExpiryExact(s, now, probe);
  }

  // ---------------------------------------------------------------- runs

  /**
    `sample` is the clock value an operation read before it took the lock.  Refresh, Reset and Report
    (getNextTimer) read the clock while they hold the lock.
   */
  datatype Op =
    | Add(id: TimerId, ms: nat, cb: Callback, recurring: bool, sample: nat)
    | CancelTimer(id: TimerId)
    | RefreshTimer(id: TimerId)
    | ResetTimer(id: TimerId, ms: nat, fromNow: bool)
    | Report
    | Expire(sample: nat, probe: TimerId)

  /** An operation that holds the lock at clock value `at`. */
  datatype Event = Event(at: nat, op: Op)

  predicate Enabled(s: State, e: Event) {
    && e.at < TWO_64
    && match e.op
       case Add(id, ms, _, _, sample) => id !in s.timers && ms < TWO_64 && sample < TWO_64
       case CancelTimer(id) => id in s.timers
       case RefreshTimer(id) => id in s.timers
       case ResetTimer(id, ms, _) => id in s.timers && ms < TWO_64
       case Report => true
       case Expire(sample, probe) => sample < TWO_64 && probe !in s.timers
  }

  /** Every operation keeps the set sorted, and a callback in exactly the timers in the set. */
  function Apply(s: State, e: Event): (s': State)
    requires Inv(s) && Enabled(s, e)
    ensures Inv(s')
  {
    match e.op
    case Add(id, ms, cb, recurring, sample) =>
      AddKeeps(s, id, Timer(recurring, ms, Add64(sample, ms), Some(cb)));
      AddTimer(s, id, ms, cb, recurring, sample)
    case CancelTimer(id) => CancelKeeps(s, id); Cancel(s, id).0
    case RefreshTimer(id) => RefreshKeeps(s, id, e.at); Refresh(s, id, e.at).0
    case ResetTimer(id, ms, fromNow) => ResetKeeps(s, id, ms, fromNow, e.at); Reset(s, id, ms, fromNow, e.at).0
    case Report => Reported(s)
    case Expire(sample, probe) => ExpiryExact(s, sample, probe); ListExpired(s, sample, probe).0
  }

  /** A timer that is not in the set goes into it, with new fields. */
  lemma AddKeeps(s: State, id: TimerId, t: Timer)
    requires Sorted(s.timers, s.order) && id !in s.order && t.cb.Some? && t.ms < TWO_64 && t.next < TWO_64
    requires s.previous < TWO_64
    requires forall x :: x in s.timers && x != id ==>
               (s.timers[x].cb.Some? <==> x in s.order) && s.timers[x].ms < TWO_64 && s.timers[x].next < TWO_64
    ensures var s1 := s.(timers := s.timers[id := t]);
            && Known(s1.timers, s1.order) && Inv(s1.(order := Insert(s1.timers, s1.order, id))) && Inv(AddToSet(s1, id))
  {
    assert Sorted(s.timers[id := t], s.order);
    InsertSorted(s.timers[id := t], s.order, id);
  }

  lemma CancelKeeps(s: State, id: TimerId)
    requires Inv(s) && id in s.timers
    ensures Inv(Cancel(s, id).0)
  {
    if s.timers[id].cb.Some? {
      assert Sorted(s.timers[id := s.timers[id].(cb := None)], Taken(s, id).order);
    }
  }

  lemma RefreshKeeps(s: State, id: TimerId, now: nat)
    requires Inv(s) && id in s.timers
    ensures Inv(Refresh(s, id, now).0)
  {
    var t := s.timers[id];
    if t.cb.Some? { AddKeeps(Taken(s, id), id, t.(next := Add64(now, t.ms))); }
  }

  lemma ResetKeeps(s: State, id: TimerId, ms: nat, fromNow: bool, now: nat)
    requires Inv(s) && id in s.timers && ms < TWO_64
    ensures Inv(Reset(s, id, ms, fromNow, now).0)
  {
    var t := s.timers[id];
    if t.cb.Some? {
      AddKeeps(Taken(s, id), id, Restarted(t, ms, fromNow, now));
    }
  }

  /** Of all timers only id may differ between s and s', and it keeps its kind. */
  ghost predicate OnlyTimer(s: State, s': State, id: TimerId) {
    && s'.timers.Keys == s.timers.Keys + {id} && s'.previous == s.previous
    && (forall x :: x in s.timers && x != id ==> s'.timers[x] == s.timers[x])
    && (forall x :: x != id ==> (x in s'.order <==> x in s.order))
    && (id in s.timers ==> s'.timers[id].recurring == s.timers[id].recurring)
  }

  /** addTimer: a new timer in the set, due its period after the sample. */
  lemma AddExact(s: State, id: TimerId, ms: nat, cb: Callback, recurring: bool, sample: nat, at: nat)
    requires Inv(s) && Enabled(s, Event(at, Add(id, ms, cb, recurring, sample))) && sample + ms < TWO_64
    ensures var s' := Apply(s, Event(at, Add(id, ms, cb, recurring, sample)));
            OnlyTimer(s, s', id) && id in s'.order && s'.timers[id] == Timer(recurring, ms, sample + ms, Some(cb))
  {
    ModSmall(sample + ms, TWO_64);
    assert Add64(sample, ms) == sample + ms;
    AddedIs(s, id, Timer(recurring, ms, Add64(sample, ms), Some(cb)));
    AddIs(s, id, ms, cb, recurring, sample, at);
  }

  lemma AddIs(s: State, id: TimerId, ms: nat, cb: Callback, recurring: bool, sample: nat, at: nat)
    requires Inv(s) && Enabled(s, Event(at, Add(id, ms, cb, recurring, sample)))
    ensures Apply(s, Event(at, Add(id, ms, cb, recurring, sample))) ==
            AddToSet(s.(timers := s.timers[id := Timer(recurring, ms, Add64(sample, ms), Some(cb))]), id)
  {
  }

  lemma AddedIs(s: State, id: TimerId, t: Timer)
    requires Inv(s) && id !in s.timers && id !in s.order
    ensures var s' := AddToSet(s.(timers := s.timers[id := t]), id);
            OnlyTimer(s, s', id) && id in s'.order && s'.timers[id] == t
  {
    var ts := s.timers[id := t];
    assert Sorted(ts, s.order);
    InsertSorted(ts, s.order, id);
  }

  /** cancel: the timer is out of the set and has no callback. */
  lemma CancelExact(s: State, id: TimerId, at: nat)
    requires Inv(s) && Enabled(s, Event(at, CancelTimer(id)))
    ensures var s' := Apply(s, Event(at, CancelTimer(id)));
            OnlyTimer(s, s', id) && id !in s'.order && s'.timers[id] == s.timers[id].(cb := None)
  {
  }

  /** refresh: a timer in the set gets its full period again; a dead one stays dead. */
  lemma RefreshExact(s: State, id: TimerId, now: nat)
    requires Inv(s) && Enabled(s, Event(now, RefreshTimer(id))) && now + s.timers[id].ms < TWO_64
    ensures var s', t := Apply(s, Event(now, RefreshTimer(id))), s.timers[id];
            && OnlyTimer(s, s', id) && (id in s'.order <==> id in s.order)
            && s'.timers[id] == if id in s.order then t.(next := now + t.ms) else t
  {
    if s.timers[id].cb.Some? {
      RefreshIs(s, id, now);
      RefreshedInRange(s.timers[id], now);
      assert Apply(s, Event(now, RefreshTimer(id))) == Refresh(s, id, now).0;
    }
  }

  lemma RefreshedInRange(t: Timer, now: nat)
    requires now + t.ms < TWO_64
    ensures Refreshed(t, now) == t.(next := now + t.ms)
  {
    ModSmall(now + t.ms, TWO_64);
  }

  /** The timer as refresh leaves it. */
  function Refreshed(t: Timer, now: nat): Timer {
    t.(next := Add64(now, t.ms))
  }

  lemma RefreshIs(s: State, id: TimerId, now: nat)
    requires Inv(s) && id in s.timers && s.timers[id].cb.Some?
    ensures var s' := Refresh(s, id, now).0;
            && OnlyTimer(s, s', id) && id in s'.order && Sorted(s'.timers, s'.order)
            && s'.timers == s.timers[id := Refreshed(s.timers[id], now)] && s'.tickled == s.tickled && s'.hooks == s.hooks
  {
    Reinserted(s, id, Refreshed(s.timers[id], now));
  }

  /** reset: a timer in the set gets a new period, from now on or from when it was last started. */
  lemma ResetExact(s: State, id: TimerId, ms: nat, fromNow: bool, clock: nat, now: nat)
    requires Inv(s) && Enabled(s, Event(now, ResetTimer(id, ms, fromNow)))
    requires StartedBy(s, clock) && clock <= now && now + ms < TWO_64
    ensures var s', t := Apply(s, Event(now, ResetTimer(id, ms, fromNow))), s.timers[id];
            && OnlyTimer(s, s', id) && (id in s'.order <==> id in s.order)
            && s'.timers[id] ==
               if id in s.order then t.(ms := ms, next := (if fromNow then now else t.next - t.ms) + ms) else t
  {
    var t := s.timers[id];
    if t.cb.Some? {
      RestartedIs(t, ms, fromNow, clock, now);
      if ms != t.ms || fromNow { Reinserted(s, id, Restarted(t, ms, fromNow, now)); }
    }
  }

  lemma RestartedIs(t: Timer, ms: nat, fromNow: bool, clock: nat, now: nat)
    requires t.ms <= t.next <= clock + t.ms && t.next < TWO_64 && clock <= now && now + ms < TWO_64
    ensures Restarted(t, ms, fromNow, now) == t.(ms := ms, next := (if fromNow then now else t.next - t.ms) + ms)
  {
    ModSmall(t.next - t.ms, TWO_64);
    ModSmall((if fromNow then now else t.next - t.ms) + ms, TWO_64);
  }

  /** A timer of the set goes out of it and into it again, with new fields. */
  lemma Reinserted(s: State, id: TimerId, t: Timer)
    requires Inv(s) && id in s.timers && s.timers[id].cb.Some? && t.recurring == s.timers[id].recurring
    ensures var s1 := Taken(s, id).(timers := s.timers[id := t]);
            && Known(s1.timers, s1.order) && OnlyTimer(s, AddToSet(s1, id), id) && id in AddToSet(s1, id).order
            && AddToSet(s1, id).timers == s1.timers && AddToSet(s1, id).order == Insert(s1.timers, s1.order, id)
            && Sorted(s1.timers, Insert(s1.timers, s1.order, id))
  {
    var ts := s.timers[id := t];
    assert Sorted(ts, Taken(s, id).order);
    InsertSorted(ts, Taken(s, id).order, id);
  }

  ghost predicate IsRun(s: State, run: seq<Event>)
    requires Inv(s)
    decreases |run|
  {
    run == [] || (Enabled(s, run[0]) && IsRun(Apply(s, run[0]), run[1..]))
  }

  // ---------------------------------------------------------------- no timer fires when it should not

  /** The timers an operation lists as expired. */
  function ListedBy(s: State, e: Event): seq<TimerId>
    requires Inv(s) && Enabled(s, e)
  {
    if e.op.Expire? then ListExpired(s, e.op.sample, e.op.probe).1 else []
  }

  /** How often a timer is listed in a run. */
  ghost function Listings(s: State, run: seq<Event>, id: TimerId): nat
    requires Inv(s) && IsRun(s, run)
    decreases |run|
  {
    if run == [] then 0
    else (if id in ListedBy(s, run[0]) then 1 else 0) + Listings(Apply(s, run[0]), run[1..], id)
  }

  /** Cancelled, or expired without being recurring. */
  ghost predicate Dead(s: State, id: TimerId) {
    id in s.timers && s.timers[id].cb.None?
  }

  lemma DeadStep(s: State, e: Event, id: TimerId)
    requires Inv(s) && Enabled(s, e) && Dead(s, id)
    ensures Dead(Apply(s, e), id) && id !in ListedBy(s, e)
  {
    if e.op.Expire? { ExpiryExact(s, e.op.sample, e.op.probe); }
  }

  /** A dead timer is never listed again, whatever is done to it. */
  lemma {:induction false} DeadForever(s: State, run: seq<Event>, id: TimerId)
    requires Inv(s) && IsRun(s, run) && Dead(s, id)
    ensures Listings(s, run, id) == 0
    decreases |run|
  {
    if run != [] {
      DeadStep(s, run[0], id);
      DeadForever(Apply(s, run[0]), run[1..], id);
    }
  }

  /** A cancelled timer is never listed afterwards. */
  lemma CancelledNeverListed(s: State, run: seq<Event>, id: TimerId)
    requires Inv(s) && id in s.timers && IsRun(s, run) && run != [] && run[0].op == CancelTimer(id)
    ensures Listings(s, run, id) == 0
  {
    DeadForever(Apply(s, run[0]), run[1..], id);
  }

  lemma OneShotStep(s: State, e: Event, id: TimerId)
    requires Inv(s) && Enabled(s, e) && id in s.timers && !s.timers[id].recurring
    ensures id in Apply(s, e).timers && !Apply(s, e).timers[id].recurring
    ensures id in ListedBy(s, e) ==> Dead(Apply(s, e), id)
  {
    if e.op.Expire? { ExpiryExact(s, e.op.sample, e.op.probe); }
  }

  /** A one-shot timer is listed at most once, in every run. */
  lemma {:induction false} OneShotListedOnce(s: State, run: seq<Event>, id: TimerId)
    requires Inv(s) && IsRun(s, run) && id in s.timers && !s.timers[id].recurring
    ensures Listings(s, run, id) <= 1
    decreases |run|
  {
    if run != [] {
      OneShotStep(s, run[0], id);
      if id in ListedBy(s, run[0]) {
        DeadForever(Apply(s, run[0]), run[1..], id);
      } else {
        OneShotListedOnce(Apply(s, run[0]), run[1..], id);
      }
    }
  }

  // ---------------------------------------------------------------- no lost wake-up

  /** a < b, where None is later than every deadline. */
  predicate Earlier(a: Option<nat>, b: Option<nat>) {
    a.Some? && (b.None? || a.value < b.value)
  }

  /**
    `reported`: the earliest deadline at the last getNextTimer.  Whoever sleeps until then is told when
    an earlier one appears; and it is told once: `hooks` is the number of calls since that report.
   */
  ghost predicate Alert(s: State, reported: Option<nat>) {
    && Known(s.timers, s.order)
    && (Earlier(Front(s), reported) ==> s.tickled)
    && s.hooks == if s.tickled then 1 else 0
  }

  /** Every timer in the set was last started at some time, and no later than `clock`. */
  ghost predicate StartedBy(s: State, clock: nat) {
    forall id :: id in s.order && id in s.timers ==> s.timers[id].ms <= s.timers[id].next <= clock + s.timers[id].ms
  }

  /**
    The clock does not go back, no deadline leaves the 64-bit range, and no sample is so old that it
    counts as a rollover.
   */
  predicate Orderly(s: State, clock: nat, e: Event)
    requires Enabled(s, e)
  {
    && clock <= e.at
    && match e.op
       case Add(_, ms, _, _, sample) => sample <= e.at && sample + ms < TWO_64
       case CancelTimer(_) => true
       case RefreshTimer(id) => e.at + s.timers[id].ms < TWO_64
       case ResetTimer(_, ms, _) => e.at + ms < TWO_64
       case Report => true
       case Expire(sample, _) =>
         && sample <= e.at && !Rollover(sample, s.previous)
         && forall id <- s.order :: id in s.timers ==> sample + s.timers[id].ms < TWO_64
  }

  ghost predicate OrderlyRun(s: State, clock: nat, run: seq<Event>)
    requires Inv(s)
    decreases |run|
  {
    run == [] ||
    (Enabled(s, run[0]) && Orderly(s, clock, run[0]) && OrderlyRun(Apply(s, run[0]), run[0].at, run[1..]))
  }

  /** What was last reported after the event. */
  function ReportedAfter(s: State, e: Event, reported: Option<nat>): Option<nat>
    requires Inv(s)
  {
    if e.op.Report? then Front(s) else reported
  }

  ghost function After(s: State, run: seq<Event>): (s': State)
    requires Inv(s) && IsRun(s, run)
    ensures Inv(s')
    decreases |run|
  {
    if run == [] then s else After(Apply(s, run[0]), run[1..])
  }

  ghost function LastReport(s: State, run: seq<Event>, reported: Option<nat>): Option<nat>
    requires Inv(s) && IsRun(s, run)
    decreases |run|
  {
    if run == [] then reported
    else LastReport(Apply(s, run[0]), run[1..], ReportedAfter(s, run[0], reported))
  }

  /** No timer of s' has a deadline before the earliest one of s. */
  ghost predicate NoneEarlier(s: State, s': State) {
    && Sorted(s.timers, s.order) && Sorted(s'.timers, s'.order)
    && forall x :: x in s'.order ==> !Earlier(Some(s'.timers[x].next), Front(s))
  }

  lemma FrontIsEarliest(s: State)
    requires Sorted(s.timers, s.order)
    ensures NoneEarlier(s, s)
  {
    assert forall i :: 0 < i < |s.order| ==> Less(s.timers, s.order[0], s.order[i]);
  }

  lemma AlertLater(s: State, s': State, reported: Option<nat>)
    requires Alert(s, reported) && NoneEarlier(s, s') && s'.tickled == s.tickled && s'.hooks == s.hooks
    ensures Alert(s', reported)
  {
    assert s'.order != [] ==> s'.order[0] in s'.order;
  }

  /** The timer is due before all others of the set, the smaller address deciding between equal deadlines. */
  ghost predicate AtFront(s: State, id: TimerId) {
    && id in s.order && id in s.timers
    && forall x :: x in s.order && x != id ==>
         x in s.timers && (s.timers[id].next < s.timers[x].next || (s.timers[id].next == s.timers[x].next && id < x))
  }

  /** The operation puts a timer into the set for which it may ask for a wake-up. */
  predicate Inserts(s: State, e: Event)
    requires Enabled(s, e)
  {
    match e.op
    case Add(_, _, _, _, _) => true
    case ResetTimer(id, ms, fromNow) => s.timers[id].cb.Some? && (ms != s.timers[id].ms || fromNow)
    case _ => false
  }

  /**
    onTimerInsertedAtFront is called exactly when addTimer or reset puts a timer at the front and nobody has
    asked since the last report; a report clears the flag; nothing else touches it.
   */
  lemma HookExact(s: State, e: Event)
    requires Inv(s) && Enabled(s, e)
    ensures var s' := Apply(s, e);
            if e.op.Report? then !s'.tickled && s'.hooks == 0
            else
              var asks := Inserts(s, e) && !s.tickled && AtFront(s', e.op.id);
              s'.tickled == (s.tickled || asks) && s'.hooks == s.hooks + if asks then 1 else 0
  {
    match e.op
    case Add(id, ms, cb, recurring, sample) =>
      var ts := s.timers[id := Timer(recurring, ms, Add64(sample, ms), Some(cb))];
      assert Sorted(ts, s.order);
      HookAdd(s.(timers := ts), id);
    case ResetTimer(id, ms, fromNow) =>
      if Inserts(s, e) {
        var s1 := Taken(s, id).(timers := s.timers[id := Restarted(s.timers[id], ms, fromNow, e.at)]);
        assert Sorted(s1.timers, s1.order);
        HookAdd(s1, id);
      }
    case Expire(sample, probe) => ExpiryExact(s, sample, probe);
    case _ =>
  }

  lemma HookAdd(s: State, id: TimerId)
    requires Sorted(s.timers, s.order) && id in s.timers && id !in s.order
    ensures var s', asks := AddToSet(s, id), !s.tickled && AtFront(AddToSet(s, id), id);
            s'.tickled == (s.tickled || asks) && s'.hooks == s.hooks + if asks then 1 else 0
  {
    InsertSorted(s.timers, s.order, id);
    var order := Insert(s.timers, s.order, id);
    assert order[0] in order;
    assert forall i :: 0 < i < |order| ==> Less(s.timers, order[0], order[i]);
  }

  /** Cancel, refresh and reset answer whether the timer is in the set, but for a reset that changes nothing. */
  lemma AnswersExact(s: State, id: TimerId, ms: nat, fromNow: bool, now: nat)
    requires Inv(s) && id in s.timers
    ensures Cancel(s, id).1 <==> id in s.order
    ensures Refresh(s, id, now).1 <==> id in s.order
    ensures Reset(s, id, ms, fromNow, now).1 <==> id in s.order || (ms == s.timers[id].ms && !fromNow)
  {
  }

  lemma AlertAdd(s: State, id: TimerId, reported: Option<nat>)
    requires Sorted(s.timers, s.order) && id in s.timers && id !in s.order && Alert(s, reported)
    ensures Alert(AddToSet(s, id), reported)
  {
    InsertSorted(s.timers, s.order, id);
  }

  lemma AddOrderly(s: State, clock: nat, reported: Option<nat>, e: Event)
    requires Inv(s) && StartedBy(s, clock) && Alert(s, reported) && e.op.Add? && Enabled(s, e) && Orderly(s, clock, e)
    ensures StartedBy(Apply(s, e), e.at) && Alert(Apply(s, e), reported)
  {
    var t := Timer(e.op.recurring, e.op.ms, Add64(e.op.sample, e.op.ms), Some(e.op.cb));
    ModSmall(e.op.sample + e.op.ms, TWO_64);
    PutBack(s, e.op.id, t, clock, e.at, reported);
  }

  lemma TakenOrderly(s: State, clock: nat, reported: Option<nat>, id: TimerId)
    requires Inv(s) && StartedBy(s, clock) && Alert(s, reported) && id in s.timers && s.timers[id].cb.Some?
    ensures StartedBy(Taken(s, id), clock) && Alert(Taken(s, id), reported)
  {
    FrontIsEarliest(s);
    AlertLater(s, Taken(s, id), reported);
  }

  /** A timer that is not in the set goes into it, last started by `at`. */
  lemma PutBack(s: State, id: TimerId, t: Timer, clock: nat, at: nat, reported: Option<nat>)
    requires Sorted(s.timers, s.order) && id !in s.order && StartedBy(s, clock) && clock <= at && Alert(s, reported)
    requires t.ms <= t.next <= at + t.ms
    ensures var s1 := s.(timers := s.timers[id := t]);
            && Known(s1.timers, s1.order) && Alert(AddToSet(s1, id), reported)
            && StartedBy(AddToSet(s1, id), at) && StartedBy(s1.(order := Insert(s1.timers, s1.order, id)), at)
  {
    var s1 := s.(timers := s.timers[id := t]);
    assert Sorted(s1.timers, s1.order);
    AlertAdd(s1, id, reported);
    InsertSorted(s1.timers, s1.order, id);
  }

  /** refresh moves a deadline back only, so it need not ask for a wake-up. */
  lemma RefreshOrderly(s: State, clock: nat, reported: Option<nat>, e: Event)
    requires Inv(s) && StartedBy(s, clock) && Alert(s, reported) && e.op.RefreshTimer? && Enabled(s, e) && Orderly(s, clock, e)
    ensures StartedBy(Apply(s, e), e.at) && Alert(Apply(s, e), reported)
  {
    var t, id := s.timers[e.op.id], e.op.id;
    if t.cb.Some? {
      var s' := Refresh(s, id, e.at).0;
      assert t.ms <= t.next <= clock + t.ms;
      RefreshedInRange(t, e.at);
      RefreshIs(s, id, e.at);
      NoneEarlierThan(s, s', id);
      AlertLater(s, s', reported);
      StartedAfter(s, s', id, clock, e.at);
    }
  }

  lemma StartedAfter(s: State, s': State, id: TimerId, clock: nat, at: nat)
    requires StartedBy(s, clock) && clock <= at && OnlyTimer(s, s', id) && Known(s.timers, s.order)
    requires s'.timers[id].ms <= s'.timers[id].next <= at + s'.timers[id].ms
    ensures StartedBy(s', at)
  {
  }

  lemma RefreshNoneEarlier(s: State, id: TimerId, now: nat)
    requires Inv(s) && id in s.timers && s.timers[id].cb.Some? && s.timers[id].next <= Add64(now, s.timers[id].ms)
    ensures NoneEarlier(s, Refresh(s, id, now).0)
  {
    RefreshIs(s, id, now);
    NoneEarlierThan(s, Refresh(s, id, now).0, id);
  }

  /** One timer of the set has got a later deadline, and the set is otherwise the same. */
  lemma NoneEarlierThan(s: State, s': State, id: TimerId)
    requires Sorted(s.timers, s.order) && Sorted(s'.timers, s'.order) && OnlyTimer(s, s', id)
    requires id in s.order && s.timers[id].next <= s'.timers[id].next
    ensures NoneEarlier(s, s')
  {
    FrontIsEarliest(s);
  }

  lemma RestartedInRange(t: Timer, ms: nat, fromNow: bool, clock: nat, now: nat)
    requires t.ms <= t.next <= clock + t.ms && t.next < TWO_64 && clock <= now && now + ms < TWO_64
    ensures ms <= Restarted(t, ms, fromNow, now).next <= now + ms
  {
    RestartedIs(t, ms, fromNow, clock, now);
  }

  lemma ResetOrderly(s: State, clock: nat, reported: Option<nat>, e: Event)
    requires Inv(s) && StartedBy(s, clock) && Alert(s, reported) && e.op.ResetTimer? && Enabled(s, e) && Orderly(s, clock, e)
    ensures StartedBy(Apply(s, e), e.at) && Alert(Apply(s, e), reported)
  {
    var t, id := s.timers[e.op.id], e.op.id;
    if t.cb.Some? && (e.op.ms != t.ms || e.op.fromNow) {
      RestartedInRange(t, e.op.ms, e.op.fromNow, clock, e.at);
      TakenOrderly(s, clock, reported, id);
      PutBack(Taken(s, id), id, Restarted(t, e.op.ms, e.op.fromNow, e.at), clock, e.at, reported);
    }
  }

  lemma ExpiredInRange(t: Timer, now: nat)
    requires now + t.ms < TWO_64
    ensures t.recurring ==> Expired(t, now) == t.(next := now + t.ms)
  {
    ModSmall(now + t.ms, TWO_64);
  }

  lemma ExpireOrderly(s: State, clock: nat, reported: Option<nat>, e: Event)
    requires Inv(s) && StartedBy(s, clock) && Alert(s, reported) && e.op.Expire? && Enabled(s, e) && Orderly(s, clock, e)
    ensures StartedBy(Apply(s, e), e.at) && Alert(Apply(s, e), reported)
  {
    ExpiryExact(s, e.op.sample, e.op.probe);
    FrontIsEarliest(s);
    var s' := Apply(s, e);
    forall x | x in s'.order
      ensures s'.timers[x].ms <= s'.timers[x].next <= e.at + s'.timers[x].ms && s'.timers[x].next >= s.timers[x].next
    {
      ExpiredInRange(s.timers[x], e.op.sample);
    }
    AlertLater(s, s', reported);
  }

  lemma OrderlyStep(s: State, clock: nat, reported: Option<nat>, e: Event)
    requires Inv(s) && StartedBy(s, clock) && Alert(s, reported) && Enabled(s, e) && Orderly(s, clock, e)
    ensures StartedBy(Apply(s, e), e.at) && Alert(Apply(s, e), ReportedAfter(s, e, reported))
  {
    match e.op
    case Add(_, _, _, _, _) => AddOrderly(s, clock, reported, e);
    case CancelTimer(id) =>
      if s.timers[id].cb.Some? {
        FrontIsEarliest(s);
        AlertLater(s, Apply(s, e), reported);
      }
    case RefreshTimer(_) => RefreshOrderly(s, clock, reported, e);
    case ResetTimer(_, _, _) => ResetOrderly(s, clock, reported, e);
    case Report =>
    case Expire(_, _) => ExpireOrderly(s, clock, reported, e);
  }

  /**
    No lost wake-up: with a clock that does not go back, across every mix of operations, if the
    earliest deadline is earlier than the one last reported, then the flag is set, and the hook has
    been called exactly once since that report.
   */
  lemma {:induction false} NoLostWakeUp(s: State, clock: nat, reported: Option<nat>, run: seq<Event>)
    requires Inv(s) && StartedBy(s, clock) && Alert(s, reported) && OrderlyRun(s, clock, run)
    ensures IsRun(s, run) && Alert(After(s, run), LastReport(s, run, reported))
    decreases |run|
  {
    if run != [] {
      OrderlyStep(s, clock, reported, run[0]);
      NoLostWakeUp(Apply(s, run[0]), run[0].at, ReportedAfter(s, run[0], reported), run[1..]);
    }
  }

  /** A new manager. */
  lemma InitialAlert(now: nat)
    requires now < TWO_64
    ensures var s := State(map[], [], false, now, 0); Inv(s) && StartedBy(s, now) && Alert(s, Front(s))
  {
  }

  // ---------------------------------------------------------------- exactly when a step keeps the promise

  /**
    The step makes no deadline earlier than the one reported behind the manager's back: neither a refresh
    nor the re-insertion of an expired recurring timer, which do not ask for a wake-up.
   */
  predicate Harmless(s: State, e: Event, reported: Option<nat>)
    requires Inv(s) && Enabled(s, e)
  {
    match e.op
    case RefreshTimer(id) => s.timers[id].cb.Some? ==> !Earlier(Some(Add64(e.at, s.timers[id].ms)), reported)
    case Expire(sample, _) =>
      forall id <- ListedBy(s, e) :: id in s.timers && s.timers[id].recurring ==> !Earlier(Some(Add64(sample, s.timers[id].ms)), reported)
    case _ => true
  }

  predicate KeepsPromise(s: State, e: Event, reported: Option<nat>)
    requires Inv(s) && Enabled(s, e)
  {
    s.tickled || e.op.Report? || Harmless(s, e, reported)
  }

  /**
    For every clock, every set of timers and every operation, wrap-around and rollover included: the
    promise survives the step if and only if a wake-up has been asked for already or the step is harmless.
   */
  lemma AlertKeptIff(s: State, e: Event, reported: Option<nat>)
    requires Inv(s) && Alert(s, reported) && Enabled(s, e)
    ensures Alert(Apply(s, e), ReportedAfter(s, e, reported)) <==> KeepsPromise(s, e, reported)
  {
    match e.op
    case Add(id, ms, cb, recurring, sample) =>
      var t := Timer(recurring, ms, Add64(sample, ms), Some(cb));
      assert Sorted(s.timers[id := t], s.order);
      AlertAdd(s.(timers := s.timers[id := t]), id, reported);
    case CancelTimer(id) => CancelAlert(s, id, reported);
    case ResetTimer(id, ms, fromNow) => ResetAlert(s, e, reported);
    case RefreshTimer(id) => if s.timers[id].cb.Some? { RefreshAlert(s, e, reported); }
    case Report =>
    case Expire(_, _) => ExpireAlert(s, e, reported);
  }

  /** The promise holds in every state of the run. */
  ghost predicate AlertThroughout(s: State, reported: Option<nat>, run: seq<Event>)
    requires Inv(s) && IsRun(s, run)
    decreases |run|
  {
    Alert(s, reported) && (run == [] || AlertThroughout(Apply(s, run[0]), ReportedAfter(s, run[0], reported), run[1..]))
  }

  ghost predicate EachKeepsPromise(s: State, reported: Option<nat>, run: seq<Event>)
    requires Inv(s) && IsRun(s, run)
    decreases |run|
  {
    run == [] ||
    (KeepsPromise(s, run[0], reported) && EachKeepsPromise(Apply(s, run[0]), ReportedAfter(s, run[0], reported), run[1..]))
  }

  /** Over whole runs, with any clock: the promise holds throughout if and only if each step meets that condition. */
  lemma {:induction false} AlertRunIff(s: State, reported: Option<nat>, run: seq<Event>)
    requires Inv(s) && IsRun(s, run) && Alert(s, reported)
    ensures AlertThroughout(s, reported, run) <==> EachKeepsPromise(s, reported, run)
    decreases |run|
  {
    if run != [] {
      AlertKeptIff(s, run[0], reported);
      if KeepsPromise(s, run[0], reported) { AlertRunIff(Apply(s, run[0]), ReportedAfter(s, run[0], reported), run[1..]); }
    }
  }

  lemma CancelAlert(s: State, id: TimerId, reported: Option<nat>)
    requires Inv(s) && Alert(s, reported) && id in s.timers
    ensures Alert(Cancel(s, id).0, reported)
  {
    if s.timers[id].cb.Some? {
      CancelKeeps(s, id);
      FrontIsEarliest(s);
      AlertLater(s, Cancel(s, id).0, reported);
    }
  }

  lemma TakenAlert(s: State, id: TimerId, reported: Option<nat>)
    requires Inv(s) && Alert(s, reported) && id in s.timers && s.timers[id].cb.Some?
    ensures Alert(Taken(s, id), reported)
  {
    FrontIsEarliest(s);
    AlertLater(s, Taken(s, id), reported);
  }

  lemma ResetAlert(s: State, e: Event, reported: Option<nat>)
    requires Inv(s) && Alert(s, reported) && Enabled(s, e) && e.op.ResetTimer?
    ensures Alert(Apply(s, e), reported)
  {
    var t, id := s.timers[e.op.id], e.op.id;
    if t.cb.Some? && (e.op.ms != t.ms || e.op.fromNow) {
      TakenAlert(s, id, reported);
      var s1 := Taken(s, id).(timers := s.timers[id := Restarted(t, e.op.ms, e.op.fromNow, e.at)]);
      assert Sorted(s1.timers, s1.order);
      AlertAdd(s1, id, reported);
    }
  }

  lemma RefreshAlert(s: State, e: Event, reported: Option<nat>)
    requires Inv(s) && Alert(s, reported) && Enabled(s, e) && e.op.RefreshTimer? && s.timers[e.op.id].cb.Some?
    ensures Alert(Apply(s, e), reported) <==> s.tickled || !Earlier(Some(Add64(e.at, s.timers[e.op.id].ms)), reported)
  {
    var id, s' := e.op.id, Apply(s, e);
    RefreshIs(s, id, e.at);
    FrontIsEarliest(s);
    FrontIsEarliest(s');
    assert s'.order[0] in s'.order;
  }

  lemma ExpireAlert(s: State, e: Event, reported: Option<nat>)
    requires Inv(s) && Alert(s, reported) && Enabled(s, e) && e.op.Expire?
    ensures Alert(Apply(s, e), reported) <==> s.tickled || Harmless(s, e, reported)
  {
    var s' := Apply(s, e);
    ExpiryExact(s, e.op.sample, e.op.probe);
    FrontIsEarliest(s);
    FrontIsEarliest(s');
    assert s'.order != [] ==> s'.order[0] in s'.order;
    if !s.tickled && !Harmless(s, e, reported) {
      var id :| id in ListedBy(s, e) && id in s.timers && s.timers[id].recurring && Earlier(Some(Add64(e.op.sample, s.timers[id].ms)), reported);
      assert id in s'.order && s'.timers[id].next == Add64(e.op.sample, s.timers[id].ms);
    }
  }

  // ---------------------------------------------------------------- runs that break it

  /** A new manager with one timer, after a report. */
  lemma OneTimerReported(now: nat, id: TimerId, t: Timer, cb: Callback, sample: nat, at: nat) returns (s: State, run: seq<Event>)
    requires now < TWO_64 && sample < TWO_64 && at < TWO_64 && t.ms < TWO_64 && sample + t.ms < TWO_64
    requires t == Timer(t.recurring, t.ms, sample + t.ms, Some(cb))
    ensures run == [Event(at, Add(id, t.ms, cb, t.recurring, sample)), Event(at, Report)]
    ensures Inv(State(map[], [], false, now, 0)) && IsRun(State(map[], [], false, now, 0), run)
    ensures s == After(State(map[], [], false, now, 0), run) == State(map[id := t], [id], false, now, 0)
    ensures Inv(s) && Alert(s, Front(s)) && LastReport(State(map[], [], false, now, 0), run, None) == Front(s) == Some(t.next)
  {
    var s0 := State(map[], [], false, now, 0);
    var add := Event(at, Add(id, t.ms, cb, t.recurring, sample));
    ModSmall(sample + t.ms, TWO_64);
    var s1 := Apply(s0, add);
    assert s1 == State(map[id := t], [id], true, now, 1);
    s := Apply(s1, Event(at, Report));
    var tail := [Event(at, Report)];
    assert tail[1..] == [] && IsRun(s, []) && IsRun(s1, tail);
    run := [add, Event(at, Report)];
    assert run[1..] == tail;
    assert After(s1, tail) == s;
    assert ReportedAfter(s1, tail[0], None) == Front(s1) && LastReport(s, [], Front(s1)) == Front(s1);
    assert LastReport(s1, tail, None) == Front(s1);
    assert LastReport(s0, run, None) == LastReport(s1, tail, ReportedAfter(s0, add, None));
  }

  /** A refresh that wraps around: the deadline is before the one reported, and nobody is told. */
  lemma WrappingRefreshRun(cb: Callback) returns (s: State, run: seq<Event>)
    ensures Inv(State(map[], [], false, 0, 0)) && IsRun(State(map[], [], false, 0, 0), run)
    ensures s == After(State(map[], [], false, 0, 0), run) && Enabled(s, Event(2, RefreshTimer(0)))
    ensures !Alert(Apply(s, Event(2, RefreshTimer(0))), LastReport(State(map[], [], false, 0, 0), run, None))
  {
    var t := Timer(false, TWO_64 - 2, TWO_64 - 1, Some(cb));
    s, run := OneTimerReported(0, 0, t, cb, 1, 1);
    Remainder(2 + t.ms, 1, 0, TWO_64);
    AlertKeptIff(s, Event(2, RefreshTimer(0)), Front(s));
  }

  /**
    A listExpiredCb whose clock sample is more than an hour older than the last one: it puts a recurring
    timer that was started after that sample back with an earlier deadline, and nobody is told.
   */
  lemma StaleSampleRun(cb: Callback) returns (s: State, run: seq<Event>)
    ensures var s0 := State(map[], [], false, 2 * HOUR, 0);
            && Inv(s0) && IsRun(s0, run) && s == After(s0, run)
            && Enabled(s, Event(2 * HOUR, Expire(5, 1))) && Rollover(5, s.previous)
            && !Alert(Apply(s, Event(2 * HOUR, Expire(5, 1))), LastReport(s0, run, None))
  {
    var t := Timer(true, 1000, 2 * HOUR + 1000, Some(cb));
    s, run := OneTimerReported(2 * HOUR, 0, t, cb, 2 * HOUR, 2 * HOUR);
    var e := Event(2 * HOUR, Expire(5, 1));
    RolloverMeans(5, 2 * HOUR);
    ExpiryExact(s, 5, 1);
    ModSmall(1005, TWO_64);
    assert 0 in s.order && 0 in ListedBy(s, e);
    AlertKeptIff(s, e, Front(s));
  }

  /** A recurring timer whose next deadline wraps around does the same without any rollover. */
  lemma WrappingExpiryRun(cb: Callback) returns (s: State, run: seq<Event>)
    ensures var s0 := State(map[], [], false, 0, 0);
            && Inv(s0) && IsRun(s0, run) && s == After(s0, run)
            && Enabled(s, Event(TWO_64 - 1, Expire(TWO_64 - 1, 1))) && !Rollover(TWO_64 - 1, s.previous)
            && !Alert(Apply(s, Event(TWO_64 - 1, Expire(TWO_64 - 1, 1))), LastReport(s0, run, None))
  {
    var t := Timer(true, TWO_64 - 2, TWO_64 - 1, Some(cb));
    s, run := OneTimerReported(0, 0, t, cb, 1, 1);
    var e := Event(TWO_64 - 1, Expire(TWO_64 - 1, 1));
    ExpiryExact(s, TWO_64 - 1, 1);
    Remainder(TWO_64 - 1 + t.ms, 1, TWO_64 - 3, TWO_64);
    assert 0 in s.order && 0 in ListedBy(s, e);
    AlertKeptIff(s, e, Front(s));
  }

  // ---------------------------------------------------------------- the manager

  /** The callbacks of the timers, one by one. */
  ghost predicate Callbacks(ts: map<TimerId, Timer>, ids: seq<TimerId>, cbs: seq<Option<Callback>>) {
    |cbs| == |ids| && forall i :: 0 <= i < |cbs| ==> ids[i] in ts && cbs[i] == ts[ids[i]].cb
  }

  /** The clock is read by the caller: `now` stands for GetCurrentMS(). */
  class TimerManager {
    var timers: map<TimerId, Timer>
    var order: seq<TimerId>
    var tickled: bool
    var previous: nat
    ghost var hooks: nat

    ghost function Value(): State
      reads this
    {
      State(timers, order, tickled, previous, hooks)
    }

    constructor (now: nat)
      requires now < TWO_64
      ensures Value() == State(map[], [], false, now, 0) && Inv(Value())
    {
      timers, order, tickled, previous, hooks := map[], [], false, now, 0;
    }

    /** The private addTimer: whether onTimerInsertedAtFront was called. */
    method InsertTimer(id: TimerId) returns (atFront: bool)
      requires Known(timers, order) && id in timers
      modifies this`order, this`tickled, this`hooks
      ensures Value() == AddToSet(old(Value()), id)
      ensures atFront <==> hooks == old(hooks) + 1
    {
      order := Insert(timers, order, id);
      atFront := order[0] == id && !tickled;
      if atFront {
        tickled := true;
        hooks := hooks + 1;
      }
    }

    method AddTimer(id: TimerId, ms: nat, cb: Callback, recurring: bool, sample: nat, ghost at: nat) returns (atFront: bool)
      requires Inv(Value()) && Enabled(Value(), Event(at, Add(id, ms, cb, recurring, sample)))
      modifies this
      ensures Value() == Apply(old(Value()), Event(at, Add(id, ms, cb, recurring, sample)))
      ensures atFront <==> hooks == old(hooks) + 1
    {
      timers := timers[id := Timer(recurring, ms, Add64(sample, ms), Some(cb))];
      atFront := InsertTimer(id);
    }

    /** Erases a timer that has a callback; find cannot miss it. */
    method Take(id: TimerId)
      requires Inv(Value()) && id in timers && timers[id].cb.Some?
      modifies this`order
      ensures Value() == Taken(old(Value()), id)
    {
      FindExact(timers, order, id);
      var it := Find(timers, order, id);
      order := Erase(order, it.value);
    }

    method Cancel(id: TimerId, ghost at: nat) returns (ok: bool)
      requires Inv(Value()) && Enabled(Value(), Event(at, CancelTimer(id)))
      modifies this
      ensures Value() == Apply(old(Value()), Event(at, CancelTimer(id)))
      ensures ok <==> id in old(order)
    {
      if timers[id].cb.None? {
        return false;
      }
      Take(id);
      timers := timers[id := timers[id].(cb := None)];
      return true;
    }

    method Refresh(id: TimerId, now: nat) returns (ok: bool)
      requires Inv(Value()) && Enabled(Value(), Event(now, RefreshTimer(id)))
      modifies this
      ensures Value() == Apply(old(Value()), Event(now, RefreshTimer(id)))
      ensures ok <==> id in old(order)
    {
      if timers[id].cb.None? {
        return false;
      }
      Take(id);
      timers := timers[id := timers[id].(next := Add64(now, timers[id].ms))];
      order := Insert(timers, order, id);
      return true;
    }

    method Reset(id: TimerId, ms: nat, fromNow: bool, now: nat) returns (ok: bool)
      requires Inv(Value()) && Enabled(Value(), Event(now, ResetTimer(id, ms, fromNow)))
      modifies this
      ensures Value() == Apply(old(Value()), Event(now, ResetTimer(id, ms, fromNow)))
      ensures ok <==> id in old(order) || (ms == old(timers)[id].ms && !fromNow)
    {
      if ms == timers[id].ms && !fromNow {
        return true;
      }
      if timers[id].cb.None? {
        return false;
      }
      Take(id);
      var start := if fromNow then now else Sub64(timers[id].next, timers[id].ms);
      timers := timers[id := timers[id].(ms := ms, next := Add64(start, ms))];
      var atFront := InsertTimer(id);
      return true;
    }

    method GetNextTimer(now: nat) returns (delay: nat)
      requires Inv(Value()) && now < TWO_64
      modifies this`tickled, this`hooks
      ensures Value() == Apply(old(Value()), Event(now, Report))
      ensures delay == NextDelay(Value(), now)
      ensures order == [] ==> delay == TWO_64 - 1
      ensures order != [] ==> forall id :: id in order ==> timers[id].next >= now + delay || delay == 0
      ensures order != [] ==> (delay > 0 <==> forall id :: id in order ==> timers[id].next > now)
      ensures order != [] && delay > 0 ==> exists id :: id in order && timers[id].next == now + delay
    {
      tickled := false;
      hooks := 0;
      FrontIsEarliest(Value());
      if order == [] {
        return TWO_64 - 1;
      }
      assert order[0] in order;
      var next := timers[order[0]].next;
      delay := if now >= next then 0 else next - now;
    }

    method DetectClockRollover(now: nat) returns (rollover: bool)
      modifies this`previous
      ensures rollover <==> Rollover(now, old(previous))
      ensures previous == now
    {
      rollover := now < previous && now < Sub64(previous, HOUR);
      previous := now;
    }

    /** The end of the expired range of the set. */
    method ExpiredEnd(now: nat, probe: TimerId, rollover: bool) returns (it: nat)
      requires Sorted(timers, order) && probe !in timers
      ensures it == Cut(Value(), now, probe, rollover)
    {
      if rollover {
        return |order|;
      }
      var ts := timers[probe := Timer(false, 0, now, None)];
      it := Position(ts, order, probe, 0);
      ghost var first := it;
      while it != |order| && ts[order[it]].next == now
        invariant first <= it <= |order|
        invariant SkipEqual(ts, order, now, first) == SkipEqual(ts, order, now, it)
      {
        it := it + 1;
      }
    }

    /** listExpiredCb: the callbacks of the expired timers, in deadline order. */
    method ListExpiredCb(now: nat, probe: TimerId, ghost at: nat) returns (cbs: seq<Option<Callback>>)
      requires Inv(Value()) && Enabled(Value(), Event(at, Expire(now, probe)))
      modifies this
      ensures Value() == Apply(old(Value()), Event(at, Expire(now, probe)))
      ensures var listed := ListedBy(old(Value()), Event(at, Expire(now, probe)));
              Callbacks(old(timers), listed, cbs) && forall i :: 0 <= i < |cbs| ==> cbs[i].Some?
    {
      cbs := [];
      if order == [] {
        return;
      }
      var rollover := DetectClockRollover(now);
      if !rollover && timers[order[0]].next > now {
        return;
      }
      var it := ExpiredEnd(now, probe, rollover);
      cbs := ExpireRange(it, now);
    }

    /** Takes the first timers out of the set and requeues them. */
    method ExpireRange(it: nat, now: nat) returns (cbs: seq<Option<Callback>>)
      requires Inv(Value()) && it <= |order| && previous == now < TWO_64
      modifies this`timers, this`order
      ensures Value() == ExpireFirst(old(Value()), now, it)
      ensures Callbacks(old(timers), old(order)[..it], cbs) && forall i :: 0 <= i < |cbs| ==> cbs[i].Some?
    {
      var expired := order[..it];
      order := order[it..];
      cbs := RequeueAll(expired, now);
      assert forall i :: 0 <= i < |expired| ==> expired[i] in old(order);
    }

    method RequeueAll(expired: seq<TimerId>, now: nat) returns (cbs: seq<Option<Callback>>)
      requires Known(timers, order) && Known(timers, expired) && Distinct(expired)
      modifies this`timers, this`order
      ensures Requeue(old(timers), old(order), expired, now) == (timers, order)
      ensures Callbacks(old(timers), expired, cbs)
    {
      cbs := [];
      var i := 0;
      while i < |expired|
        invariant 0 <= i <= |expired| && |cbs| == i && Known(timers, order) && timers.Keys == old(timers).Keys
        invariant Requeue(old(timers), old(order), expired, now) == Requeue(timers, order, expired[i..], now)
        invariant forall j :: 0 <= j < i ==> cbs[j] == old(timers)[expired[j]].cb
        invariant forall j :: i <= j < |expired| ==> timers[expired[j]] == old(timers)[expired[j]]
      {
        var id := expired[i];
        assert expired[i..][1..] == expired[i + 1..];
        cbs := cbs + [timers[id].cb];
        if timers[id].recurring {
          timers := timers[id := timers[id].(next := Add64(now, timers[id].ms))];
          order := Insert(timers, order, id);
        } else {
          timers := timers[id := timers[id].(cb := None)];
        }
        i := i + 1;
      }
    }
  }
}
