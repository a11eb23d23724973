/**
  What the threads of the scheduler do, against the history of a run: the calls that scheduled the items,
  the switches into fibers, and the requests to stop (yk/scheduler.h, yk/scheduler.cc, yk/fiber.cc).
 */
module SchedulerHistory {
  import opened Common
  import opened Scheduling
  import opened SchedulerProtocol

  /** What a call of schedule() names: the work, and the thread that is to do it. */
  type Call = (Work, ThreadId)

  /** The call that an action is, if it is one. */
  function CallOf(s: State, a: Action): (c: seq<Call>)
    requires Enabled(s, a)
    ensures |c| <= 1
  {
    match a
    case Post(c, thread) => [(CallbackWork(c), thread)]
    case Spawn(f, thread) => [(FiberWork(f), thread)]
    case Wake(f, thread) => [(FiberWork(f), thread)]
    case Reschedule(t) => [(FiberWork(s.pcs[t].fiber), ANY_THREAD)]
    case _ => []
  }

  /** The calls of a run, in order. */
  ghost function Calls(s: State, run: seq<Action>): seq<Call>
    requires IsRun(s, run)
    decreases |run|
  {
    if run == [] then [] else CallOf(s, run[0]) + Calls(Apply(s, run[0]), run[1..])
  }

  // ---------------------------------------------------------------- the steps of a thread by kind

  predicate Staged(a: Action) { a.SwapIn? || a.YieldToReady? || a.YieldToHold? || a.Finish? || a.SwapOut? }

  /** Behind the switch-out. */
  predicate Backing(a: Action) { a.Decrement? || a.Settle? || a.MarkHold? }

  predicate Idling(a: Action) { a.EnterIdle? || a.LeaveIdle? }

  /** The thread goes on with its fiber, whose state it may write. */
  lemma StagedIs(s: State, a: Action)
    requires Enabled(s, a) && Staged(a)
    ensures var pc, s' := s.pcs[a.t], Apply(s, a);
            && pc.Holding? && pc.fiber in s.states && (a.SwapIn? <==> pc.stage == Checked)
            && s' == s.(states := s'.states, pcs := s.pcs[a.t := s'.pcs[a.t]])
            && s'.pcs[a.t] == pc.(stage := s'.pcs[a.t].stage) && s'.pcs[a.t].stage != Checked
            && s'.states.Keys == s.states.Keys && forall f :: f in s.states && f != pc.fiber ==> s'.states[f] == s.states[f]
  {
  }

  /** The thread goes on with its item, or gives it up. */
  lemma BackingIs(s: State, a: Action)
    requires Enabled(s, a) && Backing(a)
    ensures var pc, s' := s.pcs[a.t], Apply(s, a);
            && (pc.Stale? || (pc.Holding? && pc.stage != Checked && pc.fiber in s.states))
            && s'.queue == s.queue && s'.nextItem == s.nextItem && s'.pcs == s.pcs[a.t := s'.pcs[a.t]]
            && (|| (s'.pcs[a.t] == Head && s'.finished == s.finished + {ItemOf(pc)})
                || (pc.Holding? && s'.pcs[a.t] == pc.(stage := s'.pcs[a.t].stage) && s'.pcs[a.t].stage != Checked && s'.finished == s.finished))
  {
  }

  lemma BackingStates(s: State, a: Action)
    requires Enabled(s, a) && Backing(a)
    ensures KeepsFibers(s, Apply(s, a), a.t)
  {
    if a.Settle? { SettleStates(s, a.t); } else if a.MarkHold? { MarkStates(s, a.t); }
  }

  /** Only the fiber that thread t holds may change its state, and callback fibers may only be dropped. */
  ghost predicate KeepsFibers(s: State, s': State, t: ThreadId) {
    && s'.states.Keys == s.states.Keys
    && (forall f :: f in s.states && !(t in s.pcs && s.pcs[t].Holding? && f == s.pcs[t].fiber) ==> s'.states[f] == s.states[f])
    && (forall u :: u in s'.cbFiber ==> s'.cbFiber[u] == None || (u in s.cbFiber && s'.cbFiber[u] == s.cbFiber[u]))
  }

  lemma SettleStates(s: State, t: ThreadId)
    requires Enabled(s, Settle(t))
    ensures KeepsFibers(s, Apply(s, Settle(t)), t)
  {
  }

  lemma MarkStates(s: State, t: ThreadId)
    requires Enabled(s, MarkHold(t))
    ensures KeepsFibers(s, Apply(s, MarkHold(t)), t)
  {
  }

  /** The other kinds, one by one. */
  lemma OtherIs(s: State, a: Action)
    requires Enabled(s, a) && !Staged(a) && !Backing(a)
    ensures var s' := Apply(s, a);
            if Idling(a) then s'.states == s.states && s'.cbFiber == s.cbFiber
            else if Outside(a) then s'.pcs == s.pcs && s'.cbFiber == s.cbFiber && (s'.states == s.states || (a.Spawn? && a.newFiber !in s.states && s'.states == s.states[a.newFiber := INIT]))
            else if a.Dispatch? then
              || (s'.states == s.states && s'.cbFiber == s.cbFiber)
              || (s'.pcs[a.t].Holding? && var f := s'.pcs[a.t].fiber;
                  (s.cbFiber[a.t] == Some(f) || f !in s.states) && s'.states == s.states[f := INIT])
            else s'.states == s.states
  {
    if Idling(a) { IdlingIs(s, a); }
    else if Outside(a) { OutsideIs(s, a); }
    else if a.Dispatch? { DispatchIs(s, a.t, a.newFiber); }
    else { QueueingIs(s, a); }
  }

  lemma IdlingIs(s: State, a: Action)
    requires Enabled(s, a) && Idling(a)
    ensures var s' := Apply(s, a);
            && s' == s.(pcs := s.pcs[a.t := s'.pcs[a.t]], idleEnded := s'.idleEnded)
            && !HasItem(s.pcs[a.t]) && !HasItem(s'.pcs[a.t])
  {
  }

  predicate Outside(a: Action) { a.Post? || a.Spawn? || a.Wake? || a.GiveWake? || a.RequestStop? }

  /** No thread moves; a new fiber may appear. */
  lemma OutsideIs(s: State, a: Action)
    requires Enabled(s, a) && Outside(a)
    ensures var s' := Apply(s, a);
            && s'.pcs == s.pcs && s'.cbFiber == s.cbFiber && s'.idleEnded == s.idleEnded && s'.finished == s.finished
            && s'.states == (if a.Spawn? then s.states[a.newFiber := INIT] else s.states) && (a.Spawn? ==> a.newFiber !in s.states)
  {
  }

  /** The thread leaves the fiber it holds to the queue, or takes an entry from there; no fiber changes. */
  lemma QueueingIs(s: State, a: Action)
    requires Enabled(s, a) && (a.Scan? || a.Reschedule?)
    ensures var s' := Apply(s, a);
            && s'.pcs == s.pcs[a.t := s'.pcs[a.t]] && !s'.pcs[a.t].Holding? && !s'.pcs[a.t].Exited?
            && s'.states == s.states && s'.idleEnded == s.idleEnded
            && (forall u :: u in s'.cbFiber ==> s'.cbFiber[u] == None || (u in s.cbFiber && s'.cbFiber[u] == s.cbFiber[u]))
  {
    if a.Scan? { ScanIs(s, a.t, a.k); } else { LeavesToQueue(s, a.t); }
  }

  lemma ScanIs(s: State, t: ThreadId, k: nat)
    requires Enabled(s, Scan(t, k))
    ensures var s' := Apply(s, Scan(t, k));
            && s' == s.(pcs := s.pcs[t := s'.pcs[t]], queue := s'.queue, active := s'.active)
            && s'.pcs[t] == if k < |s.queue| then Took(s.queue[k]) else NoWork
  {
  }

  lemma LeavesToQueue(s: State, t: ThreadId)
    requires Enabled(s, Reschedule(t))
    ensures var s' := Apply(s, Reschedule(t));
            && s'.pcs == s.pcs[t := Head] && s'.states == s.states && s'.idleEnded == s.idleEnded
            && s'.cbFiber == (if s.pcs[t].cb then s.cbFiber[t := None] else s.cbFiber)
  {
  }

  /** The thread comes to hold the fiber of its item, or its callback fiber, which is INIT, or drops the item. */
  lemma DispatchIs(s: State, t: ThreadId, newFiber: FiberId)
    requires Enabled(s, Dispatch(t, newFiber))
    ensures var item, s' := s.pcs[t].item, Apply(s, Dispatch(t, newFiber));
            && s'.pcs == s.pcs[t := s'.pcs[t]] && s'.queue == s.queue && s'.nextItem == s.nextItem
            && s'.finished == s.finished && s'.idleEnded == s.idleEnded
            && match item.work
               case FiberWork(f) =>
                 && f in s.states && s'.states == s.states && s'.cbFiber == s.cbFiber
                 && s'.pcs[t] == if Ended(s.states[f]) then Stale(item.id) else Holding(Checked, item.id, f, false)
               case CallbackWork(_) =>
                 s'.pcs[t].Holding? &&
                 var f := s'.pcs[t].fiber;
                 && s'.pcs[t] == Holding(Checked, item.id, f, true) && (s.cbFiber[t] == Some(f) || f !in s.states)
                 && s'.states == s.states[f := INIT] && s'.cbFiber == s.cbFiber[t := Some(f)]
  {
  }

  // ---------------------------------------------------------------- items are what the calls named

  /** What a thread does with an item is what the call asked for. */
  predicate IsFor(pc: Pc, call: Call)
    requires HasItem(pc)
  {
    match pc
    case Took(item) => item.work == call.0 && item.thread == call.1
    case Stale(_) => call.0.FiberWork?
    case Holding(_, _, f, cb) => if cb then call.0.CallbackWork? else call.0 == FiberWork(f)
  }

  /** Thread t may do what the call asked for: it named t, or no thread. */
  predicate Named(call: Call, t: ThreadId) {
    call.1 == ANY_THREAD || call.1 == t
  }

  /** The queue holds calls in their order, and threads do what the calls named. */
  ghost predicate Recorded(s: State, calls: seq<Call>) {
    |calls| == s.nextItem && QueueRecorded(s.queue, calls) && PcsRecorded(s.pcs, calls)
  }

  ghost predicate QueueRecorded(queue: seq<Item>, calls: seq<Call>) {
    && (forall i :: 0 <= i < |queue| ==> queue[i].id < |calls| && calls[queue[i].id] == (queue[i].work, queue[i].thread))
    && (forall i, j :: 0 <= i < j < |queue| ==> queue[i].id < queue[j].id)
  }

  predicate PcRecorded(pc: Pc, t: ThreadId, calls: seq<Call>) {
    HasItem(pc) ==> ItemOf(pc) < |calls| && IsFor(pc, calls[ItemOf(pc)]) && Named(calls[ItemOf(pc)], t)
  }

  ghost predicate PcsRecorded(pcs: map<ThreadId, Pc>, calls: seq<Call>) {
    forall t :: t in pcs ==> PcRecorded(pcs[t], t, calls)
  }

  lemma PushRecorded(s: State, work: Work, thread: ThreadId, calls: seq<Call>)
    requires Recorded(s, calls)
    ensures Recorded(Push(s, work, thread), calls + [(work, thread)])
  {
    forall t | t in s.pcs ensures PcRecorded(s.pcs[t], t, calls + [(work, thread)]) {
      assert PcRecorded(s.pcs[t], t, calls);
    }
  }

  lemma ScanRecorded(s: State, t: ThreadId, k: nat, calls: seq<Call>)
    requires Recorded(s, calls) && Enabled(s, Scan(t, k))
    ensures Recorded(Apply(s, Scan(t, k)), calls)
  {
    var s' := Apply(s, Scan(t, k));
    assert PcRecorded(s'.pcs[t], t, calls);
    forall u | u in s'.pcs && u != t ensures PcRecorded(s'.pcs[u], u, calls) { assert PcRecorded(s.pcs[u], u, calls); }
    if k < |s.queue| { WithoutRecorded(s.queue, k, calls); }
  }

  lemma WithoutRecorded(queue: seq<Item>, k: nat, calls: seq<Call>)
    requires QueueRecorded(queue, calls) && k < |queue|
    ensures QueueRecorded(Without(queue, k), calls)
  {
  }

  /** A thread goes on with its item, or gives it up; another one's is as it was. */
  lemma PcStepRecorded(s: State, s': State, t: ThreadId, calls: seq<Call>)
    requires Recorded(s, calls) && t in s.pcs && t in s'.pcs && s'.pcs == s.pcs[t := s'.pcs[t]]
    requires s'.queue == s.queue && s'.nextItem == s.nextItem && PcRecorded(s'.pcs[t], t, calls)
    ensures Recorded(s', calls)
  {
  }

  lemma RescheduleRecorded(s: State, t: ThreadId, calls: seq<Call>)
    requires Recorded(s, calls) && Enabled(s, Reschedule(t))
    ensures Recorded(Apply(s, Reschedule(t)), calls + CallOf(s, Reschedule(t)))
  {
    var pc := s.pcs[t];
    var s1 := Push(DropCbFiber(s, t, pc.cb), FiberWork(pc.fiber), ANY_THREAD);
    PushRecorded(DropCbFiber(s, t, pc.cb), FiberWork(pc.fiber), ANY_THREAD, calls);
    PcStepRecorded(s1, Apply(s, Reschedule(t)), t, calls + CallOf(s, Reschedule(t)));
  }

  lemma LoopRecorded(s: State, a: Action, calls: seq<Call>)
    requires Recorded(s, calls) && Enabled(s, a) && OfThreads(a) && !a.Scan? && !a.Reschedule? && !a.GiveWake?
    ensures Recorded(Apply(s, a), calls)
  {
    if Staged(a) { StagedIs(s, a); } else if Backing(a) { BackingIs(s, a); } else if Idling(a) { IdlingIs(s, a); }
    if a.Dispatch? { DispatchIs(s, a.t, a.newFiber); }
    assert PcRecorded(s.pcs[a.t], a.t, calls);
    PcStepRecorded(s, Apply(s, a), a.t, calls);
  }

  lemma StepRecorded(s: State, a: Action, calls: seq<Call>)
    requires Recorded(s, calls) && Enabled(s, a)
    ensures Recorded(Apply(s, a), calls + CallOf(s, a))
  {
    if a.Post? {
      PushRecorded(s, CallbackWork(a.cb), a.thread, calls);
    } else if a.Spawn? {
      PushRecorded(SetFiber(s, a.newFiber, INIT), FiberWork(a.newFiber), a.thread, calls);
    } else if a.Wake? {
      PushRecorded(s.(tokens := Drop(s.tokens, a.fiber)), FiberWork(a.fiber), a.thread, calls);
    } else if a.Reschedule? {
      RescheduleRecorded(s, a.t, calls);
    } else {
      assert calls + [] == calls;
      if a.Scan? { ScanRecorded(s, a.t, a.k, calls); } else if OfThreads(a) && !a.GiveWake? { LoopRecorded(s, a, calls); }
    }
  }

  lemma {:induction false} RunRecorded(s: State, run: seq<Action>, calls: seq<Call>)
    requires Recorded(s, calls) && IsRun(s, run)
    ensures Recorded(After(s, run), calls + Calls(s, run))
    decreases |run|
  {
    if run == [] {
      assert calls + [] == calls;
    } else {
      StepRecorded(s, run[0], calls);
      RunRecorded(Apply(s, run[0]), run[1..], calls + CallOf(s, run[0]));
      assert calls + CallOf(s, run[0]) + Calls(Apply(s, run[0]), run[1..]) == calls + Calls(s, run);
    }
  }

  /**
    In every run: the n-th call of schedule() is in the queue with the work and the thread it named, behind
    the calls before it; a thread that has taken it, or switches its fiber in, or runs its callback, does
    what the call named, and is the thread that it named, if any.
   */
  lemma AsCalled(s: State, run: seq<Action>)
    requires Initial(s) && IsRun(s, run)
    ensures var s', calls := After(s, run), Calls(s, run);
            && |calls| == s'.nextItem
            && (forall i :: 0 <= i < |s'.queue| ==> s'.queue[i].id < |calls| && calls[s'.queue[i].id] == (s'.queue[i].work, s'.queue[i].thread))
            && (forall i, j :: 0 <= i < j < |s'.queue| ==> s'.queue[i].id < s'.queue[j].id)
            && (forall t :: t in s'.pcs && HasItem(s'.pcs[t]) ==>
                  var n := ItemOf(s'.pcs[t]);
                  n < |calls| && IsFor(s'.pcs[t], calls[n]) && (calls[n].1 == t || calls[n].1 == ANY_THREAD))
  {
    RunRecorded(s, run, []);
    assert [] + Calls(s, run) == Calls(s, run);
    var s' := After(s, run);
    forall t | t in s'.pcs && HasItem(s'.pcs[t]) ensures PcRecorded(s'.pcs[t], t, Calls(s, run)) { }
  }

  // ---------------------------------------------------------------- every item is run once

  /** The item for which an action switches a fiber in. */
  function RanOf(s: State, a: Action): multiset<ItemId>
    requires Enabled(s, a)
  {
    if a.SwapIn? then multiset{s.pcs[a.t].id} else multiset{}
  }

  /** The item that a thread finds to be for a fiber that has ended. */
  function DroppedOf(s: State, a: Action): set<ItemId>
    requires Enabled(s, a)
  {
    if a.Dispatch? && s.pcs[a.t].item.work.FiberWork? && Ended(s.states[s.pcs[a.t].item.work.fiber]) then {s.pcs[a.t].item.id} else {}
  }

  ghost function Ran(s: State, run: seq<Action>): multiset<ItemId>
    requires IsRun(s, run)
    decreases |run|
  {
    if run == [] then multiset{} else RanOf(s, run[0]) + Ran(Apply(s, run[0]), run[1..])
  }

  ghost function DroppedItems(s: State, run: seq<Action>): set<ItemId>
    requires IsRun(s, run)
    decreases |run|
  {
    if run == [] then {} else DroppedOf(s, run[0]) + DroppedItems(Apply(s, run[0]), run[1..])
  }

  /** The thread has switched in for its item. */
  predicate Entered(pc: Pc) { pc.Holding? && pc.stage != Checked }

  ghost predicate RanOk(s: State, ran: multiset<ItemId>, dropped: set<ItemId>) {
    && (forall id: ItemId :: InQueue(s.queue, id) || id >= s.nextItem ==> ran[id] == 0 && id !in dropped)
    && (forall t :: t in s.pcs && HasItem(s.pcs[t]) ==>
          ran[ItemOf(s.pcs[t])] == (if Entered(s.pcs[t]) then 1 else 0) && (ItemOf(s.pcs[t]) in dropped <==> s.pcs[t].Stale?))
    && (forall id :: id in s.finished ==> ran[id] == if id in dropped then 0 else 1)
  }

  lemma PushRan(s: State, work: Work, thread: ThreadId, ran: multiset<ItemId>, dropped: set<ItemId>)
    requires Accounted(s) && RanOk(s, ran, dropped)
    ensures RanOk(Push(s, work, thread), ran, dropped)
  {
    var s' := Push(s, work, thread);
    forall id | InQueue(s'.queue, id) ensures InQueue(s.queue, id) || id == s.nextItem {
      var i :| 0 <= i < |s'.queue| && s'.queue[i].id == id;
      assert i < |s.queue| ==> s.queue[i].id == id;
    }
  }

  lemma ScanRan(s: State, t: ThreadId, k: nat, ran: multiset<ItemId>, dropped: set<ItemId>)
    requires Accounted(s) && RanOk(s, ran, dropped) && Enabled(s, Scan(t, k))
    ensures RanOk(Apply(s, Scan(t, k)), ran, dropped)
  {
    if k < |s.queue| {
      WithoutInQueue(s.queue, k);
      assert InQueue(s.queue, s.queue[k].id);
    }
  }

  /** One thread goes on; its item is that of nobody else. */
  lemma ThreadRan(s: State, s': State, t: ThreadId, ran: multiset<ItemId>, dropped: set<ItemId>, more: multiset<ItemId>, drop: set<ItemId>)
    requires Accounted(s) && RanOk(s, ran, dropped) && t in s.pcs && HasItem(s.pcs[t]) && t in s'.pcs && s'.pcs == s.pcs[t := s'.pcs[t]]
    requires s'.queue == s.queue && s'.nextItem == s.nextItem
    requires var id := ItemOf(s.pcs[t]);
             && (forall x :: x != id ==> more[x] == 0 && x !in drop)
             && (if HasItem(s'.pcs[t]) then
                   && ItemOf(s'.pcs[t]) == id && s'.finished == s.finished
                   && ran[id] + more[id] == (if Entered(s'.pcs[t]) then 1 else 0) && (id in dropped + drop <==> s'.pcs[t].Stale?)
                 else
                   s'.finished == s.finished + {id} && ran[id] + more[id] == if id in dropped + drop then 0 else 1)
    ensures RanOk(s', ran + more, dropped + drop)
  {
    var id := ItemOf(s.pcs[t]);
    assert Held(s.pcs, id);
    forall u | u in s'.pcs && u != t && HasItem(s'.pcs[u]) ensures ItemOf(s'.pcs[u]) != id { }
  }

  /** A step of a thread that has an item. */
  lemma ItemRan(s: State, a: Action, ran: multiset<ItemId>, dropped: set<ItemId>)
    requires Accounted(s) && RanOk(s, ran, dropped) && Enabled(s, a)
    requires OfThreads(a) && !a.Scan? && !a.Reschedule? && !a.GiveWake? && !a.EnterIdle? && !a.LeaveIdle?
    ensures RanOk(Apply(s, a), ran + RanOf(s, a), dropped + DroppedOf(s, a))
  {
    if Staged(a) { StagedRan(s, a, ran, dropped); }
    else if Backing(a) { BackingRan(s, a, ran, dropped); }
    else { DispatchRan(s, a, ran, dropped); }
  }

  lemma StagedRan(s: State, a: Action, ran: multiset<ItemId>, dropped: set<ItemId>)
    requires Accounted(s) && RanOk(s, ran, dropped) && Enabled(s, a) && Staged(a)
    ensures RanOk(Apply(s, a), ran + RanOf(s, a), dropped + DroppedOf(s, a))
  {
    StagedIs(s, a);
    ThreadRan(s, Apply(s, a), a.t, ran, dropped, RanOf(s, a), DroppedOf(s, a));
  }

  lemma BackingRan(s: State, a: Action, ran: multiset<ItemId>, dropped: set<ItemId>)
    requires Accounted(s) && RanOk(s, ran, dropped) && Enabled(s, a) && Backing(a)
    ensures RanOk(Apply(s, a), ran + RanOf(s, a), dropped + DroppedOf(s, a))
  {
    BackingIs(s, a);
    ThreadRan(s, Apply(s, a), a.t, ran, dropped, RanOf(s, a), DroppedOf(s, a));
  }

  lemma DispatchRan(s: State, a: Action, ran: multiset<ItemId>, dropped: set<ItemId>)
    requires Accounted(s) && RanOk(s, ran, dropped) && Enabled(s, a) && a.Dispatch?
    ensures RanOk(Apply(s, a), ran + RanOf(s, a), dropped + DroppedOf(s, a))
  {
    DispatchIs(s, a.t, a.newFiber);
    ThreadRan(s, Apply(s, a), a.t, ran, dropped, RanOf(s, a), DroppedOf(s, a));
  }

  lemma RescheduleRan(s: State, t: ThreadId, ran: multiset<ItemId>, dropped: set<ItemId>)
    requires Accounted(s) && RanOk(s, ran, dropped) && Enabled(s, Reschedule(t))
    ensures RanOk(Apply(s, Reschedule(t)), ran, dropped)
  {
    var pc := s.pcs[t];
    var s0 := DropCbFiber(s, t, pc.cb);
    var s1 := Push(s0, FiberWork(pc.fiber), ANY_THREAD);
    PushRan(s0, FiberWork(pc.fiber), ANY_THREAD, ran, dropped);
    PushAccounted(s0, FiberWork(pc.fiber), ANY_THREAD);
    ThreadRan(s1, Apply(s, Reschedule(t)), t, ran, dropped, multiset{}, {});
    assert ran + multiset{} == ran && dropped + {} == dropped;
  }

  lemma StepRan(s: State, a: Action, ran: multiset<ItemId>, dropped: set<ItemId>)
    requires Accounted(s) && RanOk(s, ran, dropped) && Enabled(s, a)
    ensures RanOk(Apply(s, a), ran + RanOf(s, a), dropped + DroppedOf(s, a))
  {
    if OfThreads(a) && !a.Scan? && !a.Reschedule? && !a.GiveWake? && !a.EnterIdle? && !a.LeaveIdle? {
      ItemRan(s, a, ran, dropped);
    } else {
      assert ran + multiset{} == ran && dropped + {} == dropped;
      OtherRan(s, a, ran, dropped);
    }
  }

  /** A step that schedules, takes an item, or has nothing to do with items. */
  lemma OtherRan(s: State, a: Action, ran: multiset<ItemId>, dropped: set<ItemId>)
    requires Accounted(s) && RanOk(s, ran, dropped) && Enabled(s, a)
    requires !OfThreads(a) || a.Scan? || a.Reschedule? || a.GiveWake? || a.EnterIdle? || a.LeaveIdle?
    ensures RanOk(Apply(s, a), ran, dropped)
  {
    if a.Post? {
      PushRan(s, CallbackWork(a.cb), a.thread, ran, dropped);
    } else if a.Spawn? {
      PushRan(SetFiber(s, a.newFiber, INIT), FiberWork(a.newFiber), a.thread, ran, dropped);
    } else if a.Wake? {
      PushRan(s.(tokens := Drop(s.tokens, a.fiber)), FiberWork(a.fiber), a.thread, ran, dropped);
    } else if a.Scan? {
      ScanRan(s, a.t, a.k, ran, dropped);
    } else if a.Reschedule? {
      RescheduleRan(s, a.t, ran, dropped);
    }
  }

  lemma {:induction false} RunRan(s: State, run: seq<Action>, ran: multiset<ItemId>, dropped: set<ItemId>)
    requires Accounted(s) && RanOk(s, ran, dropped) && IsRun(s, run)
    ensures RanOk(After(s, run), ran + Ran(s, run), dropped + DroppedItems(s, run))
    decreases |run|
  {
    if run == [] {
      assert ran + multiset{} == ran && dropped + {} == dropped;
    } else {
      var a, s1 := run[0], Apply(s, run[0]);
      StepRan(s, a, ran, dropped);
      StepAccounted(s, a);
      RunRan(s1, run[1..], ran + RanOf(s, a), dropped + DroppedOf(s, a));
      assert ran + RanOf(s, a) + Ran(s1, run[1..]) == ran + Ran(s, run);
      assert dropped + DroppedOf(s, a) + DroppedItems(s1, run[1..]) == dropped + DroppedItems(s, run);
    }
  }

  /**
    Every call is carried out once: in every run, disciplined or not, a thread switches in for it at most
    once, and when it is done exactly once -- unless a thread found that its fiber had ended.
   */
  lemma EachRunsOnce(s: State, run: seq<Action>, n: ItemId)
    requires Initial(s) && IsRun(s, run)
    ensures var s', ran, dropped := After(s, run), Ran(s, run), DroppedItems(s, run);
            && ran[n] <= 1
            && (n in s'.finished ==> (ran[n] == 1 <==> n !in dropped))
            && (n !in s'.finished && ran[n] == 1 ==> exists t :: t in s'.pcs && Entered(s'.pcs[t]) && ItemOf(s'.pcs[t]) == n)
  {
    InitialAccounted(s);
    RunRan(s, run, multiset{}, {});
    RunAccounted(s, run);
    assert multiset{} + Ran(s, run) == Ran(s, run) && {} + DroppedItems(s, run) == DroppedItems(s, run);
    var s' := After(s, run);
    assert n < s'.nextItem ==> InQueue(s'.queue, n) || Held(s'.pcs, n) || n in s'.finished;
  }

  // ---------------------------------------------------------------- how fibers begin and end

  /** The action ends the code of fiber f, by an exception or not. */
  predicate Ends(s: State, a: Action, f: FiberId, threw: bool)
    requires Enabled(s, a)
  {
    a.Finish? && a.threw == threw && s.pcs[a.t].fiber == f
  }

  ghost predicate EndsIn(s: State, run: seq<Action>, f: FiberId, threw: bool)
    requires IsRun(s, run)
    decreases |run|
  {
    run != [] && (Ends(s, run[0], f, threw) || EndsIn(Apply(s, run[0]), run[1..], f, threw))
  }

  /** A fiber is TERM or EXCEPT afterwards only if its code has ended that way, or it was before. */
  lemma {:induction false} EndedHow(s: State, run: seq<Action>, f: FiberId)
    requires IsRun(s, run) && f in After(s, run).states && Ended(After(s, run).states[f])
    ensures var st := After(s, run).states[f];
            EndsIn(s, run, f, st == EXCEPT) || (f in s.states && s.states[f] == st)
    decreases |run|
  {
    if run != [] {
      EndedHow(Apply(s, run[0]), run[1..], f);
      var s1 := Apply(s, run[0]);
      if f in s1.states && Ended(s1.states[f]) { StateFrom(s, run[0], f); }
    }
  }

  lemma StateFrom(s: State, a: Action, f: FiberId)
    requires Enabled(s, a) && f in Apply(s, a).states && Ended(Apply(s, a).states[f])
    ensures Ends(s, a, f, Apply(s, a).states[f] == EXCEPT) || (f in s.states && s.states[f] == Apply(s, a).states[f])
  {
    if Staged(a) { StagedIs(s, a); } else if Backing(a) { BackingStates(s, a); } else { OtherIs(s, a); }
  }

  /** The fiber is no thread's callback fiber, and never will be. */
  ghost predicate Plain(s: State, f: FiberId) {
    && f in s.states
    && (forall t :: t in s.cbFiber ==> s.cbFiber[t] != Some(f))
    && (forall t :: t in s.pcs && s.pcs[t].Holding? && s.pcs[t].fiber == f ==> !s.pcs[t].cb)
  }

  lemma PlainStep(s: State, a: Action, f: FiberId)
    requires Plain(s, f) && Enabled(s, a)
    ensures Plain(Apply(s, a), f)
  {
    if Staged(a) {
      StagedIs(s, a);
    } else if Backing(a) {
      BackingIs(s, a);
      BackingStates(s, a);
    } else if Idling(a) {
      IdlingIs(s, a);
    } else if Outside(a) {
      OutsideIs(s, a);
    } else if a.Dispatch? {
      PlainDispatch(s, a.t, a.newFiber, f);
    } else {
      QueueingIs(s, a);
    }
  }

  lemma PlainDispatch(s: State, t: ThreadId, newFiber: FiberId, f: FiberId)
    requires Plain(s, f) && Enabled(s, Dispatch(t, newFiber))
    ensures Plain(Apply(s, Dispatch(t, newFiber)), f)
  {
    DispatchIs(s, t, newFiber);
  }

  /** A plain fiber that has ended stays as it is, in every disciplined run: its code is never resumed. */
  lemma {:induction false} EndedForGood(s: State, run: seq<Action>, f: FiberId)
    requires Inv(s) && Plain(s, f) && Ended(s.states[f]) && DisciplinedRun(s, run)
    ensures var s' := After(s, run);
            && f in s'.states && s'.states[f] == s.states[f]
            && forall t :: Enabled(s', SwapIn(t)) ==> s'.pcs[t].fiber != f
    decreases |run|
  {
    if run == [] {
      forall t | Enabled(s, SwapIn(t)) ensures s.pcs[t].fiber != f { assert PcMatches(s, t); }
    } else {
      EndedStep(s, run[0], f);
      PlainStep(s, run[0], f);
      StepPreserves(s, run[0]);
      EndedForGood(Apply(s, run[0]), run[1..], f);
    }
  }

  lemma EndedStep(s: State, a: Action, f: FiberId)
    requires Inv(s) && Plain(s, f) && Ended(s.states[f]) && Enabled(s, a)
    ensures f in Apply(s, a).states && Apply(s, a).states[f] == s.states[f]
  {
    if Staged(a) { EndedStaged(s, a, f); } else if Backing(a) { EndedBacking(s, a, f); } else { OtherIs(s, a); }
  }

  lemma EndedStaged(s: State, a: Action, f: FiberId)
    requires Inv(s) && f in s.states && Ended(s.states[f]) && Enabled(s, a) && Staged(a)
    ensures f in Apply(s, a).states && Apply(s, a).states[f] == s.states[f]
  {
    StagedIs(s, a);
    assert PcMatches(s, a.t);
  }

  lemma EndedBacking(s: State, a: Action, f: FiberId)
    requires Inv(s) && Plain(s, f) && Ended(s.states[f]) && Enabled(s, a) && Backing(a)
    ensures f in Apply(s, a).states && Apply(s, a).states[f] == s.states[f]
  {
    BackingStates(s, a);
    assert PcMatches(s, a.t);
  }

  /** Fiber f has been spawned, and no thread has switched it in. */
  ghost predicate NeverIn(s: State, f: FiberId) {
    && f in s.states && s.states[f] == INIT
    && forall t :: t in s.pcs && s.pcs[t].Holding? && s.pcs[t].fiber == f ==> s.pcs[t].stage == Checked
  }

  /** Some action of the run switches fiber f in. */
  ghost predicate EntersIn(s: State, run: seq<Action>, f: FiberId)
    requires IsRun(s, run)
    decreases |run|
  {
    run != [] && ((run[0].SwapIn? && s.pcs[run[0].t].fiber == f) || EntersIn(Apply(s, run[0]), run[1..], f))
  }

  /** Threads hold and keep fibers that exist. */
  ghost predicate FibersExist(s: State) {
    && (forall t :: t in s.pcs && s.pcs[t].Holding? ==> s.pcs[t].fiber in s.states)
    && (forall t :: t in s.cbFiber && s.cbFiber[t].Some? ==> s.cbFiber[t].value in s.states)
  }

  lemma ExistStep(s: State, a: Action)
    requires FibersExist(s) && Enabled(s, a)
    ensures FibersExist(Apply(s, a))
  {
    if Staged(a) {
      StagedIs(s, a);
    } else if Backing(a) {
      BackingIs(s, a);
      BackingStates(s, a);
    } else if Idling(a) {
      IdlingIs(s, a);
    } else if Outside(a) {
      OutsideIs(s, a);
    } else if a.Dispatch? {
      DispatchIs(s, a.t, a.newFiber);
    } else {
      QueueingIs(s, a);
    }
  }

  lemma {:induction false} RunExist(s: State, run: seq<Action>)
    requires FibersExist(s) && IsRun(s, run)
    ensures FibersExist(After(s, run))
    decreases |run|
  {
    if run != [] {
      ExistStep(s, run[0]);
      RunExist(Apply(s, run[0]), run[1..]);
    }
  }

  /** A fiber that is spawned in a run is INIT until it is switched in for the first time, and never again. */
  lemma InitUntilEntered(s: State, before: seq<Action>, f: FiberId, thread: ThreadId, run: seq<Action>)
    requires Initial(s) && IsRun(s, before) && Enabled(After(s, before), Spawn(f, thread))
    requires IsRun(Apply(After(s, before), Spawn(f, thread)), run)
    ensures var s1 := Apply(After(s, before), Spawn(f, thread)); var s' := After(s1, run);
            f in s'.states && (s'.states[f] == INIT <==> !EntersIn(s1, run, f))
  {
    RunExist(s, before);
    InitRun(Apply(After(s, before), Spawn(f, thread)), run, f);
  }

  lemma {:induction false} InitRun(s: State, run: seq<Action>, f: FiberId)
    requires Plain(s, f) && IsRun(s, run) && (s.states[f] == INIT ==> NeverIn(s, f))
    ensures var s' := After(s, run);
            f in s'.states && (s'.states[f] == INIT <==> s.states[f] == INIT && !EntersIn(s, run, f))
    decreases |run|
  {
    if run != [] {
      PlainStep(s, run[0], f);
      InitStep(s, run[0], f);
      InitRun(Apply(s, run[0]), run[1..], f);
    }
  }

  lemma InitStep(s: State, a: Action, f: FiberId)
    requires Plain(s, f) && Enabled(s, a) && (s.states[f] == INIT ==> NeverIn(s, f))
    ensures var s' := Apply(s, a);
            && f in s'.states
            && (s'.states[f] == INIT <==> s.states[f] == INIT && !(a.SwapIn? && s.pcs[a.t].fiber == f))
            && (s'.states[f] == INIT ==> NeverIn(s', f))
  {
    if Staged(a) {
      StagedInit(s, a, f);
    } else if Backing(a) {
      BackingInit(s, a, f);
    } else if Idling(a) {
      IdlingIs(s, a);
    } else if Outside(a) {
      OutsideIs(s, a);
    } else if a.Dispatch? {
      DispatchInit(s, a.t, a.newFiber, f);
    } else {
      QueueingIs(s, a);
    }
  }

  lemma DispatchInit(s: State, t: ThreadId, newFiber: FiberId, f: FiberId)
    requires Plain(s, f) && Enabled(s, Dispatch(t, newFiber)) && (s.states[f] == INIT ==> NeverIn(s, f))
    ensures var s' := Apply(s, Dispatch(t, newFiber));
            f in s'.states && s'.states[f] == s.states[f] && (s'.states[f] == INIT ==> NeverIn(s', f))
  {
    DispatchIs(s, t, newFiber);
  }

  lemma StagedInit(s: State, a: Action, f: FiberId)
    requires Plain(s, f) && Enabled(s, a) && Staged(a) && (s.states[f] == INIT ==> NeverIn(s, f))
    ensures var s' := Apply(s, a);
            && f in s'.states
            && (s'.states[f] == INIT <==> s.states[f] == INIT && !(a.SwapIn? && s.pcs[a.t].fiber == f))
            && (s'.states[f] == INIT ==> NeverIn(s', f))
  {
    StagedIs(s, a);
  }

  lemma BackingInit(s: State, a: Action, f: FiberId)
    requires Plain(s, f) && Enabled(s, a) && Backing(a) && (s.states[f] == INIT ==> NeverIn(s, f))
    ensures var s' := Apply(s, a);
            f in s'.states && (s'.states[f] == INIT <==> s.states[f] == INIT) && (s'.states[f] == INIT ==> NeverIn(s', f))
  {
    BackingIs(s, a);
    BackingStates(s, a);
  }

  // ---------------------------------------------------------------- threads exit when the scheduler stops

  /** A stop was asked for, nothing is queued and nobody is active when thread t leaves its idle fiber. */
  predicate SeesStop(s: State, a: Action, t: ThreadId) {
    a == LeaveIdle(t) && s.stopRequested && s.queue == [] && s.active == 0
  }

  ghost predicate SeesStopIn(s: State, run: seq<Action>, t: ThreadId)
    requires IsRun(s, run)
    decreases |run|
  {
    run != [] && (SeesStop(s, run[0], t) || SeesStopIn(Apply(s, run[0]), run[1..], t))
  }

  /** In every run a thread's idle fiber has ended if and only if it has seen that. */
  lemma {:induction false} IdleEndsIff(s: State, run: seq<Action>, t: ThreadId)
    requires IsRun(s, run)
    ensures t in After(s, run).idleEnded <==> t in s.idleEnded || SeesStopIn(s, run, t)
    decreases |run|
  {
    if run != [] { IdleEndsIff(Apply(s, run[0]), run[1..], t); }
  }

  lemma {:induction false} StopWasRequested(s: State, run: seq<Action>)
    requires IsRun(s, run)
    ensures After(s, run).stopRequested <==> s.stopRequested || RequestStop in run
    decreases |run|
  {
    if run != [] {
      StopWasRequested(Apply(s, run[0]), run[1..]);
      assert run == [run[0]] + run[1..];
    }
  }

  lemma {:induction false} ExitedHasEnded(s: State, run: seq<Action>, t: ThreadId)
    requires IsRun(s, run) && (t in s.pcs && s.pcs[t].Exited? ==> t in s.idleEnded)
    ensures t in After(s, run).pcs && After(s, run).pcs[t].Exited? ==> t in After(s, run).idleEnded
    decreases |run|
  {
    if run != [] {
      ExitStep(s, run[0], t);
      ExitedHasEnded(Apply(s, run[0]), run[1..], t);
    }
  }

  lemma ExitStep(s: State, a: Action, t: ThreadId)
    requires Enabled(s, a) && (t in s.pcs && s.pcs[t].Exited? ==> t in s.idleEnded)
    ensures var s' := Apply(s, a); t in s'.pcs && s'.pcs[t].Exited? ==> t in s'.idleEnded
  {
    if Staged(a) { StagedIs(s, a); }
    else if Backing(a) { BackingIs(s, a); }
    else if Outside(a) { OutsideIs(s, a); }
    else if a.Dispatch? { DispatchIs(s, a.t, a.newFiber); }
    else if !Idling(a) { QueueingIs(s, a); }
  }

  /** In every run a thread exits only after a stop was asked for, and after it saw that everything was done. */
  lemma ExitsOnlyWhenStopped(s: State, run: seq<Action>, t: ThreadId)
    requires Initial(s) && IsRun(s, run) && t in After(s, run).pcs && After(s, run).pcs[t].Exited?
    ensures SeesStopIn(s, run, t) && RequestStop in run
  {
    ExitedHasEnded(s, run, t);
    IdleEndsIff(s, run, t);
    SeenMeansRequested(s, run, t);
  }

  lemma {:induction false} SeenMeansRequested(s: State, run: seq<Action>, t: ThreadId)
    requires IsRun(s, run) && SeesStopIn(s, run, t)
    ensures s.stopRequested || RequestStop in run
    decreases |run|
  {
    if !SeesStop(s, run[0], t) {
      SeenMeansRequested(Apply(s, run[0]), run[1..], t);
      assert run == [run[0]] + run[1..];
    }
  }

  /** Once a stop was asked for, nothing is queued and nobody is active, every thread at its loop head can exit, by itself. */
  lemma CanExit(s: State, t: ThreadId) returns (run: seq<Action>)
    requires t in s.pcs && s.pcs[t] == Head && s.stopRequested && s.queue == [] && s.active == 0
    ensures IsRun(s, run) && After(s, run).pcs == s.pcs[t := Exited] && After(s, run).queue == []
  {
    FindNothing(s, t);
    run := ExtendTwo(s, [], Scan(t, 0), EnterIdle(t));
    if t !in s.idleEnded {
      var s1 := After(s, run);
      SeeStop(s1, t);
      run := Extend(s, run, LeaveIdle(t));
      FindNothing(Apply(s1, LeaveIdle(t)), t);
      run := ExtendTwo(s, run, Scan(t, 0), EnterIdle(t));
    }
  }

  lemma FindNothing(s: State, t: ThreadId)
    requires t in s.pcs && s.pcs[t] == Head && s.queue == []
    ensures Enabled(s, Scan(t, 0)) && Enabled(Apply(s, Scan(t, 0)), EnterIdle(t))
    ensures Apply(Apply(s, Scan(t, 0)), EnterIdle(t)) == s.(pcs := s.pcs[t := if t in s.idleEnded then Exited else Idle])
  {
    var s1 := Apply(s, Scan(t, 0));
    assert s1 == s.(pcs := s.pcs[t := NoWork]);
    assert Apply(s1, EnterIdle(t)).pcs == s.pcs[t := if t in s.idleEnded then Exited else Idle];
  }

  lemma SeeStop(s: State, t: ThreadId)
    requires t in s.pcs && s.pcs[t] == Idle && s.stopRequested && s.queue == [] && s.active == 0
    ensures Enabled(s, LeaveIdle(t)) && Apply(s, LeaveIdle(t)) == s.(pcs := s.pcs[t := Head], idleEnded := s.idleEnded + {t})
  {
  }
}
