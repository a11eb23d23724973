/**
  The multi-threaded run loop of the scheduler (yk/scheduler.cc) together with the fiber
  state machine (yk/fiber.cc), as a step system.

  Worker threads share the queue under one mutex, while fiber states are read and written
  outside it.  Every access to shared state is a step of its own, except that a scan, which holds the
  mutex, is one step: it may pass any fiber, as that may have been EXEC when the scan came to it.  A run
  is an arbitrary interleaving of the threads, of the code running on fibers, and of outside callers.
 */
module SchedulerProtocol {
  import opened Common
  import opened Scheduling

  /** How far a thread has got with the fiber it holds. */
  datatype Stage =
    | Checked   // about to switch the fiber in
    | On        // the fiber's code is running on this thread
    | Leaving   // the fiber's code is switching out; its context is not saved yet
    | Back      // the switch-out has finished and the run loop continues
    | Settled   // the active counter has been decremented
    | Requeue   // the state was READY: about to schedule the fiber again
    | Marking   // the state was none of READY, TERM, EXCEPT: about to write HOLD

  /** Program counter of one worker thread. */
  datatype Pc =
    | Head
    | Took(item: Item)
    | Stale(id: ItemId)                                        // took a fiber that had ended
    | Holding(stage: Stage, id: ItemId, fiber: FiberId, cb: bool)
    | NoWork
    | Idle
    | Exited

  datatype State = State(
    states: map<FiberId, FiberState>,
    queue: seq<Item>,
    pcs: map<ThreadId, Pc>,
    cbFiber: map<ThreadId, Option<FiberId>>,   // each thread's reusable callback fiber
    idleEnded: set<ThreadId>,                  // threads whose idle fiber is TERM
    active: int,
    tokens: map<FiberId, nat>,                 // how many wake-up sources hold a fiber and have not scheduled it yet
    nextItem: ItemId,
    finished: set<ItemId>,
    stopRequested: bool)

  datatype Action =
    | Post(cb: CallbackId, thread: ThreadId)
    | Spawn(newFiber: FiberId, thread: ThreadId)
    | Scan(t: ThreadId, k: nat)                  // takes entry k, or none when k is the end of the queue
    | Dispatch(t: ThreadId, newFiber: FiberId)   // newFiber: the fiber allocated when the thread has no callback fiber
    | SwapIn(t: ThreadId)
    | GiveWake(t: ThreadId)
    | Wake(fiber: FiberId, thread: ThreadId)
    | YieldToReady(t: ThreadId)
    | YieldToHold(t: ThreadId)
    | Finish(t: ThreadId, threw: bool)
    | SwapOut(t: ThreadId)
    | Decrement(t: ThreadId)
    | Settle(t: ThreadId)
    | Reschedule(t: ThreadId)
    | MarkHold(t: ThreadId)
    | EnterIdle(t: ThreadId)
    | LeaveIdle(t: ThreadId)
    | RequestStop

  // ---------------------------------------------------------------- the step relation

  predicate Ended(st: FiberState) { st == TERM || st == EXCEPT }

  predicate Runnable(st: FiberState) { st == INIT || st == HOLD || st == READY }

  /** Scheduler::stopping. */
  predicate Stopping(s: State) {
    s.stopRequested && s.queue == [] && s.active == 0
  }

  predicate Executing(item: Item, states: map<FiberId, FiberState>) {
    item.work.FiberWork? && item.work.fiber in states && states[item.work.fiber] == EXEC
  }

  /**
    A scan by thread t can take entry k: it is eligible now, and the scan passed every entry before it,
    which is pinned elsewhere or a fiber that may have been EXEC at the time.  It can take none when it
    may have passed them all.
   */
  predicate MayTake(queue: seq<Item>, states: map<FiberId, FiberState>, k: nat, t: ThreadId) {
    && k <= |queue|
    && (k < |queue| ==> Eligible(queue[k], Executing(queue[k], states), t))
    && (forall i :: 0 <= i < k ==> PinnedElsewhere(queue[i], t) || queue[i].work.FiberWork?)
  }

  /** Whatever the scan sees of the fibers it passes, the entry it takes is one it can take. */
  lemma ScanMayTake(queue: seq<Item>, exec: seq<bool>, states: map<FiberId, FiberState>, t: ThreadId)
    requires |exec| == |queue|
    ensures var k := FirstEligible(queue, exec, t);
            (k < |queue| ==> exec[k] == Executing(queue[k], states)) ==> MayTake(queue, states, k, t)
  {
  }

  predicate AtStage(s: State, t: ThreadId, stage: Stage) {
    t in s.pcs && s.pcs[t].Holding? && s.pcs[t].stage == stage && s.pcs[t].fiber in s.states
  }

  predicate Enabled(s: State, a: Action) {
    match a
    case Post(_, _) => true
    case Spawn(newFiber, _) => newFiber !in s.states
    case Scan(t, k) => t in s.pcs && s.pcs[t].Head? && MayTake(s.queue, s.states, k, t)
    case Dispatch(t, newFiber) =>
      && t in s.pcs && s.pcs[t].Took? && t in s.cbFiber
      && (s.pcs[t].item.work.FiberWork? ==> s.pcs[t].item.work.fiber in s.states)
      && (s.pcs[t].item.work.CallbackWork? && s.cbFiber[t] == None ==> newFiber !in s.states)
    case SwapIn(t) => AtStage(s, t, Checked)
    case GiveWake(t) => AtStage(s, t, On)
    case Wake(f, _) => f in s.tokens
    case YieldToReady(t) => AtStage(s, t, On)
    case YieldToHold(t) => AtStage(s, t, On)
    case Finish(t, _) => AtStage(s, t, On)
    case SwapOut(t) => AtStage(s, t, Leaving)
    case Decrement(t) => AtStage(s, t, Back) || (t in s.pcs && s.pcs[t].Stale?)
    case Settle(t) => AtStage(s, t, Settled) && t in s.cbFiber
    case Reschedule(t) => AtStage(s, t, Requeue) && t in s.cbFiber
    case MarkHold(t) => AtStage(s, t, Marking) && t in s.cbFiber
    case EnterIdle(t) => t in s.pcs && s.pcs[t].NoWork?
    case LeaveIdle(t) => t in s.pcs && s.pcs[t].Idle?
    case RequestStop => true
  }

  function Push(s: State, work: Work, thread: ThreadId): State {
    s.(queue := s.queue + [Item(s.nextItem, work, thread)], nextItem := s.nextItem + 1)
  }

  /** One more source holds fiber f. */
  function Give(tokens: map<FiberId, nat>, f: FiberId): map<FiberId, nat> {
    tokens[f := if f in tokens then tokens[f] + 1 else 1]
  }

  /** One of them has scheduled it. */
  function Drop(tokens: map<FiberId, nat>, f: FiberId): map<FiberId, nat>
    requires f in tokens
  {
    if tokens[f] <= 1 then tokens - {f} else tokens[f := tokens[f] - 1]
  }

  function AtPc(s: State, t: ThreadId, pc: Pc): State {
    s.(pcs := s.pcs[t := pc])
  }

  function SetFiber(s: State, f: FiberId, st: FiberState): State {
    s.(states := s.states[f := st])
  }

  /** Moves the thread back to the loop head and records its item as finished. */
  function Done(s: State, t: ThreadId, id: ItemId): State {
    AtPc(s, t, Head).(finished := s.finished + {id})
  }

  function Apply(s: State, a: Action): (s': State)
    requires Enabled(s, a)
  {
    match a
    case Post(c, thread) => Push(s, CallbackWork(c), thread)
    case Spawn(newFiber, thread) => Push(SetFiber(s, newFiber, INIT), FiberWork(newFiber), thread)
    case Scan(t, k) =>
      if k == |s.queue| then AtPc(s, t, NoWork)
      else AtPc(s, t, Took(s.queue[k])).(queue := Without(s.queue, k), active := s.active + 1)
    case Dispatch(t, newFiber) =>
      var item := s.pcs[t].item;
      (match item.work
       case FiberWork(f) =>
         if Ended(s.states[f]) then AtPc(s, t, Stale(item.id))
         else AtPc(s, t, Holding(Checked, item.id, f, false))
       case CallbackWork(_) =>
         var f := if s.cbFiber[t].Some? then s.cbFiber[t].value else newFiber;
         AtPc(SetFiber(s, f, INIT), t, Holding(Checked, item.id, f, true))
           .(cbFiber := s.cbFiber[t := Some(f)]))
    case SwapIn(t) => Stay(SetFiber(s, s.pcs[t].fiber, EXEC), t, On)
    case GiveWake(t) => s.(tokens := Give(s.tokens, s.pcs[t].fiber))
    case Wake(f, thread) => Push(s, FiberWork(f), thread).(tokens := Drop(s.tokens, f))
    case YieldToReady(t) => Stay(SetFiber(s, s.pcs[t].fiber, READY), t, Leaving)
    case YieldToHold(t) => Stay(s, t, Leaving)
    case Finish(t, threw) => Stay(SetFiber(s, s.pcs[t].fiber, if threw then EXCEPT else TERM), t, Leaving)
    case SwapOut(t) => Stay(s, t, Back)
    case Decrement(t) =>
      if s.pcs[t].Stale? then Done(s, t, s.pcs[t].id).(active := s.active - 1)
      else Stay(s, t, Settled).(active := s.active - 1)
    case Settle(t) =>
      var pc := s.pcs[t];
      if s.states[pc.fiber] == READY then Stay(s, t, Requeue)
      else if !Ended(s.states[pc.fiber]) then Stay(s, t, Marking)
      else if pc.cb then Done(SetFiber(s, pc.fiber, INIT), t, pc.id)   // cb_fiber->reset(nullptr)
      else Done(s, t, pc.id)
    case Reschedule(t) =>
      var pc := s.pcs[t];
      Done(Push(DropCbFiber(s, t, pc.cb), FiberWork(pc.fiber), ANY_THREAD), t, pc.id)
    case MarkHold(t) =>
      var pc := s.pcs[t];
      Done(SetFiber(DropCbFiber(s, t, pc.cb), pc.fiber, HOLD), t, pc.id)
    case EnterIdle(t) => AtPc(s, t, if t in s.idleEnded then Exited else Idle)
    case LeaveIdle(t) =>
      AtPc(s, t, Head).(idleEnded := if Stopping(s) then s.idleEnded + {t} else s.idleEnded)
    case RequestStop => s.(stopRequested := true)
  }

  function Stay(s: State, t: ThreadId, stage: Stage): State
    requires t in s.pcs && s.pcs[t].Holding?
  {
    AtPc(s, t, s.pcs[t].(stage := stage))
  }

  function DropCbFiber(s: State, t: ThreadId, cb: bool): State {
    if cb then s.(cbFiber := s.cbFiber[t := None]) else s
  }

  // ---------------------------------------------------------------- wake-up discipline

  predicate Queued(queue: seq<Item>, f: FiberId) {
    exists i :: 0 <= i < |queue| && queue[i].work == FiberWork(f)
  }

  /** A wake-up for f is still to come: a source holds f, or f is in the queue. */
  predicate Outstanding(queue: seq<Item>, tokens: map<FiberId, nat>, f: FiberId) {
    f in tokens || Queued(queue, f)
  }

  /**
    What the scheduler asks of the code it runs: a fiber hands itself to a wake-up source only when no
    wake-up is outstanding, and does not yield READY while one is; nor does a callback end while one is
    for the fiber it runs in.  A plain fiber may end at any time: its wake-up finds it ended.
   */
  predicate Disciplined(s: State, a: Action)
    requires Enabled(s, a)
  {
    match a
    case GiveWake(t) => !Outstanding(s.queue, s.tokens, s.pcs[t].fiber)
    case YieldToReady(t) => !Outstanding(s.queue, s.tokens, s.pcs[t].fiber)
    case Finish(t, _) => s.pcs[t].cb ==> !Outstanding(s.queue, s.tokens, s.pcs[t].fiber)
    case _ => true
  }

  // ---------------------------------------------------------------- runs

  predicate Initial(s: State) {
    && s.states == map[] && s.queue == [] && s.cbFiber.Keys == s.pcs.Keys
    && (forall t :: t in s.pcs ==> s.pcs[t] == Head && s.cbFiber[t] == None)
    && s.idleEnded == {} && s.active == 0 && s.tokens == map[]
    && s.nextItem == 0 && s.finished == {} && !s.stopRequested
  }

  ghost predicate IsRun(s: State, run: seq<Action>)
    decreases |run|
  {
    run == [] || (Enabled(s, run[0]) && IsRun(Apply(s, run[0]), run[1..]))
  }

  ghost predicate DisciplinedRun(s: State, run: seq<Action>)
    decreases |run|
  {
    run == [] || (Enabled(s, run[0]) && Disciplined(s, run[0]) && DisciplinedRun(Apply(s, run[0]), run[1..]))
  }

  /** The state a run ends in (a step that is not enabled ends the run). */
  ghost function After(s: State, run: seq<Action>): State
    decreases |run|
  {
    if run == [] || !Enabled(s, run[0]) then s else After(Apply(s, run[0]), run[1..])
  }

  // ---------------------------------------------------------------- safety invariant

  /** The thread has taken an item for a fiber, or holds a fiber. */
  predicate HasFiber(pc: Pc) { pc.Holding? || (pc.Took? && pc.item.work.FiberWork?) }

  function FiberOf(pc: Pc): FiberId
    requires HasFiber(pc)
  {
    if pc.Holding? then pc.fiber else pc.item.work.fiber
  }

  predicate Owns(pc: Pc, f: FiberId) { HasFiber(pc) && FiberOf(pc) == f }

  /** No thread but t has anything to do with fiber f. */
  ghost predicate Sole(s: State, t: ThreadId, f: FiberId) {
    forall u :: u in s.pcs && u != t ==> !Owns(s.pcs[u], f)
  }

  /** The fiber's code is on the thread's processor, or its switch-out has not finished. */
  predicate OnProcessor(pc: Pc, f: FiberId) {
    pc.Holding? && pc.fiber == f && (pc.stage == On || pc.stage == Leaving)
  }

  /** Some fiber is on the thread's processor: the one it holds. */
  predicate OnSome(pc: Pc) { HasFiber(pc) && OnProcessor(pc, FiberOf(pc)) }

  ghost predicate WellFormed(s: State) {
    && s.cbFiber.Keys == s.pcs.Keys
    && (forall i :: 0 <= i < |s.queue| && s.queue[i].work.FiberWork? ==> s.queue[i].work.fiber in s.states)
    && (forall f :: f in s.tokens ==> f in s.states)
    && (forall t :: t in s.cbFiber && s.cbFiber[t].Some? ==> s.cbFiber[t].value in s.states)
  }

  /** Two threads have to do with one fiber only when it has ended, and then one of them has only taken its item. */
  ghost predicate OneOwner(s: State) {
    forall t, u :: t in s.pcs && u in s.pcs && t != u && HasFiber(s.pcs[t]) && Owns(s.pcs[u], FiberOf(s.pcs[t])) ==>
      && !(s.pcs[t].Holding? && s.pcs[u].Holding?)
      && FiberOf(s.pcs[t]) in s.states && Ended(s.states[FiberOf(s.pcs[t])])
  }

  ghost predicate OneWake(queue: seq<Item>, tokens: map<FiberId, nat>) {
    && (forall i, j :: 0 <= i < j < |queue| && queue[i].work.FiberWork? ==> queue[i].work != queue[j].work)
    && (forall f :: f in tokens ==> !Queued(queue, f))
    && (forall f :: f in tokens ==> tokens[f] == 1)
  }

  /** What the state of its fiber says at each point of a thread; `out`: a wake-up for the fiber is outstanding. */
  predicate Matches(pc: Pc, st: FiberState, out: bool)
    requires HasFiber(pc)
  {
    match pc
    case Took(_) => Ended(st) || (Runnable(st) && !out)
    case Holding(stage, _, _, cb) =>
      (match stage
       case Checked => Runnable(st) && !out
       case On => st == EXEC
       case Requeue => st == READY && !out
       case Marking => st == EXEC
       case _ => st == EXEC || (st == READY && !out) || (Ended(st) && (cb ==> !out)))
    case _ => true
  }

  ghost predicate PcMatches(s: State, t: ThreadId)
    requires t in s.pcs
  {
    HasFiber(s.pcs[t]) ==>
      && FiberOf(s.pcs[t]) in s.states
      && Matches(s.pcs[t], s.states[FiberOf(s.pcs[t])], Outstanding(s.queue, s.tokens, FiberOf(s.pcs[t])))
  }

  ghost predicate PcsMatchStates(s: State) {
    forall t :: t in s.pcs ==> PcMatches(s, t)
  }

  /** A thread runs a fiber in callback mode exactly when that fiber is its own callback fiber. */
  ghost predicate CbFlags(s: State) {
    forall t :: t in s.pcs && t in s.cbFiber ==> CbFlagged(s.pcs[t], s.cbFiber[t])
  }

  predicate CbFlagged(pc: Pc, own: Option<FiberId>) {
    && (pc.Holding? ==> (pc.cb <==> own == Some(pc.fiber)))
    && (pc.Took? && pc.item.work.FiberWork? ==> own != Some(pc.item.work.fiber))
  }

  /** No other thread has anything to do with a thread's callback fiber. */
  ghost predicate CbFibersPrivate(s: State) {
    forall t, u :: t in s.cbFiber && u in s.pcs && u in s.cbFiber && s.cbFiber[t].Some? && t != u ==>
      s.cbFiber[t] != s.cbFiber[u] && !Owns(s.pcs[u], s.cbFiber[t].value)
  }

  /** A thread's callback fiber is INIT, and nobody will wake it, whenever the thread is not using it. */
  ghost predicate CbReset(s: State, t: ThreadId)
    requires t in s.pcs && t in s.cbFiber
  {
    s.cbFiber[t].Some? && !Owns(s.pcs[t], s.cbFiber[t].value) ==>
      && s.cbFiber[t].value in s.states
      && s.states[s.cbFiber[t].value] == INIT && !Outstanding(s.queue, s.tokens, s.cbFiber[t].value)
  }

  ghost predicate CbFibersReset(s: State) {
    forall t :: t in s.pcs && t in s.cbFiber ==> CbReset(s, t)
  }

  ghost predicate CbInv(s: State) {
    CbFlags(s) && CbFibersPrivate(s) && CbFibersReset(s)
  }

  ghost predicate Inv(s: State) {
    WellFormed(s) && OneOwner(s) && OneWake(s.queue, s.tokens) && PcsMatchStates(s) && CbInv(s)
  }

  lemma InitialInv(s: State)
    requires Initial(s)
    ensures Inv(s)
  {
  }

  // ---------------------------------------------------------------- steps of one thread

  /**
    Thread t goes on, possibly with another callback fiber; queue and tokens stay as they are; it writes at
    most the state of fiber f, with which no other thread has to do, and it has to do with no new fiber.
   */
  ghost predicate Moves(s: State, s': State, t: ThreadId, f: FiberId) {
    && t in s.pcs && t in s'.pcs && s'.pcs == s.pcs[t := s'.pcs[t]]
    && s'.queue == s.queue && s'.tokens == s.tokens
    && (s'.states == s.states || (f in s'.states && s'.states == s.states[f := s'.states[f]] && Sole(s, t, f)))
    && (HasFiber(s'.pcs[t]) ==> s'.pcs[t].Holding? && (KeepsHolding(s, s', t) || Sole(s, t, s'.pcs[t].fiber)))
  }

  ghost predicate KeepsHolding(s: State, s': State, t: ThreadId)
    requires t in s.pcs && t in s'.pcs && s'.pcs[t].Holding?
  {
    s.pcs[t].Holding? && s'.pcs[t].fiber == s.pcs[t].fiber
  }

  lemma MovesOwners(s: State, s': State, t: ThreadId, f: FiberId)
    requires OneOwner(s) && Moves(s, s', t, f)
    ensures OneOwner(s')
  {
    forall u, v | u in s'.pcs && v in s'.pcs && u != v && HasFiber(s'.pcs[u]) && Owns(s'.pcs[v], FiberOf(s'.pcs[u]))
      ensures !(s'.pcs[u].Holding? && s'.pcs[v].Holding?)
      ensures FiberOf(s'.pcs[u]) in s'.states && Ended(s'.states[FiberOf(s'.pcs[u])])
    {
      MovesPair(s, s', t, f, u, v);
    }
  }

  lemma MovesPair(s: State, s': State, t: ThreadId, f: FiberId, u: ThreadId, v: ThreadId)
    requires OneOwner(s) && Moves(s, s', t, f)
    requires u in s'.pcs && v in s'.pcs && u != v && HasFiber(s'.pcs[u]) && Owns(s'.pcs[v], FiberOf(s'.pcs[u]))
    ensures !(s'.pcs[u].Holding? && s'.pcs[v].Holding?)
    ensures FiberOf(s'.pcs[u]) in s'.states && Ended(s'.states[FiberOf(s'.pcs[u])])
  {
    assert u in s.pcs && v in s.pcs;
    var g := FiberOf(s'.pcs[u]);
    assert u != t ==> s'.pcs[u] == s.pcs[u];
    assert v != t ==> s'.pcs[v] == s.pcs[v];
    assert Owns(s.pcs[u], g) && Owns(s.pcs[v], g);
  }

  lemma MovesMatch(s: State, s': State, t: ThreadId, f: FiberId)
    requires PcsMatchStates(s) && Moves(s, s', t, f) && PcMatches(s', t)
    ensures PcsMatchStates(s')
  {
    forall u | u in s'.pcs && u != t ensures PcMatches(s', u) {
      assert s'.pcs[u] == s.pcs[u] && PcMatches(s, u);
    }
  }

  lemma MovesReset(s: State, s': State, t: ThreadId, f: FiberId)
    requires CbFibersReset(s) && Moves(s, s', t, f) && s'.cbFiber.Keys == s.cbFiber.Keys && t in s.cbFiber
    requires forall u :: u in s.cbFiber && u != t ==> s'.cbFiber[u] == s.cbFiber[u] && (s'.states == s.states || s.cbFiber[u] != Some(f))
    requires CbReset(s', t)
    ensures CbFibersReset(s')
  {
    forall u | u in s'.pcs && u in s'.cbFiber && u != t ensures CbReset(s', u) {
      assert s'.pcs[u] == s.pcs[u] && CbReset(s, u);
    }
  }

  /** The callback fiber of t stays what it is. */
  lemma LocalCb(s: State, s': State, t: ThreadId, f: FiberId)
    requires CbInv(s) && Moves(s, s', t, f) && s'.cbFiber == s.cbFiber && t in s.cbFiber
    requires CbFlagged(s'.pcs[t], s.cbFiber[t]) && CbReset(s', t)
    requires s'.states == s.states || Owns(s.pcs[t], f)
    requires HasFiber(s'.pcs[t]) ==> Owns(s.pcs[t], FiberOf(s'.pcs[t]))
    ensures CbInv(s')
  {
    MovesReset(s, s', t, f);
  }

  /** A step of thread t that takes no new fiber and leaves the callback fibers alone. */
  lemma LocalStep(s: State, s': State, t: ThreadId, f: FiberId)
    requires Inv(s) && Moves(s, s', t, f) && s'.cbFiber == s.cbFiber
    requires s'.states == s.states || Owns(s.pcs[t], f)
    requires HasFiber(s'.pcs[t]) ==> Owns(s.pcs[t], FiberOf(s'.pcs[t]))
    requires PcMatches(s', t) && CbFlagged(s'.pcs[t], s.cbFiber[t]) && CbReset(s', t)
    ensures Inv(s')
  {
    MovesOwners(s, s', t, f);
    MovesMatch(s, s', t, f);
    LocalCb(s, s', t, f);
  }

  /** A fiber that has not ended, or is a thread's own callback fiber, is nobody else's business. */
  lemma IsSole(s: State, t: ThreadId)
    requires Inv(s) && t in s.pcs && HasFiber(s.pcs[t])
    requires FiberOf(s.pcs[t]) in s.states
    requires !Ended(s.states[FiberOf(s.pcs[t])]) || (s.pcs[t].Holding? && s.pcs[t].cb)
    ensures Sole(s, t, FiberOf(s.pcs[t]))
  {
  }

  /** Thread t starts to use f, which nobody holds or will wake, as its callback fiber. */
  lemma Adopt(s: State, s': State, t: ThreadId, f: FiberId)
    requires Inv(s) && t in s.pcs && !Outstanding(s.queue, s.tokens, f) && Sole(s, t, f)
    requires forall u :: u in s.cbFiber && u != t ==> s.cbFiber[u] != Some(f)
    requires t in s'.pcs && s'.pcs[t].Holding? && s'.pcs[t].fiber == f && s'.pcs[t].stage == Checked && s'.pcs[t].cb
    requires s' == s.(states := s.states[f := INIT], pcs := s.pcs[t := s'.pcs[t]], cbFiber := s.cbFiber[t := Some(f)])
    ensures Inv(s')
  {
    MovesOwners(s, s', t, f);
    MovesMatch(s, s', t, f);
    MovesReset(s, s', t, f);
    NewCbPrivate(s, s', t, f);
  }

  /** The callback fiber of t is f now, or none, and t has to do with f or nothing. */
  lemma NewCbPrivate(s: State, s': State, t: ThreadId, f: FiberId)
    requires CbFlags(s) && CbFibersPrivate(s) && t in s.pcs && t in s'.pcs && s'.pcs == s.pcs[t := s'.pcs[t]]
    requires s'.cbFiber.Keys == s.cbFiber.Keys && t in s.cbFiber && s'.cbFiber == s.cbFiber[t := s'.cbFiber[t]]
    requires Sole(s, t, f) && forall u :: u in s.cbFiber && u != t ==> s.cbFiber[u] != Some(f)
    requires HasFiber(s'.pcs[t]) ==> FiberOf(s'.pcs[t]) == f
    requires s'.cbFiber[t] == None || s'.cbFiber[t] == Some(f) || s'.cbFiber[t] == s.cbFiber[t]
    requires CbFlagged(s'.pcs[t], s'.cbFiber[t])
    ensures CbFlags(s') && CbFibersPrivate(s')
  {
  }

  /** The thread hands its fiber back: it may write its state, drop it as callback fiber and go to the loop head. */
  ghost predicate HandsBack(s: State, s': State, t: ThreadId) {
    && t in s.pcs && s.pcs[t].Holding? && Sole(s, t, s.pcs[t].fiber)
    && s' == s.(states := s'.states, pcs := s.pcs[t := Head], cbFiber := s'.cbFiber, finished := s'.finished)
    && s'.cbFiber == (if s.pcs[t].cb then s.cbFiber[t := None] else s.cbFiber)
    && s.pcs[t].fiber in s'.states && s'.states == s.states[s.pcs[t].fiber := s'.states[s.pcs[t].fiber]]
  }

  lemma HandBack(s: State, s': State, t: ThreadId)
    requires Inv(s) && HandsBack(s, s', t)
    ensures Inv(s')
    ensures forall u :: u in s'.pcs ==> !Owns(s'.pcs[u], s.pcs[t].fiber)
    ensures forall u :: u in s'.cbFiber ==> s'.cbFiber[u] != Some(s.pcs[t].fiber)
  {
    var f := s.pcs[t].fiber;
    HandBackFree(s, s', t);
    MovesOwners(s, s', t, f);
    MovesMatch(s, s', t, f);
    assert CbReset(s, t);
    MovesReset(s, s', t, f);
    NewCbPrivate(s, s', t, f);
  }

  /** Then nobody has it. */
  lemma HandBackFree(s: State, s': State, t: ThreadId)
    requires Inv(s) && HandsBack(s, s', t)
    ensures forall u :: u in s'.pcs ==> !Owns(s'.pcs[u], s.pcs[t].fiber)
    ensures forall u :: u in s'.cbFiber ==> s'.cbFiber[u] != Some(s.pcs[t].fiber)
    ensures forall u :: u in s.cbFiber && u != t ==> s.cbFiber[u] != Some(s.pcs[t].fiber)
  {
    forall u | u in s.cbFiber && u != t ensures s.cbFiber[u] != Some(s.pcs[t].fiber) { assert Owns(s.pcs[t], s.pcs[t].fiber); }
  }

  // ---------------------------------------------------------------- steps on the queue

  /** The outstanding wake-ups of s' are those of s and one for f, if any. */
  ghost predicate WakesGrow(s: State, s': State, f: Option<FiberId>) {
    forall g: FiberId :: Outstanding(s'.queue, s'.tokens, g) <==> Outstanding(s.queue, s.tokens, g) || f == Some(g)
  }

  /** Only wake-ups were added, if any for a fiber that nobody has to do with, or that is EXEC. */
  lemma MoreWakes(s: State, s': State, f: Option<FiberId>)
    requires Inv(s) && s'.pcs == s.pcs && s'.states == s.states && s'.cbFiber == s.cbFiber && WakesGrow(s, s', f)
    requires WellFormed(s') && OneWake(s'.queue, s'.tokens)
    requires f.Some? ==> f.value in s.states && forall t :: t in s.pcs && Owns(s.pcs[t], f.value) ==> s.pcs[t].Holding? && s.pcs[t].stage == On
    requires f.Some? ==> forall t :: t in s.pcs && t in s.cbFiber && s.cbFiber[t] == f ==> Owns(s.pcs[t], f.value)
    ensures Inv(s')
  {
    forall t | t in s'.pcs ensures PcMatches(s', t) { assert PcMatches(s, t); }
    forall t | t in s'.pcs && t in s'.cbFiber ensures CbReset(s', t) { assert CbReset(s, t); }
  }

  lemma PushOutstanding(s: State, work: Work, thread: ThreadId)
    ensures var s' := Push(s, work, thread);
            forall f :: Queued(s'.queue, f) <==> Queued(s.queue, f) || work == FiberWork(f)
  {
    var s' := Push(s, work, thread);
    forall f ensures Queued(s'.queue, f) <==> Queued(s.queue, f) || work == FiberWork(f) {
      assert s'.queue[|s.queue|].work == work;
      assert forall i :: 0 <= i < |s.queue| ==> s'.queue[i] == s.queue[i];
    }
  }

  lemma PushOneWake(s: State, work: Work, thread: ThreadId)
    requires OneWake(s.queue, s.tokens) && (work.FiberWork? ==> !Outstanding(s.queue, s.tokens, work.fiber))
    ensures OneWake(Push(s, work, thread).queue, s.tokens)
  {
    PushOutstanding(s, work, thread);
    forall i | 0 <= i < |s.queue| && s.queue[i].work.FiberWork? ensures s.queue[i].work != work {
      assert Queued(s.queue, s.queue[i].work.fiber);
    }
  }

  lemma PostPreserves(s: State, c: CallbackId, thread: ThreadId)
    requires Inv(s)
    ensures Inv(Apply(s, Post(c, thread)))
  {
    PushOutstanding(s, CallbackWork(c), thread);
    PushOneWake(s, CallbackWork(c), thread);
    MoreWakes(s, Apply(s, Post(c, thread)), None);
  }

  lemma PushUnowned(s: State, f: FiberId, thread: ThreadId)
    requires Inv(s) && f in s.states && !Outstanding(s.queue, s.tokens, f)
    requires forall u :: u in s.pcs ==> !Owns(s.pcs[u], f)
    requires forall u :: u in s.cbFiber ==> s.cbFiber[u] != Some(f)
    ensures Inv(Push(s, FiberWork(f), thread))
  {
    PushOutstanding(s, FiberWork(f), thread);
    PushOneWake(s, FiberWork(f), thread);
    MoreWakes(s, Push(s, FiberWork(f), thread), Some(f));
  }

  lemma SpawnPreserves(s: State, newFiber: FiberId, thread: ThreadId)
    requires Inv(s) && newFiber !in s.states
    ensures Inv(Apply(s, Spawn(newFiber, thread)))
  {
    forall t | t in s.pcs ensures !Owns(s.pcs[t], newFiber) { assert PcMatches(s, t); }
    assert !Outstanding(s.queue, s.tokens, newFiber);
    NewFiberPreserves(s, newFiber);
    PushUnowned(SetFiber(s, newFiber, INIT), newFiber, thread);
  }

  lemma NewFiberPreserves(s: State, f: FiberId)
    requires Inv(s) && f !in s.states
    ensures Inv(SetFiber(s, f, INIT))
  {
    var s' := SetFiber(s, f, INIT);
    forall t | t in s.pcs ensures PcMatches(s', t) { assert PcMatches(s, t); }
    forall t | t in s.pcs && t in s.cbFiber ensures CbReset(s', t) { assert CbReset(s, t); }
  }

  lemma GiveWakePreserves(s: State, t: ThreadId)
    requires Inv(s) && Enabled(s, GiveWake(t)) && Disciplined(s, GiveWake(t))
    ensures Inv(Apply(s, GiveWake(t)))
  {
    var f := s.pcs[t].fiber;
    assert PcMatches(s, t);
    IsSole(s, t);
    forall u | u in s.pcs && u in s.cbFiber && s.cbFiber[u] == Some(f) ensures u == t { assert Owns(s.pcs[t], f); }
    MoreWakes(s, Apply(s, GiveWake(t)), Some(f));
  }

  lemma WakePreserves(s: State, f: FiberId, thread: ThreadId)
    requires Inv(s) && Enabled(s, Wake(f, thread))
    ensures Inv(Apply(s, Wake(f, thread)))
  {
    var s1 := s.(tokens := Drop(s.tokens, f));
    PushOutstanding(s1, FiberWork(f), thread);
    assert Drop(s.tokens, f) == s.tokens - {f};
    assert !Queued(s.queue, f);
    PushOneWake(s1, FiberWork(f), thread);
    MoreWakes(s, Apply(s, Wake(f, thread)), None);
  }

  lemma WithoutQueued(queue: seq<Item>, k: nat)
    requires k < |queue|
    requires forall i, j :: 0 <= i < j < |queue| && queue[i].work.FiberWork? ==> queue[i].work != queue[j].work
    ensures forall f :: Queued(Without(queue, k), f) <==> Queued(queue, f) && queue[k].work != FiberWork(f)
  {
    var r := Without(queue, k);
    forall f ensures Queued(r, f) <==> Queued(queue, f) && queue[k].work != FiberWork(f) {
      if Queued(r, f) {
        var i :| 0 <= i < |r| && r[i].work == FiberWork(f);
        assert queue[if i < k then i else i + 1].work == FiberWork(f);
      }
      if Queued(queue, f) && queue[k].work != FiberWork(f) {
        var i :| 0 <= i < |queue| && queue[i].work == FiberWork(f);
        assert r[if i < k then i else i - 1].work == FiberWork(f);
      }
    }
  }

  /** A fiber that is queued and not EXEC has ended, or no thread has to do with it. */
  lemma EligibleIsUnowned(s: State, f: FiberId, u: ThreadId)
    requires PcsMatchStates(s) && Queued(s.queue, f) && f in s.states && s.states[f] != EXEC && u in s.pcs && Owns(s.pcs[u], f)
    ensures Ended(s.states[f]) && (s.pcs[u].Holding? ==> !s.pcs[u].cb)
  {
    assert PcMatches(s, u);
  }

  /** Nor is it anybody's callback fiber. */
  lemma EligibleIsNoCb(s: State, f: FiberId, u: ThreadId)
    requires Inv(s) && Queued(s.queue, f) && f in s.states && s.states[f] != EXEC && u in s.pcs && u in s.cbFiber
    ensures s.cbFiber[u] != Some(f)
  {
    assert CbReset(s, u);
    if s.cbFiber[u] == Some(f) && Owns(s.pcs[u], f) { EligibleIsUnowned(s, f, u); }
  }

  lemma ScanPreserves(s: State, t: ThreadId, k: nat)
    requires Inv(s) && Enabled(s, Scan(t, k))
    ensures Inv(Apply(s, Scan(t, k)))
  {
    var s' := Apply(s, Scan(t, k));
    if k == |s.queue| {
      assert CbReset(s, t);
      LocalStep(s, s', t, 0);
    } else {
      var work := s.queue[k].work;
      if work.FiberWork? {
        assert Queued(s.queue, work.fiber);
        forall u | u in s.pcs ensures s.cbFiber[u] != Some(work.fiber) { EligibleIsNoCb(s, work.fiber, u); }
        forall u | u in s.pcs && Owns(s.pcs[u], work.fiber) ensures Ended(s.states[work.fiber]) { EligibleIsUnowned(s, work.fiber, u); }
      }
      ScanTakes(s, s', t, k);
    }
  }

  /** Thread t has taken entry k. */
  ghost predicate TakesEntry(s: State, s': State, t: ThreadId, k: nat) {
    && t in s.pcs && s.pcs[t].Head? && k < |s.queue|
    && s' == s.(pcs := s.pcs[t := Took(s.queue[k])], queue := Without(s.queue, k), active := s'.active)
    && (s.queue[k].work.FiberWork? ==>
          var f := s.queue[k].work.fiber;
          && f in s.states && s.states[f] != EXEC
          && (forall u :: u in s.pcs && Owns(s.pcs[u], f) ==> Ended(s.states[f]))
          && (forall u :: u in s.cbFiber ==> s.cbFiber[u] != Some(f)))
  }

  lemma ScanTakes(s: State, s': State, t: ThreadId, k: nat)
    requires Inv(s) && TakesEntry(s, s', t, k)
    ensures Inv(s')
  {
    WithoutQueued(s.queue, k);
    TakenOwner(s, s', t, k);
    TakenMatch(s, s', t, k);
    TakenCb(s, s', t, k);
  }

  lemma TakenOwner(s: State, s': State, t: ThreadId, k: nat)
    requires OneOwner(s) && TakesEntry(s, s', t, k)
    ensures OneOwner(s')
  {
    forall u, v | u in s'.pcs && v in s'.pcs && u != v && HasFiber(s'.pcs[u]) && Owns(s'.pcs[v], FiberOf(s'.pcs[u]))
      ensures !(s'.pcs[u].Holding? && s'.pcs[v].Holding?)
      ensures FiberOf(s'.pcs[u]) in s'.states && Ended(s'.states[FiberOf(s'.pcs[u])])
    {
      assert u != t ==> s'.pcs[u] == s.pcs[u];
      assert v != t ==> s'.pcs[v] == s.pcs[v];
      if u == t { assert Owns(s.pcs[v], s.queue[k].work.fiber); }
      if v == t { assert Owns(s.pcs[u], s.queue[k].work.fiber); }
    }
  }

  lemma TakenMatch(s: State, s': State, t: ThreadId, k: nat)
    requires PcsMatchStates(s) && TakesEntry(s, s', t, k)
    requires OneWake(s.queue, s.tokens)
    requires forall f :: Queued(s'.queue, f) <==> Queued(s.queue, f) && s.queue[k].work != FiberWork(f)
    ensures PcsMatchStates(s')
  {
    forall u | u in s'.pcs ensures PcMatches(s', u) {
      if u != t {
        assert s'.pcs[u] == s.pcs[u] && PcMatches(s, u);
      } else if s.queue[k].work.FiberWork? {
        assert Queued(s.queue, s.queue[k].work.fiber);
      }
    }
  }

  lemma TakenCb(s: State, s': State, t: ThreadId, k: nat)
    requires CbInv(s) && TakesEntry(s, s', t, k) && s.cbFiber.Keys == s.pcs.Keys
    requires forall f :: Queued(s'.queue, f) ==> Queued(s.queue, f)
    ensures CbInv(s')
  {
    forall u | u in s'.pcs && u in s'.cbFiber ensures CbReset(s', u) {
      assert CbReset(s, u);
      assert u != t ==> s'.pcs[u] == s.pcs[u];
    }
  }

  // ---------------------------------------------------------------- the steps of a thread, one by one

  lemma DispatchPreserves(s: State, t: ThreadId, newFiber: FiberId)
    requires Inv(s) && Enabled(s, Dispatch(t, newFiber))
    ensures Inv(Apply(s, Dispatch(t, newFiber)))
  {
    var s' := Apply(s, Dispatch(t, newFiber));
    assert PcMatches(s, t) && CbReset(s, t);
    if s.pcs[t].item.work.FiberWork? {
      if !Ended(s.states[s.pcs[t].item.work.fiber]) { IsSole(s, t); }
      LocalStep(s, s', t, 0);
    } else {
      DispatchCallbackPreserves(s, t, newFiber);
    }
  }

  lemma DispatchCallbackPreserves(s: State, t: ThreadId, newFiber: FiberId)
    requires Inv(s) && Enabled(s, Dispatch(t, newFiber)) && s.pcs[t].item.work.CallbackWork?
    ensures Inv(Apply(s, Dispatch(t, newFiber)))
  {
    var s' := Apply(s, Dispatch(t, newFiber));
    var f := s'.pcs[t].fiber;
    assert CbReset(s, t);
    assert f == newFiber || s.cbFiber[t] == Some(f);
    forall u | u in s.pcs && u != t ensures !Owns(s.pcs[u], f) { assert PcMatches(s, u); }
    Adopt(s, s', t, f);
  }

  lemma SwapInPreserves(s: State, t: ThreadId)
    requires Inv(s) && Enabled(s, SwapIn(t))
    ensures Inv(Apply(s, SwapIn(t)))
  {
    assert PcMatches(s, t) && CbReset(s, t);
    IsSole(s, t);
    LocalStep(s, Apply(s, SwapIn(t)), t, s.pcs[t].fiber);
  }

  lemma LeavePreserves(s: State, a: Action)
    requires a.YieldToReady? || a.YieldToHold? || a.Finish?
    requires Inv(s) && Enabled(s, a) && Disciplined(s, a)
    ensures Inv(Apply(s, a))
  {
    assert PcMatches(s, a.t) && CbReset(s, a.t);
    IsSole(s, a.t);
    LocalStep(s, Apply(s, a), a.t, s.pcs[a.t].fiber);
  }

  lemma ReturnPreserves(s: State, a: Action)
    requires a.SwapOut? || a.Decrement?
    requires Inv(s) && Enabled(s, a)
    ensures Inv(Apply(s, a))
  {
    assert PcMatches(s, a.t) && CbReset(s, a.t);
    LocalStep(s, Apply(s, a), a.t, 0);
  }

  lemma SettlePreserves(s: State, t: ThreadId)
    requires Inv(s) && Enabled(s, Settle(t))
    ensures Inv(Apply(s, Settle(t)))
  {
    assert PcMatches(s, t) && CbReset(s, t);
    if Ended(s.states[s.pcs[t].fiber]) {
      SettleEnded(s, t);
    } else {
      LocalStep(s, Apply(s, Settle(t)), t, 0);
    }
  }

  /** A callback fiber that has ended is reset; another fiber that has ended is left alone. */
  lemma SettleEnded(s: State, t: ThreadId)
    requires Inv(s) && Enabled(s, Settle(t)) && Ended(s.states[s.pcs[t].fiber])
    ensures Inv(Apply(s, Settle(t)))
  {
    var f := s.pcs[t].fiber;
    assert PcMatches(s, t) && CbReset(s, t) && CbFlagged(s.pcs[t], s.cbFiber[t]);
    if s.pcs[t].cb { IsSole(s, t); }
    var s' := Apply(s, Settle(t));
    assert s'.pcs == s.pcs[t := Head] && Moves(s, s', t, f) && CbReset(s', t);
    LocalStep(s, s', t, f);
  }

  lemma ReschedulePreserves(s: State, t: ThreadId)
    requires Inv(s) && Enabled(s, Reschedule(t))
    ensures Inv(Apply(s, Reschedule(t)))
  {
    var pc := s.pcs[t];
    assert PcMatches(s, t);
    IsSole(s, t);
    var s1 := Done(DropCbFiber(s, t, pc.cb), t, pc.id);
    HandBack(s, s1, t);
    PushUnowned(s1, pc.fiber, ANY_THREAD);
    RescheduleIs(s, t);
  }

  lemma RescheduleIs(s: State, t: ThreadId)
    requires Enabled(s, Reschedule(t))
    ensures var pc := s.pcs[t];
            Apply(s, Reschedule(t)) == Push(Done(DropCbFiber(s, t, pc.cb), t, pc.id), FiberWork(pc.fiber), ANY_THREAD)
  {
  }

  lemma MarkHoldPreserves(s: State, t: ThreadId)
    requires Inv(s) && Enabled(s, MarkHold(t))
    ensures Inv(Apply(s, MarkHold(t)))
  {
    assert PcMatches(s, t);
    IsSole(s, t);
    HandBack(s, Apply(s, MarkHold(t)), t);
  }

  lemma IdlePreserves(s: State, a: Action)
    requires a.EnterIdle? || a.LeaveIdle?
    requires Inv(s) && Enabled(s, a)
    ensures Inv(Apply(s, a))
  {
    assert CbReset(s, a.t);
    LocalStep(s, Apply(s, a), a.t, 0);
  }

  lemma StepPreserves(s: State, a: Action)
    requires Inv(s) && Enabled(s, a) && Disciplined(s, a)
    ensures Inv(Apply(s, a))
  {
    match a
    case Post(c, thread) => PostPreserves(s, c, thread);
    case Spawn(newFiber, thread) => SpawnPreserves(s, newFiber, thread);
    case GiveWake(t) => GiveWakePreserves(s, t);
    case Wake(f, thread) => WakePreserves(s, f, thread);
    case RequestStop =>
    case _ => ThreadStepPreserves(s, a);
  }

  lemma ThreadStepPreserves(s: State, a: Action)
    requires Inv(s) && Enabled(s, a) && Disciplined(s, a)
    requires !a.Post? && !a.Spawn? && !a.GiveWake? && !a.Wake? && !a.RequestStop?
    ensures Inv(Apply(s, a))
  {
    match a
    case Scan(t, k) => ScanPreserves(s, t, k);
    case Dispatch(t, newFiber) => DispatchPreserves(s, t, newFiber);
    case SwapIn(t) => SwapInPreserves(s, t);
    case YieldToReady(_) => LeavePreserves(s, a);
    case YieldToHold(_) => LeavePreserves(s, a);
    case Finish(_, _) => LeavePreserves(s, a);
    case SwapOut(_) => ReturnPreserves(s, a);
    case Decrement(_) => ReturnPreserves(s, a);
    case Settle(t) => SettlePreserves(s, t);
    case Reschedule(t) => ReschedulePreserves(s, t);
    case MarkHold(t) => MarkHoldPreserves(s, t);
    case EnterIdle(_) => IdlePreserves(s, a);
    case LeaveIdle(_) => IdlePreserves(s, a);
  }

  /** Every state of a disciplined run satisfies the invariant. */
  lemma {:induction false} RunPreserves(s: State, run: seq<Action>)
    requires Inv(s) && DisciplinedRun(s, run)
    ensures IsRun(s, run) && Inv(After(s, run))
    decreases |run|
  {
    if run != [] {
      StepPreserves(s, run[0]);
      RunPreserves(Apply(s, run[0]), run[1..]);
    }
  }

  // ---------------------------------------------------------------- main results

  /** The assertions that Fiber::swapIn and Fiber::reset make when the step is taken. */
  predicate AssertsHold(s: State, a: Action)
    requires Enabled(s, a)
  {
    match a
    case SwapIn(t) => s.states[s.pcs[t].fiber] != EXEC
    case Dispatch(t, _) =>
      s.pcs[t].item.work.CallbackWork? && s.cbFiber[t].Some? ==>
        s.cbFiber[t].value in s.states && (Ended(s.states[s.cbFiber[t].value]) || s.states[s.cbFiber[t].value] == INIT)
    case _ => true
  }

  /**
    No fiber is on two processors, and no thread is about to switch in, or has just switched out, a fiber
    that is still on another; another thread may have taken its item only when it has ended, to drop it.
   */
  ghost predicate Exclusive(s: State) {
    forall t, u :: t in s.pcs && u in s.pcs && t != u && OnSome(s.pcs[t]) && Owns(s.pcs[u], FiberOf(s.pcs[t])) ==>
      s.pcs[u].Took? && FiberOf(s.pcs[t]) in s.states && Ended(s.states[FiberOf(s.pcs[t])])
  }

  /** Mutual exclusion: in every disciplined run, with any number of threads. */
  lemma MutualExclusion(s: State, run: seq<Action>)
    requires Initial(s) && DisciplinedRun(s, run)
    ensures IsRun(s, run) && Exclusive(After(s, run))
  {
    InitialInv(s);
    RunPreserves(s, run);
    assert OneOwner(After(s, run));
  }

  /**
    After every disciplined run, no enabled step fails an assertion of the fiber class; in
    particular a thread's callback fiber is absent or INIT whenever the thread is at the loop head.
   */
  lemma NoAssertionFails(s: State, run: seq<Action>)
    requires Initial(s) && DisciplinedRun(s, run)
    ensures forall a :: Enabled(After(s, run), a) ==> AssertsHold(After(s, run), a)
    ensures var s' := After(s, run);
            forall t :: t in s'.pcs && s'.pcs[t].Head? ==>
              t in s'.cbFiber && (s'.cbFiber[t] == None || (s'.cbFiber[t].value in s'.states && s'.states[s'.cbFiber[t].value] == INIT))
  {
    InitialInv(s);
    RunPreserves(s, run);
    var s' := After(s, run);
    forall t | t in s'.pcs && s'.pcs[t].Head? ensures CbReset(s', t) {}
    forall a | Enabled(s', a) ensures AssertsHold(s', a) {
      if a.SwapIn? || a.Dispatch? { assert PcMatches(s', a.t) && CbReset(s', a.t); }
    }
  }

  lemma {:induction false} Extend(s: State, run: seq<Action>, a: Action) returns (run': seq<Action>)
    requires IsRun(s, run) && Enabled(After(s, run), a)
    ensures run' == run + [a] && IsRun(s, run') && After(s, run') == Apply(After(s, run), a)
    ensures DisciplinedRun(s, run) && Disciplined(After(s, run), a) ==> DisciplinedRun(s, run')
    decreases |run|
  {
    run' := run + [a];
    if run != [] {
      var rest := Extend(Apply(s, run[0]), run[1..], a);
      assert run'[1..] == rest;
    } else {
      assert run'[1..] == [];
    }
  }

  lemma ExtendTwo(s: State, run: seq<Action>, a: Action, b: Action) returns (run': seq<Action>)
    requires IsRun(s, run) && Enabled(After(s, run), a) && Enabled(Apply(After(s, run), a), b)
    ensures IsRun(s, run') && After(s, run') == Apply(Apply(After(s, run), a), b)
  {
    run' := Extend(s, run, a);
    run' := Extend(s, run', b);
  }

  /** What a run has made of a scheduler in which only thread t did anything: t has got to pc, and fiber f is the only one. */
  ghost predicate Alone(s0: State, s: State, t: ThreadId, pc: Pc, f: FiberId, st: FiberState) {
    && s.pcs == s0.pcs[t := pc] && s.states == map[f := st] && s.cbFiber == s0.cbFiber
  }

  /** A new fiber runs on thread t. */
  lemma StartFiber(s: State, t: ThreadId, f: FiberId) returns (run: seq<Action>)
    requires Initial(s) && t in s.pcs
    ensures IsRun(s, run) && DisciplinedRun(s, run) && Alone(s, After(s, run), t, Holding(On, 0, f, false), f, EXEC)
    ensures var s' := After(s, run); s'.queue == [] && s'.tokens == map[] && s'.active == 1 && !s'.stopRequested
  {
    run := Extend(s, [], Spawn(f, ANY_THREAD));
    var item := Item(0, FiberWork(f), ANY_THREAD);
    assert After(s, run).queue == [item];
    run := Extend(s, run, Scan(t, 0));
    assert After(s, run).queue == [] && After(s, run).pcs[t] == Took(item);
    run := Extend(s, run, Dispatch(t, 0));
    assert After(s, run).pcs[t] == Holding(Checked, 0, f, false);
    run := Extend(s, run, SwapIn(t));
    assert After(s, run).pcs == s.pcs[t := Holding(On, 0, f, false)];
  }

  /** It hands itself to two wake-up sources and suspends, and both wake it: two entries for one suspended fiber. */
  lemma TwoWakesReachable(s: State, t: ThreadId, f: FiberId) returns (run: seq<Action>)
    requires Initial(s) && t in s.pcs
    ensures IsRun(s, run) && Alone(s, After(s, run), t, Head, f, HOLD)
    ensures var q := After(s, run).queue;
            |q| == 2 && q[0].work == FiberWork(f) == q[1].work && q[0].thread == ANY_THREAD == q[1].thread
  {
    run := StartFiber(s, t, f);
    run := Extend(s, run, GiveWake(t));
    run := Extend(s, run, GiveWake(t));
    assert After(s, run).tokens == map[f := 2];
    run := Suspend(s, run, t, f);
    run := Extend(s, run, Wake(f, ANY_THREAD));
    assert After(s, run).tokens == map[f := 1];
    run := Extend(s, run, Wake(f, ANY_THREAD));
  }

  /** The fiber yields, and its thread marks it HOLD. */
  lemma Suspend(s: State, run: seq<Action>, t: ThreadId, f: FiberId) returns (run': seq<Action>)
    requires IsRun(s, run) && t in s.cbFiber && Alone(s, After(s, run), t, Holding(On, 0, f, false), f, EXEC)
    ensures IsRun(s, run') && Alone(s, After(s, run'), t, Head, f, HOLD)
    ensures After(s, run').tokens == After(s, run).tokens && After(s, run').queue == After(s, run).queue
  {
    YieldingSteps(After(s, run), t, f);
    run' := ExtendTwo(s, run, YieldToHold(t), SwapOut(t));
    DecrementStep(s, After(s, run'), t, f);
    run' := Extend(s, run', Decrement(t));
    run' := MarkSuspended(s, run', t, f);
  }

  lemma DecrementStep(s0: State, s: State, t: ThreadId, f: FiberId)
    requires Alone(s0, s, t, Holding(Back, 0, f, false), f, EXEC)
    ensures Enabled(s, Decrement(t))
    ensures var s' := Apply(s, Decrement(t));
            Alone(s0, s', t, Holding(Settled, 0, f, false), f, EXEC) && s'.tokens == s.tokens && s'.queue == s.queue
  {
    assert Apply(s, Decrement(t)).pcs == s0.pcs[t := Holding(Settled, 0, f, false)];
  }

  lemma YieldingSteps(s: State, t: ThreadId, f: FiberId)
    requires t in s.pcs && s.pcs[t] == Holding(On, 0, f, false) && f in s.states
    ensures Enabled(s, YieldToHold(t)) && Enabled(Apply(s, YieldToHold(t)), SwapOut(t))
    ensures Apply(Apply(s, YieldToHold(t)), SwapOut(t)) == s.(pcs := s.pcs[t := Holding(Back, 0, f, false)])
  {
    assert Apply(Apply(s, YieldToHold(t)), SwapOut(t)).pcs == s.pcs[t := Holding(Back, 0, f, false)];
  }

  lemma MarkSuspended(s: State, run: seq<Action>, t: ThreadId, f: FiberId) returns (run': seq<Action>)
    requires IsRun(s, run) && t in s.cbFiber && Alone(s, After(s, run), t, Holding(Settled, 0, f, false), f, EXEC)
    ensures IsRun(s, run') && Alone(s, After(s, run'), t, Head, f, HOLD)
    ensures After(s, run').tokens == After(s, run).tokens && After(s, run').queue == After(s, run).queue
  {
    MarkingSteps(s, After(s, run), t, f);
    run' := ExtendTwo(s, run, Settle(t), MarkHold(t));
  }

  lemma MarkingSteps(s0: State, s: State, t: ThreadId, f: FiberId)
    requires t in s0.cbFiber && Alone(s0, s, t, Holding(Settled, 0, f, false), f, EXEC)
    ensures Enabled(s, Settle(t)) && Enabled(Apply(s, Settle(t)), MarkHold(t))
    ensures var s' := Apply(Apply(s, Settle(t)), MarkHold(t));
            Alone(s0, s', t, Head, f, HOLD) && s'.tokens == s.tokens && s'.queue == s.queue
  {
    var s1 := Apply(s, Settle(t));
    assert s1.pcs == s0.pcs[t := Holding(Marking, 0, f, false)];
    assert Apply(s1, MarkHold(t)).pcs == s0.pcs[t := Head];
  }

  /** Two entries for one suspended fiber f are next in the queue, and threads t and u are at the loop head. */
  ghost predicate TwoWakes(s: State, f: FiberId, t: ThreadId, u: ThreadId) {
    && t in s.pcs && u in s.pcs && t != u && s.pcs[t] == Head && s.pcs[u] == Head
    && t in s.cbFiber && u in s.cbFiber
    && |s.queue| >= 2 && s.queue[0].work == FiberWork(f) && s.queue[1].work == FiberWork(f)
    && s.queue[0].thread == ANY_THREAD && s.queue[1].thread == ANY_THREAD
    && f in s.states && Runnable(s.states[f])
  }

  /** Both threads can take it and get as far as switching it in: exclusion is lost and the assertion in swapIn fails. */
  lemma BothTake(s0: State, run: seq<Action>, f: FiberId, t: ThreadId, u: ThreadId) returns (run': seq<Action>)
    requires IsRun(s0, run) && TwoWakes(After(s0, run), f, t, u)
    ensures IsRun(s0, run')
    ensures var s := After(s0, run'); !Exclusive(s) && Enabled(s, SwapIn(u)) && !AssertsHold(s, SwapIn(u))
  {
    var s := After(s0, run);
    run' := Extend(s0, run, Scan(t, 0));
    assert After(s0, run').queue[0] == s.queue[1];
    run' := Extend(s0, run', Scan(u, 0));
    assert After(s0, run').pcs[t] == Took(s.queue[0]) && After(s0, run').pcs[u] == Took(s.queue[1]);
    run' := BothEnter(s0, run', f, t, u);
  }

  lemma BothEnter(s0: State, run: seq<Action>, f: FiberId, t: ThreadId, u: ThreadId) returns (run': seq<Action>)
    requires IsRun(s0, run) && t in After(s0, run).pcs && u in After(s0, run).pcs && t != u
    requires t in After(s0, run).cbFiber && u in After(s0, run).cbFiber
    requires var s := After(s0, run);
             && s.pcs[t].Took? && s.pcs[u].Took? && s.pcs[t].item.work == FiberWork(f) == s.pcs[u].item.work
             && f in s.states && Runnable(s.states[f])
    ensures IsRun(s0, run')
    ensures var s := After(s0, run'); !Exclusive(s) && Enabled(s, SwapIn(u)) && !AssertsHold(s, SwapIn(u))
  {
    var s := After(s0, run);
    CheckStep(s, t, f);
    run' := ExtendTwo(s0, run, Dispatch(t, 0), Dispatch(u, 0));
    var s2 := After(s0, run');
    assert s2.states == s.states;
    assert s2.pcs[t] == Holding(Checked, s.pcs[t].item.id, f, false) && s2.pcs[u] == Holding(Checked, s.pcs[u].item.id, f, false);
    EnterStep(s2, f, t, u);
    run' := Extend(s0, run', SwapIn(t));
  }

  lemma CheckStep(s: State, t: ThreadId, f: FiberId)
    requires t in s.pcs && t in s.cbFiber && s.pcs[t].Took? && s.pcs[t].item.work == FiberWork(f) && f in s.states && Runnable(s.states[f])
    ensures Enabled(s, Dispatch(t, 0))
    ensures Apply(s, Dispatch(t, 0)) == s.(pcs := s.pcs[t := Holding(Checked, s.pcs[t].item.id, f, false)])
  {
  }

  lemma EnterStep(s: State, f: FiberId, t: ThreadId, u: ThreadId)
    requires t in s.pcs && u in s.pcs && t != u && s.pcs[t].Holding? && s.pcs[u].Holding? && f in s.states && Runnable(s.states[f])
    requires s.pcs[t].stage == Checked == s.pcs[u].stage && s.pcs[t].fiber == f == s.pcs[u].fiber
    ensures Enabled(s, SwapIn(t))
    ensures var s' := Apply(s, SwapIn(t)); !Exclusive(s') && Enabled(s', SwapIn(u)) && !AssertsHold(s', SwapIn(u))
  {
    var s' := Apply(s, SwapIn(t));
    assert OnSome(s'.pcs[t]) && Owns(s'.pcs[u], FiberOf(s'.pcs[t])) && s'.states[f] == EXEC;
  }

  /**
    The discipline is needed: in every scheduler with two threads, a fiber that hands itself to two
    wake-up sources before it suspends can be switched in by both threads.
   */
  lemma TwoWakesBreakExclusion(s: State, f: FiberId, t: ThreadId, u: ThreadId) returns (run: seq<Action>)
    requires Initial(s) && t in s.pcs && u in s.pcs && t != u
    ensures IsRun(s, run)
    ensures var s' := After(s, run); !Exclusive(s') && Enabled(s', SwapIn(u)) && !AssertsHold(s', SwapIn(u))
  {
    run := TwoWakesReachable(s, t, f);
    run := BothTake(s, run, f, t, u);
  }

  /** A fiber that has handed itself to a wake-up source is woken while it still runs: its entry waits in the queue. */
  lemma WokenWhileRunning(s: State, t: ThreadId, f: FiberId) returns (run: seq<Action>)
    requires Initial(s) && t in s.pcs
    ensures IsRun(s, run) && DisciplinedRun(s, run) && Alone(s, After(s, run), t, Holding(On, 0, f, false), f, EXEC)
    ensures var q := After(s, run).queue; |q| == 1 && q[0].work == FiberWork(f) && q[0].thread == ANY_THREAD
  {
    run := StartFiber(s, t, f);
    run := Extend(s, run, GiveWake(t));
    assert After(s, run).tokens == map[f := 1];
    run := Extend(s, run, Wake(f, ANY_THREAD));
  }

  /** Thread u takes the first entry, which is for the runnable fiber f, and switches f in. */
  lemma TakeAndEnter(s0: State, run: seq<Action>, f: FiberId, u: ThreadId) returns (run': seq<Action>)
    requires IsRun(s0, run)
    requires var s := After(s0, run);
             && u in s.pcs && s.pcs[u] == Head && u in s.cbFiber && f in s.states && Runnable(s.states[f])
             && s.queue != [] && s.queue[0].work == FiberWork(f) && s.queue[0].thread == ANY_THREAD
    ensures IsRun(s0, run')
    ensures var s, s' := After(s0, run), After(s0, run');
            && s'.pcs == s.pcs[u := Holding(On, s.queue[0].id, f, false)] && s'.states == s.states[f := EXEC]
            && s'.queue == s.queue[1..] && s'.cbFiber == s.cbFiber
  {
    var s := After(s0, run);
    run' := Extend(s0, run, Scan(u, 0));
    assert After(s0, run').pcs == s.pcs[u := Took(s.queue[0])] && After(s0, run').queue == s.queue[1..];
    run' := Extend(s0, run', Dispatch(u, 0));
    assert After(s0, run').pcs == s.pcs[u := Holding(Checked, s.queue[0].id, f, false)];
    run' := Extend(s0, run', SwapIn(u));
  }

  /** So is the second clause: a fiber that yields READY with a wake-up queued is switched in while its switch-out is not finished. */
  lemma ReadyWithWakeBreaksExclusion(s: State, f: FiberId, t: ThreadId, u: ThreadId) returns (run: seq<Action>)
    requires Initial(s) && t in s.pcs && u in s.pcs && t != u
    ensures IsRun(s, run)
    ensures var s' := After(s, run);
            t in s'.pcs && u in s'.pcs && OnProcessor(s'.pcs[t], f) && OnProcessor(s'.pcs[u], f) && !Exclusive(s')
  {
    run := WokenWhileRunning(s, t, f);
    run := Extend(s, run, YieldToReady(t));
    assert Alone(s, After(s, run), t, Holding(Leaving, 0, f, false), f, READY);
    run := TakeAndEnter(s, run, f, u);
    assert OnProcessor(After(s, run).pcs[t], f) && Owns(After(s, run).pcs[u], f);
  }

  /** A callback runs on thread t, in its callback fiber f. */
  lemma StartCallback(s: State, t: ThreadId, f: FiberId, c: CallbackId) returns (run: seq<Action>)
    requires Initial(s) && t in s.pcs
    ensures IsRun(s, run) && After(s, run).pcs == s.pcs[t := Holding(On, 0, f, true)]
    ensures var s' := After(s, run);
            s'.states == map[f := EXEC] && s'.cbFiber == s.cbFiber[t := Some(f)] && s'.queue == [] && s'.tokens == map[]
  {
    run := Extend(s, [], Post(c, ANY_THREAD));
    var item := Item(0, CallbackWork(c), ANY_THREAD);
    assert After(s, run).queue == [item];
    run := Extend(s, run, Scan(t, 0));
    assert After(s, run).queue == [] && After(s, run).pcs == s.pcs[t := Took(item)];
    run := Extend(s, run, Dispatch(t, f));
    assert After(s, run).pcs == s.pcs[t := Holding(Checked, 0, f, true)];
    run := Extend(s, run, SwapIn(t));
    assert After(s, run).pcs == s.pcs[t := Holding(On, 0, f, true)];
  }

  /** It ends, and the thread resets the fiber for the next callback. */
  lemma EndCallback(s: State, run: seq<Action>, t: ThreadId, f: FiberId) returns (run': seq<Action>)
    requires IsRun(s, run) && t in s.cbFiber && After(s, run).pcs == s.pcs[t := Holding(On, 0, f, true)]
    requires After(s, run).states == map[f := EXEC] && After(s, run).cbFiber == s.cbFiber[t := Some(f)]
    ensures IsRun(s, run') && After(s, run').pcs == s.pcs[t := Head]
    ensures var s1, s' := After(s, run), After(s, run');
            s'.states == map[f := INIT] && s'.cbFiber == s1.cbFiber && s'.queue == s1.queue && s'.tokens == s1.tokens
  {
    var s1 := After(s, run);
    run' := LeaveCallback(s, run, t, f);
    var s2 := After(s, run');
    ResetSteps(s2, t, f);
    run' := ExtendTwo(s, run', Decrement(t), Settle(t));
    assert s2.pcs[t := Head] == s.pcs[t := Head];
  }

  lemma LeaveCallback(s: State, run: seq<Action>, t: ThreadId, f: FiberId) returns (run': seq<Action>)
    requires IsRun(s, run) && t in After(s, run).pcs && After(s, run).pcs[t] == Holding(On, 0, f, true) && After(s, run).states == map[f := EXEC]
    ensures IsRun(s, run')
    ensures After(s, run') == After(s, run).(pcs := After(s, run).pcs[t := Holding(Back, 0, f, true)], states := map[f := TERM])
  {
    EndingSteps(After(s, run), t, f);
    run' := ExtendTwo(s, run, Finish(t, false), SwapOut(t));
  }

  lemma EndingSteps(s: State, t: ThreadId, f: FiberId)
    requires t in s.pcs && s.pcs[t] == Holding(On, 0, f, true) && s.states == map[f := EXEC]
    ensures Enabled(s, Finish(t, false)) && Enabled(Apply(s, Finish(t, false)), SwapOut(t))
    ensures Apply(Apply(s, Finish(t, false)), SwapOut(t)) ==
            s.(pcs := s.pcs[t := Holding(Back, 0, f, true)], states := map[f := TERM])
  {
    var s1 := Apply(s, Finish(t, false));
    assert s1.states == map[f := TERM];
    assert Apply(s1, SwapOut(t)).pcs == s.pcs[t := Holding(Back, 0, f, true)];
  }

  lemma ResetSteps(s: State, t: ThreadId, f: FiberId)
    requires t in s.pcs && t in s.cbFiber && s.pcs[t] == Holding(Back, 0, f, true) && s.states == map[f := TERM]
    ensures Enabled(s, Decrement(t)) && Enabled(Apply(s, Decrement(t)), Settle(t))
    ensures var s' := Apply(Apply(s, Decrement(t)), Settle(t));
            s' == s.(pcs := s.pcs[t := Head], states := map[f := INIT], active := s'.active, finished := s'.finished)
  {
    var s1 := Apply(s, Decrement(t));
    assert s1.pcs[t] == Holding(Settled, 0, f, true);
    var s2 := Apply(s1, Settle(t));
    assert s2.states == map[f := INIT];
    assert s2.pcs == s.pcs[t := Head];
  }

  /** And the third: a callback that ends with a wake-up queued lets another thread run the fiber that is to be reset. */
  lemma CallbackWithWakeBreaksReset(s: State, f: FiberId, t: ThreadId, u: ThreadId, c: CallbackId) returns (run: seq<Action>)
    requires Initial(s) && t in s.pcs && u in s.pcs && t != u
    ensures IsRun(s, run) && Enabled(After(s, run), Dispatch(t, f)) && !AssertsHold(After(s, run), Dispatch(t, f))
  {
    run := StartCallback(s, t, f, c);
    run := Extend(s, run, GiveWake(t));
    assert After(s, run).tokens == map[f := 1];
    run := Extend(s, run, Wake(f, ANY_THREAD));
    run := EndCallback(s, run, t, f);
    run := Extend(s, run, Post(c, ANY_THREAD));
    run := TakeAndEnter(s, run, f, u);
    assert After(s, run).queue[0].work == CallbackWork(c) && After(s, run).pcs[t] == Head;
    run := Extend(s, run, Scan(t, 0));
  }

  /** A plain fiber may: a disciplined run in which another thread takes the wake-up of a fiber that has ended, and drops it. */
  lemma LateWakeIsDropped(s: State, f: FiberId, t: ThreadId, u: ThreadId) returns (run: seq<Action>)
    requires Initial(s) && t in s.pcs && u in s.pcs && t != u
    ensures IsRun(s, run) && DisciplinedRun(s, run)
    ensures var s' := After(s, run); t in s'.pcs && u in s'.pcs && s'.pcs[u].Stale? && OnProcessor(s'.pcs[t], f)
  {
    run := WokenWhileRunning(s, t, f);
    run := Extend(s, run, Finish(t, false));
    assert Alone(s, After(s, run), t, Holding(Leaving, 0, f, false), f, TERM);
    run := Extend(s, run, Scan(u, 0));
    assert After(s, run).pcs[u].Took? && After(s, run).pcs[u].item.work == FiberWork(f);
    run := Extend(s, run, Dispatch(u, 0));
  }

  // ---------------------------------------------------------------- accounting of items and threads

  /** The thread is between the scan that took its item and the decrement of the active counter. */
  predicate IsActive(pc: Pc) {
    || pc.Took?
    || pc.Stale?
    || (pc.Holding? && (pc.stage == Checked || pc.stage == On || pc.stage == Leaving || pc.stage == Back))
  }

  function ActiveThreads(pcs: map<ThreadId, Pc>): set<ThreadId> {
    set t | t in pcs && IsActive(pcs[t])
  }

  predicate HasItem(pc: Pc) { pc.Took? || pc.Stale? || pc.Holding? }

  function ItemOf(pc: Pc): ItemId
    requires HasItem(pc)
  {
    if pc.Took? then pc.item.id else pc.id
  }

  predicate InQueue(queue: seq<Item>, id: ItemId) {
    exists i :: 0 <= i < |queue| && queue[i].id == id
  }

  predicate Held(pcs: map<ThreadId, Pc>, id: ItemId) {
    exists t :: t in pcs && HasItem(pcs[t]) && ItemOf(pcs[t]) == id
  }

  ghost predicate DistinctPlaces(queue: seq<Item>, pcs: map<ThreadId, Pc>, finished: set<ItemId>) {
    && (forall i, j :: 0 <= i < j < |queue| ==> queue[i].id != queue[j].id)
    && (forall t, u :: t in pcs && u in pcs && t != u && HasItem(pcs[t]) && HasItem(pcs[u]) ==> ItemOf(pcs[t]) != ItemOf(pcs[u]))
    && (forall id :: !(InQueue(queue, id) && Held(pcs, id)))
    && (forall id :: id in finished ==> !InQueue(queue, id) && !Held(pcs, id))
  }

  /** Every item ever scheduled, and nothing else, is in the queue, held by a thread, or finished. */
  ghost predicate EveryItemPlaced(queue: seq<Item>, pcs: map<ThreadId, Pc>, finished: set<ItemId>, next: ItemId) {
    forall id: ItemId :: id < next <==> InQueue(queue, id) || Held(pcs, id) || id in finished
  }

  ghost predicate Accounted(s: State) {
    && DistinctPlaces(s.queue, s.pcs, s.finished)
    && EveryItemPlaced(s.queue, s.pcs, s.finished, s.nextItem)
    && s.active == |ActiveThreads(s.pcs)|
  }

  lemma SetPcActive(pcs: map<ThreadId, Pc>, t: ThreadId, pc: Pc)
    requires t in pcs
    ensures |ActiveThreads(pcs[t := pc])| ==
            |ActiveThreads(pcs)| - (if IsActive(pcs[t]) then 1 else 0) + (if IsActive(pc) then 1 else 0)
  {
    var others := ActiveThreads(pcs) - {t};
    assert ActiveThreads(pcs[t := pc]) == if IsActive(pc) then others + {t} else others;
    assert ActiveThreads(pcs) == if IsActive(pcs[t]) then others + {t} else others;
  }

  lemma SetPcHeld(pcs: map<ThreadId, Pc>, t: ThreadId, pc: Pc)
    requires t in pcs
    requires forall u :: u in pcs && u != t && HasItem(pcs[u]) && HasItem(pcs[t]) ==> ItemOf(pcs[u]) != ItemOf(pcs[t])
    ensures forall id :: Held(pcs[t := pc], id) <==>
              || (HasItem(pc) && ItemOf(pc) == id)
              || (Held(pcs, id) && !(HasItem(pcs[t]) && ItemOf(pcs[t]) == id))
  {
    var pcs' := pcs[t := pc];
    forall id ensures Held(pcs', id) <==>
              || (HasItem(pc) && ItemOf(pc) == id)
              || (Held(pcs, id) && !(HasItem(pcs[t]) && ItemOf(pcs[t]) == id)) {
      if HasItem(pc) && ItemOf(pc) == id { assert pcs'[t] == pc; }
      if Held(pcs, id) && !(HasItem(pcs[t]) && ItemOf(pcs[t]) == id) {
        var u :| u in pcs && HasItem(pcs[u]) && ItemOf(pcs[u]) == id;
        assert pcs'[u] == pcs[u];
      }
      if Held(pcs', id) {
        var u :| u in pcs' && HasItem(pcs'[u]) && ItemOf(pcs'[u]) == id;
        if u != t { assert pcs'[u] == pcs[u]; }
      }
    }
  }

  lemma PushAccounted(s: State, work: Work, thread: ThreadId)
    requires Accounted(s)
    ensures Accounted(Push(s, work, thread))
  {
    var s' := Push(s, work, thread);
    assert !InQueue(s.queue, s.nextItem) && !Held(s.pcs, s.nextItem) && s.nextItem !in s.finished;
    assert forall i :: 0 <= i < |s.queue| ==> InQueue(s.queue, s.queue[i].id);
    forall id ensures InQueue(s'.queue, id) <==> InQueue(s.queue, id) || id == s.nextItem {
      assert s'.queue[|s.queue|].id == s.nextItem;
      assert forall i :: 0 <= i < |s.queue| ==> s'.queue[i] == s.queue[i];
    }
  }

  lemma ScanAccounted(s: State, t: ThreadId, k: nat)
    requires Accounted(s) && Enabled(s, Scan(t, k))
    ensures Accounted(Apply(s, Scan(t, k)))
  {
    var s' := Apply(s, Scan(t, k));
    SetPcActive(s.pcs, t, s'.pcs[t]);
    SetPcHeld(s.pcs, t, s'.pcs[t]);
    if k < |s.queue| {
      WithoutInQueue(s.queue, k);
      assert InQueue(s.queue, s.queue[k].id);
    }
  }

  lemma WithoutInQueue(queue: seq<Item>, k: nat)
    requires k < |queue| && forall i, j :: 0 <= i < j < |queue| ==> queue[i].id != queue[j].id
    ensures var queue' := Without(queue, k);
            && (forall i, j :: 0 <= i < j < |queue'| ==> queue'[i].id != queue'[j].id)
            && (forall id :: InQueue(queue', id) <==> InQueue(queue, id) && id != queue[k].id)
  {
    var queue' := Without(queue, k);
    forall id ensures InQueue(queue', id) <==> InQueue(queue, id) && id != queue[k].id {
      if InQueue(queue', id) {
        var i :| 0 <= i < |queue'| && queue'[i].id == id;
        assert queue[if i < k then i else i + 1].id == id;
      }
      if InQueue(queue, id) && id != queue[k].id {
        var i :| 0 <= i < |queue| && queue[i].id == id;
        assert queue'[if i < k then i else i - 1].id == id;
      }
    }
  }

  /** Thread t keeps its item (or has none), or gives it up as finished. */
  lemma SetPcAccounted(s: State, s': State, t: ThreadId)
    requires Accounted(s) && t in s.pcs && t in s'.pcs
    requires s'.queue == s.queue && s'.nextItem == s.nextItem && s'.pcs == s.pcs[t := s'.pcs[t]]
    requires
      || (s'.finished == s.finished && HasItem(s.pcs[t]) == HasItem(s'.pcs[t]) && (HasItem(s.pcs[t]) ==> ItemOf(s'.pcs[t]) == ItemOf(s.pcs[t])))
      || (HasItem(s.pcs[t]) && !HasItem(s'.pcs[t]) && s'.finished == s.finished + {ItemOf(s.pcs[t])})
    requires s'.active == s.active - (if IsActive(s.pcs[t]) then 1 else 0) + (if IsActive(s'.pcs[t]) then 1 else 0)
    ensures Accounted(s')
  {
    SetPcActive(s.pcs, t, s'.pcs[t]);
    SetPcHeld(s.pcs, t, s'.pcs[t]);
    if HasItem(s.pcs[t]) { assert Held(s.pcs, ItemOf(s.pcs[t])); }
  }

  lemma StepAccounted(s: State, a: Action)
    requires Accounted(s) && Enabled(s, a)
    ensures Accounted(Apply(s, a))
  {
    match a
    case Post(c, thread) => PushAccounted(s, CallbackWork(c), thread);
    case Spawn(f, thread) => PushAccounted(SetFiber(s, f, INIT), FiberWork(f), thread);
    case Wake(f, thread) => PushAccounted(s.(tokens := Drop(s.tokens, f)), FiberWork(f), thread);
    case GiveWake(t) =>
    case RequestStop =>
    case _ => LoopStepAccounted(s, a);
  }

  lemma LoopStepAccounted(s: State, a: Action)
    requires Accounted(s) && Enabled(s, a) && !a.Post? && !a.Spawn? && !a.Wake? && !a.GiveWake? && !a.RequestStop?
    ensures Accounted(Apply(s, a))
  {
    match a
    case Scan(t, k) => ScanAccounted(s, t, k);
    case Reschedule(t) => RescheduleAccounted(s, t);
    case Dispatch(_, _) => TakenStepAccounted(s, a);
    case Decrement(_) => TakenStepAccounted(s, a);
    case Settle(t) => SettleAccounted(s, t);
    case MarkHold(t) => MarkHoldAccounted(s, t);
    case _ => ThreadStepAccounted(s, a);
  }

  lemma RescheduleAccounted(s: State, t: ThreadId)
    requires Accounted(s) && Enabled(s, Reschedule(t))
    ensures Accounted(Apply(s, Reschedule(t)))
  {
    var pc := s.pcs[t];
    var s1 := Push(DropCbFiber(s, t, pc.cb), FiberWork(pc.fiber), ANY_THREAD);
    PushAccounted(DropCbFiber(s, t, pc.cb), FiberWork(pc.fiber), ANY_THREAD);
    SetPcAccounted(s1, Apply(s, Reschedule(t)), t);
  }

  lemma SettleAccounted(s: State, t: ThreadId)
    requires Accounted(s) && Enabled(s, Settle(t))
    ensures Accounted(Apply(s, Settle(t)))
  {
    SetPcAccounted(s, Apply(s, Settle(t)), t);
  }

  lemma MarkHoldAccounted(s: State, t: ThreadId)
    requires Accounted(s) && Enabled(s, MarkHold(t))
    ensures Accounted(Apply(s, MarkHold(t)))
  {
    SetPcAccounted(s, Apply(s, MarkHold(t)), t);
  }

  lemma TakenStepAccounted(s: State, a: Action)
    requires Accounted(s) && Enabled(s, a) && (a.Dispatch? || a.Decrement?)
    ensures Accounted(Apply(s, a))
  {
    SetPcAccounted(s, Apply(s, a), a.t);
  }

  lemma ThreadStepAccounted(s: State, a: Action)
    requires Accounted(s) && Enabled(s, a)
    requires a.SwapIn? || a.YieldToReady? || a.YieldToHold? || a.Finish? || a.SwapOut? || a.EnterIdle? || a.LeaveIdle?
    ensures Accounted(Apply(s, a))
  {
    SetPcAccounted(s, Apply(s, a), a.t);
  }

  /**
    In every run, disciplined or not: each item scheduled is in exactly one place, hence taken at
    most once, and the active counter is the number of threads between take and decrement.
   */
  lemma {:induction false} RunAccounted(s: State, run: seq<Action>)
    requires Accounted(s) && IsRun(s, run)
    ensures Accounted(After(s, run))
    decreases |run|
  {
    if run != [] {
      StepAccounted(s, run[0]);
      RunAccounted(Apply(s, run[0]), run[1..]);
    }
  }

  lemma InitialAccounted(s: State)
    requires Initial(s)
    ensures Accounted(s)
  {
    assert forall t :: t in s.pcs ==> s.pcs[t] == Head && !IsActive(s.pcs[t]);
    assert ActiveThreads(s.pcs) == {};
  }

  // ---------------------------------------------------------------- pinned items

  /** A thread has taken only items that any thread may take or that are pinned to it. */
  ghost predicate Pinned(s: State) {
    forall t :: t in s.pcs && s.pcs[t].Took? ==> !PinnedElsewhere(s.pcs[t].item, t)
  }

  lemma PinnedStep(s: State, a: Action)
    requires Pinned(s) && Enabled(s, a)
    ensures Pinned(Apply(s, a))
  {
    if a.Scan? { PinnedScan(s, a.t, a.k); } else { OnlyScanTakes(s, a); }
  }

  lemma PinnedScan(s: State, t: ThreadId, k: nat)
    requires Pinned(s) && Enabled(s, Scan(t, k))
    ensures Pinned(Apply(s, Scan(t, k)))
  {
  }

  /** Every other step leaves a thread that has taken an item afterwards as it was. */
  lemma OnlyScanTakes(s: State, a: Action)
    requires Enabled(s, a) && !a.Scan?
    ensures var pcs := Apply(s, a).pcs; forall t :: t in pcs && pcs[t].Took? ==> t in s.pcs && s.pcs[t] == pcs[t]
  {
    if !OfThreads(a) || a.GiveWake? {
      assert Apply(s, a).pcs == s.pcs;
    } else {
      assert Apply(s, a).pcs == s.pcs[a.t := Apply(s, a).pcs[a.t]];
    }
  }

  /** In every run, an item scheduled for one thread is taken by that thread only. */
  lemma {:induction false} RunPinned(s: State, run: seq<Action>)
    requires Pinned(s) && IsRun(s, run)
    ensures Pinned(After(s, run))
    decreases |run|
  {
    if run != [] {
      PinnedStep(s, run[0]);
      RunPinned(Apply(s, run[0]), run[1..]);
    }
  }

  // ---------------------------------------------------------------- stopping

  /**
    When stopping() answers true, no item is queued and every item not yet finished belongs to a
    thread that has already left the active count: it is only about to hand its fiber back.
   */
  lemma StoppingMeansDrained(s: State, run: seq<Action>)
    requires Initial(s) && IsRun(s, run) && Stopping(After(s, run))
    ensures var s' := After(s, run);
            && (forall id: ItemId :: id < s'.nextItem && id !in s'.finished ==> Held(s'.pcs, id))
            && (forall t :: t in s'.pcs && HasItem(s'.pcs[t]) ==>
                  s'.pcs[t].Holding? && (s'.pcs[t].stage == Settled || s'.pcs[t].stage == Requeue || s'.pcs[t].stage == Marking))
  {
    InitialAccounted(s);
    RunAccounted(s, run);
    var s' := After(s, run);
    assert ActiveThreads(s'.pcs) == {};
    forall t | t in s'.pcs && HasItem(s'.pcs[t])
      ensures s'.pcs[t].Holding? && (s'.pcs[t].stage == Settled || s'.pcs[t].stage == Requeue || s'.pcs[t].stage == Marking)
    {
      assert t !in ActiveThreads(s'.pcs);
    }
    forall id: ItemId | id < s'.nextItem && id !in s'.finished ensures Held(s'.pcs, id) {
      assert !InQueue(s'.queue, id);
    }
  }

  // ---------------------------------------------------------------- stopping too early

  /** The thread is about to queue its fiber again: it yielded READY. */
  ghost predicate AboutToQueue(s: State, t: ThreadId) {
    && t in s.pcs && s.pcs[t].Holding? && s.pcs[t].fiber in s.states
    && (s.pcs[t].stage == Requeue || (s.pcs[t].stage == Settled && s.states[s.pcs[t].fiber] == READY))
  }

  /** Steps of the worker threads and of the code they run, as opposed to outside callers and wake-up sources. */
  predicate OfThreads(a: Action) {
    !a.Post? && !a.Spawn? && !a.Wake? && !a.RequestStop?
  }

  ghost predicate ThreadRun(s: State, run: seq<Action>)
    decreases |run|
  {
    run == [] || (Enabled(s, run[0]) && OfThreads(run[0]) && ThreadRun(Apply(s, run[0]), run[1..]))
  }

  /** The fiber a thread holds exists, and every thread has a place for a callback fiber. */
  ghost predicate Shaped(s: State) {
    s.cbFiber.Keys == s.pcs.Keys && forall t :: t in s.pcs && s.pcs[t].Holding? ==> s.pcs[t].fiber in s.states
  }

  /** A step that sets the program counter of thread t at most, and forgets no fiber. */
  lemma ShapedAfter(s: State, s': State, t: ThreadId)
    requires Shaped(s) && s.states.Keys <= s'.states.Keys && s'.cbFiber.Keys == s.cbFiber.Keys && s'.pcs.Keys == s.pcs.Keys
    requires forall u :: u in s.pcs && u != t ==> s'.pcs[u] == s.pcs[u]
    requires t in s'.pcs && s'.pcs[t].Holding? ==> s'.pcs[t].fiber in s'.states
    ensures Shaped(s')
  {
  }

  lemma ShapedStep(s: State, a: Action)
    requires Shaped(s) && Enabled(s, a)
    ensures Shaped(Apply(s, a))
  {
    match a
    case Post(_, _) =>
    case Spawn(_, _) =>
    case Wake(_, _) =>
    case RequestStop =>
    case Dispatch(t, _) => ShapedDispatch(s, a);
    case Settle(t) => ShapedAfter(s, Apply(s, a), t);
    case Reschedule(t) => ShapedHandBack(s, a);
    case MarkHold(t) => ShapedHandBack(s, a);
    case _ => ShapedSimpleStep(s, a);
  }

  lemma ShapedDispatch(s: State, a: Action)
    requires Shaped(s) && Enabled(s, a) && a.Dispatch?
    ensures Shaped(Apply(s, a))
  {
    ShapedAfter(s, Apply(s, a), a.t);
  }

  lemma ShapedHandBack(s: State, a: Action)
    requires Shaped(s) && Enabled(s, a) && (a.Reschedule? || a.MarkHold?)
    ensures Shaped(Apply(s, a))
  {
    ShapedAfter(s, Apply(s, a), a.t);
  }

  lemma ShapedSimpleStep(s: State, a: Action)
    requires Shaped(s) && Enabled(s, a) && !a.Post? && !a.Spawn? && !a.Wake? && !a.RequestStop?
    requires !a.Dispatch? && !a.Settle? && !a.Reschedule? && !a.MarkHold?
    ensures Shaped(Apply(s, a))
  {
    ShapedAfter(s, Apply(s, a), a.t);
  }

  lemma {:induction false} RunShaped(s: State, run: seq<Action>)
    requires Shaped(s) && IsRun(s, run)
    ensures Shaped(After(s, run))
    decreases |run|
  {
    if run != [] {
      ShapedStep(s, run[0]);
      RunShaped(Apply(s, run[0]), run[1..]);
    }
  }

  /** Nothing is queued, and no thread has anything but marking its fiber left to do with its item. */
  ghost predicate Quiet(s: State) {
    s.queue == [] && forall t :: t in s.pcs ==> QuietPc(s.pcs[t], s.states)
  }

  predicate QuietPc(pc: Pc, states: map<FiberId, FiberState>) {
    match pc
    case Holding(stage, _, f, _) => stage == Marking || (stage == Settled && f in states && states[f] != READY)
    case Took(_) => false
    case Stale(_) => false
    case _ => true
  }

  /** What threads can do then. */
  lemma QuietEnabled(s: State, a: Action)
    requires Quiet(s) && Enabled(s, a) && OfThreads(a)
    ensures a.Scan? || a.Settle? || a.MarkHold? || a.EnterIdle? || a.LeaveIdle?
  {
    assert a.t in s.pcs && QuietPc(s.pcs[a.t], s.states);
  }

  lemma QuietStep(s: State, a: Action)
    requires Quiet(s) && Enabled(s, a) && OfThreads(a)
    ensures Quiet(Apply(s, a))
  {
    QuietEnabled(s, a);
    if a.Settle? { QuietSettle(s, a.t); } else if a.MarkHold? { QuietMark(s, a.t); } else { QuietIdle(s, a); }
  }

  lemma QuietFrame(s: State, s': State, t: ThreadId)
    requires Quiet(s) && t in s'.pcs && s'.pcs == s.pcs[t := s'.pcs[t]] && s'.queue == [] && QuietPc(s'.pcs[t], s'.states)
    requires forall f :: f in s.states ==> f in s'.states && (s'.states[f] == s.states[f] || s'.states[f] != READY)
    ensures Quiet(s')
  {
  }

  lemma QuietIdle(s: State, a: Action)
    requires Quiet(s) && Enabled(s, a) && (a.Scan? || a.EnterIdle? || a.LeaveIdle?)
    ensures Quiet(Apply(s, a))
  {
    QuietFrame(s, Apply(s, a), a.t);
  }

  lemma QuietSettle(s: State, t: ThreadId)
    requires Quiet(s) && Enabled(s, Settle(t))
    ensures Quiet(Apply(s, Settle(t)))
  {
    QuietFrame(s, Apply(s, Settle(t)), t);
  }

  lemma QuietMark(s: State, t: ThreadId)
    requires Quiet(s) && Enabled(s, MarkHold(t))
    ensures Quiet(Apply(s, MarkHold(t)))
  {
    QuietFrame(s, Apply(s, MarkHold(t)), t);
  }

  lemma {:induction false} QuietForever(s: State, run: seq<Action>)
    requires Quiet(s) && ThreadRun(s, run)
    ensures IsRun(s, run) && Quiet(After(s, run))
    decreases |run|
  {
    if run != [] {
      QuietStep(s, run[0]);
      QuietForever(Apply(s, run[0]), run[1..]);
    }
  }

  lemma StoppingIsQuiet(s: State)
    requires Accounted(s) && Shaped(s) && Stopping(s) && forall t :: !AboutToQueue(s, t)
    ensures Quiet(s)
  {
    assert ActiveThreads(s.pcs) == {};
    forall t | t in s.pcs ensures !IsActive(s.pcs[t]) && !AboutToQueue(s, t) {
      assert t !in ActiveThreads(s.pcs);
    }
  }

  /** A thread that is about to queue its fiber can do so without anybody's help. */
  lemma CanQueue(s: State, t: ThreadId) returns (run: seq<Action>)
    requires Shaped(s) && AboutToQueue(s, t)
    ensures ThreadRun(s, run) && IsRun(s, run) && After(s, run).queue != []
    decreases s.pcs[t].stage == Settled
  {
    if s.pcs[t].stage == Requeue {
      run := [Reschedule(t)];
      var s' := Apply(s, Reschedule(t));
      assert run[1..] == [] && s'.queue != [];
      assert ThreadRun(s', []) && IsRun(s', []) && After(s', []) == s';
    } else {
      var s1 := Apply(s, Settle(t));
      assert AboutToQueue(s1, t) && s1.pcs[t].stage == Requeue;
      var rest := CanQueue(s1, t);
      run := [Settle(t)] + rest;
      assert run[1..] == rest;
    }
  }

  /**
    When stopping() answers true, the threads alone can queue an item again if and only if one of them
    holds a fiber that yielded READY and has not been scheduled again yet.
   */
  lemma StoppingIsFinalIff(s: State, run: seq<Action>)
    requires Initial(s) && IsRun(s, run) && Stopping(After(s, run))
    ensures var s' := After(s, run);
            (exists more :: ThreadRun(s', more) && IsRun(s', more) && After(s', more).queue != []) <==> exists t :: AboutToQueue(s', t)
  {
    var s' := After(s, run);
    InitialAccounted(s);
    RunAccounted(s, run);
    RunShaped(s, run);
    if t :| AboutToQueue(s', t) {
      var more := CanQueue(s', t);
    } else {
      StoppingIsQuiet(s');
      forall more | ThreadRun(s', more) && IsRun(s', more) ensures After(s', more).queue == [] {
        QuietForever(s', more);
      }
    }
  }

  /** No fiber is READY, and no thread is about to queue one. */
  ghost predicate NoneReady(s: State) {
    && (forall f :: f in s.states ==> s.states[f] != READY)
    && (forall t :: t in s.pcs && s.pcs[t].Holding? ==> s.pcs[t].stage != Requeue)
  }

  lemma NoneReadyStep(s: State, a: Action)
    requires NoneReady(s) && Enabled(s, a) && !a.YieldToReady?
    ensures NoneReady(Apply(s, a))
  {
    match a
    case Dispatch(_, _) =>
    case Settle(_) =>
    case Reschedule(_) =>
    case MarkHold(_) =>
    case _ => NoneReadySimpleStep(s, a);
  }

  lemma NoneReadySimpleStep(s: State, a: Action)
    requires NoneReady(s) && Enabled(s, a)
    requires !a.YieldToReady? && !a.Dispatch? && !a.Settle? && !a.Reschedule? && !a.MarkHold?
    ensures NoneReady(Apply(s, a))
  {
  }

  lemma {:induction false} RunNoneReady(s: State, run: seq<Action>)
    requires NoneReady(s) && IsRun(s, run) && forall i :: 0 <= i < |run| ==> !run[i].YieldToReady?
    ensures NoneReady(After(s, run))
    decreases |run|
  {
    if run != [] {
      NoneReadyStep(s, run[0]);
      RunNoneReady(Apply(s, run[0]), run[1..]);
    }
  }

  /** In code that never yields READY, stopping() is right whenever it answers true: the threads alone queue nothing any more. */
  lemma StoppingIsFinalWithoutReady(s: State, run: seq<Action>, more: seq<Action>)
    requires Initial(s) && IsRun(s, run) && Stopping(After(s, run)) && forall i :: 0 <= i < |run| ==> !run[i].YieldToReady?
    requires ThreadRun(After(s, run), more)
    ensures IsRun(After(s, run), more) && After(After(s, run), more).queue == []
  {
    RunNoneReady(s, run);
    InitialAccounted(s);
    RunAccounted(s, run);
    RunShaped(s, run);
    StoppingIsQuiet(After(s, run));
    QuietForever(After(s, run), more);
  }

  /** In code that does, it can be wrong: a fiber that yielded READY is neither queued nor counted between the decrement and schedule(). */
  lemma StoppingCanMissReadyFiber(s: State, t: ThreadId, f: FiberId) returns (run: seq<Action>)
    requires Initial(s) && t in s.pcs
    ensures IsRun(s, run) && Stopping(After(s, run)) && AboutToQueue(After(s, run), t)
  {
    run := StartFiber(s, t, f);
    run := Extend(s, run, YieldToReady(t));
    assert Alone(s, After(s, run), t, Holding(Leaving, 0, f, false), f, READY);
    run := Extend(s, run, SwapOut(t));
    assert Alone(s, After(s, run), t, Holding(Back, 0, f, false), f, READY);
    run := Extend(s, run, RequestStop);
    run := Extend(s, run, Decrement(t));
    assert Alone(s, After(s, run), t, Holding(Settled, 0, f, false), f, READY);
  }
}
