/**
  The fiber semaphore and the worker group (yk/worker.cc).
 */
module Semaphores {
  import opened Common

  /** Permits that are available, and the suspended fibers in the order in which they will be resumed. */
  datatype Sem<T> = Sem(available: nat, waiters: seq<T>)

  /** Waiters exist only when no permit is available. */
  predicate SemOk<T>(s: Sem<T>) {
    s.waiters != [] ==> s.available == 0
  }

  /** wait by f: it goes on at once, or is suspended. */
  function Wait<T>(s: Sem<T>, f: T): (r: Sem<T>)
    requires SemOk(s)
    ensures SemOk(r)
  {
    if s.available > 0 then s.(available := s.available - 1) else s.(waiters := s.waiters + [f])
  }

  /** notify: the permit goes to the first waiter, or becomes available. */
  function Notify<T>(s: Sem<T>): (r: Sem<T>)
    requires SemOk(s)
    ensures SemOk(r)
  {
    if s.waiters != [] then s.(waiters := s.waiters[1..]) else s.(available := s.available + 1)
  }

  /** The fiber that notify resumes. */
  function Woken<T>(s: Sem<T>): Option<T> {
    if s.waiters == [] then None else Some(s.waiters[0])
  }

  /** The ghost fields record the semaphore's history. */
  class FiberSemaphore<T> {
    var concurrency: nat
    var waiters: seq<T>
    ghost const initial: nat
    ghost var notified: nat           // calls of notify
    ghost var passed: nat             // waits and tryWaits that went on at once
    ghost var dropped: nat            // permits thrown away by reset
    ghost var queued: seq<T>          // fibers that had to wait, in order
    ghost var resumed: seq<T>         // fibers that were resumed, in order

    ghost function Value(): Sem<T>
      reads this
    {
      Sem(concurrency, waiters)
    }

    /**
      Permits are conserved, waiters exist only when none is available, and waiters are resumed in
      the order in which they came.
     */
    ghost predicate Valid()
      reads this
    {
      && SemOk(Value())
      && initial + notified == concurrency + passed + |resumed| + dropped
      && queued == resumed + waiters
    }

    constructor (permits: nat)
      ensures Valid() && Value() == Sem(permits, []) && initial == permits
      ensures notified == 0 && passed == 0 && dropped == 0 && queued == [] && resumed == []
    {
      concurrency, waiters, initial := permits, [], permits;
      notified, passed, dropped, queued, resumed := 0, 0, 0, [], [];
    }

    method TryWait() returns (ok: bool)
      requires Valid()
      modifies this
      ensures Valid() && ok == (old(concurrency) > 0)
      ensures concurrency == old(concurrency) - (if ok then 1 else 0) && waiters == old(waiters)
      ensures passed == old(passed) + (if ok then 1 else 0)
      ensures notified == old(notified) && dropped == old(dropped) && queued == old(queued) && resumed == old(resumed)
    {
      if concurrency > 0 {
        concurrency := concurrency - 1;
        passed := passed + 1;
        return true;
      }
      return false;
    }

    /** True when the caller goes on at once, false when it is suspended. */
    method WaitBy(f: T) returns (ok: bool)
      requires Valid()
      modifies this
      ensures Valid() && ok == (old(concurrency) > 0) && Value() == Wait(old(Value()), f)
      ensures passed == old(passed) + (if ok then 1 else 0) && queued == old(queued) + (if ok then [] else [f])
      ensures notified == old(notified) && dropped == old(dropped) && resumed == old(resumed)
    {
      if concurrency > 0 {
        concurrency := concurrency - 1;
        passed := passed + 1;
        return true;
      }
      waiters := waiters + [f];
      queued := queued + [f];
      return false;
    }

    method NotifyOne() returns (woken: Option<T>)
      requires Valid()
      modifies this
      ensures Valid() && woken == Woken(old(Value())) && Value() == Notify(old(Value()))
      ensures notified == old(notified) + 1 && resumed == old(resumed) + (if woken.Some? then [woken.value] else [])
      ensures passed == old(passed) && dropped == old(dropped) && queued == old(queued)
    {
      notified := notified + 1;
      if waiters != [] {
        woken := Some(waiters[0]);
        waiters := waiters[1..];
        resumed := resumed + [woken.value];
      } else {
        woken := None;
        concurrency := concurrency + 1;
      }
    }

    method ResetPermits()
      requires Valid()
      modifies this
      ensures Valid() && Value() == old(Value()).(available := 0)
      ensures dropped == old(dropped) + old(concurrency)
      ensures notified == old(notified) && passed == old(passed) && queued == old(queued) && resumed == old(resumed)
    {
      dropped := dropped + concurrency;
      concurrency := 0;
    }
  }
}

/**
  WorkerGroup as a step system: any number of fibers call schedule() and waitAll(), callbacks run,
  return or throw, in any interleaving.  waitAll() reads m_finish and then writes it, without a lock.
  A callback runs in a fiber of its own and may use its own group; it returns only from outside such a call.
 */
module WorkerGroups {
  import opened Common
  import opened Semaphores

  type FiberId = nat

  datatype State = State(
    batchSize: nat,
    sem: Sem<FiberId>,
    posting: set<FiberId>,         // in schedule(), with a permit, about to hand the callback over
    running: set<FiberId>,         // the fibers of callbacks handed over that have not returned
    returning: set<FiberId>,       // those of callbacks that have returned and are about to notify
    lost: nat,                     // callbacks that threw: their notify never comes
    finish: bool,
    testing: set<FiberId>,         // have read m_finish as false and are about to set it
    drainers: set<FiberId>,        // in waitAll()'s loop
    taken: multiset<FiberId>,      // the permits each caller of waitAll() has got
    returned: set<FiberId>)        // have left the loop

  datatype Action =
    | Schedule(f: FiberId)
    | HandOver(f: FiberId, c: FiberId)   // the callback will run in fiber c
    | Return(c: FiberId)
    | Throw(c: FiberId)
    | Release(c: FiberId)
    | TestFinish(f: FiberId)       // reads false
    | SetFinish(f: FiberId)
    | WaitAllAgain(f: FiberId)     // reads true: returns at once
    | TakePermit(f: FiberId)
    | LeaveWaitAll(f: FiberId)

  /** The fiber is inside a call of the group. */
  predicate InCall(s: State, f: FiberId) {
    f in s.sem.waiters || f in s.posting || f in s.testing || f in s.drainers
  }

  /** It runs code of its own, in a callback of the group or elsewhere. */
  predicate Free(s: State, f: FiberId) {
    !InCall(s, f) && f !in s.returning
  }

  predicate Enabled(s: State, a: Action) {
    SemOk(s.sem) &&
    match a
    case Schedule(f) => Free(s, f)
    case HandOver(f, c) => f in s.posting && Free(s, c) && c !in s.running
    case Return(c) => c in s.running && Free(s, c)
    case Throw(c) => c in s.running && Free(s, c)
    case Release(c) => c in s.returning
    case TestFinish(f) => Free(s, f) && !s.finish
    case SetFinish(f) => f in s.testing
    case WaitAllAgain(f) => Free(s, f) && s.finish
    case TakePermit(f) => f in s.drainers && f !in s.sem.waiters && s.taken[f] < s.batchSize
    case LeaveWaitAll(f) => f in s.drainers && f !in s.sem.waiters && s.taken[f] >= s.batchSize
  }

  /** A permit is given to a fiber that waited for it. */
  function Grant(s: State, f: FiberId): State {
    if f in s.drainers then s.(taken := s.taken + multiset{f}) else s.(posting := s.posting + {f})
  }

  /** wait() by f. */
  function Acquire(s: State, f: FiberId): State
    requires SemOk(s.sem)
  {
    var s1 := s.(sem := Wait(s.sem, f));
    if s.sem.available > 0 then Grant(s1, f) else s1
  }

  function Apply(s: State, a: Action): State
    requires Enabled(s, a)
  {
    match a
    case Schedule(f) => Acquire(s, f)
    case HandOver(f, c) => s.(posting := s.posting - {f}, running := s.running + {c})
    case Return(c) => s.(running := s.running - {c}, returning := s.returning + {c})
    case Throw(c) => s.(running := s.running - {c}, lost := s.lost + 1)
    case Release(c) =>
      var s1 := s.(returning := s.returning - {c}, sem := Notify(s.sem));
      if s.sem.waiters != [] then Grant(s1, s.sem.waiters[0]) else s1
    case TestFinish(f) => s.(testing := s.testing + {f})
    case SetFinish(f) => s.(testing := s.testing - {f}, drainers := s.drainers + {f}, finish := true)
    case WaitAllAgain(_) => s
    case TakePermit(f) => Acquire(s, f)
    case LeaveWaitAll(f) => s.(drainers := s.drainers - {f}, returned := s.returned + {f})
  }

  function Initial(batchSize: nat): State {
    State(batchSize, Sem(batchSize, []), {}, {}, {}, 0, false, {}, {}, multiset{}, {})
  }

  // ---------------------------------------------------------------- invariant

  /** Every permit is available, with a callback, lost with one that threw, or with a caller of waitAll(). */
  ghost predicate Conserved(s: State) {
    s.batchSize == s.sem.available + |s.posting| + |s.running| + |s.returning| + s.lost + |s.taken|
  }

  ghost predicate WaitersOk(s: State) {
    && SemOk(s.sem)
    && (forall i, j :: 0 <= i < j < |s.sem.waiters| ==> s.sem.waiters[i] != s.sem.waiters[j])
    && (forall f :: f in s.sem.waiters ==> f !in s.posting && f !in s.testing && (f in s.drainers ==> s.taken[f] < s.batchSize))
  }

  ghost predicate CallersOk(s: State) {
    && (forall f :: f in s.returning ==> !InCall(s, f) && f !in s.running)
    && (forall f :: f in s.posting ==> f !in s.testing && f !in s.drainers)
    && (forall f :: f in s.testing ==> f !in s.drainers && f !in s.returned)
    && (forall f :: f in s.drainers ==> f !in s.returned && s.finish)
    && (forall f :: f in s.returned ==> s.taken[f] == s.batchSize && s.finish)
    && (forall f :: f in s.taken ==> f in s.drainers || f in s.returned)
  }

  ghost predicate Inv(s: State) {
    Conserved(s) && WaitersOk(s) && CallersOk(s)
  }

  /** What some fibers have is no more than the whole. */
  lemma Shares(m: multiset<FiberId>, f: FiberId, g: FiberId)
    ensures m[f] <= |m| && (f != g ==> m[f] + m[g] <= |m|)
  {
    var m1 := m[f := 0];
    assert |m1| == |m| - m[f];
    var m2 := m1[g := 0];
    assert |m2| == |m1| - m1[g];
  }

  lemma AcquireKeeps(s: State, f: FiberId)
    requires Inv(s) && f !in s.sem.waiters && f !in s.posting && f !in s.testing && f !in s.returning
    requires f in s.drainers ==> s.taken[f] < s.batchSize
    ensures Inv(Acquire(s, f))
  {
    if s.sem.available == 0 {
      var waiters := s.sem.waiters + [f];
      assert forall i :: 0 <= i < |s.sem.waiters| ==> waiters[i] in s.sem.waiters;
    }
  }

  lemma Remove(x: set<FiberId>, f: FiberId)
    requires f in x
    ensures |x - {f}| == |x| - 1
  {
  }

  lemma ReleaseKeeps(s: State, c: FiberId)
    requires Inv(s) && c in s.returning
    ensures Inv(Apply(s, Release(c)))
  {
    Remove(s.returning, c);
    if s.sem.waiters != [] {
      var f, w := s.sem.waiters[0], s.sem.waiters[1..];
      assert f in s.sem.waiters;
      assert forall g :: g in w ==> g in s.sem.waiters && g != f;
      var s1 := s.(returning := s.returning - {c}, sem := s.sem.(waiters := w));
      GrantKeeps(s1, f);
    }
  }

  /** A permit that was in nobody's hands goes to f. */
  lemma GrantKeeps(s: State, f: FiberId)
    requires s.batchSize == s.sem.available + |s.posting| + |s.running| + |s.returning| + s.lost + |s.taken| + 1
    requires WaitersOk(s) && CallersOk(s) && f !in s.sem.waiters && f !in s.posting && f !in s.testing && f !in s.returning
    requires f in s.drainers ==> s.taken[f] < s.batchSize
    ensures Inv(Grant(s, f))
  {
  }

  lemma CallbackKeeps(s: State, a: Action)
    requires Inv(s) && Enabled(s, a) && (a.HandOver? || a.Return? || a.Throw?)
    ensures Inv(Apply(s, a))
  {
    if a.HandOver? { Remove(s.posting, a.f); } else { Remove(s.running, a.c); }
  }

  lemma CallKeeps(s: State, a: Action)
    requires Inv(s) && Enabled(s, a) && (a.TestFinish? || a.SetFinish? || a.LeaveWaitAll?)
    ensures Inv(Apply(s, a))
  {
    if a.LeaveWaitAll? { Shares(s.taken, a.f, a.f); }
    if a.SetFinish? { assert a.f !in s.taken; }
  }

  lemma StepKeeps(s: State, a: Action)
    requires Inv(s) && Enabled(s, a)
    ensures Inv(Apply(s, a))
  {
    match a
    case Schedule(f) => AcquireKeeps(s, f);
    case TakePermit(f) => AcquireKeeps(s, f);
    case Release(c) => ReleaseKeeps(s, c);
    case TestFinish(_) => CallKeeps(s, a);
    case SetFinish(_) => CallKeeps(s, a);
    case LeaveWaitAll(_) => CallKeeps(s, a);
    case WaitAllAgain(_) =>
    case _ => CallbackKeeps(s, a);
  }

  ghost predicate IsRun(s: State, run: seq<Action>)
    decreases |run|
  {
    run == [] || (Enabled(s, run[0]) && IsRun(Apply(s, run[0]), run[1..]))
  }

  ghost function After(s: State, run: seq<Action>): State
    requires IsRun(s, run)
    decreases |run|
  {
    if run == [] then s else After(Apply(s, run[0]), run[1..])
  }

  lemma {:induction false} RunKeeps(s: State, run: seq<Action>)
    requires Inv(s) && IsRun(s, run)
    ensures Inv(After(s, run)) && After(s, run).batchSize == s.batchSize
    decreases |run|
  {
    if run != [] {
      StepKeeps(s, run[0]);
      RunKeeps(Apply(s, run[0]), run[1..]);
    }
  }

  // ---------------------------------------------------------------- main results

  /** Callbacks that schedule() has let through and whose permit is not back. */
  function InFlight(s: State): nat {
    |s.posting| + |s.running| + |s.returning|
  }

  /** In every run, no more than batchSize callbacks are in flight. */
  lemma BatchBound(batchSize: nat, run: seq<Action>)
    requires IsRun(Initial(batchSize), run)
    ensures InFlight(After(Initial(batchSize), run)) <= batchSize
  {
    RunKeeps(Initial(batchSize), run);
  }

  /** In any run, a call of waitAll() leaves its loop only when no callback is in flight and none has thrown. */
  lemma WaitAllWaits(batchSize: nat, run: seq<Action>, f: FiberId)
    requires IsRun(Initial(batchSize), run)
    ensures var s := After(Initial(batchSize), run);
            f in s.returned || Enabled(s, LeaveWaitAll(f)) ==> InFlight(s) == 0 && s.lost == 0 && s.sem.available == 0
  {
    RunKeeps(Initial(batchSize), run);
    Shares(After(Initial(batchSize), run).taken, f, f);
  }

  /** Hence one callback that throws keeps every call of waitAll() from ever returning. */
  lemma {:induction false} ThrowBlocksWaitAll(s: State, run: seq<Action>)
    requires Inv(s) && s.lost > 0 && IsRun(s, run)
    ensures After(s, run).lost > 0 && After(s, run).returned == {}
    decreases |run|
  {
    if run == [] {
      forall f | f in s.returned ensures false { Shares(s.taken, f, f); }
    } else {
      StepKeeps(s, run[0]);
      ThrowBlocksWaitAll(Apply(s, run[0]), run[1..]);
    }
  }

  /** After one has returned, nobody gets a permit again: schedule() suspends its caller for good. */
  lemma {:induction false} NothingAfterWaitAll(s: State, run: seq<Action>, f: FiberId)
    requires Inv(s) && f in s.returned && IsRun(s, run)
    ensures var s' := After(s, run); InFlight(s') == 0 && s.sem.waiters <= s'.sem.waiters
    decreases |run|
  {
    Shares(s.taken, f, f);
    if run != [] {
      StepKeeps(s, run[0]);
      NothingAfterWaitAll(Apply(s, run[0]), run[1..], f);
    }
  }

  // ---------------------------------------------------------------- when waitAll() can return

  predicate Ahead(waiters: seq<FiberId>, f: FiberId, g: FiberId) {
    exists i, j :: 0 <= i < j < |waiters| && waiters[i] == f && waiters[j] == g
  }

  /** Caller g of waitAll() is asleep and will get a permit before f has all of its own. */
  ghost predicate InTheWay(s: State, f: FiberId, g: FiberId) {
    && g != f && g in s.drainers && g in s.sem.waiters && s.taken[f] < s.batchSize
    && !(Ahead(s.sem.waiters, f, g) && s.taken[f] + 1 == s.batchSize)
  }

  /** The callbacks that are asleep in their own group. */
  function Sleepers(s: State): set<FiberId> {
    set c | c in s.running && c in s.sem.waiters
  }

  function Awake(s: State): set<FiberId> {
    set c | c in s.running && c !in s.sem.waiters
  }

  /** The permits that can still be handed on. */
  function Live(s: State): nat {
    s.sem.available + |s.posting| + |Awake(s)| + |s.returning|
  }

  /** A callback of the group is in waitAll() of its own group, and waits for its own permit. */
  ghost predicate WaitsForItself(s: State) {
    exists c :: c in s.running && (c in s.testing || c in s.drainers)
  }

  /** f is asleep, and every callback that is asleep in its own group will be served after it. */
  ghost predicate First(s: State, f: FiberId) {
    f in s.sem.waiters && forall c :: c in s.running ==> !Ahead(s.sem.waiters, c, f)
  }

  /** Callbacks are asleep in schedule() of their own group, and there is no permit for them, or only the one that f will get first. */
  ghost predicate Starved(s: State, f: FiberId) {
    Sleepers(s) != {} && Live(s) <= if First(s, f) then 1 else 0
  }

  /** Another caller of waitAll() has a permit, or will get one before f has all of its own. */
  ghost predicate Rivalled(s: State, f: FiberId) {
    (exists g :: g != f && s.taken[g] > 0) || (exists g :: InTheWay(s, f, g))
  }

  /** A permit that f needs will never come. */
  ghost predicate Blocked(s: State, f: FiberId) {
    s.lost > 0 || Rivalled(s, f) || WaitsForItself(s) || Starved(s, f)
  }

  lemma BlockedStays(s: State, f: FiberId, a: Action)
    requires Inv(s) && f in s.drainers && Blocked(s, f) && Enabled(s, a)
    ensures f in Apply(s, a).drainers && Blocked(Apply(s, a), f)
  {
    if s.lost > 0 {
      Shares(s.taken, f, f);
    } else if Rivalled(s, f) {
      RivalStays(s, f, a);
    } else if c :| c in s.running && (c in s.testing || c in s.drainers) {
      SelfWaitStays(s, f, c, a);
    } else {
      StarvedStays(s, f, a);
    }
  }

  lemma RivalStays(s: State, f: FiberId, a: Action)
    requires Inv(s) && f in s.drainers && Rivalled(s, f) && Enabled(s, a)
    ensures f in Apply(s, a).drainers && Rivalled(Apply(s, a), f)
  {
    var s' := Apply(s, a);
    if g :| g != f && s.taken[g] > 0 {
      Shares(s.taken, f, g);
      assert s'.taken[g] > 0;
    } else {
      var g :| InTheWay(s, f, g);
      InTheWayStays(s, f, g, a);
    }
  }

  /** A running callback has a permit, so no caller of waitAll() has all of them. */
  lemma NoneHasAll(s: State, f: FiberId, c: FiberId)
    requires Inv(s) && c in s.running
    ensures s.taken[f] < s.batchSize
  {
    Shares(s.taken, f, f);
    Remove(s.running, c);
  }

  lemma SelfWaitStays(s: State, f: FiberId, c: FiberId, a: Action)
    requires Inv(s) && f in s.drainers && c in s.running && (c in s.testing || c in s.drainers) && Enabled(s, a)
    ensures var s' := Apply(s, a); f in s'.drainers && c in s'.running && (c in s'.testing || c in s'.drainers)
  {
    NoneHasAll(s, f, c);
    NoneHasAll(s, c, c);
  }

  /** s' has the same callbacks asleep, no more live permits, and f is as far from its turn. */
  lemma StillStarved(s: State, s': State, f: FiberId)
    requires Starved(s, f) && Sleepers(s) <= Sleepers(s') && Live(s') <= Live(s) && (First(s, f) ==> First(s', f) || Live(s') == 0)
    ensures Starved(s', f)
  {
  }

  lemma StarvedStays(s: State, f: FiberId, a: Action)
    requires Inv(s) && f in s.drainers && Starved(s, f) && Enabled(s, a) && !Rivalled(s, f) && !WaitsForItself(s)
    ensures f in Apply(s, a).drainers && Blocked(Apply(s, a), f)
  {
    var c :| c in Sleepers(s);
    NoneHasAll(s, f, c);
    if a.Schedule? || a.TakePermit? {
      SleepStarved(s, f, a, a.f);
    } else if a.Release? {
      ReleaseStarved(s, f, a.c);
    } else if a.HandOver? {
      HandOverStarved(s, f, a.f, a.c);
    } else if a.Return? {
      ReturnStarved(s, f, a.c);
    } else if !a.Throw? && !a.LeaveWaitAll? {
      assert Awake(Apply(s, a)) == Awake(s) && Sleepers(Apply(s, a)) == Sleepers(s);
      StillStarved(s, Apply(s, a), f);
    }
  }

  lemma HandOverStarved(s: State, f: FiberId, g: FiberId, d: FiberId)
    requires Starved(s, f) && Enabled(s, HandOver(g, d))
    ensures Starved(Apply(s, HandOver(g, d)), f)
  {
    var s' := Apply(s, HandOver(g, d));
    Remove(s.posting, g);
    assert Awake(s') == Awake(s) + {d} && Sleepers(s') == Sleepers(s);
    NotAhead(s.sem.waiters, d, f);
    StillStarved(s, s', f);
  }

  lemma ReturnStarved(s: State, f: FiberId, d: FiberId)
    requires Inv(s) && Starved(s, f) && Enabled(s, Return(d))
    ensures Starved(Apply(s, Return(d)), f)
  {
    var s' := Apply(s, Return(d));
    Remove(Awake(s), d);
    assert Awake(s') == Awake(s) - {d} && Sleepers(s') == Sleepers(s);
    StillStarved(s, s', f);
  }

  lemma NotAhead(w: seq<FiberId>, c: FiberId, f: FiberId)
    requires c !in w
    ensures !Ahead(w, c, f)
  {
  }

  /** Somebody else goes to sleep, or a callback, or f. */
  lemma SleepStarved(s: State, f: FiberId, a: Action, h: FiberId)
    requires Inv(s) && f in s.drainers && Starved(s, f) && Enabled(s, a) && (a == Schedule(h) || a == TakePermit(h))
    ensures f in Apply(s, a).drainers && Starved(Apply(s, a), f)
  {
    var s', w := Apply(s, a), s.sem.waiters;
    assert s.sem.available == 0;
    assert s'.sem.waiters == w + [h];
    assert Sleepers(s) <= Sleepers(s');
    assert Awake(s') == Awake(s) - {h};
    if First(s, f) {
      forall c | c in s'.running ensures !Ahead(w + [h], c, f) { AheadAppend(w, h, c, f); }
    }
    StillStarved(s, s', f);
  }

  /** The last live permit goes to f, or to a fiber that is no callback of the group. */
  lemma ReleaseStarved(s: State, f: FiberId, d: FiberId)
    requires Inv(s) && f in s.drainers && Starved(s, f) && d in s.returning && !Rivalled(s, f) && !WaitsForItself(s)
    ensures var s' := Apply(s, Release(d)); f in s'.drainers && Blocked(s', f)
  {
    var s', w := Apply(s, Release(d)), s.sem.waiters;
    Remove(s.returning, d);
    var x := w[0];
    assert First(s, f) && Live(s) == 1;
    HeadIsAhead(w, f);
    if x != f && x in s.drainers {
      assert s'.taken[x] > 0;
    } else {
      assert x !in s.running;
      ReleaseSets(s, d);
      assert Sleepers(s') == Sleepers(s) && Awake(s') == Awake(s);
      if x != f { FirstRest(s, s', f); }
      StillStarved(s, s', f);
    }
  }

  lemma HeadIsAhead(w: seq<FiberId>, f: FiberId)
    requires f in w
    ensures w[0] == f || Ahead(w, w[0], f)
  {
    var i :| 0 <= i < |w| && w[i] == f;
    if i > 0 { assert w[0] == w[0] && w[i] == f; }
  }

  /** What a release with waiters does to the callbacks and to the live permits. */
  lemma ReleaseSets(s: State, d: FiberId)
    requires Inv(s) && d in s.returning && s.sem.waiters != []
    ensures var s', x := Apply(s, Release(d)), s.sem.waiters[0];
            && Sleepers(s') == Sleepers(s) - {x} && Awake(s') == (if x in s.running then Awake(s) + {x} else Awake(s))
            && Live(s') == Live(s) - (if x in s.drainers then 1 else 0) + (if x in s.running then 1 else 0)
  {
    var s', x := Apply(s, Release(d)), s.sem.waiters[0];
    assert x in s.sem.waiters;
    RestMembers(s.sem.waiters);
    WakesOne(s, s', x);
    Remove(s.returning, d);
  }

  lemma RestMembers(w: seq<FiberId>)
    requires w != [] && forall i, j :: 0 <= i < j < |w| ==> w[i] != w[j]
    ensures forall g :: g in w[1..] <==> g in w && g != w[0]
  {
  }

  lemma WakesOne(s: State, s': State, x: FiberId)
    requires x in s.sem.waiters && s'.running == s.running
    requires forall g :: g in s'.sem.waiters <==> g in s.sem.waiters && g != x
    ensures Sleepers(s') == Sleepers(s) - {x} && Awake(s') == (if x in s.running then Awake(s) + {x} else Awake(s))
  {
    assert x !in Awake(s);
  }

  lemma AheadTail(w: seq<FiberId>, c: FiberId, f: FiberId)
    requires w != [] && Ahead(w[1..], c, f)
    ensures Ahead(w, c, f)
  {
    var i, j :| 0 <= i < j < |w[1..]| && w[1..][i] == c && w[1..][j] == f;
    assert w[i + 1] == c && w[j + 1] == f;
  }

  lemma FirstRest(s: State, s': State, f: FiberId)
    requires s.sem.waiters != [] && s.sem.waiters[0] != f && First(s, f)
    requires s'.running == s.running && s'.sem.waiters == s.sem.waiters[1..]
    ensures First(s', f)
  {
    var w := s.sem.waiters;
    var i :| 0 <= i < |w| && w[i] == f;
    assert w[1..][i - 1] == f;
    forall c | c in s'.running ensures !Ahead(w[1..], c, f) {
      if Ahead(w[1..], c, f) { AheadTail(w, c, f); }
    }
  }

  lemma InTheWayStays(s: State, f: FiberId, g: FiberId, a: Action)
    requires Inv(s) && f in s.drainers && InTheWay(s, f, g) && Enabled(s, a)
    ensures f in Apply(s, a).drainers && (InTheWay(Apply(s, a), f, g) || Apply(s, a).taken[g] > 0)
  {
    var w := s.sem.waiters;
    assert s.sem.available == 0;
    match a
    case Schedule(h) => AheadAppend(w, h, f, g);
    case TakePermit(h) => AheadAppend(w, h, f, g);
    case Release(_) => AheadRest(w, f, g);
    case _ =>
  }

  lemma AheadAppend(w: seq<FiberId>, h: FiberId, f: FiberId, g: FiberId)
    requires h !in w && g in w
    ensures g in w + [h] && (Ahead(w + [h], f, g) <==> Ahead(w, f, g))
  {
    var w' := w + [h];
    if i, j :| 0 <= i < j < |w'| && w'[i] == f && w'[j] == g {
      assert w[i] == f && w[j] == g;
    }
    if i, j :| 0 <= i < j < |w| && w[i] == f && w[j] == g {
      assert w'[i] == f && w'[j] == g;
    }
  }

  lemma AheadRest(w: seq<FiberId>, f: FiberId, g: FiberId)
    requires g in w && forall i, j :: 0 <= i < j < |w| ==> w[i] != w[j]
    ensures w[0] != g ==> g in w[1..]
    ensures w[0] != f ==> (Ahead(w[1..], f, g) <==> Ahead(w, f, g))
    ensures w[0] == f && f != g ==> Ahead(w, f, g) && f !in w[1..]
  {
    var j :| 0 <= j < |w| && w[j] == g;
    assert j > 0 ==> w[1..][j - 1] == g;
    if i, k :| 0 <= i < k < |w| && w[i] == f && w[k] == g && w[0] != f {
      assert w[1..][i - 1] == f && w[1..][k - 1] == g;
    }
    if i, k :| 0 <= i < k < |w[1..]| && w[1..][i] == f && w[1..][k] == g {
      assert w[i + 1] == f && w[k + 1] == g;
    }
  }

  /** A caller of waitAll() that is blocked never returns. */
  lemma {:induction false} BlockedForever(s: State, f: FiberId, run: seq<Action>)
    requires Inv(s) && f in s.drainers && Blocked(s, f) && IsRun(s, run)
    ensures f !in After(s, run).returned
    decreases |run|
  {
    if run != [] {
      BlockedStays(s, f, run[0]);
      StepKeeps(s, run[0]);
      BlockedForever(Apply(s, run[0]), f, run[1..]);
    }
  }

  /** How much is left to do for the callbacks in flight. */
  function Work(s: State): nat {
    3 * |s.posting| + 2 * |s.running| + |s.returning|
  }

  ghost predicate Nearer(s: State, s': State, f: FiberId) {
    || |s'.sem.waiters| < |s.sem.waiters|
    || (|s'.sem.waiters| == |s.sem.waiters| && s'.taken[f] > s.taken[f])
    || (|s'.sem.waiters| == |s.sem.waiters| && s'.taken[f] == s.taken[f] && Work(s') < Work(s))
  }

  /** The step brings f nearer to its return and does not block it. */
  ghost predicate Helps(s: State, a: Action, f: FiberId) {
    Enabled(s, a) && f in Apply(s, a).drainers && !Blocked(Apply(s, a), f) && Nearer(s, Apply(s, a), f)
  }

  /** A caller that is not blocked returns, or some step helps it. */
  lemma Progress(s: State, f: FiberId) returns (a: Action)
    requires Inv(s) && f in s.drainers && !Blocked(s, f)
    ensures (a == LeaveWaitAll(f) && Enabled(s, a)) || Helps(s, a, f)
  {
    var asleep := f in s.sem.waiters;
    if !asleep && s.taken[f] >= s.batchSize {
      a := LeaveWaitAll(f);
    } else if !asleep && s.sem.available > 0 {
      a := TakePermit(f);
      TakeHelps(s, f);
    } else if c :| c in s.returning {
      a := Release(c);
      ReleaseHelps(s, f, c);
    } else if c :| c in Awake(s) && c !in s.posting {
      a := Return(c);
      ReturnHelps(s, f, c);
    } else {
      SomebodyPosts(s, f);
      var g :| g in s.posting;
      var c := Fresh(s);
      a := HandOver(g, c);
      HandOverHelps(s, f, g, c);
    }
  }

  lemma TakeHelps(s: State, f: FiberId)
    requires Inv(s) && f in s.drainers && !Blocked(s, f) && s.sem.available > 0 && s.taken[f] < s.batchSize
    ensures Helps(s, TakePermit(f), f)
  {
    assert s.sem.waiters == [];
    assert Sleepers(Apply(s, TakePermit(f))) == {};
  }

  /** A step that hands a permit on, and leaves the semaphore alone. */
  lemma SameWaiters(s: State, s': State, f: FiberId)
    requires !Blocked(s, f) && s'.sem == s.sem && s'.taken == s.taken && s'.lost == s.lost && s'.batchSize == s.batchSize
    requires s'.drainers == s.drainers && s'.testing == s.testing && Sleepers(s') == Sleepers(s) && Live(s') == Live(s)
    requires forall c :: c in s'.running ==> c in s.running || (c !in s.testing && c !in s.drainers)
    requires forall c :: c in s.running && c !in s'.running ==> c !in s.sem.waiters
    ensures !Blocked(s', f)
  {
    if g :| InTheWay(s', f, g) { assert InTheWay(s, f, g); }
    if First(s', f) {
      forall c | c in s.running ensures !Ahead(s.sem.waiters, c, f) {
        if c !in s'.running { NotAhead(s.sem.waiters, c, f); }
      }
    }
  }

  lemma ReturnHelps(s: State, f: FiberId, c: FiberId)
    requires Inv(s) && f in s.drainers && !Blocked(s, f) && c in Awake(s) && c !in s.posting
    ensures Helps(s, Return(c), f)
  {
    var s' := Apply(s, Return(c));
    Remove(s.running, c);
    Remove(Awake(s), c);
    assert Awake(s') == Awake(s) - {c} && Sleepers(s') == Sleepers(s);
    SameWaiters(s, s', f);
  }

  lemma HandOverHelps(s: State, f: FiberId, g: FiberId, c: FiberId)
    requires Inv(s) && f in s.drainers && !Blocked(s, f) && g in s.posting && Free(s, c) && c !in s.running
    ensures Helps(s, HandOver(g, c), f)
  {
    var s' := Apply(s, HandOver(g, c));
    Remove(s.posting, g);
    assert Awake(s') == Awake(s) + {c} && Sleepers(s') == Sleepers(s);
    SameWaiters(s, s', f);
  }

  lemma {:induction false} SetBound(x: set<FiberId>) returns (b: nat)
    ensures forall f :: f in x ==> f < b
    decreases |x|
  {
    b := 0;
    if f :| f in x {
      var rest := x - {f};
      Remove(x, f);
      var b' := SetBound(rest);
      b := if b' <= f then f + 1 else b';
      assert forall g :: g in x ==> g == f || g in rest;
    }
  }

  /** A fiber that has to do with nothing. */
  lemma Fresh(s: State) returns (c: FiberId)
    ensures Free(s, c) && c !in s.running
  {
    var waiting := set f | f in s.sem.waiters;
    c := SetBound(waiting + s.posting + s.testing + s.drainers + s.returning + s.running);
    assert c in s.sem.waiters ==> c in waiting;
  }

  /** When nobody returns, a permit that f has not got is with a fiber about to hand its callback over. */
  lemma SomebodyPosts(s: State, f: FiberId)
    requires Inv(s) && f in s.drainers && !Blocked(s, f) && s.sem.available == 0 && s.returning == {}
    requires s.taken[f] < s.batchSize && forall c :: c in Awake(s) ==> c in s.posting
    ensures s.posting != {}
  {
    if s.posting == {} { IdleIsStarved(s, f); }
  }

  lemma IdleIsStarved(s: State, f: FiberId)
    requires Conserved(s) && s.sem.available == 0 && s.returning == {} && s.posting == {} && s.lost == 0 && Awake(s) == {}
    requires s.taken[f] < s.batchSize && forall g :: g != f ==> s.taken[g] == 0
    ensures Starved(s, f)
  {
    OnlyTaker(s.taken, f);
    assert s.running == Sleepers(s) + Awake(s);
  }

  lemma OnlyTaker(taken: multiset<FiberId>, f: FiberId)
    requires forall g :: g != f ==> taken[g] == 0
    ensures |taken| == taken[f]
  {
    var others := taken[f := 0];
    assert forall x :: others[x] == 0;
    assert others == multiset{};
    assert |others| == |taken| - taken[f];
  }

  lemma ReleaseHelps(s: State, f: FiberId, c: FiberId)
    requires Inv(s) && f in s.drainers && !Blocked(s, f) && c in s.returning && s.taken[f] < s.batchSize
    ensures Helps(s, Release(c), f)
  {
    var w, s' := s.sem.waiters, Apply(s, Release(c));
    Remove(s.returning, c);
    if w == [] {
      NoWaiters(s', f);
    } else {
      assert w[0] in w;
      ReleaseUnrivalled(s, f, c);
      ReleaseFeeds(s, f, c);
    }
    SameCallers(s, s', f);
  }

  lemma NoWaiters(s: State, f: FiberId)
    requires s.sem.waiters == []
    ensures !Starved(s, f) && forall g :: !InTheWay(s, f, g)
  {
    assert Sleepers(s) == {};
  }

  lemma SameCallers(s: State, s': State, f: FiberId)
    requires !Blocked(s, f) && s'.running == s.running && s'.testing == s.testing && s'.drainers == s.drainers && s'.lost == s.lost
    requires !Starved(s', f) && (!Rivalled(s', f) || (s'.taken == s.taken && forall g :: !InTheWay(s', f, g)))
    ensures !Blocked(s', f)
  {
  }

  lemma ReleaseUnrivalled(s: State, f: FiberId, c: FiberId)
    requires Inv(s) && f in s.drainers && !Rivalled(s, f) && c in s.returning && s.taken[f] < s.batchSize && s.sem.waiters != []
    ensures !Rivalled(Apply(s, Release(c)), f)
    ensures s.sem.waiters[0] == f || s.sem.waiters[0] !in s.drainers
  {
    var w, s' := s.sem.waiters, Apply(s, Release(c));
    var x := w[0];
    assert x in w;
    if x != f && x in s.drainers {
      HeadFirst(w, f);
      assert InTheWay(s, f, x);
    }
    forall g ensures !InTheWay(s', f, g) {
      if g != f && g in s.drainers && g in w[1..] {
        assert g in w && !InTheWay(s, f, g);
        AheadRest(w, f, g);
      }
    }
  }

  lemma HeadFirst(w: seq<FiberId>, f: FiberId)
    requires w != [] && forall i, j :: 0 <= i < j < |w| ==> w[i] != w[j]
    ensures !Ahead(w, f, w[0])
  {
  }

  /** There are still permits for the callbacks that are asleep. */
  lemma ReleaseFeeds(s: State, f: FiberId, c: FiberId)
    requires Inv(s) && f in s.drainers && !Blocked(s, f) && c in s.returning && s.sem.waiters != []
    requires s.sem.waiters[0] == f || s.sem.waiters[0] !in s.drainers
    ensures !Starved(Apply(s, Release(c)), f)
  {
    var w, s' := s.sem.waiters, Apply(s, Release(c));
    var x := w[0];
    ReleaseSets(s, c);
    if x == f {
      forall d | d in s.running ensures !Ahead(w, d, f) { HeadFirst(w, d); }
      assert First(s, f) && f !in w[1..];
    } else if x !in s.running && First(s', f) {
      assert f in w;
      BehindHead(s, s', f);
    }
    assert Live(s) >= 1 by { assert |s.returning| > 0; }
  }

  lemma BehindHead(s: State, s': State, f: FiberId)
    requires s.sem.waiters != [] && s.sem.waiters[0] !in s.running && First(s', f)
    requires s'.running == s.running && s'.sem.waiters == s.sem.waiters[1..]
    ensures First(s, f)
  {
    var w := s.sem.waiters;
    forall d | d in s.running ensures !Ahead(w, d, f) {
      if Ahead(w, d, f) { AheadBehind(w, d, f); }
    }
  }

  lemma AheadBehind(w: seq<FiberId>, d: FiberId, f: FiberId)
    requires w != [] && w[0] != d && Ahead(w, d, f)
    ensures Ahead(w[1..], d, f)
  {
    var i, j :| 0 <= i < j < |w| && w[i] == d && w[j] == f;
    assert w[1..][i - 1] == d && w[1..][j - 1] == f;
  }

  lemma RunCons(s: State, a: Action, rest: seq<Action>)
    requires Enabled(s, a) && IsRun(Apply(s, a), rest)
    ensures IsRun(s, [a] + rest) && After(s, [a] + rest) == After(Apply(s, a), rest)
  {
    assert ([a] + rest)[1..] == rest;
  }

  /** A caller of waitAll() that is not blocked can still return. */
  lemma {:induction false} CanReturn(s: State, f: FiberId) returns (run: seq<Action>)
    requires Inv(s) && f in s.drainers && !Blocked(s, f)
    ensures IsRun(s, run) && f in After(s, run).returned
    decreases |s.sem.waiters|, if s.taken[f] < s.batchSize then s.batchSize - s.taken[f] else 0, Work(s)
  {
    var a := Progress(s, f);
    StepKeeps(s, a);
    var rest := [];
    if a != LeaveWaitAll(f) {
      Shares(Apply(s, a).taken, f, f);
      rest := CanReturn(Apply(s, a), f);
    }
    RunCons(s, a, rest);
    run := [a] + rest;
  }

  /**
    A caller in the loop of waitAll() can return if and only if no callback has thrown; no other caller of
    waitAll() has a permit, or is asleep and will get one before it has all of them; no callback of the
    group is in waitAll() of its own group; and a callback that is asleep in schedule() of its own group
    finds a live permit besides the one this caller takes first.
   */
  lemma WaitAllReturnsIff(s: State, f: FiberId)
    requires Inv(s) && f in s.drainers
    ensures (exists run :: IsRun(s, run) && f in After(s, run).returned) <==> !Blocked(s, f)
  {
    if Blocked(s, f) {
      forall run | IsRun(s, run) ensures f !in After(s, run).returned { BlockedForever(s, f, run); }
    } else {
      var run := CanReturn(s, f);
    }
  }

  /** With a single caller of waitAll(), outside the group's callbacks, that are not inside a call either: if and only if none has thrown. */
  lemma OnlyCallerReturnsIff(s: State, f: FiberId)
    requires Inv(s) && s.drainers == {f} && s.returned == {}
    ensures Blocked(s, f) <==> s.lost > 0 || WaitsForItself(s) || Starved(s, f)
    ensures (forall c :: c in s.running ==> !InCall(s, c)) ==> (Blocked(s, f) <==> s.lost > 0)
  {
    forall g | g != f ensures s.taken[g] == 0 { assert g !in s.taken; }
  }

  lemma {:induction false} Extend(s: State, run: seq<Action>, a: Action) returns (run': seq<Action>)
    requires IsRun(s, run) && Enabled(After(s, run), a)
    ensures run' == run + [a] && IsRun(s, run') && After(s, run') == Apply(After(s, run), a)
    decreases |run|
  {
    run' := run + [a];
    if run != [] {
      var rest := Extend(Apply(s, run[0]), run[1..], a);
      assert run'[1..] == rest;
    } else {
      assert run'[1..] == [];
    }
  }

  /** A new group with one callback, in fiber c. */
  function OneCallback(batchSize: nat, c: FiberId): State
    requires batchSize > 0
  {
    Initial(batchSize).(sem := Sem(batchSize - 1, []), running := {c})
  }

  lemma StartOne(batchSize: nat, f: FiberId, c: FiberId) returns (run: seq<Action>)
    requires batchSize > 0 && f != c
    ensures IsRun(Initial(batchSize), run) && After(Initial(batchSize), run) == OneCallback(batchSize, c)
  {
    run := Extend(Initial(batchSize), [], Schedule(f));
    assert After(Initial(batchSize), run).posting == {f};
    run := Extend(Initial(batchSize), run, HandOver(f, c));
    assert After(Initial(batchSize), run).posting == {};
  }

  /** A callback that calls waitAll() of its own group never returns from it, in a group of any size. */
  lemma OwnWaitAllBlocks(batchSize: nat, f: FiberId, c: FiberId) returns (run: seq<Action>)
    requires batchSize > 0 && f != c
    ensures IsRun(Initial(batchSize), run)
    ensures var s := After(Initial(batchSize), run); s.drainers == {c} && s.lost == 0 && Blocked(s, c)
  {
    run := StartOne(batchSize, f, c);
    run := Extend(Initial(batchSize), run, TestFinish(c));
    run := Extend(Initial(batchSize), run, SetFinish(c));
    var s := After(Initial(batchSize), run);
    assert s.drainers == {c} && c in s.running;
  }

  /** The caller g of waitAll() has taken k permits of a group with one callback, in fiber c. */
  function Draining(batchSize: nat, c: FiberId, g: FiberId, k: nat): State
    requires k < batchSize
  {
    OneCallback(batchSize, c).(sem := Sem(batchSize - 1 - k, []), finish := true, drainers := {g}, taken := multiset{}[g := k])
  }

  lemma {:induction false} TakeSome(batchSize: nat, f: FiberId, c: FiberId, g: FiberId, k: nat) returns (run: seq<Action>)
    requires k < batchSize && f != c && g != c
    ensures IsRun(Initial(batchSize), run) && After(Initial(batchSize), run) == Draining(batchSize, c, g, k)
    decreases k
  {
    if k == 0 {
      run := StartOne(batchSize, f, c);
      run := Extend(Initial(batchSize), run, TestFinish(g));
      assert After(Initial(batchSize), run).testing == {g};
      run := Extend(Initial(batchSize), run, SetFinish(g));
      assert After(Initial(batchSize), run).testing == {};
    } else {
      run := TakeSome(batchSize, f, c, g, k - 1);
      run := Extend(Initial(batchSize), run, TakePermit(g));
    }
  }

  /** A callback that calls schedule() of its own group can keep the only caller of waitAll() from returning, in a group of any size. */
  lemma OwnScheduleBlocks(batchSize: nat, f: FiberId, c: FiberId, g: FiberId) returns (run: seq<Action>)
    requires batchSize > 0 && f != c && g != c
    ensures IsRun(Initial(batchSize), run)
    ensures var s := After(Initial(batchSize), run); s.drainers == {g} && s.lost == 0 && s.returned == {} && Blocked(s, g)
  {
    run := TakeSome(batchSize, f, c, g, batchSize - 1);
    run := Extend(Initial(batchSize), run, Schedule(c));
    var s := After(Initial(batchSize), run);
    assert s.sem.waiters == [c] && s.running == {c};
    assert c in Sleepers(s) && Awake(s) == {};
  }

  /**
    Two callers of waitAll() can both read m_finish as false.  In a group of two or more they can take one
    permit each, and then neither ever returns, although no callback has thrown.
   */
  lemma TwoWaitAllsBlock(batchSize: nat, f: FiberId, g: FiberId) returns (run: seq<Action>)
    requires batchSize >= 2 && f != g
    ensures IsRun(Initial(batchSize), run)
    ensures var s := After(Initial(batchSize), run); s.drainers == {f, g} && s.lost == 0 && s.running == {} && Blocked(s, f) && Blocked(s, g)
  {
    var s0 := Initial(batchSize);
    var s1 := Apply(s0, TestFinish(f));
    var s2 := Apply(s1, TestFinish(g));
    var s3 := Apply(s2, SetFinish(f));
    var s4 := Apply(s3, SetFinish(g));
    assert s4.drainers == {f, g} && s4.testing == {};
    var s5 := Apply(s4, TakePermit(f));
    var s6 := Apply(s5, TakePermit(g));
    assert s6.taken[f] == 1 && s6.taken[g] == 1;
    RunCons(s5, TakePermit(g), []);
    RunCons(s4, TakePermit(f), [TakePermit(g)] + []);
    var tail := [TakePermit(f)] + ([TakePermit(g)] + []);
    RunCons(s3, SetFinish(g), tail);
    RunCons(s2, SetFinish(f), [SetFinish(g)] + tail);
    var middle := [SetFinish(f)] + ([SetFinish(g)] + tail);
    RunCons(s1, TestFinish(g), middle);
    RunCons(s0, TestFinish(f), [TestFinish(g)] + middle);
    run := [TestFinish(f)] + ([TestFinish(g)] + middle);
  }

  /** A further waitAll(), from the destructor for instance, is safe in every run once one has returned: nothing is in flight. */
  lemma SecondWaitAllIsSafeAfterFirst(batchSize: nat, run: seq<Action>)
    requires IsRun(Initial(batchSize), run) && After(Initial(batchSize), run).returned != {}
    ensures InFlight(After(Initial(batchSize), run)) == 0
  {
    var f :| f in After(Initial(batchSize), run).returned;
    WaitAllWaits(batchSize, run, f);
  }

  /** How many steps of a run are of a kind. */
  function CountOf(run: seq<Action>, kind: Action -> bool): nat {
    if run == [] then 0 else (if kind(run[0]) then 1 else 0) + CountOf(run[1..], kind)
  }

  /**
    In every run: a callback that is handed over runs until it returns or throws; one that has returned
    gives its permit back once; and a permit is lost for each one that throws.
   */
  lemma {:induction false} CallbacksCounted(s: State, run: seq<Action>)
    requires Inv(s) && IsRun(s, run)
    ensures var s' := After(s, run);
            && |s'.running| + CountOf(run, (a: Action) => a.Return?) + CountOf(run, (a: Action) => a.Throw?)
               == |s.running| + CountOf(run, (a: Action) => a.HandOver?)
            && |s'.returning| + CountOf(run, (a: Action) => a.Release?) == |s.returning| + CountOf(run, (a: Action) => a.Return?)
            && s'.lost == s.lost + CountOf(run, (a: Action) => a.Throw?)
    decreases |run|
  {
    if run != [] {
      CountStep(s, run[0]);
      StepKeeps(s, run[0]);
      CallbacksCounted(Apply(s, run[0]), run[1..]);
    }
  }

  lemma CountStep(s: State, a: Action)
    requires Inv(s) && Enabled(s, a)
    ensures var s' := Apply(s, a);
            && |s'.running| + (if a.Return? || a.Throw? then 1 else 0) == |s.running| + (if a.HandOver? then 1 else 0)
            && |s'.returning| + (if a.Release? then 1 else 0) == |s.returning| + (if a.Return? then 1 else 0)
            && s'.lost == s.lost + (if a.Throw? then 1 else 0)
  {
    if a.Return? || a.Throw? {
      Remove(s.running, a.c);
    } else if a.Release? {
      ReleaseCount(s, a.c);
    } else if !a.HandOver? {
      OtherCount(s, a);
    }
  }

  lemma ReleaseCount(s: State, c: FiberId)
    requires Inv(s) && c in s.returning
    ensures var s' := Apply(s, Release(c)); s'.running == s.running && |s'.returning| + 1 == |s.returning| && s'.lost == s.lost
  {
    Remove(s.returning, c);
  }

  lemma OtherCount(s: State, a: Action)
    requires Inv(s) && Enabled(s, a) && !a.HandOver? && !a.Return? && !a.Throw? && !a.Release?
    ensures var s' := Apply(s, a); s'.running == s.running && s'.returning == s.returning && s'.lost == s.lost
  {
  }

  lemma {:induction false} FinishedBySomebody(s: State, run: seq<Action>)
    requires IsRun(s, run)
    ensures After(s, run).finish <==> s.finish || exists i :: 0 <= i < |run| && run[i].SetFinish?
    decreases |run|
  {
    if run != [] {
      FinishedBySomebody(Apply(s, run[0]), run[1..]);
      if i :| 0 <= i < |run[1..]| && run[1..][i].SetFinish? { assert run[i + 1].SetFinish?; }
      if i :| 0 <= i < |run| && run[i].SetFinish? { assert i == 0 || run[1..][i - 1].SetFinish?; }
    }
  }

  /** waitAll() returns at once only when another call has set m_finish before, and enters the loop only when none had when it looked. */
  lemma ReturnsAtOnceOnlyAfter(batchSize: nat, run: seq<Action>, f: FiberId)
    requires IsRun(Initial(batchSize), run)
    ensures Enabled(After(Initial(batchSize), run), WaitAllAgain(f)) ==> exists i :: 0 <= i < |run| && run[i].SetFinish?
    ensures Enabled(After(Initial(batchSize), run), TestFinish(f)) ==> forall i :: 0 <= i < |run| ==> !run[i].SetFinish?
  {
    FinishedBySomebody(Initial(batchSize), run);
  }

  /** While the first is still waiting it is not: in a group of any size a second one can return with a callback in flight. */
  lemma SecondWaitAllReturnsEarly(batchSize: nat, f: FiberId, g: FiberId, h: FiberId) returns (run: seq<Action>)
    requires batchSize > 0 && f != g && g != h && f != h
    ensures IsRun(Initial(batchSize), run)
    ensures var s := After(Initial(batchSize), run); Enabled(s, WaitAllAgain(h)) && s.returned == {} && InFlight(s) == 1
  {
    var s1 := Apply(Initial(batchSize), Schedule(f));
    assert s1.posting == {f};
    var s2 := Apply(s1, TestFinish(g));
    RunCons(s2, SetFinish(g), []);
    RunCons(s1, TestFinish(g), [SetFinish(g)] + []);
    RunCons(Initial(batchSize), Schedule(f), [TestFinish(g)] + ([SetFinish(g)] + []));
    run := [Schedule(f)] + ([TestFinish(g)] + ([SetFinish(g)] + []));
  }
}
