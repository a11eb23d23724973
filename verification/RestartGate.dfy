/**
  The gate of start() (streams/async_socket_stream.cc): m_waitSem has two permits; start() takes both,
  doRead and doWrite give back one each.  Any number of fibers may call start() at the same time.
 */
module RestartGate {
  import opened Common
  import opened Semaphores

  type FiberId = nat

  datatype State = State(
    sem: Sem<FiberId>,
    first: set<FiberId>,           // in start(), before or in the first wait
    second: set<FiberId>,          // with one permit, before or in the second wait
    launching: set<FiberId>,       // with both permits: connecting, then about to start doRead
    half: set<FiberId>,            // doRead started: about to start doWrite
    undoing: set<FiberId>,         // could not connect: about to give the first permit back
    undone: set<FiberId>,          // and the second
    readers: nat,                  // doRead loops, from startRead() up to their notify
    writers: nat)

  datatype Action =
    | Start(f: FiberId)
    | Wait(f: FiberId)             // one of the two waits of waitFiber()
    | StartRead(f: FiberId)
    | StartWrite(f: FiberId)
    | Fail(f: FiberId)
    | GiveBack(f: FiberId)
    | ReaderEnds
    | WriterEnds

  predicate Idle(s: State, f: FiberId) {
    f !in s.first && f !in s.second && f !in s.launching && f !in s.half && f !in s.undoing && f !in s.undone
  }

  predicate Enabled(s: State, a: Action) {
    SemOk(s.sem) &&
    match a
    case Start(f) => Idle(s, f)
    case Wait(f) => (f in s.first || f in s.second) && f !in s.sem.waiters
    case StartRead(f) => f in s.launching
    case StartWrite(f) => f in s.half
    case Fail(f) => f in s.launching
    case GiveBack(f) => f in s.undoing || f in s.undone
    case ReaderEnds => s.readers > 0
    case WriterEnds => s.writers > 0
  }

  /** A permit is given to fiber f. */
  function Grant(s: State, f: FiberId): State {
    if f in s.first then s.(first := s.first - {f}, second := s.second + {f})
    else s.(second := s.second - {f}, launching := s.launching + {f})
  }

  function Release(s: State): State
    requires SemOk(s.sem)
  {
    var s1 := s.(sem := Notify(s.sem));
    if s.sem.waiters != [] then Grant(s1, s.sem.waiters[0]) else s1
  }

  /** The action gives a permit back. */
  predicate Frees(a: Action) { a.GiveBack? || a.ReaderEnds? || a.WriterEnds? }

  /** The state with that permit in nobody's hands. */
  function Freed(s: State, a: Action): (s': State)
    requires Enabled(s, a) && Frees(a)
    ensures s'.sem == s.sem && s'.first == s.first && s'.second == s.second
  {
    if a.ReaderEnds? then s.(readers := s.readers - 1)
    else if a.WriterEnds? then s.(writers := s.writers - 1)
    else if a.f in s.undoing then s.(undoing := s.undoing - {a.f}, undone := s.undone + {a.f})
    else s.(undone := s.undone - {a.f})
  }

  function Apply(s: State, a: Action): State
    requires Enabled(s, a)
  {
    match a
    case Start(f) => s.(first := s.first + {f})
    case Wait(f) =>
      var s1 := s.(sem := Semaphores.Wait(s.sem, f));
      if s.sem.available > 0 then Grant(s1, f) else s1
    case StartRead(f) => s.(launching := s.launching - {f}, half := s.half + {f}, readers := s.readers + 1)
    case StartWrite(f) => s.(half := s.half - {f}, writers := s.writers + 1)
    case Fail(f) => s.(launching := s.launching - {f}, undoing := s.undoing + {f})
    case _ => Release(Freed(s, a))
  }

  const INITIAL: State := State(Sem(2, []), {}, {}, {}, {}, {}, {}, 0, 0)

  /** The two permits: available, with a starter, or with a loop. */
  function Permits(s: State): nat {
    s.sem.available + |s.second| + 2 * |s.launching| + |s.half| + 2 * |s.undoing| + |s.undone| + s.readers + s.writers
  }

  ghost predicate Disjoint(s: State) {
    && (forall f :: f in s.first ==> f !in s.second && f !in s.launching && f !in s.half && f !in s.undoing && f !in s.undone)
    && (forall f :: f in s.second ==> f !in s.launching && f !in s.half && f !in s.undoing && f !in s.undone)
    && (forall f :: f in s.launching ==> f !in s.half && f !in s.undoing && f !in s.undone)
    && (forall f :: f in s.half ==> f !in s.undoing && f !in s.undone)
    && (forall f :: f in s.undoing ==> f !in s.undone)
  }

  ghost predicate WaitersOk(s: State) {
    && SemOk(s.sem)
    && (forall i, j :: 0 <= i < j < |s.sem.waiters| ==> s.sem.waiters[i] != s.sem.waiters[j])
    && (forall f :: f in s.sem.waiters ==> f in s.first || f in s.second)
  }

  /** n of the permits are accounted for; at most one loop of each kind. */
  ghost predicate Gate(s: State, n: nat) {
    && Permits(s) == n && Disjoint(s) && WaitersOk(s)
    && s.readers <= 1 && s.writers <= 1
    && |s.half| <= 1 && (s.half != {} ==> s.writers == 0)
  }

  lemma Remove(x: set<FiberId>, f: FiberId)
    requires f in x
    ensures |x - {f}| == |x| - 1
  {
  }

  /** A permit that was in nobody's hands goes to f. */
  lemma GrantKeeps(s: State, f: FiberId)
    requires Gate(s, 1) && f !in s.sem.waiters && (f in s.first || f in s.second)
    ensures Gate(Grant(s, f), 2)
  {
    if f !in s.first { Remove(s.second, f); }
  }

  lemma ReleaseKeeps(s: State)
    requires Gate(s, 1)
    ensures Gate(Release(s), 2)
  {
    if s.sem.waiters != [] {
      var f := s.sem.waiters[0];
      assert f in s.sem.waiters;
      var s1 := s.(sem := Notify(s.sem));
      assert forall g :: g in s1.sem.waiters ==> g in s.sem.waiters && g != f;
      GrantKeeps(s1, f);
    }
  }

  lemma WaitKeeps(s: State, f: FiberId)
    requires Gate(s, 2) && Enabled(s, Wait(f))
    ensures Gate(Apply(s, Wait(f)), 2)
  {
    var s1 := s.(sem := Semaphores.Wait(s.sem, f));
    if s.sem.available > 0 {
      GrantKeeps(s1, f);
    } else {
      assert forall i :: 0 <= i < |s.sem.waiters| ==> s1.sem.waiters[i] in s.sem.waiters;
    }
  }

  lemma StartKeeps(s: State, f: FiberId)
    requires Gate(s, 2) && Idle(s, f)
    ensures Gate(Apply(s, Start(f)), 2)
  {
  }

  lemma FreedGate(s: State, a: Action)
    requires Gate(s, 2) && Enabled(s, a) && Frees(a)
    ensures Gate(Freed(s, a), 1)
  {
    if a.GiveBack? && a.f in s.undoing { Remove(s.undoing, a.f); } else if a.GiveBack? { Remove(s.undone, a.f); }
  }

  lemma FreeKeeps(s: State, a: Action)
    requires Gate(s, 2) && Enabled(s, a) && Frees(a)
    ensures Gate(Apply(s, a), 2)
  {
    FreedGate(s, a);
    ReleaseKeeps(Freed(s, a));
  }

  /** Who has both permits is alone. */
  lemma LaunchKeeps(s: State, a: Action)
    requires Gate(s, 2) && Enabled(s, a) && (a.StartRead? || a.Fail?)
    ensures Gate(Apply(s, a), 2)
  {
    Remove(s.launching, a.f);
  }

  lemma StartWriteKeeps(s: State, f: FiberId)
    requires Gate(s, 2) && f in s.half
    ensures Gate(Apply(s, StartWrite(f)), 2)
  {
    Remove(s.half, f);
  }

  lemma StepKeeps(s: State, a: Action)
    requires Gate(s, 2) && Enabled(s, a)
    ensures Gate(Apply(s, a), 2)
  {
    match a
    case Start(f) => StartKeeps(s, f);
    case Wait(f) => WaitKeeps(s, f);
    case StartRead(_) => LaunchKeeps(s, a);
    case Fail(_) => LaunchKeeps(s, a);
    case StartWrite(f) => StartWriteKeeps(s, f);
    case _ => FreeKeeps(s, a);
  }

  ghost predicate IsRun(s: State, run: seq<Action>)
    decreases |run|
  {
    run == [] || (Enabled(s, run[0]) && IsRun(Apply(s, run[0]), run[1..]))
  }

  ghost function After(s: State, run: seq<Action>): State
    requires IsRun(s, run)
    decreases |run|
  {
    if run == [] then s else After(Apply(s, run[0]), run[1..])
  }

  lemma {:induction false} RunKeeps(s: State, run: seq<Action>)
    requires Gate(s, 2) && IsRun(s, run)
    ensures Gate(After(s, run), 2)
    decreases |run|
  {
    if run != [] {
      StepKeeps(s, run[0]);
      RunKeeps(Apply(s, run[0]), run[1..]);
    }
  }

  /**
    Across any number of starts, failures and reconnects, by any number of fibers: at most one doRead
    and one doWrite are live, because the two permits are conserved.
   */
  lemma OneLoopEach(run: seq<Action>)
    requires IsRun(INITIAL, run)
    ensures var s := After(INITIAL, run); s.readers <= 1 && s.writers <= 1 && Permits(s) == 2
  {
    RunKeeps(INITIAL, run);
  }

  /** How many steps of a run are of a kind. */
  function CountOf(run: seq<Action>, kind: Action -> bool): nat {
    if run == [] then 0 else (if kind(run[0]) then 1 else 0) + CountOf(run[1..], kind)
  }

  /** In every run each loop that was started is live until it ends itself, and a start that fails starts none. */
  lemma {:induction false} LoopsCounted(s: State, run: seq<Action>)
    requires IsRun(s, run)
    ensures var s' := After(s, run);
            && s'.readers + CountOf(run, (a: Action) => a.ReaderEnds?) == s.readers + CountOf(run, (a: Action) => a.StartRead?)
            && s'.writers + CountOf(run, (a: Action) => a.WriterEnds?) == s.writers + CountOf(run, (a: Action) => a.StartWrite?)
    decreases |run|
  {
    if run != [] {
      LoopStep(s, run[0]);
      LoopsCounted(Apply(s, run[0]), run[1..]);
    }
  }

  lemma LoopStep(s: State, a: Action)
    requires Enabled(s, a)
    ensures var s' := Apply(s, a);
            && s'.readers + (if a.ReaderEnds? then 1 else 0) == s.readers + (if a.StartRead? then 1 else 0)
            && s'.writers + (if a.WriterEnds? then 1 else 0) == s.writers + (if a.StartWrite? then 1 else 0)
  {
  }

  // ---------------------------------------------------------------- starters that block each other

  /** Two starters have one permit each and wait for the other. */
  ghost predicate Deadlocked(s: State, f: FiberId, g: FiberId) {
    f != g && s.second == {f, g} && f in s.sem.waiters && g in s.sem.waiters
  }

  /** Somebody can still give a permit back, or there is one, or a starter with one permit is not asleep. */
  ghost predicate CanMove(s: State) {
    || s.sem.available > 0 || s.launching != {} || s.half != {} || s.undoing != {} || s.undone != {}
    || s.readers > 0 || s.writers > 0 || exists f :: f in s.second && f !in s.sem.waiters
  }

  lemma PairOf(x: set<FiberId>) returns (f: FiberId, g: FiberId)
    requires |x| == 2
    ensures f != g && x == {f, g}
  {
    f :| f in x;
    var y := x - {f};
    Remove(x, f);
    assert y != {};
    g :| g in y;
    Remove(y, g);
    assert x == {f} + y && y == {g} + (y - {g});
  }

  /** The gate is stuck exactly when two starters block each other. */
  lemma StuckIffDeadlocked(s: State)
    requires Gate(s, 2)
    ensures !CanMove(s) <==> exists f, g :: Deadlocked(s, f, g)
  {
    if !CanMove(s) {
      assert |s.second| == 2;
      var f, g := PairOf(s.second);
      assert Deadlocked(s, f, g);
    }
    if f, g :| Deadlocked(s, f, g) {
      assert |{f, g}| == 2;
      assert |s.launching| == 0 && |s.half| == 0 && |s.undoing| == 0 && |s.undone| == 0;
    }
  }

  lemma DeadlockStep(s: State, a: Action, f: FiberId, g: FiberId)
    requires Gate(s, 2) && Deadlocked(s, f, g) && Enabled(s, a)
    ensures Deadlocked(Apply(s, a), f, g)
  {
    StuckIffDeadlocked(s);
    assert a.Start? || a.Wait?;
  }

  /** That is for good: whatever happens afterwards, neither loop is ever started again. */
  lemma {:induction false} DeadlockIsForever(s: State, run: seq<Action>, f: FiberId, g: FiberId)
    requires Gate(s, 2) && Deadlocked(s, f, g) && IsRun(s, run)
    ensures Deadlocked(After(s, run), f, g) && After(s, run).readers == 0 && After(s, run).writers == 0
    decreases |run|
  {
    if run == [] {
      StuckIffDeadlocked(s);
    } else {
      DeadlockStep(s, run[0], f, g);
      StepKeeps(s, run[0]);
      DeadlockIsForever(Apply(s, run[0]), run[1..], f, g);
    }
  }

  lemma RunCons(s: State, a: Action, rest: seq<Action>)
    requires Enabled(s, a) && IsRun(Apply(s, a), rest)
    ensures IsRun(s, [a] + rest) && After(s, [a] + rest) == After(Apply(s, a), rest)
  {
    assert ([a] + rest)[1..] == rest;
  }

  // ---------------------------------------------------------------- when start() may be called

  /** No other caller of start() still has to make one of its two waits: all that are under way are asleep in the second. */
  predicate MayStart(s: State) {
    s.first == {} && forall f :: f in s.second ==> f in s.sem.waiters
  }

  ghost predicate CarefulRun(s: State, run: seq<Action>)
    decreases |run|
  {
    run == [] || (Enabled(s, run[0]) && (run[0].Start? ==> MayStart(s)) && CarefulRun(Apply(s, run[0]), run[1..]))
  }

  /** At most one starter has no permit and at most one has one permit; if there are both, the latter is served first. */
  ghost predicate InTurn(s: State) {
    && (forall f, g :: f in s.first && g in s.first ==> f == g)
    && (forall f, g :: f in s.second && g in s.second ==> f == g)
    && (forall f, g :: f in s.first && g in s.second ==> s.sem.waiters != [] && s.sem.waiters[0] == g)
  }

  lemma ReleaseInTurn(s: State)
    requires WaitersOk(s) && Disjoint(s) && InTurn(s)
    ensures InTurn(Release(s))
  {
    if s.sem.waiters != [] { assert s.sem.waiters[0] in s.sem.waiters; }
  }

  lemma WaitInTurn(s: State, f: FiberId)
    requires Gate(s, 2) && InTurn(s) && Enabled(s, Wait(f))
    ensures InTurn(Apply(s, Wait(f)))
  {
  }

  lemma StartInTurn(s: State, f: FiberId)
    requires Gate(s, 2) && InTurn(s) && Idle(s, f) && MayStart(s)
    ensures InTurn(Apply(s, Start(f)))
  {
    forall g | g in s.second ensures s.sem.waiters != [] && s.sem.waiters[0] == g {
      assert g in s.sem.waiters && s.sem.waiters[0] in s.sem.waiters;
    }
  }

  lemma CarefulStep(s: State, a: Action)
    requires Gate(s, 2) && InTurn(s) && Enabled(s, a) && (a.Start? ==> MayStart(s))
    ensures InTurn(Apply(s, a))
  {
    if a.Start? {
      StartInTurn(s, a.f);
    } else if a.Wait? {
      WaitInTurn(s, a.f);
    } else if Frees(a) {
      FreedGate(s, a);
      ReleaseInTurn(Freed(s, a));
    }
  }

  lemma InTurnCanMove(s: State)
    requires Gate(s, 2) && InTurn(s)
    ensures CanMove(s)
  {
    if !CanMove(s) {
      assert |s.second| == 2;
      var f, g := PairOf(s.second);
      assert false;
    }
  }

  lemma {:induction false} CarefulRunKeeps(s: State, run: seq<Action>)
    requires Gate(s, 2) && InTurn(s) && CarefulRun(s, run)
    ensures IsRun(s, run) && Gate(After(s, run), 2) && InTurn(After(s, run)) && CanMove(After(s, run))
    decreases |run|
  {
    if run == [] {
      InTurnCanMove(s);
    } else {
      StepKeeps(s, run[0]);
      CarefulStep(s, run[0]);
      CarefulRunKeeps(Apply(s, run[0]), run[1..]);
    }
  }

  // ---------------------------------------------------------------- permits on their way to a starter

  ghost predicate UnderWay(s: State, f: FiberId) {
    f in s.first || f in s.second
  }

  /** The next permit given back goes to f, or to a starter that has one already. */
  ghost predicate HeadOk(s: State, f: FiberId) {
    && WaitersOk(s) && UnderWay(s, f)
    && (s.sem.waiters != [] ==> s.sem.waiters[0] == f || s.sem.waiters[0] in s.second)
  }

  /** Somebody has a permit that is to be given back. */
  ghost predicate Busy(s: State) {
    s.launching != {} || s.half != {} || s.undoing != {} || s.undone != {} || s.readers > 0 || s.writers > 0
  }

  /** How many steps the permits are away from being available. */
  function Distance(s: State, f: FiberId): nat {
    3 * |s.second - {f}| + 3 * |s.launching| + 2 * |s.half| + 2 * |s.undoing| + |s.undone| + s.readers + s.writers
  }

  /** f has got a permit. */
  ghost predicate Advanced(s: State, s': State, f: FiberId) {
    (f in s.first && f in s'.second) || (f in s.second && f in s'.launching)
  }

  /** f has got a permit, or the permits are fewer than d steps away. */
  ghost predicate Nearer(s: State, s': State, f: FiberId, d: nat) {
    Advanced(s, s', f) || ((f in s.first <==> f in s'.first) && (f in s.second <==> f in s'.second) && Distance(s', f) < d)
  }

  lemma ReleaseNearer(s: State, f: FiberId)
    requires Disjoint(s) && HeadOk(s, f)
    ensures Nearer(s, Release(s), f, Distance(s, f) + 1)
  {
    if s.sem.waiters != [] && s.sem.waiters[0] != f {
      var x := s.sem.waiters[0];
      Remove(s.second - {f}, x);
      assert s.second - {x} - {f} == s.second - {f} - {x};
    }
  }

  lemma FreedDistance(s: State, a: Action, f: FiberId)
    requires Disjoint(s) && Enabled(s, a) && Frees(a)
    ensures Disjoint(Freed(s, a)) && Distance(Freed(s, a), f) + 1 == Distance(s, f)
  {
    if a.GiveBack? && a.f in s.undoing { Remove(s.undoing, a.f); } else if a.GiveBack? { Remove(s.undone, a.f); }
  }

  lemma FreeNearer(s: State, f: FiberId, a: Action)
    requires Disjoint(s) && HeadOk(s, f) && Enabled(s, a) && Frees(a)
    ensures Nearer(s, Apply(s, a), f, Distance(s, f))
  {
    FreedDistance(s, a, f);
    ReleaseNearer(Freed(s, a), f);
  }

  lemma LaunchNearer(s: State, f: FiberId, a: Action)
    requires Disjoint(s) && HeadOk(s, f) && Enabled(s, a) && (a.Fail? || a.StartWrite?)
    ensures Nearer(s, Apply(s, a), f, Distance(s, f))
  {
    if a.Fail? { Remove(s.launching, a.f); } else { Remove(s.half, a.f); }
  }

  /** As long as somebody has a permit to give back, some step brings it nearer to f. */
  lemma FreeingStep(s: State, f: FiberId) returns (a: Action)
    requires Disjoint(s) && HeadOk(s, f) && Busy(s)
    ensures Enabled(s, a) && !a.Start? && !a.Wait? && Nearer(s, Apply(s, a), f, Distance(s, f))
  {
    if s.readers > 0 || s.writers > 0 {
      a := if s.readers > 0 then ReaderEnds else WriterEnds;
      FreeNearer(s, f, a);
    } else if x :| x in s.undone || x in s.undoing {
      a := GiveBack(x);
      FreeNearer(s, f, a);
    } else if x :| x in s.half {
      a := StartWrite(x);
      LaunchNearer(s, f, a);
    } else {
      var x :| x in s.launching;
      a := Fail(x);
      LaunchNearer(s, f, a);
    }
  }

  // ---------------------------------------------------------------- careful starters get their permits

  lemma InTurnHead(s: State, f: FiberId)
    requires Gate(s, 2) && InTurn(s) && UnderWay(s, f)
    ensures HeadOk(s, f) && (s.sem.available == 0 ==> Busy(s))
  {
    if s.sem.waiters != [] { assert s.sem.waiters[0] in s.sem.waiters; }
    if s.sem.available == 0 && !Busy(s) {
      InTurnCanMove(s);
      assert |s.second| == 2;
      var x, y := PairOf(s.second);
      assert false;
    }
  }

  ghost predicate NoStart(run: seq<Action>) {
    forall i :: 0 <= i < |run| ==> !run[i].Start?
  }

  /** f can get both permits without any further call of start(). */
  ghost predicate CanLaunch(s: State, f: FiberId) {
    exists run :: IsRun(s, run) && NoStart(run) && f in After(s, run).launching
  }

  lemma WaitMoves(s: State, f: FiberId)
    requires Gate(s, 2) && UnderWay(s, f) && f !in s.sem.waiters
    ensures var s' := Apply(s, Wait(f));
            Advanced(s, s', f) || (s' == s.(sem := s'.sem) && f in s'.sem.waiters)
  {
  }

  lemma LaunchLater(s: State, a: Action, f: FiberId)
    requires Enabled(s, a) && !a.Start? && CanLaunch(Apply(s, a), f)
    ensures CanLaunch(s, f)
  {
    var rest :| IsRun(Apply(s, a), rest) && NoStart(rest) && f in After(Apply(s, a), rest).launching;
    RunCons(s, a, rest);
    assert NoStart([a] + rest);
  }

  lemma LaunchNow(s: State, f: FiberId)
    requires f in s.launching
    ensures CanLaunch(s, f)
  {
    var run: seq<Action> := [];
    assert IsRun(s, run) && NoStart(run) && f in After(s, run).launching;
  }

  /** The step with which f gets on: it waits, or somebody gives a permit back. */
  lemma NextStep(s: State, f: FiberId) returns (a: Action)
    requires Gate(s, 2) && InTurn(s) && UnderWay(s, f)
    ensures Enabled(s, a) && !a.Start?
    ensures var s' := Apply(s, a);
            || (a == Wait(f) && f !in s.sem.waiters && s' == s.(sem := s'.sem) && f in s'.sem.waiters)
            || Nearer(s, s', f, Distance(s, f))
  {
    if f !in s.sem.waiters {
      a := Wait(f);
      WaitMoves(s, f);
    } else {
      InTurnHead(s, f);
      a := FreeingStep(s, f);
    }
  }

  lemma {:induction false} GetsBothPermits(s: State, f: FiberId)
    requires Gate(s, 2) && InTurn(s) && UnderWay(s, f)
    ensures CanLaunch(s, f)
    decreases if f in s.first then 1 else 0, Distance(s, f), if f in s.sem.waiters then 0 else 1
  {
    var a := NextStep(s, f);
    var s' := Apply(s, a);
    StepKeeps(s, a);
    CarefulStep(s, a);
    if f in s'.launching { LaunchNow(s', f); } else { GetsBothPermits(s', f); }
    LaunchLater(s, a, f);
  }

  /** Every starter under way can get both permits. */
  ghost predicate AllCanLaunch(s: State) {
    forall f :: UnderWay(s, f) ==> CanLaunch(s, f)
  }

  /**
    In every run in which start() is called only when it may, the gate is never stuck, and each call under
    way can still get both permits, without any further call.
   */
  lemma CarefulStartsNeverStuck(run: seq<Action>)
    requires CarefulRun(INITIAL, run)
    ensures IsRun(INITIAL, run) && CanMove(After(INITIAL, run)) && AllCanLaunch(After(INITIAL, run))
  {
    CarefulRunLaunches(INITIAL, run);
  }

  lemma CarefulRunLaunches(s: State, run: seq<Action>)
    requires Gate(s, 2) && InTurn(s) && CarefulRun(s, run)
    ensures IsRun(s, run) && CanMove(After(s, run)) && AllCanLaunch(After(s, run))
  {
    CarefulRunKeeps(s, run);
    forall f | UnderWay(After(s, run), f) ensures CanLaunch(After(s, run), f) { GetsBothPermits(After(s, run), f); }
  }

  // ---------------------------------------------------------------- and when it may not

  /** Starter f has not gone to sleep in its second wait, and starter g has just come in. */
  ghost predicate Racing(s: State, f: FiberId, g: FiberId) {
    && WaitersOk(s) && f != g && g in s.first && g !in s.sem.waiters
    && (f in s.first || (f in s.second && f !in s.sem.waiters))
    && (forall x :: x in s.first ==> x == f || x == g)
    && (forall x :: x in s.second && x != f ==> f in s.first && s.sem.waiters != [] && s.sem.waiters[0] == x)
  }

  lemma ReleaseRacing(s: State, f: FiberId, g: FiberId)
    requires WaitersOk(s) && Disjoint(s) && Racing(s, f, g)
    ensures Racing(Release(s), f, g)
  {
    if s.sem.waiters != [] {
      assert s.sem.waiters[0] in s.sem.waiters;
      assert forall y :: y in s.sem.waiters[1..] ==> y in s.sem.waiters;
    }
  }

  /** Permits that are given back do not end the race. */
  lemma FreeingRacing(s: State, a: Action, f: FiberId, g: FiberId)
    requires Disjoint(s) && Racing(s, f, g) && Enabled(s, a) && !a.Start? && !a.Wait?
    ensures Racing(Apply(s, a), f, g)
  {
    if Frees(a) {
      FreedDistance(s, a, f);
      ReleaseRacing(Freed(s, a), f, g);
    }
  }

  lemma RacingHead(s: State, f: FiberId, g: FiberId)
    requires Gate(s, 2) && Racing(s, f, g)
    ensures HeadOk(s, f) && (s.sem.available == 0 ==> Busy(s))
  {
    if s.sem.waiters != [] { assert s.sem.waiters[0] in s.sem.waiters; }
    if s.sem.available == 0 && !Busy(s) {
      assert |s.second| == 2;
      var x, y := PairOf(s.second);
      assert false;
    }
  }

  /** Unless f already has a permit and the other one is available, some step brings that nearer. */
  lemma RaceStep(s: State, f: FiberId, g: FiberId) returns (a: Action)
    requires Gate(s, 2) && Racing(s, f, g) && (f in s.first || s.sem.available == 0)
    ensures Enabled(s, a) && !a.Start? && Racing(Apply(s, a), f, g)
    ensures Nearer(s, Apply(s, a), f, Distance(s, f))
  {
    if s.sem.available > 0 {
      a := Wait(f);
      WaitRacing(s, f, g);
    } else {
      RacingHead(s, f, g);
      a := FreeingStep(s, f);
      FreeingRacing(s, a, f, g);
    }
  }

  lemma WaitRacing(s: State, f: FiberId, g: FiberId)
    requires Gate(s, 2) && Racing(s, f, g) && f in s.first && s.sem.available > 0
    ensures Enabled(s, Wait(f)) && Racing(Apply(s, Wait(f)), f, g) && f in Apply(s, Wait(f)).second
  {
  }

  lemma {:induction false} Extend(s: State, run: seq<Action>, a: Action) returns (run': seq<Action>)
    requires CarefulRun(s, run) && IsRun(s, run) && Enabled(After(s, run), a) && !a.Start?
    ensures run' == run + [a] && CarefulRun(s, run') && IsRun(s, run') && After(s, run') == Apply(After(s, run), a)
    decreases |run|
  {
    run' := run + [a];
    if run != [] {
      var rest := Extend(Apply(s, run[0]), run[1..], a);
      assert run'[1..] == rest;
    } else {
      assert run'[1..] == [];
    }
  }

  /** f has one permit and the other one is available: g takes it, and both go to sleep. */
  lemma BothSleep(s: State, f: FiberId, g: FiberId) returns (run: seq<Action>)
    requires Gate(s, 2) && Racing(s, f, g) && f in s.second && s.sem.available > 0
    ensures CarefulRun(s, run) && IsRun(s, run) && Deadlocked(After(s, run), f, g)
  {
    assert s.second == {f} && s.sem.waiters == [];
    assert s.sem.available == 1;
    run := Extend(s, [], Wait(g));
    assert After(s, run).second == {f, g};
    run := Extend(s, run, Wait(f));
    run := Extend(s, run, Wait(g));
    assert After(s, run).sem.waiters == [f, g];
  }

  lemma {:induction false} RaceToDeadlock(s: State, f: FiberId, g: FiberId) returns (run: seq<Action>)
    requires Gate(s, 2) && Racing(s, f, g)
    ensures CarefulRun(s, run) && IsRun(s, run) && Deadlocked(After(s, run), f, g)
    decreases if f in s.first then 1 else 0, Distance(s, f)
  {
    if f in s.second && s.sem.available > 0 {
      run := BothSleep(s, f, g);
    } else {
      var a := RaceStep(s, f, g);
      StepKeeps(s, a);
      var rest := RaceToDeadlock(Apply(s, a), f, g);
      run := [a] + rest;
      assert run[1..] == rest;
    }
  }

  /** Whatever follows with careful calls only, the gate is not stuck. */
  ghost predicate NeverStuck(s: State) {
    forall run :: CarefulRun(s, run) && IsRun(s, run) ==> CanMove(After(s, run))
  }

  /** Whatever follows with careful calls only, each call under way can get both permits. */
  ghost predicate NeverStarved(s: State) {
    forall run :: CarefulRun(s, run) && IsRun(s, run) ==> AllCanLaunch(After(s, run))
  }

  /**
    A call of start() is safe if and only if no other caller still has to make one of its waits: then the
    gate is never stuck, and each call can get both permits, as long as later calls keep to that rule;
    otherwise it can end up stuck, and two calls without their permits, even without any further call.
   */
  lemma StartSafeIff(s: State, g: FiberId)
    requires Gate(s, 2) && InTurn(s) && Idle(s, g)
    ensures MayStart(s) <==> NeverStuck(Apply(s, Start(g)))
    ensures MayStart(s) <==> NeverStarved(Apply(s, Start(g)))
  {
    if MayStart(s) { SafeStart(s, g); } else { var run := UnsafeStart(s, g); }
  }

  lemma SafeStart(s: State, g: FiberId)
    requires Gate(s, 2) && InTurn(s) && Idle(s, g) && MayStart(s)
    ensures NeverStuck(Apply(s, Start(g))) && NeverStarved(Apply(s, Start(g)))
  {
    var s' := Apply(s, Start(g));
    StartKeeps(s, g);
    CarefulStep(s, Start(g));
    forall run | CarefulRun(s', run) && IsRun(s', run) ensures CanMove(After(s', run)) && AllCanLaunch(After(s', run)) {
      CarefulRunLaunches(s', run);
    }
  }

  lemma UnsafeStart(s: State, g: FiberId) returns (run: seq<Action>)
    requires Gate(s, 2) && InTurn(s) && Idle(s, g) && !MayStart(s)
    ensures var s' := Apply(s, Start(g));
            && CarefulRun(s', run) && IsRun(s', run)
            && !CanMove(After(s', run)) && !AllCanLaunch(After(s', run))
  {
    var s' := Apply(s, Start(g));
    StartKeeps(s, g);
    var f :| f in s.first || (f in s.second && f !in s.sem.waiters);
    StartRacing(s, f, g);
    run := RaceToDeadlock(s', f, g);
    RunKeeps(s', run);
    StuckIffDeadlocked(After(s', run));
    assert Deadlocked(After(s', run), f, g);
    DeadlockedStarves(After(s', run), f, g);
    assert UnderWay(After(s', run), f);
  }

  lemma DeadlockedStarves(s: State, f: FiberId, g: FiberId)
    requires Gate(s, 2) && Deadlocked(s, f, g)
    ensures !CanLaunch(s, f)
  {
    forall run | IsRun(s, run) ensures f !in After(s, run).launching {
      DeadlockIsForever(s, run, f, g);
      RunKeeps(s, run);
    }
  }

  lemma StartRacing(s: State, f: FiberId, g: FiberId)
    requires Gate(s, 2) && InTurn(s) && Idle(s, g) && (f in s.first || (f in s.second && f !in s.sem.waiters))
    ensures Racing(Apply(s, Start(g)), f, g)
  {
  }

  /** In particular two fibers that call start() of a new stream at the same time can block each other. */
  lemma ConcurrentStartsDeadlock(f: FiberId, g: FiberId) returns (run: seq<Action>)
    requires f != g
    ensures IsRun(INITIAL, [Start(f), Start(g)] + run) && Deadlocked(After(INITIAL, [Start(f), Start(g)] + run), f, g)
  {
    var s1 := Apply(INITIAL, Start(f));
    var s2 := Apply(s1, Start(g));
    StepKeeps(INITIAL, Start(f));
    StepKeeps(s1, Start(g));
    run := RaceToDeadlock(s2, f, g);
    RunCons(s1, Start(g), run);
    RunCons(INITIAL, Start(f), [Start(g)] + run);
    assert [Start(f)] + ([Start(g)] + run) == [Start(f), Start(g)] + run;
  }
}
