/**
  The two step systems of an asynchronous stream put together (streams/async_socket_stream.cc): the gate of
  start() and the send queue.  The steps of start() are guarded by the gate alone, that is by the permits
  the caller has; that the loops of the start before have ended is a result.
 */
module AsyncStreams {
  import Q = SendQueue
  import G = RestartGate

  type FiberId = G.FiberId

  datatype State = State(queue: Q.State, gate: G.State)

  datatype Action =
    | OfQueue(q: Q.Action)             // enqueuers, the loops, closers
    | OfGate(g: G.Action)              // callers of start() that wait or give up
    | Connect(f: FiberId)              // a caller of start() with both permits
    | StartRead(f: FiberId)
    | StartWrite(f: FiberId)
    | ReadDone                         // doRead has left its loop and closed: it notifies the gate
    | WriteDone                        // doWrite has cleared the queue: it notifies the gate

  predicate OfStart(q: Q.Action) { q.Connect? || q.StartRead? || q.StartWrite? }

  /** What happens in the gate alone. */
  predicate GateOnly(g: G.Action) { g.Start? || g.Wait? || g.Fail? || g.GiveBack? }

  predicate Enabled(s: State, a: Action) {
    match a
    case OfQueue(q) => !OfStart(q) && Q.Enabled(s.queue, q)
    case OfGate(g) => GateOnly(g) && G.Enabled(s.gate, g)
    case Connect(f) => f in s.gate.launching
    case StartRead(f) => G.Enabled(s.gate, G.StartRead(f))
    case StartWrite(f) => G.Enabled(s.gate, G.StartWrite(f))
    case ReadDone => !s.queue.reader && G.Enabled(s.gate, G.ReaderEnds)
    case WriteDone => s.queue.writer.Absent? && G.Enabled(s.gate, G.WriterEnds)
  }

  /** The steps of the queue's system that the action is there. */
  function QueueSteps(a: Action): seq<Q.Action> {
    match a
    case OfQueue(q) => [q]
    case Connect(_) => [Q.Connect]
    case StartRead(_) => [Q.StartRead]
    case StartWrite(_) => [Q.StartWrite]
    case _ => []
  }

  /** And those of the gate's. */
  function GateSteps(a: Action): seq<G.Action> {
    match a
    case OfGate(g) => [g]
    case StartRead(f) => [G.StartRead(f)]
    case StartWrite(f) => [G.StartWrite(f)]
    case ReadDone => [G.ReaderEnds]
    case WriteDone => [G.WriterEnds]
    case _ => []
  }

  /** Without the guards of the queue's system: start() does what it does whether or not the loops have ended. */
  function QueueAfter(q: Q.State, a: Action): Q.State {
    match a
    case OfQueue(b) => if Q.Enabled(q, b) then Q.Apply(q, b) else q
    case Connect(_) => q.(connected := true)
    case StartRead(_) => q.(reader := true, half := true)
    case StartWrite(_) => q.(writer := Q.Top, half := false)
    case _ => q
  }

  function GateAfter(g: G.State, a: Action): G.State {
    var steps := GateSteps(a);
    if steps != [] && G.Enabled(g, steps[0]) then G.Apply(g, steps[0]) else g
  }

  function Apply(s: State, a: Action): State {
    State(QueueAfter(s.queue, a), GateAfter(s.gate, a))
  }

  function Initial(connected: bool): State {
    State(Q.Initial(connected), G.INITIAL)
  }

  ghost predicate IsRun(s: State, run: seq<Action>)
    decreases |run|
  {
    run == [] || (Enabled(s, run[0]) && IsRun(Apply(s, run[0]), run[1..]))
  }

  ghost function After(s: State, run: seq<Action>): State
    decreases |run|
  {
    if run == [] then s else After(Apply(s, run[0]), run[1..])
  }

  // ---------------------------------------------------------------- how the two fit together

  /** A loop that is live has its permit, and the start under way is that of the gate. */
  ghost predicate Linked(s: State) {
    && (s.queue.reader ==> s.gate.readers == 1)
    && (!s.queue.writer.Absent? ==> s.gate.writers == 1)
    && (s.queue.half <==> s.gate.half != {})
  }

  ghost predicate Inv(s: State) {
    G.Gate(s.gate, 2) && Q.Inv(s.queue) && Linked(s)
  }

  /** Who has both permits finds that the loops of the start before have ended. */
  lemma LaunchFindsNoLoop(s: State, f: FiberId)
    requires G.Gate(s.gate, 2) && Linked(s) && f in s.gate.launching
    ensures s.queue.writer.Absent? && !s.queue.reader && !s.queue.half
    ensures s.gate.launching == {f} && s.gate.readers == 0 && s.gate.writers == 0
  {
    G.Remove(s.gate.launching, f);
    assert |s.gate.half| == 0;
    assert |s.gate.launching - {f}| == 0;
  }

  /** Who has started doRead is alone in that, and there is no doWrite. */
  lemma HalfFindsNoWriter(s: State, f: FiberId)
    requires G.Gate(s.gate, 2) && Linked(s) && f in s.gate.half
    ensures s.queue.writer.Absent? && s.queue.half && s.gate.half == {f}
  {
    G.Remove(s.gate.half, f);
    assert |s.gate.half - {f}| == 0;
  }

  /** The guards of both systems hold: the action is the steps it stands for. */
  lemma StepProjects(s: State, a: Action)
    requires Inv(s) && Enabled(s, a)
    ensures var q, s' := QueueSteps(a), Apply(s, a);
            if q == [] then s'.queue == s.queue else Q.Enabled(s.queue, q[0]) && s'.queue == Q.Apply(s.queue, q[0])
    ensures var g, s' := GateSteps(a), Apply(s, a);
            if g == [] then s'.gate == s.gate else G.Enabled(s.gate, g[0]) && s'.gate == G.Apply(s.gate, g[0])
  {
    match a
    case Connect(f) => LaunchFindsNoLoop(s, f);
    case StartRead(f) => LaunchFindsNoLoop(s, f);
    case StartWrite(f) => HalfFindsNoWriter(s, f);
    case _ =>
  }

  lemma StepKeeps(s: State, a: Action)
    requires Inv(s) && Enabled(s, a)
    ensures Inv(Apply(s, a))
  {
    StepProjects(s, a);
    var q, g := QueueSteps(a), GateSteps(a);
    if q != [] { Q.StepKeeps(s.queue, q[0]); }
    if g != [] { G.StepKeeps(s.gate, g[0]); }
    LinkKept(s, a);
  }

  lemma LinkKept(s: State, a: Action)
    requires Inv(s) && Enabled(s, a)
    ensures Linked(Apply(s, a))
  {
    match a
    case OfQueue(q) => QueueLinkKept(s, q);
    case OfGate(g) => GateLinkKept(s, g);
    case Connect(f) =>
    case StartRead(f) => LaunchFindsNoLoop(s, f);
    case StartWrite(f) => HalfFindsNoWriter(s, f);
    case ReadDone => ReleaseLeaves(s.gate, G.ReaderEnds);
    case WriteDone => ReleaseLeaves(s.gate, G.WriterEnds);
  }

  lemma QueueLinkKept(s: State, q: Q.Action)
    requires Linked(s) && !OfStart(q) && Q.Enabled(s.queue, q)
    ensures Linked(Apply(s, OfQueue(q)))
  {
  }

  /** What a permit given back does to the loops. */
  lemma ReleaseLeaves(s: G.State, g: G.Action)
    requires G.Enabled(s, g) && G.Frees(g)
    ensures var s' := G.Apply(s, g);
            && s'.half == s.half
            && s'.readers == (if g.ReaderEnds? then s.readers - 1 else s.readers)
            && s'.writers == (if g.WriterEnds? then s.writers - 1 else s.writers)
  {
  }

  lemma GateLinkKept(s: State, g: G.Action)
    requires Linked(s) && GateOnly(g) && G.Enabled(s.gate, g)
    ensures Linked(Apply(s, OfGate(g)))
  {
    if g.GiveBack? { ReleaseLeaves(s.gate, g); }
  }

  // ---------------------------------------------------------------- projections

  /** The steps of each system in a run. */
  ghost function QueueRun(run: seq<Action>): seq<Q.Action> {
    if run == [] then [] else QueueSteps(run[0]) + QueueRun(run[1..])
  }

  ghost function GateRun(run: seq<Action>): seq<G.Action> {
    if run == [] then [] else GateSteps(run[0]) + GateRun(run[1..])
  }

  /**
    Every run of the whole stream is a run of the send queue and a run of the gate: the queue's assumption,
    that a start finds the loops before it ended, is what the gate ensures.
   */
  lemma {:induction false} RunProjects(s: State, run: seq<Action>)
    requires Inv(s) && IsRun(s, run)
    ensures Inv(After(s, run))
    ensures Q.IsRun(s.queue, QueueRun(run)) && Q.After(s.queue, QueueRun(run)) == After(s, run).queue
    ensures G.IsRun(s.gate, GateRun(run)) && G.After(s.gate, GateRun(run)) == After(s, run).gate
    decreases |run|
  {
    if run != [] {
      var a, rest := run[0], run[1..];
      StepProjects(s, a);
      StepKeeps(s, a);
      RunProjects(Apply(s, a), rest);
      QueueCons(s.queue, QueueSteps(a), QueueRun(rest));
      GateCons(s.gate, GateSteps(a), GateRun(rest));
    }
  }

  lemma QueueCons(s: Q.State, steps: seq<Q.Action>, rest: seq<Q.Action>)
    requires |steps| <= 1 && (steps != [] ==> Q.Enabled(s, steps[0]))
    requires Q.IsRun(if steps == [] then s else Q.Apply(s, steps[0]), rest)
    ensures Q.IsRun(s, steps + rest)
    ensures Q.After(s, steps + rest) == Q.After(if steps == [] then s else Q.Apply(s, steps[0]), rest)
  {
    if steps == [] { assert steps + rest == rest; } else { assert (steps + rest)[1..] == rest; }
  }

  lemma GateCons(s: G.State, steps: seq<G.Action>, rest: seq<G.Action>)
    requires |steps| <= 1 && (steps != [] ==> G.Enabled(s, steps[0]))
    requires G.IsRun(if steps == [] then s else G.Apply(s, steps[0]), rest)
    ensures G.IsRun(s, steps + rest)
    ensures G.After(s, steps + rest) == G.After(if steps == [] then s else G.Apply(s, steps[0]), rest)
  {
    if steps == [] { assert steps + rest == rest; } else { assert (steps + rest)[1..] == rest; }
  }

  // ---------------------------------------------------------------- across restarts

  lemma InitialInv(connected: bool)
    ensures Inv(Initial(connected))
  {
    assert Q.InOrder(Q.Initial(connected)) == [];
  }

  /**
    In every run of the whole stream, with any number of concurrent starts, failures, closes and
    reconnects: the queue never loses a wake-up, a writer asleep on a closed stream will be woken, and
    messages are sent in order, none twice; at most one doRead and one doWrite are live.
   */
  lemma NoLostWakeUp(connected: bool, run: seq<Action>)
    requires IsRun(Initial(connected), run)
    ensures var s := After(Initial(connected), run).queue;
            && (s.queue != [] ==> s.permits > 0 || s.owed > 0 || s.writer == Q.Granted)
            && (s.queue != [] && s.writer == Q.Asleep ==> s.owed > 0)
            && (!s.connected && s.writer == Q.Asleep ==> s.closing > 0 || s.reader)
            && (forall i, j :: 0 <= i < j < |s.sent| ==> s.sent[i] < s.sent[j])
    ensures var g := After(Initial(connected), run).gate; g.readers <= 1 && g.writers <= 1
  {
    InitialInv(connected);
    RunProjects(Initial(connected), run);
    Q.NoLostWakeUp(connected, QueueRun(run));
    G.OneLoopEach(GateRun(run));
  }

  lemma {:induction false} Lift(s: State, steps: seq<Q.Action>) returns (run: seq<Action>)
    requires Q.IsRun(s.queue, steps) && forall i :: 0 <= i < |steps| ==> !OfStart(steps[i])
    ensures IsRun(s, run) && After(s, run) == s.(queue := Q.After(s.queue, steps))
    decreases |steps|
  {
    run := [];
    if steps != [] {
      var a := OfQueue(steps[0]);
      var rest := Lift(Apply(s, a), steps[1..]);
      run := [a] + rest;
      assert run[1..] == rest;
    }
  }

  /** After every run of the whole stream, while the writer is live, everything enqueued can still be sent, in order. */
  lemma CanDrain(connected: bool, run: seq<Action>) returns (more: seq<Action>)
    requires IsRun(Initial(connected), run) && Q.Live(After(Initial(connected), run).queue)
    ensures var s := After(Initial(connected), run);
            && IsRun(s, more) && After(s, more).gate == s.gate
            && After(s, more).queue.sent == Q.InOrder(s.queue) && After(s, more).queue.queue == []
  {
    InitialInv(connected);
    RunProjects(Initial(connected), run);
    more := DrainFrom(After(Initial(connected), run));
  }

  lemma DrainFrom(s: State) returns (more: seq<Action>)
    requires Q.Inv(s.queue) && Q.Live(s.queue)
    ensures IsRun(s, more) && After(s, more).gate == s.gate
    ensures After(s, more).queue.sent == Q.InOrder(s.queue) && After(s, more).queue.queue == []
  {
    var steps := Q.CanDrain(s.queue);
    assert forall i :: 0 <= i < |steps| ==> Q.Drains(steps[i]) && !OfStart(steps[i]);
    more := Lift(s, steps);
  }

  /**
    Over the whole stream: what was enqueued before doWrite left is not sent afterwards, however often the
    stream is started again; nor what was in the queue when a closer cleared it.
   */
  lemma NothingOldIsSent(connected: bool, before: seq<Action>, q: Q.Action, after: seq<Action>)
    requires IsRun(Initial(connected), before) && (q.Exit? || q.CloseClear?)
    requires var s := After(Initial(connected), before); Enabled(s, OfQueue(q)) && IsRun(Apply(s, OfQueue(q)), after)
    ensures var s := After(Initial(connected), before); var s' := After(Apply(s, OfQueue(q)), after);
            && |s.queue.sent| <= |s'.queue.sent|
            && forall i :: |s.queue.sent| <= i < |s'.queue.sent| ==>
                 s'.queue.sent[i] >= s.queue.enqueued || (q.CloseClear? && s'.queue.sent[i] in Q.Batch(s.queue))
  {
    var s := After(Initial(connected), before);
    InitialInv(connected);
    RunProjects(Initial(connected), before);
    StepKeeps(s, OfQueue(q));
    RunProjects(Apply(s, OfQueue(q)), after);
    if q.Exit? { Q.ExitDropsQueue(s.queue, QueueRun(after)); } else { Q.CloseDropsQueue(s.queue, QueueRun(after)); }
  }
}
