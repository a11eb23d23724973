/**
  The send queue of an asynchronous stream (streams/async_socket_stream.cc) as a step system: any
  number of fibers call enqueue(), one doWrite loop sends, close() and innerClose() may run at any time
  and several times, and the stream may be started again afterwards.  The steps of start() are enabled only
  where the loops before have ended; that they always have is proved in the module AsyncStreams.
 */
module SendQueue {
  /** Messages are numbered in the order in which they were enqueued. */
  type Message = nat

  /** Where the doWrite loop is. */
  datatype Writer =
    | Absent
    | Top                              // about to test isConnected()
    | Ready                            // connected: about to wait
    | Asleep                           // suspended in m_sem.wait()
    | Granted                          // has a permit, has not swapped the queue yet
    | Sending(batch: seq<Message>)
    | Failing                          // a doSend failed: about to close
    | Leaving                          // out of the loop, about to clear the queue

  datatype SendResult = Sent | Refused | Threw

  datatype State = State(
    connected: bool,
    reader: bool,                      // a doRead loop is live
    half: bool,                        // start() has started doRead and is about to start doWrite
    queue: seq<Message>,
    permits: nat,                      // m_sem
    writer: Writer,
    owed: nat,                         // enqueuers that saw an empty queue and have not notified yet
    closing: nat,                      // closers that have closed the socket and are about to notify
    clearing: nat,                     // closers that are about to clear the queue
    enqueued: nat,                     // messages so far
    sent: seq<Message>)                // what doSend was called with

  datatype Action =
    | Enqueue                          // push_back under the lock
    | NotifyOwed                       // the enqueuer's notify
    | Connect                          // start() finds or makes the socket connected
    | StartRead
    | StartWrite
    | Test                             // isConnected()
    | Wait
    | Swap
    | Send(result: SendResult)         // doSend of the next message of the batch
    | EndBatch
    | WriterCloses                     // innerClose() by the writer; its later steps may come at any time
    | Close                            // innerClose() by anybody else
    | PublicClose                      // close(): the socket only, nobody is notified
    | ReaderLeaves                     // doRead is out of its loop and calls innerClose()
    | CloseNotify
    | CloseClear
    | Exit                             // clear the queue and leave

  predicate Enabled(s: State, a: Action) {
    match a
    case Enqueue => true
    case NotifyOwed => s.owed > 0
    case Connect => s.writer == Absent && !s.reader && !s.half
    case StartRead => s.writer == Absent && !s.reader && !s.half
    case StartWrite => s.writer == Absent && s.half
    case Test => s.writer == Top
    case Wait => s.writer == Ready
    case Swap => s.writer == Granted
    case Send(_) => s.writer.Sending? && s.writer.batch != []
    case EndBatch => s.writer.Sending? && s.writer.batch == []
    case WriterCloses => s.writer == Failing
    case Close => true
    case PublicClose => true
    case ReaderLeaves => s.reader
    case CloseNotify => s.closing > 0
    case CloseClear => s.clearing > 0
    case Exit => s.writer == Leaving
  }

  /** FiberSemaphore::notify; the writer is the only fiber that waits. */
  function NotifyWriter(s: State): State {
    if s.writer == Asleep then s.(writer := Granted) else s.(permits := s.permits + 1)
  }

  function Apply(s: State, a: Action): State
    requires Enabled(s, a)
  {
    match a
    case Enqueue =>
      s.(queue := s.queue + [s.enqueued], enqueued := s.enqueued + 1, owed := if s.queue == [] then s.owed + 1 else s.owed)
    case NotifyOwed => NotifyWriter(s.(owed := s.owed - 1))
    case Connect => s.(connected := true)
    case StartRead => s.(reader := true, half := true)
    case StartWrite => s.(writer := Top, half := false)
    case Test => s.(writer := if s.connected then Ready else Leaving)
    case Wait => if s.permits > 0 then s.(permits := s.permits - 1, writer := Granted) else s.(writer := Asleep)
    case Swap => s.(writer := Sending(s.queue), queue := [])
    case Send(result) =>
      s.(sent := s.sent + [s.writer.batch[0]],
         writer := match result case Sent => Sending(s.writer.batch[1..]) case Refused => Failing case Threw => Leaving)
    case EndBatch => s.(writer := Top)
    case WriterCloses => s.(writer := Top, connected := false, closing := s.closing + 1)
    case Close => s.(connected := false, closing := s.closing + 1)
    case PublicClose => s.(connected := false)
    case ReaderLeaves => s.(connected := false, closing := s.closing + 1, reader := false)
    case CloseNotify => NotifyWriter(s.(closing := s.closing - 1, clearing := s.clearing + 1))
    case CloseClear => s.(queue := [], clearing := s.clearing - 1)
    case Exit => s.(queue := [], writer := Absent)
  }

  /** A new stream, over a socket that is connected or not. */
  function Initial(connected: bool): State {
    State(connected, false, false, [], 0, Absent, 0, 0, 0, 0, [])
  }

  ghost predicate IsRun(s: State, run: seq<Action>)
    decreases |run|
  {
    run == [] || (Enabled(s, run[0]) && IsRun(Apply(s, run[0]), run[1..]))
  }

  ghost function After(s: State, run: seq<Action>): State
    requires IsRun(s, run)
    decreases |run|
  {
    if run == [] then s else After(Apply(s, run[0]), run[1..])
  }

  // ---------------------------------------------------------------- invariants

  /** A non-empty queue: a permit is there, or a notify is to come, or the writer is about to swap. */
  ghost predicate Awake(s: State) {
    && (s.queue != [] ==> s.permits > 0 || s.owed > 0 || s.writer == Granted)
    && (s.writer == Asleep ==> s.permits == 0)
  }

  /** A writer that is about to sleep, or asleep, on a closed stream: somebody will still wake it. */
  ghost predicate WillLeave(s: State) {
    && ((s.writer == Ready || s.writer == Asleep) && !s.connected ==> s.permits > 0 || s.closing > 0 || s.reader)
    && (s.half ==> s.writer == Absent)
    && ((s.writer != Absent || s.half) && s.connected ==> s.reader)
  }

  /** Everything that was enqueued and not dropped, in the order in which it goes out. */
  function InOrder(s: State): seq<Message> {
    s.sent + Batch(s) + s.queue
  }

  ghost predicate Increasing(x: seq<Message>, bound: nat) {
    && (forall i :: 0 <= i < |x| ==> x[i] < bound)
    && (forall i, j :: 0 <= i < j < |x| ==> x[i] < x[j])
  }

  ghost predicate Inv(s: State) {
    Awake(s) && WillLeave(s) && Increasing(InOrder(s), s.enqueued)
  }

  /** A sequence with some elements left out is still increasing. */
  lemma Thinned(x: seq<Message>, y: seq<Message>, z: seq<Message>, bound: nat)
    requires Increasing(x + y + z, bound)
    ensures Increasing(x + z, bound) && Increasing(x + y, bound)
  {
    var all := x + y + z;
    forall i | 0 <= i < |x + z| ensures (x + z)[i] == all[if i < |x| then i else i + |y|] {}
    forall i | 0 <= i < |x + y| ensures (x + y)[i] == all[i] {}
  }

  lemma Shortened(x: seq<Message>, y: seq<Message>, bound: nat)
    requires Increasing(x + y, bound)
    ensures Increasing(x + [], bound)
  {
    assert forall i :: 0 <= i < |x| ==> x[i] == (x + y)[i];
  }

  lemma Extended(x: seq<Message>, bound: nat)
    requires Increasing(x, bound)
    ensures Increasing(x + [bound], bound + 1)
  {
  }

  lemma OrderKept(s: State, a: Action)
    requires Inv(s) && Enabled(s, a)
    ensures Increasing(InOrder(Apply(s, a)), Apply(s, a).enqueued)
  {
    if a.Enqueue? {
      Extended(InOrder(s), s.enqueued);
      Regroup(s.sent + Batch(s), s.queue, [s.enqueued]);
    } else if a.Swap? {
      Regroup(s.sent, s.queue, []);
    } else if a.Send? {
      SendKeepsOrder(s, a);
    } else if a.CloseClear? || a.Exit? {
      Shortened(s.sent + Batch(s), s.queue, s.enqueued);
    }
  }

  lemma Regroup(x: seq<Message>, y: seq<Message>, z: seq<Message>)
    ensures x + (y + z) == (x + y) + z && x + y + [] == x + [] + y
  {
  }

  lemma SendKeepsOrder(s: State, a: Action)
    requires Inv(s) && a.Send? && Enabled(s, a)
    ensures Increasing(InOrder(Apply(s, a)), Apply(s, a).enqueued)
  {
    var batch := s.writer.batch;
    var done := s.sent + [batch[0]];
    assert done + batch[1..] + s.queue == InOrder(s);
    Thinned(done, batch[1..], s.queue, s.enqueued);
    Regroup(done, s.queue, []);
  }

  lemma StepKeeps(s: State, a: Action)
    requires Inv(s) && Enabled(s, a)
    ensures Inv(Apply(s, a))
  {
    OrderKept(s, a);
  }

  lemma {:induction false} RunKeeps(s: State, run: seq<Action>)
    requires Inv(s) && IsRun(s, run)
    ensures Inv(After(s, run))
    decreases |run|
  {
    if run != [] {
      StepKeeps(s, run[0]);
      RunKeeps(Apply(s, run[0]), run[1..]);
    }
  }

  /**
    In every run, with failures, closes and restarts: the queue never loses a wake-up, so the writer is
    not asleep over a non-empty queue unless an enqueuer still owes its notify; it is not asleep on a
    closed stream unless a closer is about to notify or the reader, which closes on its way out, is
    live; and doSend sees the messages in the order of enqueue, none of them twice.
   */
  lemma NoLostWakeUp(connected: bool, run: seq<Action>)
    requires IsRun(Initial(connected), run)
    ensures var s := After(Initial(connected), run);
            && (s.queue != [] ==> s.permits > 0 || s.owed > 0 || s.writer == Granted)
            && (s.queue != [] && s.writer == Asleep ==> s.owed > 0)
            && (!s.connected && s.writer == Asleep ==> s.closing > 0 || s.reader)
            && (forall i, j :: 0 <= i < j < |s.sent| ==> s.sent[i] < s.sent[j])
  {
    RunKeeps(Initial(connected), run);
    var s := After(Initial(connected), run);
    forall i, j | 0 <= i < j < |s.sent| ensures s.sent[i] < s.sent[j] {
      assert InOrder(s)[i] == s.sent[i] && InOrder(s)[j] == s.sent[j];
    }
  }

  // ---------------------------------------------------------------- a close empties the queue

  function Batch(s: State): seq<Message> {
    if s.writer.Sending? then s.writer.batch else []
  }

  /** Every message is one of `kept` or was enqueued as number `bound` or later. */
  ghost predicate New(x: seq<Message>, bound: nat, kept: seq<Message>) {
    forall i :: 0 <= i < |x| ==> x[i] >= bound || x[i] in kept
  }

  /** What is waiting, and what has been sent after the first k messages. */
  ghost predicate OnlyNew(s: State, k: nat, bound: nat, kept: seq<Message>) {
    k <= |s.sent| && bound <= s.enqueued && New(s.sent[k..], bound, kept) && New(Batch(s), bound, kept) && New(s.queue, bound, kept)
  }

  lemma OnlyNewStep(s: State, a: Action, k: nat, bound: nat, kept: seq<Message>)
    requires OnlyNew(s, k, bound, kept) && Enabled(s, a)
    ensures OnlyNew(Apply(s, a), k, bound, kept)
  {
    if a.Send? {
      assert Apply(s, a).sent[k..] == s.sent[k..] + [s.writer.batch[0]];
    }
  }

  lemma {:induction false} OnlyNewRun(s: State, run: seq<Action>, k: nat, bound: nat, kept: seq<Message>)
    requires OnlyNew(s, k, bound, kept) && IsRun(s, run)
    ensures OnlyNew(After(s, run), k, bound, kept)
    decreases |run|
  {
    if run != [] {
      OnlyNewStep(s, run[0], k, bound, kept);
      OnlyNewRun(Apply(s, run[0]), run[1..], k, bound, kept);
    }
  }

  /**
    Once doWrite has left, no message that was enqueued before is ever sent, whatever happens afterwards:
    nothing of a connection that is gone goes out on the next one.
   */
  lemma ExitDropsQueue(s: State, after: seq<Action>)
    requires Enabled(s, Exit) && IsRun(Apply(s, Exit), after)
    ensures var s' := After(Apply(s, Exit), after);
            |s.sent| <= |s'.sent| && forall i :: |s.sent| <= i < |s'.sent| ==> s'.sent[i] >= s.enqueued
  {
    OnlyNewRun(Apply(s, Exit), after, |s.sent|, s.enqueued, []);
    var s' := After(Apply(s, Exit), after);
    forall i | |s.sent| <= i < |s'.sent| ensures s'.sent[i] >= s.enqueued { assert s'.sent[i] == s'.sent[|s.sent|..][i - |s.sent|]; }
  }

  /** Nor once a closer has cleared the queue, but for the messages that the writer had taken before. */
  lemma CloseDropsQueue(s: State, after: seq<Action>)
    requires Enabled(s, CloseClear) && IsRun(Apply(s, CloseClear), after)
    ensures var s' := After(Apply(s, CloseClear), after);
            |s.sent| <= |s'.sent| && forall i :: |s.sent| <= i < |s'.sent| ==> s'.sent[i] >= s.enqueued || s'.sent[i] in Batch(s)
  {
    OnlyNewRun(Apply(s, CloseClear), after, |s.sent|, s.enqueued, Batch(s));
    var s' := After(Apply(s, CloseClear), after);
    forall i | |s.sent| <= i < |s'.sent| ensures s'.sent[i] >= s.enqueued || s'.sent[i] in Batch(s) {
      assert s'.sent[i] == s'.sent[|s.sent|..][i - |s.sent|];
    }
  }

  // ---------------------------------------------------------------- notifies and closes, counted

  /** The steps that close the socket inside innerClose(), which notifies and clears the queue afterwards. */
  predicate ClosesInner(a: Action) { a.Close? || a.WriterCloses? || a.ReaderLeaves? }

  /** The action calls notify(), now or later: an enqueue that finds the queue empty, or an innerClose(). */
  function Notifies(s: State, a: Action): nat {
    if (a.Enqueue? && s.queue == []) || ClosesInner(a) then 1 else 0
  }

  ghost function Count(s: State, run: seq<Action>, what: (State, Action) -> nat): nat
    requires IsRun(s, run)
    decreases |run|
  {
    if run == [] then 0 else what(s, run[0]) + Count(Apply(s, run[0]), run[1..], what)
  }

  /** Notifies that are to come, or have come and not led to a swap of the queue. */
  function NotSwapped(s: State): int {
    s.permits + s.owed + s.closing + if s.writer == Granted then 1 else 0
  }

  /** In every run, notify() is called once for each enqueue into an empty queue and once for each close, and each call leads to one swap. */
  lemma {:induction false} NotifiesCounted(s: State, run: seq<Action>)
    requires Awake(s) && IsRun(s, run)
    ensures NotSwapped(After(s, run)) + Count(s, run, (x: State, a: Action) => if a.Swap? then 1 else 0)
            == NotSwapped(s) + Count(s, run, Notifies)
    decreases |run|
  {
    if run != [] {
      AwakeStep(s, run[0]);
      NotifyStep(s, run[0]);
      NotifiesCounted(Apply(s, run[0]), run[1..]);
    }
  }

  lemma AwakeStep(s: State, a: Action)
    requires Awake(s) && Enabled(s, a)
    ensures Awake(Apply(s, a))
  {
  }

  lemma NotifyStep(s: State, a: Action)
    requires Awake(s) && Enabled(s, a)
    ensures NotSwapped(Apply(s, a)) + (if a.Swap? then 1 else 0) == NotSwapped(s) + Notifies(s, a)
  {
  }

  /** And each innerClose() clears the queue once, after its notify. */
  lemma {:induction false} ClosesCounted(s: State, run: seq<Action>)
    requires IsRun(s, run)
    ensures var s' := After(s, run);
            s'.closing + s'.clearing + Count(s, run, (x: State, a: Action) => if a.CloseClear? then 1 else 0)
            == s.closing + s.clearing + Count(s, run, (x: State, a: Action) => if ClosesInner(a) then 1 else 0)
    decreases |run|
  {
    if run != [] {
      CloseStep(s, run[0]);
      ClosesCounted(Apply(s, run[0]), run[1..]);
    }
  }

  lemma CloseStep(s: State, a: Action)
    requires Enabled(s, a)
    ensures var s' := Apply(s, a);
            s'.closing + s'.clearing + (if a.CloseClear? then 1 else 0) == s.closing + s.clearing + if ClosesInner(a) then 1 else 0
  {
  }

  // ---------------------------------------------------------------- a failed send, a close, a restart

  /** A step of the doWrite loop. */
  predicate OfWriter(a: Action) {
    a.Test? || a.Wait? || a.Swap? || a.Send? || a.EndBatch? || a.WriterCloses? || a.Exit?
  }

  lemma {:induction false} RefusedCloses(s: State, run: seq<Action>)
    requires s.writer == Failing && IsRun(s, run) && forall i :: 0 <= i < |run| ==> !run[i].WriterCloses?
    ensures After(s, run).writer == Failing && After(s, run).sent == s.sent && forall i :: 0 <= i < |run| ==> !OfWriter(run[i])
    decreases |run|
  {
    if run != [] {
      assert !OfWriter(run[0]);
      RefusedCloses(Apply(s, run[0]), run[1..]);
      assert forall i :: 1 <= i < |run| ==> run[i] == run[1..][i - 1];
    }
  }

  lemma {:induction false} ThrewLeaves(s: State, run: seq<Action>)
    requires s.writer == Leaving && IsRun(s, run) && forall i :: 0 <= i < |run| ==> !run[i].Exit?
    ensures After(s, run).writer == Leaving && After(s, run).sent == s.sent && forall i :: 0 <= i < |run| ==> !OfWriter(run[i])
    decreases |run|
  {
    if run != [] {
      assert !OfWriter(run[0]);
      ThrewLeaves(Apply(s, run[0]), run[1..]);
      assert forall i :: 1 <= i < |run| ==> run[i] == run[1..][i - 1];
    }
  }

  /** So after a doSend that fails the writer closes the stream before it does anything else. */
  lemma AfterRefused(s: State, run: seq<Action>)
    requires Enabled(s, Send(Refused)) && IsRun(Apply(s, Send(Refused)), run)
    requires forall i :: 0 <= i < |run| ==> !run[i].WriterCloses?
    ensures After(Apply(s, Send(Refused)), run).sent == s.sent + [s.writer.batch[0]]
    ensures forall i :: 0 <= i < |run| ==> !OfWriter(run[i])
  {
    RefusedCloses(Apply(s, Send(Refused)), run);
  }

  /** And after one that throws it leaves, without closing. */
  lemma AfterThrew(s: State, run: seq<Action>)
    requires Enabled(s, Send(Threw)) && IsRun(Apply(s, Send(Threw)), run)
    requires forall i :: 0 <= i < |run| ==> !run[i].Exit?
    ensures After(Apply(s, Send(Threw)), run).sent == s.sent + [s.writer.batch[0]]
    ensures forall i :: 0 <= i < |run| ==> !OfWriter(run[i])
  {
    ThrewLeaves(Apply(s, Send(Threw)), run);
  }

  lemma {:induction false} TopTests(s: State, run: seq<Action>)
    requires s.writer == Top && IsRun(s, run) && forall i :: 0 <= i < |run| ==> !run[i].Test?
    ensures After(s, run).writer == Top && forall i :: 0 <= i < |run| ==> !OfWriter(run[i])
    decreases |run|
  {
    if run != [] {
      assert !OfWriter(run[0]);
      TopTests(Apply(s, run[0]), run[1..]);
      assert forall i :: 1 <= i < |run| ==> run[i] == run[1..][i - 1];
    }
  }

  /** After a whole batch, and after closing the stream itself, the writer tests the connection before it does anything else. */
  lemma TestsAgain(s: State, a: Action, run: seq<Action>)
    requires Enabled(s, a) && (a.EndBatch? || a.WriterCloses?) && IsRun(Apply(s, a), run)
    requires forall i :: 0 <= i < |run| ==> !run[i].Test?
    ensures forall i :: 0 <= i < |run| ==> !OfWriter(run[i])
    ensures Enabled(After(Apply(s, a), run), Test)
  {
    TopTests(Apply(s, a), run);
  }

  /** What was in the batch behind the message that failed is never sent, in any run. */
  lemma FailedBatchIsDropped(s: State, result: SendResult, run: seq<Action>)
    requires result != Sent && Enabled(s, Send(result)) && IsRun(Apply(s, Send(result)), run)
    ensures var s' := After(Apply(s, Send(result)), run);
            && |s.sent| + 1 <= |s'.sent|
            && forall i :: |s.sent| + 1 <= i < |s'.sent| ==> s'.sent[i] >= s.enqueued || s'.sent[i] in s.queue
  {
    var s1 := Apply(s, Send(result));
    OnlyNewRun(s1, run, |s1.sent|, s.enqueued, s.queue);
    var s' := After(s1, run);
    forall i | |s1.sent| <= i < |s'.sent| ensures s'.sent[i] >= s.enqueued || s'.sent[i] in s.queue {
      assert s'.sent[i] == s'.sent[|s1.sent|..][i - |s1.sent|];
    }
  }

  /** How many batches the writer can still take when the stream is closed. */
  function BatchesLeft(w: Writer): nat {
    if w == Ready || w == Asleep || w == Granted then 1 else 0
  }

  lemma {:induction false} ClosedRun(s: State, run: seq<Action>)
    requires !s.connected && !s.half && IsRun(s, run) && forall i :: 0 <= i < |run| ==> !run[i].Connect? && !run[i].StartRead?
    ensures var s' := After(s, run);
            && !s'.connected && !s'.half
            && Count(s, run, (x: State, a: Action) => if a.Swap? then 1 else 0) + BatchesLeft(s'.writer) <= BatchesLeft(s.writer)
    decreases |run|
  {
    if run != [] {
      assert forall i :: 0 <= i < |run[1..]| ==> run[1..][i] == run[i + 1];
      ClosedRun(Apply(s, run[0]), run[1..]);
    }
  }

  /**
    Whoever closes the stream, the writer takes at most one more batch afterwards, until a start connects
    the stream again; and none if it was not about to wait, waiting or woken.
   */
  lemma CloseStopsWriter(s: State, a: Action, run: seq<Action>)
    requires Enabled(s, a) && (ClosesInner(a) || a.PublicClose?) && !s.half
    requires IsRun(Apply(s, a), run) && forall i :: 0 <= i < |run| ==> !run[i].Connect? && !run[i].StartRead?
    ensures !After(Apply(s, a), run).connected
    ensures Count(Apply(s, a), run, (x: State, b: Action) => if b.Swap? then 1 else 0) <= BatchesLeft(s.writer)
  {
    ClosedRun(Apply(s, a), run);
  }

  /** When both loops have ended the stream can be started again, and the writer is live. */
  lemma CanRestart(s: State)
    requires Inv(s) && s.writer == Absent && !s.reader && !s.half
    ensures var run := [Connect, StartRead, StartWrite];
            IsRun(s, run) && Live(After(s, run)) && After(s, run).reader && After(s, run).queue == s.queue
  {
    var s1 := Apply(s, Connect);
    var s2 := Apply(s1, StartRead);
    assert [StartWrite][1..] == [] && [StartRead, StartWrite][1..] == [StartWrite];
    assert [Connect, StartRead, StartWrite][1..] == [StartRead, StartWrite];
    assert After(s2, [StartWrite]) == Apply(s2, StartWrite);
    assert After(s1, [StartRead, StartWrite]) == Apply(s2, StartWrite);
  }

  // ---------------------------------------------------------------- runs without failures

  /** The messages 0 to n - 1. */
  function Upto(n: nat): (r: seq<Message>)
    ensures |r| == n
  {
    seq(n, i => i)
  }

  predicate Benign(a: Action) {
    a != Send(Refused) && a != Send(Threw) && !a.Close? && !a.Exit? && !a.CloseClear? && !a.WriterCloses?
  }

  ghost predicate BenignRun(s: State, run: seq<Action>)
    decreases |run|
  {
    run == [] || (Enabled(s, run[0]) && Benign(run[0]) && BenignRun(Apply(s, run[0]), run[1..]))
  }

  lemma BenignStep(s: State, a: Action)
    requires Enabled(s, a) && Benign(a) && InOrder(s) == Upto(s.enqueued)
    ensures InOrder(Apply(s, a)) == Upto(Apply(s, a).enqueued)
  {
    var batch := if s.writer.Sending? then s.writer.batch else [];
    match a
    case Enqueue => OneMore(s.sent + batch, s.queue, s.enqueued);
    case Swap => assert s.sent + s.queue + [] == s.sent + [] + s.queue;
    case Send(_) => assert s.sent + [batch[0]] + batch[1..] + s.queue == InOrder(s);
    case _ =>
  }

  lemma OneMore(x: seq<Message>, queue: seq<Message>, n: nat)
    requires x + queue == Upto(n)
    ensures x + (queue + [n]) == Upto(n + 1)
  {
    assert x + (queue + [n]) == (x + queue) + [n];
  }

  /** Without failures every message is sent, in the batch, or in the queue: exactly once, in enqueue order. */
  lemma {:induction false} ExactlyOnce(s: State, run: seq<Action>)
    requires InOrder(s) == Upto(s.enqueued) && BenignRun(s, run)
    ensures IsRun(s, run) && InOrder(After(s, run)) == Upto(After(s, run).enqueued)
    decreases |run|
  {
    if run != [] {
      BenignStep(s, run[0]);
      ExactlyOnce(Apply(s, run[0]), run[1..]);
    }
  }

  // ---------------------------------------------------------------- everything enqueued can go out

  predicate Live(s: State) {
    s.connected && (s.writer.Top? || s.writer.Ready? || s.writer.Asleep? || s.writer.Granted? || s.writer.Sending?)
  }

  function Stage(w: Writer): nat {
    match w
    case Sending(_) => 4
    case Top => 3
    case Ready => 2
    case Asleep => 1
    case _ => 0
  }

  function BatchLeft(w: Writer): nat {
    if w.Sending? then |w.batch| else 0
  }

  /** The step that moves a waiting message on: of the writer, or of an enqueuer that owes a notify. */
  function Progress(s: State): Action {
    match s.writer
    case Sending(batch) => if batch == [] then EndBatch else Send(Sent)
    case Top => Test
    case Ready => Wait
    case Granted => Swap
    case _ => NotifyOwed
  }

  /** A step of the writer that is not a failure, or a notify that is owed. */
  predicate Drains(a: Action) {
    a.NotifyOwed? || a.Test? || a.Wait? || a.Swap? || a == Send(Sent) || a.EndBatch?
  }

  /**
    No message is stuck: while the writer is live, its own steps and the notifies that are owed
    suffice to send, in order, everything that has been enqueued.
   */
  lemma {:induction false} CanDrain(s: State)
    returns (run: seq<Action>)
    requires Inv(s) && Live(s)
    ensures BenignRun(s, run) && IsRun(s, run) && forall i :: 0 <= i < |run| ==> Drains(run[i])
    ensures After(s, run).sent == InOrder(s) && After(s, run).queue == [] && BatchLeft(After(s, run).writer) == 0
    decreases |s.queue|, BatchLeft(s.writer), Stage(s.writer)
  {
    if s.queue == [] && BatchLeft(s.writer) == 0 {
      run := [];
      assert s.sent + [] + [] == s.sent;
    } else {
      var a := Progress(s);
      StepKeeps(s, a);
      ProgressKeeps(s);
      var rest := CanDrain(Apply(s, a));
      run := [a] + rest;
      assert run[1..] == rest;
    }
  }

  lemma ProgressKeeps(s: State)
    requires Inv(s) && Live(s) && (s.queue != [] || BatchLeft(s.writer) > 0)
    ensures Enabled(s, Progress(s)) && Benign(Progress(s)) && Live(Apply(s, Progress(s)))
    ensures InOrder(Apply(s, Progress(s))) == InOrder(s)
  {
    var batch := if s.writer.Sending? then s.writer.batch else [];
    if s.writer == Granted {
      assert s.sent + s.queue + [] == s.sent + [] + s.queue;
    } else if batch != [] {
      assert s.sent + [batch[0]] + batch[1..] + s.queue == InOrder(s);
    }
  }
}
