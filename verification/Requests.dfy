/**
  Requests over an asynchronous stream (rock/rock_stream.cc, streams/async_socket_stream.cc) as a
  step system.

  The requesting fiber registers a context under the request's number, arms a timer and suspends.
  The reader, the timer's callback and a close race to complete it.  Each of them is a sequence of
  steps, interleaved freely with the others; doRsp, which takes no lock, is one step.
 */
module Requests {
  import opened Common

  type CtxId = nat            // identity of a context object
  type Sn = nat               // request number

  /** Where the requesting fiber is. */
  datatype Pc = Created | Added | TimerMade | TimerStored | Queued | Suspended | Resumed

  /** addTimer has returned. */
  predicate HasTimer(pc: Pc) { pc != Created && pc != Added }

  /** request() has stored the timer in the context. */
  predicate HasStored(pc: Pc) { HasTimer(pc) && pc != TimerMade }

  /** The timer in the timer manager: armed until it expires or is cancelled. */
  datatype Timer = NoTimer | Armed | Disarmed

  /** How far the timeout callback has got, once the timer has expired. */
  datatype Timeout = NotExpired | Expired | Erased | Marked | Completed

  /** What the holder of a context has written into it. */
  datatype Written = Nothing | Result | Everything

  /** Who has taken the context out of the table. */
  datatype Holder = Nobody | Reader(written: Written) | Closer(written: Written)

  /** The result code; Reply(v) is that of reply v. */
  datatype Outcome = Unset | TimedOut | IoError | Reply(value: nat)

  datatype Ctx = Ctx(
    sn: Sn, pc: Pc,
    fiber: bool,              // the fiber pointer is still there
    stored: bool,             // the timer pointer is there
    timed: bool,
    result: Outcome,
    response: Option<nat>,
    timer: Timer, timeout: Timeout, holder: Holder,
    wakes: nat,               // how often the fiber was scheduled
    early: bool,              // it was scheduled before request() had stored the timer
    given: Option<nat>,       // the reply the reader took it for
    code: Option<Outcome>, answer: Option<Option<nat>>)   // what request() has read to return it

  datatype State = State(ctxs: map<CtxId, Ctx>, table: map<Sn, CtxId>, replies: set<(Sn, nat)>)

  datatype Action =
    | Begin(c: CtxId, sn: Sn)
    | AddCtx(c: CtxId)
    | AddTimer(c: CtxId)
    | StoreTimer(c: CtxId)
    | Enqueue(c: CtxId)
    | Yield(c: CtxId)
    | Resume(c: CtxId)
    | ReadResult(c: CtxId)
    | ReadResponse(c: CtxId)
    | Expire(c: CtxId)
    | TimeoutErase(c: CtxId)
    | TimeoutMark(c: CtxId)
    | TimeoutRsp(c: CtxId)
    | RecvTake(rspSn: Sn, reply: nat)
    | HolderWrite(c: CtxId)
    | HolderRsp(c: CtxId)
    | CloseSwap

  predicate At(s: State, c: CtxId, pc: Pc) {
    c in s.ctxs && s.ctxs[c].pc == pc
  }

  /** The context is where the action takes it up. */
  predicate Ready(x: Ctx, a: Action) {
    match a
    case AddCtx(_) => x.pc == Created
    case AddTimer(_) => x.pc == Added
    case StoreTimer(_) => x.pc == TimerMade
    case Enqueue(_) => x.pc == TimerStored
    case Yield(_) => x.pc == Queued
    case Resume(_) => x.pc == Suspended && x.wakes > 0
    case ReadResult(_) => x.pc == Resumed && x.code == None
    case ReadResponse(_) => x.pc == Resumed && x.answer == None
    case Expire(_) => x.timer == Armed
    case TimeoutErase(_) => x.timeout == Expired
    case TimeoutMark(_) => x.timeout == Erased
    case TimeoutRsp(_) => x.timeout == Marked
    case HolderWrite(_) => !x.holder.Nobody? && x.holder.written != Everything
    case HolderRsp(_) => !x.holder.Nobody? && x.holder.written == Everything
    case _ => false
  }

  predicate Enabled(s: State, a: Action) {
    match a
    case Begin(c, _) => c !in s.ctxs
    case RecvTake(_, _) => true
    case CloseSwap => true
    case _ => a.c in s.ctxs && Ready(s.ctxs[a.c], a)
  }

  /** Ctx::doRsp: cancels the timer and schedules the fiber, unless that has been done. */
  function DoRsp(x: Ctx): Ctx {
    if !x.fiber then x
    else x.(timer := if x.stored && x.timer == Armed then Disarmed else x.timer,
            stored := false,
            result := if x.timed then TimedOut else x.result,
            fiber := false, wakes := x.wakes + 1, early := !HasStored(x.pc))
  }

  function Put(s: State, c: CtxId, x: Ctx): State {
    s.(ctxs := s.ctxs[c := x])
  }

  function NewCtx(sn: Sn): Ctx {
    Ctx(sn, Created, true, false, false, Unset, None, NoTimer, NotExpired, Nobody, 0, false, None, None, None)
  }

  /** What the holder of the context writes into it next: the reader writes the result and then the response. */
  function WriteNext(x: Ctx): Ctx {
    match x.holder
    case Reader(Nothing) => x.(result := if x.given.Some? then Reply(x.given.value) else Unset, holder := Reader(Result))
    case Reader(_) => x.(response := x.given, holder := Reader(Everything))
    case Closer(_) => x.(result := IoError, holder := Closer(Everything))
    case Nobody => x
  }

  /** What the action makes of its context. */
  function Changed(x: Ctx, a: Action): Ctx {
    match a
    case AddCtx(_) => x.(pc := Added)
    case AddTimer(_) => x.(pc := TimerMade, timer := Armed)
    case StoreTimer(_) => x.(pc := TimerStored, stored := true)
    case Enqueue(_) => x.(pc := Queued)
    case Yield(_) => x.(pc := Suspended)
    case Resume(_) => x.(pc := Resumed)
    case ReadResult(_) => x.(code := Some(x.result))
    case ReadResponse(_) => x.(answer := Some(x.response))
    case Expire(_) => x.(timer := Disarmed, timeout := Expired)
    case TimeoutErase(_) => x.(timeout := Erased)
    case TimeoutMark(_) => x.(timeout := Marked, timed := true)
    case TimeoutRsp(_) => DoRsp(x).(timeout := Completed)
    case HolderWrite(_) => WriteNext(x)
    case HolderRsp(_) => DoRsp(x).(holder := Nobody)
    case _ => x
  }

  /** And of the table. */
  function TableAfter(s: State, a: Action): map<Sn, CtxId>
    requires Enabled(s, a)
  {
    match a
    case AddCtx(c) => if s.ctxs[c].sn in s.table then s.table else s.table[s.ctxs[c].sn := c]   // insert does not overwrite
    case TimeoutErase(c) => s.table - {s.ctxs[c].sn}
    case RecvTake(sn, _) => if sn in s.table && s.table[sn] in s.ctxs then s.table - {sn} else s.table
    case CloseSwap => map[]
    case _ => s.table
  }

  function Taken(x: Ctx, reply: nat): Ctx {
    x.(holder := Reader(Nothing), given := Some(reply))
  }

  function Apply(s: State, a: Action): State
    requires Enabled(s, a)
  {
    var table := TableAfter(s, a);
    match a
    case Begin(c, sn) => Put(s, c, NewCtx(sn))
    case RecvTake(sn, reply) =>
      var s1 := s.(table := table, replies := s.replies + {(sn, reply)});
      if sn in s.table && s.table[sn] in s.ctxs then Put(s1, s.table[sn], Taken(s.ctxs[s.table[sn]], reply)) else s1
    case CloseSwap =>
      s.(ctxs := map c | c in s.ctxs :: if InTable(s, c) then s.ctxs[c].(holder := Closer(Nothing)) else s.ctxs[c], table := table)
    case _ => Put(s, a.c, Changed(s.ctxs[a.c], a)).(table := table)
  }

  predicate InTable(s: State, c: CtxId) {
    c in s.ctxs && s.ctxs[c].sn in s.table && s.table[s.ctxs[c].sn] == c
  }

  // ---------------------------------------------------------------- invariant

  /** The timeout callback is still to complete the request. */
  predicate TimeoutPending(x: Ctx) {
    x.timeout == Expired || x.timeout == Erased || x.timeout == Marked
  }

  /** The life of the fiber and of the timer. */
  predicate CtxOk(x: Ctx) {
    && x.wakes == (if x.fiber then 0 else 1)
    && (!HasTimer(x.pc) <==> x.timer == NoTimer)
    && (x.stored ==> HasStored(x.pc))
    && (x.fiber && HasStored(x.pc) ==> x.stored)
    && (x.pc == Created ==> x.fiber && Untouched(x))
    && (x.timer == Armed || x.timer == NoTimer ==> x.timeout == NotExpired)
    && (x.fiber && HasTimer(x.pc) ==> x.timer == Armed || TimeoutPending(x))
    && (x.timed <==> x.timeout == Marked || x.timeout == Completed)
    && (x.timeout == Completed ==> !x.fiber)
    && (x.pc == Resumed ==> !x.fiber)
    && (!x.fiber && (x.timer == Armed || !HasStored(x.pc)) ==> x.early)
    && (x.early ==> !x.fiber && (x.timer == Disarmed ==> x.timeout != NotExpired))
  }

  /** Nobody has taken it, and nothing has been written. */
  predicate Untouched(x: Ctx) {
    x.holder.Nobody? && x.given == None && x.result == Unset && x.response == None
  }

  /** The result and the response of the reply it was taken for, or those of a close. */
  predicate Settled(x: Ctx) {
    x.result == (if x.given.Some? then Reply(x.given.value) else IoError) && x.response == x.given
  }

  /** A result code, in the context or read from it. */
  predicate OutcomeOk(x: Ctx, o: Outcome) {
    && (o.Reply? ==> x.given == Some(o.value))
    && (o == IoError ==> x.given == None)
    && (o == TimedOut ==> x.timed && !x.fiber)
  }

  /** What has been written into it, and what request() has read. */
  predicate ResultOk(x: Ctx) {
    && OutcomeOk(x, x.result) && (x.response.Some? ==> x.response == x.given)
    && (!x.fiber ==> x.result != Unset)
    && (x.holder.Reader? ==> x.given.Some? && (x.holder.written != Nothing ==> x.result != Unset))
    && (x.holder.Closer? ==> x.given == None && (x.holder.written != Nothing ==> x.result != Unset))
    && (!x.timed ==> UntimedOk(x))
    && (x.code.Some? ==> !x.fiber && x.code.value != Unset && OutcomeOk(x, x.code.value))
    && (x.answer.Some? ==> !x.fiber && (x.answer.value.Some? ==> x.answer.value == x.given))
  }

  /** As long as the timeout has not marked the context, its holder alone completes it. */
  predicate UntimedOk(x: Ctx) {
    && (!x.fiber ==> x.holder.Nobody? && Settled(x))
    && (!x.holder.Nobody? && x.holder.written == Everything ==> Settled(x))
    && (x.holder == Reader(Result) && x.given.Some? ==> x.result == Reply(x.given.value))
    && (x.code.Some? ==> x.code.value == x.result)
    && (x.answer.Some? ==> x.answer.value == x.response)
  }

  /** A context in the table has been completed by nobody. */
  predicate ListedOk(x: Ctx) {
    x.pc != Created && x.fiber && Untouched(x) && (x.timeout == NotExpired || x.timeout == Expired)
  }

  predicate GivenOk(x: Ctx, replies: set<(Sn, nat)>) {
    x.given.Some? ==> (x.sn, x.given.value) in replies
  }

  ghost predicate Inv(s: State) {
    && (forall c :: c in s.ctxs ==> CtxOk(s.ctxs[c]) && ResultOk(s.ctxs[c]) && GivenOk(s.ctxs[c], s.replies))
    && (forall c :: InTable(s, c) ==> ListedOk(s.ctxs[c]))
    && (forall sn :: sn in s.table ==> s.table[sn] in s.ctxs && s.ctxs[s.table[sn]].sn == sn)
  }

  /** A step that changes one context, and the table for that context's number at most. */
  lemma PutKeeps(s: State, s': State, c: CtxId)
    requires Inv(s) && c in s'.ctxs && s'.ctxs == s.ctxs[c := s'.ctxs[c]] && s.replies <= s'.replies
    requires c in s.ctxs ==> s'.ctxs[c].sn == s.ctxs[c].sn
    requires forall sn :: sn in s'.table ==>
               (sn in s.table && s'.table[sn] == s.table[sn]) || (s'.table[sn] == c && s'.ctxs[c].sn == sn)
    requires CtxOk(s'.ctxs[c]) && ResultOk(s'.ctxs[c]) && GivenOk(s'.ctxs[c], s'.replies)
    requires InTable(s', c) ==> ListedOk(s'.ctxs[c])
    ensures Inv(s')
  {
    forall d | InTable(s', d) ensures ListedOk(s'.ctxs[d]) {
      if d != c { assert InTable(s, d); }
    }
  }

  predicate ChangedOk(x: Ctx, a: Action) {
    var y := Changed(x, a);
    CtxOk(y) && ResultOk(y) && y.sn == x.sn && y.given == x.given
  }

  predicate OfHolder(a: Action) { a.HolderWrite? || a.HolderRsp? }

  predicate OfTimeout(a: Action) { a.Expire? || a.TimeoutErase? || a.TimeoutMark? || a.TimeoutRsp? }

  lemma EntryOk(x: Ctx, a: Action)
    requires CtxOk(x) && ResultOk(x) && Ready(x, a) && (a.AddCtx? || a.AddTimer? || a.StoreTimer?)
    ensures ChangedOk(x, a)
  {
  }

  lemma WaitingLife(x: Ctx, a: Action)
    requires CtxOk(x) && Ready(x, a) && (a.Enqueue? || a.Yield? || a.Resume?)
    ensures CtxOk(Changed(x, a)) && Changed(x, a) == x.(pc := Changed(x, a).pc)
  {
  }

  lemma WaitingResult(x: Ctx, pc: Pc)
    requires ResultOk(x)
    ensures ResultOk(x.(pc := pc))
  {
  }

  lemma ReturnOk(x: Ctx, a: Action)
    requires CtxOk(x) && ResultOk(x) && Ready(x, a) && (a.ReadResult? || a.ReadResponse?)
    ensures ChangedOk(x, a)
  {
  }

  lemma TimeoutLife(x: Ctx, a: Action)
    requires CtxOk(x) && ResultOk(x) && Ready(x, a) && OfTimeout(a)
    ensures CtxOk(Changed(x, a)) && Changed(x, a).sn == x.sn && Changed(x, a).given == x.given
  {
  }

  lemma TimeoutResult(x: Ctx, a: Action)
    requires CtxOk(x) && ResultOk(x) && Ready(x, a) && OfTimeout(a)
    ensures ResultOk(Changed(x, a))
  {
  }

  lemma HolderLife(x: Ctx, a: Action)
    requires CtxOk(x) && ResultOk(x) && Ready(x, a) && OfHolder(a)
    ensures CtxOk(Changed(x, a)) && Changed(x, a).sn == x.sn && Changed(x, a).given == x.given
  {
  }

  lemma HolderResult(x: Ctx, a: Action)
    requires CtxOk(x) && ResultOk(x) && Ready(x, a) && OfHolder(a)
    ensures ResultOk(Changed(x, a))
  {
  }

  lemma ChangeIsOk(x: Ctx, a: Action)
    requires CtxOk(x) && ResultOk(x) && Ready(x, a)
    ensures ChangedOk(x, a)
  {
    if OfHolder(a) {
      HolderLife(x, a);
      HolderResult(x, a);
    } else if OfTimeout(a) {
      TimeoutLife(x, a);
      TimeoutResult(x, a);
    } else if a.ReadResult? || a.ReadResponse? {
      ReturnOk(x, a);
    } else if a.Enqueue? || a.Yield? || a.Resume? {
      WaitingLife(x, a);
      WaitingResult(x, Changed(x, a).pc);
    } else {
      EntryOk(x, a);
    }
  }

  /** A context that stays in the table is not touched. */
  lemma ChangedListed(x: Ctx, a: Action)
    requires CtxOk(x) && Ready(x, a) && (ListedOk(x) || a.AddCtx?) && !a.TimeoutErase?
    ensures ListedOk(Changed(x, a))
  {
  }

  lemma EntryKeeps(s: State, c: CtxId, sn: Sn)
    requires Inv(s) && Enabled(s, Begin(c, sn))
    ensures Inv(Apply(s, Begin(c, sn)))
  {
    assert !InTable(Apply(s, Begin(c, sn)), c);
    PutKeeps(s, Apply(s, Begin(c, sn)), c);
  }

  lemma ChangeKeeps(s: State, a: Action)
    requires Inv(s) && Enabled(s, a) && !a.Begin? && !a.RecvTake? && !a.CloseSwap?
    ensures Inv(Apply(s, a))
  {
    var s', x := Apply(s, a), s.ctxs[a.c];
    ChangeIsOk(x, a);
    if InTable(s', a.c) {
      assert InTable(s, a.c) || a.AddCtx?;
      ChangedListed(x, a);
    }
    PutKeeps(s, s', a.c);
  }

  lemma RecvKeeps(s: State, a: Action)
    requires Inv(s) && a.RecvTake?
    ensures Inv(Apply(s, a))
  {
    if a.rspSn in s.table {
      assert InTable(s, s.table[a.rspSn]);
      PutKeeps(s, Apply(s, a), s.table[a.rspSn]);
    } else {
      assert forall c :: InTable(Apply(s, a), c) ==> InTable(s, c);
    }
  }

  lemma CloseKeeps(s: State)
    requires Inv(s)
    ensures Inv(Apply(s, CloseSwap))
  {
    var s' := Apply(s, CloseSwap);
    forall c | c in s'.ctxs ensures CtxOk(s'.ctxs[c]) && ResultOk(s'.ctxs[c]) && GivenOk(s'.ctxs[c], s'.replies) && s'.ctxs[c].sn == s.ctxs[c].sn {
      assert InTable(s, c) ==> ListedOk(s.ctxs[c]);
    }
  }

  lemma StepKeeps(s: State, a: Action)
    requires Inv(s) && Enabled(s, a)
    ensures Inv(Apply(s, a))
  {
    if a.CloseSwap? {
      CloseKeeps(s);
    } else if a.RecvTake? {
      RecvKeeps(s, a);
    } else if a.Begin? {
      EntryKeeps(s, a.c, a.sn);
    } else {
      ChangeKeeps(s, a);
    }
  }

  // ---------------------------------------------------------------- runs

  const INITIAL: State := State(map[], map[], {})

  ghost predicate IsRun(s: State, run: seq<Action>)
    decreases |run|
  {
    run == [] || (Enabled(s, run[0]) && IsRun(Apply(s, run[0]), run[1..]))
  }

  ghost function After(s: State, run: seq<Action>): State
    requires IsRun(s, run)
    decreases |run|
  {
    if run == [] then s else After(Apply(s, run[0]), run[1..])
  }

  lemma {:induction false} RunKeeps(s: State, run: seq<Action>)
    requires Inv(s) && IsRun(s, run)
    ensures Inv(After(s, run))
    decreases |run|
  {
    if run != [] {
      StepKeeps(s, run[0]);
      RunKeeps(Apply(s, run[0]), run[1..]);
    }
  }

  /**
    In every interleaving of replies, timeouts and closes, even with numbers used twice:
    a request's fiber is scheduled at most once; a request that has been resumed is no longer in the
    table; and one that has not been, once its timer exists, still has the timer armed or the timeout
    callback on its way.
   */
  lemma ResumedAtMostOnce(run: seq<Action>, c: CtxId)
    requires IsRun(INITIAL, run) && c in After(INITIAL, run).ctxs
    ensures var s := After(INITIAL, run); var x := s.ctxs[c];
            && x.wakes <= 1
            && (x.wakes == 1 ==> !InTable(s, c))
            && (x.wakes == 0 && HasTimer(x.pc) ==> x.timer == Armed || TimeoutPending(x))
  {
    RunKeeps(INITIAL, run);
  }

  /**
    What request() returns is its own: a response is a reply to its number; a reply's result comes with no
    other reply's response, and a close's result with none at all.  Unless the timeout has marked the
    context, result and response are those of one reply, or an I/O error without a response.
   */
  lemma OutcomeIsOwn(run: seq<Action>, c: CtxId)
    requires IsRun(INITIAL, run) && c in After(INITIAL, run).ctxs
    requires After(INITIAL, run).ctxs[c].code.Some? && After(INITIAL, run).ctxs[c].answer.Some?
    ensures var s := After(INITIAL, run); var x := s.ctxs[c]; var code, answer := x.code.value, x.answer.value;
            && (answer.Some? ==> (x.sn, answer.value) in s.replies)
            && match code
               case Unset => false
               case TimedOut => x.timed
               case IoError => answer == None
               case Reply(v) => (x.sn, v) in s.replies && (answer == Some(v) || (answer == None && x.timed))
  {
    RunKeeps(INITIAL, run);
  }

  /**
    A resumed request whose timer has been made and has not expired has left that timer armed if and
    only if it was completed before request() had stored the timer.
   */
  lemma TimerLeftIff(run: seq<Action>, c: CtxId)
    requires IsRun(INITIAL, run) && c in After(INITIAL, run).ctxs
    ensures var x := After(INITIAL, run).ctxs[c];
            && (x.wakes == 1 && HasTimer(x.pc) && x.timeout == NotExpired ==> (x.timer == Armed <==> x.early))
            && (x.wakes == 1 && !x.early ==> x.timer == Disarmed)
  {
    RunKeeps(INITIAL, run);
  }

  lemma {:induction false} Extend(s: State, run: seq<Action>, a: Action) returns (run': seq<Action>)
    requires IsRun(s, run) && Enabled(After(s, run), a)
    ensures run' == run + [a] && IsRun(s, run') && After(s, run') == Apply(After(s, run), a)
    decreases |run|
  {
    run' := run + [a];
    if run != [] {
      var rest := Extend(Apply(s, run[0]), run[1..], a);
      assert run'[1..] == rest;
    } else {
      assert run'[1..] == [];
    }
  }

  /** One request c, taken by the reader. */
  function OnlyTaken(c: CtxId, x: Ctx, v: nat): State {
    State(map[c := x], map[], {(x.sn, v)})
  }

  /** Request number sn, with the fiber suspended and the context taken by the reader for reply v. */
  function WaitingAndTaken(sn: Sn, v: nat): Ctx {
    Taken(NewCtx(sn).(pc := Suspended, stored := true, timer := Armed), v)
  }

  /** A step of the only request there is. */
  lemma ExtendOnly(run: seq<Action>, c: CtxId, x: Ctx, v: nat, a: Action) returns (run': seq<Action>)
    requires IsRun(INITIAL, run) && After(INITIAL, run) == OnlyTaken(c, x, v)
    requires !a.Begin? && !a.RecvTake? && !a.CloseSwap? && !a.AddCtx? && a.c == c && Ready(x, a) && Changed(x, a).sn == x.sn
    ensures IsRun(INITIAL, run') && After(INITIAL, run') == OnlyTaken(c, Changed(x, a), v)
  {
    run' := Extend(INITIAL, run, a);
    var s := OnlyTaken(c, x, v);
    assert TableAfter(s, a) == map[] && s.ctxs[c := Changed(x, a)] == map[c := Changed(x, a)];
  }

  lemma EnterAlone(c: CtxId, sn: Sn) returns (run: seq<Action>)
    ensures IsRun(INITIAL, run)
    ensures After(INITIAL, run) == State(map[c := NewCtx(sn).(pc := Added)], map[sn := c], {})
  {
    run := Extend(INITIAL, [], Begin(c, sn));
    assert After(INITIAL, run) == State(map[c := NewCtx(sn)], map[], {});
    run := Extend(INITIAL, run, AddCtx(c));
    assert After(INITIAL, run).ctxs == map[c := NewCtx(sn).(pc := Added)];
  }

  lemma TakeAlone(c: CtxId, sn: Sn, v: nat) returns (run: seq<Action>)
    ensures IsRun(INITIAL, run) && After(INITIAL, run) == OnlyTaken(c, WaitingAndTaken(sn, v), v)
  {
    run := EnterAlone(c, sn);
    var x := Taken(NewCtx(sn).(pc := Added), v);
    run := Extend(INITIAL, run, RecvTake(sn, v));
    assert After(INITIAL, run) == OnlyTaken(c, x, v);
    run := ExtendOnly(run, c, x, v, AddTimer(c));
    x := x.(pc := TimerMade, timer := Armed);
    run := ExtendOnly(run, c, x, v, StoreTimer(c));
    x := x.(pc := TimerStored, stored := true);
    run := ExtendOnly(run, c, x, v, Enqueue(c));
    x := x.(pc := Queued);
    run := ExtendOnly(run, c, x, v, Yield(c));
  }

  /** The timeout callback runs to its end, and the fiber is resumed. */
  lemma TimeOutAlone(run: seq<Action>, c: CtxId, x: Ctx, v: nat) returns (run': seq<Action>)
    requires IsRun(INITIAL, run) && After(INITIAL, run) == OnlyTaken(c, x, v)
    requires x.fiber && x.wakes == 0 && x.pc == Suspended && x.stored && x.timer == Armed && !x.timed
    ensures IsRun(INITIAL, run')
    ensures After(INITIAL, run') == OnlyTaken(c, x.(pc := Resumed, fiber := false, wakes := 1, stored := false, early := false,
                                                     timer := Disarmed, timeout := Completed, timed := true, result := TimedOut), v)
  {
    run' := ExtendOnly(run, c, x, v, Expire(c));
    var y := x.(timer := Disarmed, timeout := Expired);
    run' := ExtendOnly(run', c, y, v, TimeoutErase(c));
    y := y.(timeout := Erased);
    run' := ExtendOnly(run', c, y, v, TimeoutMark(c));
    y := y.(timeout := Marked, timed := true);
    run' := ExtendOnly(run', c, y, v, TimeoutRsp(c));
    y := y.(fiber := false, wakes := 1, stored := false, early := false, timeout := Completed, result := TimedOut);
    run' := ExtendOnly(run', c, y, v, Resume(c));
  }

  lemma ReturnAlone(run: seq<Action>, c: CtxId, x: Ctx, v: nat) returns (run': seq<Action>)
    requires IsRun(INITIAL, run) && After(INITIAL, run) == OnlyTaken(c, x, v) && x.pc == Resumed && x.code == None && x.answer == None
    ensures IsRun(INITIAL, run')
    ensures After(INITIAL, run') == OnlyTaken(c, x.(code := Some(x.result), answer := Some(x.response)), v)
  {
    run' := ExtendOnly(run, c, x, v, ReadResult(c));
    run' := ExtendOnly(run', c, x.(code := Some(x.result)), v, ReadResponse(c));
  }

  /** request() has returned this result and this response. */
  ghost predicate Returns(s: State, c: CtxId, result: Outcome, response: Option<nat>) {
    c in s.ctxs && s.ctxs[c].code == Some(result) && s.ctxs[c].answer == Some(response)
  }

  /** The reader has written everything when the timeout completes the request: a timeout is returned with a response. */
  lemma TimeoutWithResponse(c: CtxId, sn: Sn, v: nat) returns (run: seq<Action>)
    ensures IsRun(INITIAL, run) && Returns(After(INITIAL, run), c, TimedOut, Some(v))
  {
    run := TakeAlone(c, sn, v);
    var x := WaitingAndTaken(sn, v);
    run := ExtendOnly(run, c, x, v, HolderWrite(c));
    x := x.(result := Reply(v), holder := Reader(Result));
    run := ExtendOnly(run, c, x, v, HolderWrite(c));
    x := x.(response := Some(v), holder := Reader(Everything));
    run := TimeOutAlone(run, c, x, v);
    run := ReturnAlone(run, c, After(INITIAL, run).ctxs[c], v);
  }

  /** The timeout completes the request first, and the reader has written only the result when request() reads it. */
  lemma ReplyWithoutResponse(c: CtxId, sn: Sn, v: nat) returns (run: seq<Action>)
    ensures IsRun(INITIAL, run) && Returns(After(INITIAL, run), c, Reply(v), None)
  {
    run := TakeAlone(c, sn, v);
    var x := WaitingAndTaken(sn, v);
    run := TimeOutAlone(run, c, x, v);
    x := After(INITIAL, run).ctxs[c];
    run := ExtendOnly(run, c, x, v, HolderWrite(c));
    run := ReturnAlone(run, c, x.(result := Reply(v), holder := Reader(Result)), v);
  }

  /** A request that was resumed early: its timer is armed and nobody will cancel it. */
  function LeftOver(sn: Sn): Ctx {
    Ctx(sn, TimerMade, false, false, false, IoError, None, Armed, NotExpired, Nobody, 1, true, None, None, None)
  }

  lemma EnterAndClose(c: CtxId, sn: Sn) returns (run: seq<Action>)
    ensures IsRun(INITIAL, run)
    ensures After(INITIAL, run) == State(map[c := NewCtx(sn).(pc := Added, holder := Closer(Nothing))], map[], {})
  {
    run := EnterAlone(c, sn);
    run := Extend(INITIAL, run, CloseSwap);
    assert After(INITIAL, run).ctxs == map[c := NewCtx(sn).(pc := Added, holder := Closer(Nothing))];
  }

  /** That happens when a close comes between addCtx and addTimer. */
  lemma EarlyCloseLeavesTimer(c: CtxId, sn: Sn) returns (run: seq<Action>)
    ensures IsRun(INITIAL, run) && After(INITIAL, run) == State(map[c := LeftOver(sn)], map[], {})
  {
    run := EnterAndClose(c, sn);
    run := Extend(INITIAL, run, HolderWrite(c));
    run := Extend(INITIAL, run, HolderRsp(c));
    run := Extend(INITIAL, run, AddTimer(c));
    assert After(INITIAL, run).ctxs == map[c := LeftOver(sn)];
  }

  // ---------------------------------------------------------------- requests that get lost

  /** A request that has been entered and not resumed can be found, or somebody has taken it to complete it. */
  ghost predicate Reachable(s: State, c: CtxId)
    requires c in s.ctxs
  {
    var x := s.ctxs[c];
    x.pc != Created && x.fiber ==> InTable(s, c) || !x.holder.Nobody? || x.timeout == Erased || x.timeout == Marked
  }

  /** The step does not hide request d: its number is free when it is entered, and no other timeout erases that number. */
  predicate Spares(s: State, a: Action, d: CtxId)
    requires d in s.ctxs && Enabled(s, a)
  {
    && (a == AddCtx(d) ==> s.ctxs[d].sn !in s.table)
    && (a.TimeoutErase? && a.c != d && InTable(s, d) ==> s.ctxs[a.c].sn != s.ctxs[d].sn)
  }

  /** The step keeps the request reachable if and only if it spares it. */
  ghost predicate ReachableIfSpared(s: State, a: Action, d: CtxId)
    requires d in s.ctxs && Enabled(s, a)
  {
    d in Apply(s, a).ctxs && (Reachable(Apply(s, a), d) <==> Spares(s, a, d))
  }

  lemma ReachableStep(s: State, a: Action, d: CtxId)
    requires Inv(s) && Enabled(s, a) && d in s.ctxs && Reachable(s, d)
    ensures ReachableIfSpared(s, a, d)
  {
    if a.CloseSwap? {
      CloseStep(s, d);
    } else if a.RecvTake? {
      RecvStep(s, a, d);
    } else if a.AddCtx? {
      EnterStep(s, a, d);
    } else if a.TimeoutErase? {
      EraseStep(s, a, d);
    } else if a.Begin? || a.c != d {
      OtherStep(s, a, d);
    } else {
      OwnStep(s, a, d);
    }
  }

  lemma CloseStep(s: State, d: CtxId)
    requires Inv(s) && d in s.ctxs && Reachable(s, d)
    ensures ReachableIfSpared(s, CloseSwap, d)
  {
  }

  lemma RecvStep(s: State, a: Action, d: CtxId)
    requires Inv(s) && d in s.ctxs && Reachable(s, d) && a.RecvTake?
    ensures ReachableIfSpared(s, a, d)
  {
  }

  lemma EnterStep(s: State, a: Action, d: CtxId)
    requires Inv(s) && a.AddCtx? && Enabled(s, a) && d in s.ctxs && Reachable(s, d)
    ensures ReachableIfSpared(s, a, d)
  {
    if a.c == d && s.ctxs[d].sn in s.table { assert !InTable(s, d); }
  }

  lemma EraseStep(s: State, a: Action, d: CtxId)
    requires Inv(s) && a.TimeoutErase? && Enabled(s, a) && d in s.ctxs && Reachable(s, d)
    ensures ReachableIfSpared(s, a, d)
  {
  }

  lemma OtherStep(s: State, a: Action, d: CtxId)
    requires Inv(s) && Enabled(s, a) && d in s.ctxs && Reachable(s, d)
    requires !a.CloseSwap? && !a.RecvTake? && !a.AddCtx? && !a.TimeoutErase? && a.c != d
    ensures ReachableIfSpared(s, a, d)
  {
    assert Apply(s, a).table == s.table && Apply(s, a).ctxs[d] == s.ctxs[d];
  }

  lemma OwnStep(s: State, a: Action, d: CtxId)
    requires Inv(s) && Enabled(s, a) && d in s.ctxs && Reachable(s, d)
    requires !a.Begin? && !a.CloseSwap? && !a.RecvTake? && !a.AddCtx? && !a.TimeoutErase? && a.c == d
    ensures ReachableIfSpared(s, a, d)
  {
    ChangeReaches(s.ctxs[d], a);
    assert Apply(s, a).table == s.table && Apply(s, a).ctxs[d] == Changed(s.ctxs[d], a);
  }

  /** Whoever is completing a request goes on, or has resumed it. */
  lemma ChangeReaches(x: Ctx, a: Action)
    requires CtxOk(x) && Ready(x, a) && !a.AddCtx? && !a.TimeoutErase?
    ensures var y := Changed(x, a);
            && y.sn == x.sn && y.pc != Created && (y.fiber ==> x.fiber)
            && (y.fiber && (!x.holder.Nobody? || x.timeout == Erased || x.timeout == Marked) ==>
                  !y.holder.Nobody? || y.timeout == Erased || y.timeout == Marked)
  {
  }

  /** Request d is reachable in every state of the run. */
  ghost predicate StaysReachable(s: State, run: seq<Action>, d: CtxId)
    requires IsRun(s, run)
    decreases |run|
  {
    d in s.ctxs && Reachable(s, d) && (run == [] || StaysReachable(Apply(s, run[0]), run[1..], d))
  }

  /** Every step of the run spares it. */
  ghost predicate Spared(s: State, run: seq<Action>, d: CtxId)
    requires IsRun(s, run)
    decreases |run|
  {
    d in s.ctxs && (run == [] || (Spares(s, run[0], d) && Spared(Apply(s, run[0]), run[1..], d)))
  }

  /**
    A request can be found, or is being completed, at any time until it is resumed, if and only if its
    number is free when it is entered and no other request with its number takes its timeout's erase
    while it is in the table.
   */
  lemma {:induction false} ReachableIff(s: State, run: seq<Action>, d: CtxId)
    requires Inv(s) && IsRun(s, run) && d in s.ctxs && Reachable(s, d)
    ensures StaysReachable(s, run, d) <==> Spared(s, run, d)
    decreases |run|
  {
    if run != [] {
      StepKeeps(s, run[0]);
      ReachableStep(s, run[0], d);
      if Spares(s, run[0], d) {
        ReachableIff(Apply(s, run[0]), run[1..], d);
      } else {
        assert !StaysReachable(Apply(s, run[0]), run[1..], d);
      }
    }
  }

  /** Nobody has request d, and nobody will find it. */
  ghost predicate Lost(s: State, d: CtxId) {
    d in s.ctxs && s.ctxs[d].pc != Created && !InTable(s, d) && s.ctxs[d].holder.Nobody?
    && (s.ctxs[d].fiber || (s.ctxs[d].timeout == Completed && s.ctxs[d].result == TimedOut))
  }

  lemma LostStep(s: State, a: Action, d: CtxId)
    requires Inv(s) && Enabled(s, a) && Lost(s, d)
    ensures Lost(Apply(s, a), d)
  {
    if !a.CloseSwap? && !a.RecvTake? && a.c == d { LostChange(s, a, d); }
  }

  lemma LostChange(s: State, a: Action, d: CtxId)
    requires Inv(s) && Enabled(s, a) && Lost(s, d) && !a.CloseSwap? && !a.RecvTake? && a.c == d
    ensures Lost(Apply(s, a), d)
  {
    var x, y := s.ctxs[d], Changed(s.ctxs[d], a);
    LostAlone(x, a);
    assert Apply(s, a).ctxs[d] == y && forall sn :: sn in TableAfter(s, a) ==> sn in s.table && TableAfter(s, a)[sn] == s.table[sn];
  }

  /** Of a context nobody holds only its own timeout completes it. */
  lemma LostAlone(x: Ctx, a: Action)
    requires CtxOk(x) && Ready(x, a) && x.pc != Created && x.holder.Nobody?
    requires x.fiber || (x.timeout == Completed && x.result == TimedOut)
    ensures var y := Changed(x, a);
            && y.sn == x.sn && y.pc != Created && y.holder.Nobody?
            && (y.fiber || (y.timeout == Completed && y.result == TimedOut))
  {
  }

  /** A request that has become unreachable stays so in every run: no reply and no close finds it, only its own timeout resumes it. */
  lemma {:induction false} LostForever(s: State, run: seq<Action>, d: CtxId)
    requires Inv(s) && IsRun(s, run) && Lost(s, d)
    ensures Lost(After(s, run), d)
    decreases |run|
  {
    if run != [] {
      StepKeeps(s, run[0]);
      LostStep(s, run[0], d);
      LostForever(Apply(s, run[0]), run[1..], d);
    }
  }

  lemma UnreachableIsLost(s: State, run: seq<Action>, d: CtxId)
    requires Inv(s) && IsRun(s, run) && d in s.ctxs && !Reachable(s, d)
    ensures Lost(After(s, run), d)
  {
    LostForever(s, run, d);
  }

  /** The first way to get lost: a second request enters a number that is in use. */
  lemma SecondUseIsLost(s: State, d: CtxId, run: seq<Action>)
    requires Inv(s) && At(s, d, Created) && s.ctxs[d].sn in s.table && IsRun(Apply(s, AddCtx(d)), run)
    ensures Lost(After(Apply(s, AddCtx(d)), run), d)
  {
    StepKeeps(s, AddCtx(d));
    ReachableStep(s, AddCtx(d), d);
    UnreachableIsLost(Apply(s, AddCtx(d)), run, d);
  }

  /** From the start: two requests with one number. */
  lemma SecondUseRun(c: CtxId, d: CtxId, sn: Sn) returns (run: seq<Action>)
    requires c != d
    ensures IsRun(INITIAL, run) && InTable(After(INITIAL, run), c) && Lost(After(INITIAL, run), d)
    ensures forall later :: IsRun(After(INITIAL, run), later) ==> Lost(After(After(INITIAL, run), later), d)
  {
    run := EnterAlone(c, sn);
    run := Extend(INITIAL, run, Begin(d, sn));
    var s := After(INITIAL, run);
    assert s == State(map[c := NewCtx(sn).(pc := Added), d := NewCtx(sn)], map[sn := c], {});
    RunKeeps(INITIAL, run);
    run := Extend(INITIAL, run, AddCtx(d));
    RunKeeps(INITIAL, run);
    SecondUseIsLost(s, d, []);
    forall later | IsRun(Apply(s, AddCtx(d)), later) ensures Lost(After(Apply(s, AddCtx(d)), later), d) {
      SecondUseIsLost(s, d, later);
    }
  }

  /** The second: its number is free, but a timer left over from a resumed request with that number expires. */
  lemma LeftOverTimerLoses(c: CtxId, d: CtxId, sn: Sn) returns (before: seq<Action>, run: seq<Action>)
    requires c != d
    ensures IsRun(INITIAL, before) && At(After(INITIAL, before), d, Created) && After(INITIAL, before).table == map[]
    ensures run == before + [AddCtx(d), Expire(c), TimeoutErase(c)] && IsRun(INITIAL, run) && Lost(After(INITIAL, run), d)
  {
    before := EarlyCloseLeavesTimer(c, sn);
    before := Extend(INITIAL, before, Begin(d, sn));
    assert After(INITIAL, before) == State(map[c := LeftOver(sn), d := NewCtx(sn)], map[], {});
    run := Extend(INITIAL, before, AddCtx(d));
    assert After(INITIAL, run).table == map[sn := d];
    run := Extend(INITIAL, run, Expire(c));
    run := Extend(INITIAL, run, TimeoutErase(c));
  }

  // ---------------------------------------------------------------- unique numbers

  /** No number is used by two requests. */
  ghost predicate UniqueNumbers(s: State) {
    forall c, d :: c in s.ctxs && d in s.ctxs && s.ctxs[c].sn == s.ctxs[d].sn ==> c == d
  }

  ghost predicate AllReachable(s: State) {
    forall c :: c in s.ctxs ==> Reachable(s, c)
  }

  /** Unique numbers spare every request. */
  lemma UniqueSpares(s: State, a: Action, d: CtxId)
    requires Inv(s) && UniqueNumbers(s) && Enabled(s, a) && d in s.ctxs
    ensures Spares(s, a, d)
  {
    if a == AddCtx(d) && s.ctxs[d].sn in s.table { assert InTable(s, d); }
  }

  ghost predicate UniqueRun(s: State, run: seq<Action>)
    decreases |run|
  {
    UniqueNumbers(s) && (run == [] || (Enabled(s, run[0]) && UniqueRun(Apply(s, run[0]), run[1..])))
  }

  /** With unique numbers no request gets lost: until it is resumed a reply or a close will find it, or somebody is completing it. */
  lemma {:induction false} NoRequestLost(s: State, run: seq<Action>)
    requires Inv(s) && AllReachable(s) && UniqueRun(s, run)
    ensures IsRun(s, run) && AllReachable(After(s, run))
    decreases |run|
  {
    if run != [] {
      StepKeeps(s, run[0]);
      AllReachableStep(s, run[0]);
      NoRequestLost(Apply(s, run[0]), run[1..]);
    }
  }

  lemma AllReachableStep(s: State, a: Action)
    requires Inv(s) && AllReachable(s) && UniqueNumbers(s) && Enabled(s, a)
    ensures AllReachable(Apply(s, a))
  {
    forall d | d in s.ctxs ensures d in Apply(s, a).ctxs && Reachable(Apply(s, a), d) {
      UniqueSpares(s, a, d);
      ReachableStep(s, a, d);
    }
    NewIsCreated(s, a);
  }

  lemma NewIsCreated(s: State, a: Action)
    requires Inv(s) && Enabled(s, a)
    ensures forall d :: d in Apply(s, a).ctxs && d !in s.ctxs ==> Apply(s, a).ctxs[d].pc == Created
  {
  }

  // ---------------------------------------------------------------- the atomic regions

  /** A context object; the fiber and the timer are known by numbers. */
  class Context {
    const sn: Sn
    var fiber: Option<nat>
    var timer: Option<nat>
    var timed: bool
    var result: Outcome
    var response: Option<nat>

    /** The object is what the step system says of it. */
    ghost predicate Represents(x: Ctx)
      reads this
    {
      x.sn == sn && x.fiber == fiber.Some? && x.stored == timer.Some? && x.timed == timed && x.result == result
      && x.response == response
    }

    constructor (number: Sn, requester: nat)
      ensures Represents(NewCtx(number)) && fiber == Some(requester)
    {
      sn, fiber, timer, timed, result, response := number, Some(requester), None, false, Unset, None;
    }

    /** doRsp: which timer it cancels and which fiber it schedules. */
    method DoRspNow(ghost x: Ctx) returns (cancelled: Option<nat>, scheduled: Option<nat>)
      requires Represents(x)
      modifies this
      ensures Represents(DoRsp(x))
      ensures scheduled == old(fiber) && (scheduled.Some? <==> DoRsp(x).wakes == x.wakes + 1)
      ensures cancelled == if old(fiber).Some? then old(timer) else None
      ensures cancelled.Some? && x.timer == Armed ==> DoRsp(x).timer == Disarmed
    {
      cancelled, scheduled := None, None;
      if fiber.None? {
        return;
      }
      if timer.Some? {
        cancelled := timer;
        timer := None;
      }
      if timed {
        result := TimedOut;
      }
      scheduled := fiber;
      fiber := None;
    }
  }

  /** The table m_ctxs; each method is one critical section. */
  class ContextTable {
    var ctxs: map<Sn, Context>

    /** The table is that of the step system, whose contexts are the objects objs. */
    ghost predicate Represents(s: State, objs: map<CtxId, Context>)
      reads this
    {
      ctxs.Keys == s.table.Keys && forall sn :: sn in s.table ==> s.table[sn] in objs && ctxs[sn] == objs[s.table[sn]]
    }

    constructor ()
      ensures Represents(INITIAL, map[])
    {
      ctxs := map[];
    }

    /** insert does not overwrite. */
    method EnterCtx(c: Context, ghost id: CtxId, ghost s: State, ghost objs: map<CtxId, Context>)
      requires Represents(s, objs) && Enabled(s, AddCtx(id)) && id in objs && objs[id] == c && c.sn == s.ctxs[id].sn
      modifies this
      ensures Represents(Apply(s, AddCtx(id)), objs)
    {
      if c.sn !in ctxs {
        ctxs := ctxs[c.sn := c];
      }
    }

    /** The reader takes the context of a reply's number; it gets an object exactly when the step system hands one over. */
    method GetAndDelCtx(sn: Sn, ghost reply: nat, ghost s: State, ghost objs: map<CtxId, Context>) returns (c: Option<Context>)
      requires Inv(s) && Represents(s, objs)
      modifies this
      ensures Represents(Apply(s, RecvTake(sn, reply)), objs)
      ensures c.Some? <==> sn in s.table
      ensures c.Some? ==> c.value == objs[s.table[sn]] && Apply(s, RecvTake(sn, reply)).ctxs[s.table[sn]].holder == Reader(Nothing)
    {
      c := None;
      if sn in ctxs {
        c := Some(ctxs[sn]);
        ctxs := ctxs - {sn};
      }
    }

    /** onTimeOut erases by number, whoever is entered under it. */
    method EraseCtx(sn: Sn, ghost id: CtxId, ghost s: State, ghost objs: map<CtxId, Context>)
      requires Represents(s, objs) && Enabled(s, TimeoutErase(id)) && sn == s.ctxs[id].sn
      modifies this
      ensures Represents(Apply(s, TimeoutErase(id)), objs)
    {
      ctxs := ctxs - {sn};
    }

    /** innerClose takes every context at once: exactly those the step system hands to the closer. */
    method TakeAll(ghost s: State, ghost objs: map<CtxId, Context>) returns (taken: map<Sn, Context>)
      requires Inv(s) && Represents(s, objs)
      modifies this
      ensures Represents(Apply(s, CloseSwap), objs)
      ensures forall sn :: sn in taken <==> sn in s.table
      ensures forall sn :: sn in taken ==> taken[sn] == objs[s.table[sn]] && Apply(s, CloseSwap).ctxs[s.table[sn]].holder == Closer(Nothing)
    {
      taken := ctxs;
      ctxs := map[];
    }
  }
}
