# A verified model of the yk fiber server framework

yk is a C++ server framework built on fibers: a multi-threaded fiber scheduler, an epoll-based I/O
manager with timers, and on top of them asynchronous request/response streams, a block-list byte
buffer, and the Rock and WebSocket wire formats. This project models the logic of those components in
Dafny and proves what they keep in every run, for every input. `dafny verify dfyconfig.toml` checks all
of it.

## How the model is built

- Code that several threads or fibers run at the same time is a step system: a `State`, an `Action` per
  access to shared state, `Enabled` and `Apply`. A run is any interleaving of enabled actions, and the
  main results hold after every run. What happens inside one critical section is also written as a class
  with mutable fields, and its methods are proved to do what the step system says.
- Code that works on buffers in place is imperative: `ByteArray` is a linked list of heap blocks with a
  cursor, and each of its methods is specified on one flat byte sequence. The transfer loops, serializers,
  parsers and the encoder are methods with loops.
- Fibers, timers, callbacks and contexts are known by numbers that stand for their addresses. The clock,
  random mask keys, the result of `epoll_ctl` and the way a transport splits transfers are inputs.
- Integers are unbounded. Where the original's width matters it is written out: 64-bit clock values and
  deadlines, the 32-bit round-robin index, varint readers that drop high bits, zigzag in wrapping
  arithmetic, the 64-bit sum of WebSocket lengths.
- Undefined behaviour of the original is an outcome of its own (`NullCursor`, `Crashed`, `Overflow`,
  `NullScheduler`), and a failed assertion ends a run (`Aborts`, `AssertsHold`); the results say exactly when these occur.

| file | models |
|---|---|
| Scheduler.dfy, SchedulerProtocol.dfy, SchedulerHistory.dfy | yk/scheduler.cc, yk/scheduler.h, yk/fiber.cc |
| IOManager.dfy | yk/iomanager.cc |
| Timer.dfy | yk/timer.cc |
| Worker.dfy | yk/worker.cc |
| Requests.dfy, SendQueue.dfy, RestartGate.dfy, AsyncStream.dfy, RoundRobin.dfy | streams/async_socket_stream.cc, rock/rock_stream.cc |
| ByteArray.dfy, ByteArrayRuns.dfy, BufferCodec.dfy, Codec.dfy | yk/bytearray.cc, yk/endian.h |
| Stream.dfy, Rock.dfy | yk/stream.cc, yk/socket_stream.cc, yk/protocol.cc, rock/rock_protocol.cc |
| WebSocket.dfy | http/ws_session.cc |
| Base64.dfy | yk/util.cc |
| Common.dfy | shared types |

## What does not hold

Some properties one would expect of the code are false. Each of these has the failing case, as a run from
the start or as an input, and the condition under which the code does meet the property, for all runs or
inputs.

- The scheduler keeps a fiber off two threads, and its assertions hold, in every run in which the code it
  runs keeps three rules (`MutualExclusion`, `NoAssertionFails`): a fiber hands itself to a wake-up source
  only when no wake-up for it is outstanding, does not yield READY while one is, and a callback does not end
  while one is. Each rule is needed: breaking it fails in a run from the start, with any two threads
  (`TwoWakesBreakExclusion`, `ReadyWithWakeBreaksExclusion`, `CallbackWithWakeBreaksReset`). A plain fiber may
  end with a wake-up outstanding; the thread that takes it drops it (`LateWakeIsDropped`).
- When `stopping()` answers true, the worker threads can still queue an item if and only if one of them
  holds a fiber that yielded READY (`StoppingIsFinalIff`); that happens (`StoppingCanMissReadyFiber`), but
  not in code that never yields READY (`StoppingIsFinalWithoutReady`).
- A call of a stream's `start()` is safe if and only if no other caller still has to make one of its two
  waits for the loops to end (`StartSafeIff`); as long as calls keep to this the gate is never stuck, and each
  call under way can get both permits (`CarefulStartsNeverStuck`); two concurrent calls on a new stream can
  block each other for good (`ConcurrentStartsDeadlock`, `DeadlockIsForever`).
- A resumed request whose timer has not expired has left it armed if and only if it was completed before
  `request()` had stored the timer (`TimerLeftIff`, `EarlyCloseLeavesTimer`).
- A request can be found by a reply or a close until it is resumed if and only if its number is free when
  it is entered and no timeout of another request erases that number while it is in the table
  (`ReachableIff`); otherwise only its own timeout ever resumes it (`LostForever`). Both ways to get lost
  happen (`SecondUseIsLost`, `SecondUseRun`, `LeftOverTimerLoses`); unique numbers exclude them (`NoRequestLost`).
- What `request()` returns is its own, but only if the timeout has not marked the context are result and
  response surely those of one reply (`OutcomeIsOwn`): a timeout can come with a response, and the result of a
  reply without one (`TimeoutWithResponse`, `ReplyWithoutResponse`).
- A caller in the loop of `waitAll()` can return if and only if (`WaitAllReturnsIff`) no callback has thrown;
  no other caller of `waitAll()` has a permit, or is asleep and gets one first; no callback is in `waitAll()`
  of its own group; and callbacks asleep in `schedule()` of their own group find a live permit besides the one
  this caller takes first. For a single caller, with callbacks that are not inside the group, only the first
  counts (`OnlyCallerReturnsIff`). Each of the others fails in a run from the start: `m_finish` is read and
  written in two steps, so two callers can block each other (`TwoWaitAllsBlock`), and in a group of any size a
  callback can block a `waitAll()` by using its own group (`OwnWaitAllBlocks`, `OwnScheduleBlocks`). A blocked
  caller returns in no run (`BlockedForever`). A second `waitAll()` is safe once the first has returned
  (`SecondWaitAllIsSafeAfterFirst`), and before that it can return with a callback in flight in a group of any
  size (`SecondWaitAllReturnsEarly`).
- Rock messages sent back to back arrive if and only if none of them has an empty body and a serialized
  length that is a multiple of 4096 (`FramesRoundTrip`); only responses can be of that kind
  (`NullCursorFamily`).
- A WebSocket message is received if and only if none of its fragments is empty, although RFC 6455 allows
  that, and the whole is below the maximum (`ReceiveMessage`). A ping or pong is consumed if and only if it
  has neither mask nor payload (`ControlExact`), although section 5.1 demands a mask of every client and
  section 5.5 allows a payload (`MaskedPingMisread`, `PingPayloadMisread`). A client that sends one message
  object twice delivers it twice if and only if the first mask left it alone (`ResendCarriesMasked`).
- `writeFixSize` on a plain buffer reports success with fewer bytes moved if and only if an error comes before
  a 0 and before the end (`WriterLiesIff`). The other three fix-size loops return the length only when one byte
  more for every error has been moved (`OthersOverrun`), and keep looping on errors (`ErrorsKeepLooping`).
- Event delivery fails an assertion if and only if a reported event is not registered while a due one is
  (`DeliverExact`, `DeliverAborts`). Triggering a registered event dereferences a null scheduler if and only if
  its `addEvent` was called outside a scheduler (`TriggerCrashesIff`, `OutsideCrashes`, `InsideNeverCrashes`).
  Growth of the context table may act on a stale size check and cut contexts off. In every run each registered
  event can be found by `delEvent`, `cancelEvent` and `cancelAll` if and only if no growth cuts a context with
  events and nothing is registered with a context that has been cut off (`FindableIff`). A context that is cut
  off is never found again, though it is still counted and a delivery still triggers it (`CutOffForever`); two
  threads can bring that about (`StaleGrowthCuts`).
- The timers' wake-up promise holds throughout a run if and only if each refresh, and each re-insertion of an
  expired recurring timer, either gives no deadline before the reported one or happens when a wake-up has been
  asked for (`AlertKeptIff`, `AlertRunIff`). A clock that does not go back, deadlines below 2^64 and samples
  that do not count as a rollover ensure that (`NoLostWakeUp`). Without them it fails in runs of a new manager:
  a refresh that wraps around, a stale sample, a recurring deadline that wraps around (`WrappingRefreshRun`,
  `StaleSampleRun`, `WrappingExpiryRun`).
- Round-robin `get()` looks at every stream if and only if its index does not wrap during the call or the
  number of streams divides 2^32 (`CoversIff`, `MissesConnected`, `WrapMissesOne`).

## Model

| member | source | states |
|---|---|---|
| Scheduling.FirstEligible | yk/scheduler.cc:155-185 | the scan takes the first entry not pinned to another thread and not EXEC, or nothing when there is none |
| Scheduling.FirstIsUnique | yk/scheduler.cc:155-185 | that entry is the only one with nothing eligible before it |
| Scheduling.SchedulerQueue.ScheduleNoLock | yk/scheduler.h:84-92 | an item goes to the back of the queue; the caller tickles exactly when the queue was empty |
| Scheduling.SchedulerQueue.TakeWork | yk/scheduler.cc:153-188 | the scan loop removes exactly that entry, counts the thread active, and asks for a tickle exactly when entries behind it or entries pinned elsewhere remain |
| SchedulerProtocol.StepPreserves | yk/scheduler.cc:148-262 | every disciplined step of any thread keeps the invariant: one owner per fiber that has not ended, one wake-up per fiber, fiber states that match program counters, private and reset callback fibers; ending a plain fiber is always disciplined |
| SchedulerProtocol.RunPreserves | yk/scheduler.cc:148-262 | so does every disciplined run |
| SchedulerProtocol.MutualExclusion | yk/scheduler.cc:155-234 | in every disciplined run with any number of threads no fiber is on two processors, and none is being switched in before its own switch-out has finished; only an ended fiber's item may be taken by another thread meanwhile |
| SchedulerProtocol.NoAssertionFails | yk/fiber.cc:86-111 | after every disciplined run no enabled step fails the assertions of reset and swapIn, and a thread at the loop head has no callback fiber or one in state INIT |
| SchedulerProtocol.TwoWakesBreakExclusion | yk/scheduler.cc:170-198 | the first rule is needed: in every scheduler with two threads a run from the start, in which a fiber hands itself to two wake-up sources, ends with both threads switching it in and the assertion in swapIn failing |
| SchedulerProtocol.ReadyWithWakeBreaksExclusion | yk/scheduler.cc:198-203 | the second: a run from the start in which a fiber yields READY with a wake-up queued, and another thread switches it in before its switch-out has finished |
| SchedulerProtocol.CallbackWithWakeBreaksReset | yk/scheduler.cc:209-225 | the third: a run from the start in which a callback ends with a wake-up queued, and the assertion in reset fails for its fiber, which runs on another thread |
| SchedulerProtocol.LateWakeIsDropped | yk/scheduler.cc:195-196 | there is no fourth rule: a disciplined run from the start in which a plain fiber ends with a wake-up queued, and another thread takes it and finds TERM |
| SchedulerProtocol.ScanMayTake | yk/scheduler.cc:158-185 | whatever the scan sees of the fibers it passes while their states change, the entry it takes is one that the scan step of the model can take |
| SchedulerProtocol.ScanPreserves | yk/scheduler.cc:153-188 | taking any eligible entry keeps the invariant, whichever fibers the scan passed: nobody else can hold its fiber |
| SchedulerProtocol.DispatchPreserves | yk/scheduler.cc:195-240 | deciding between fiber, ended fiber and callback keeps the invariant; the branch for an ended fiber is reachable (LateWakeIsDropped) |
| SchedulerProtocol.ReschedulePreserves | yk/scheduler.cc:201-225 | a fiber that yielded READY is handed back and queued without breaking the invariant |
| SchedulerProtocol.MarkHoldPreserves | yk/scheduler.cc:204-233 | so is one that is marked HOLD after its switch-out |
| SchedulerProtocol.LeavePreserves | yk/fiber.cc:152-188 | yielding and ending keep the invariant; a plain fiber may end with a wake-up outstanding |
| SchedulerProtocol.StepAccounted | yk/scheduler.cc:148-240 | every step, disciplined or not, keeps each item in one place and the active counter right |
| SchedulerProtocol.RunAccounted | yk/scheduler.cc:148-240 | in every run each item scheduled is in the queue, held by one thread, or finished, never in two of these; the active counter is the number of threads between take and decrement |
| SchedulerProtocol.InitialAccounted | yk/scheduler.cc:16-42 | a new scheduler is accounted for |
| SchedulerProtocol.RunPinned | yk/scheduler.cc:161-166 | in every run an item pinned to one thread is taken by that thread only; with AsCalled, the thread is the one that the call named |
| SchedulerHistory.AsCalled | yk/scheduler.h:63-92 | in every run the n-th call of schedule() is in the queue with the work and thread it named, in the order of the calls; whichever thread takes it, switches its fiber in or runs its callback does what the call named, and is the thread it named, if any |
| SchedulerHistory.EachRunsOnce | yk/scheduler.cc:148-240 | in every run a thread switches in for a call at most once, and exactly once when it is done, unless its fiber was found to have ended |
| SchedulerHistory.EndedHow | yk/fiber.cc:160-188 | in every run a fiber is EXCEPT only if its code has ended by an exception, and TERM only if it has ended without one |
| SchedulerHistory.EndedForGood | yk/scheduler.cc:195-196 | a fiber that is no callback fiber and has ended stays as it is in every disciplined run, and no thread ever switches it in |
| SchedulerHistory.InitUntilEntered | yk/fiber.cc:70-111 | a fiber spawned in a run is INIT exactly until it is switched in for the first time |
| SchedulerHistory.IdleEndsIff | yk/scheduler.cc:242-262 | in every run a thread's idle fiber has ended if and only if the thread left it with a stop asked for, nothing queued and nobody active |
| SchedulerHistory.ExitsOnlyWhenStopped | yk/scheduler.cc:242-275 | a thread exits only after a stop was asked for and it saw that |
| SchedulerHistory.CanExit | yk/scheduler.cc:242-262 | and once that holds every thread at its loop head can exit by itself |
| SchedulerProtocol.StoppingMeansDrained | yk/scheduler.cc:271-275 | when stopping() answers true, nothing is queued and every unfinished item is held by a thread that only has to hand its fiber back |
| SchedulerProtocol.StoppingIsFinalIff | yk/scheduler.cc:198-203 | after any run in which it answers true, the threads alone can queue an item again if and only if one of them holds a fiber that yielded READY and is not queued yet |
| SchedulerProtocol.StoppingIsFinalWithoutReady | yk/scheduler.cc:271-275 | in every run without YieldToReady the threads alone queue nothing any more once it has answered true |
| SchedulerProtocol.StoppingCanMissReadyFiber | yk/scheduler.cc:198-203 | a run from the start after which it answers true while a READY fiber is about to be queued |
| Events.Apply | yk/iomanager.cc:94-369 | every operation on a context that does not abort keeps: the counter is the number of registered events, a bit is set exactly when its context is filled with one fiber or callback, and registrations are conserved; the caller may be outside any scheduler |
| Events.OpExact | yk/iomanager.cc:82-369 | what each operation does with registrations: delEvent drops one and schedules nobody; cancelEvent, cancelAll and delivery schedule exactly those they take away, READ before WRITE, and drop none; addEvent makes one; everything else stays registered |
| Events.AbortExact | yk/iomanager.cc:111-351 | an assertion fails exactly for an addEvent of an event that is registered, and for a delivery of one that is not while a due one is |
| Events.CrashExact | yk/iomanager.cc:26-36 | an operation dereferences a null scheduler exactly when one of those it would schedule was registered outside any |
| Events.RunKeeps | yk/iomanager.cc:82-369 | hence in every reachable state, of any number of threads whose lookups, table growth and operations interleave, contexts that were cut off from the table included |
| Events.ScheduledAtMostOnce | yk/iomanager.cc:26-36 | after every run, the n-th registration has been scheduled once, or deleted once, or is held once, and only one of these |
| Events.OnlyMadeIsScheduled | yk/iomanager.cc:26-36 | nothing is scheduled that no successful addEvent registered |
| Events.RunReleases | yk/iomanager.cc:128-369 | over every run a registration is dropped only by a delEvent of its context and event, and scheduled only by a cancelEvent of them, a cancelAll of the context, or a delivery that reports the event or an error |
| Events.ReleasedBy | yk/iomanager.cc:128-369 | the same for the n-th registration of a new manager's run |
| Events.TriggerCrashesIff | yk/iomanager.cc:26-36 | after every run, triggering a registered event dereferences a null scheduler if and only if the addEvent that registered it was called outside a scheduler |
| Events.InsideNeverCrashes | yk/iomanager.cc:112-124 | if every addEvent is called inside one, then in every run a bit is set exactly when its context holds a scheduler and one of fiber and callback, and no operation crashes |
| Events.OutsideCrashes | yk/iomanager.cc:112-124 | the failing run: one addEvent from outside and a cancel |
| Events.TriggerAll | yk/iomanager.cc:221-230 | triggering the given events clears exactly their bits, touches no other descriptor, and drops nothing |
| Events.DeliverExact | yk/iomanager.cc:331-369 | delivery aborts exactly when a reported event is not registered while some due event is; otherwise it clears the reported bits, or all of them on error or hang-up |
| Events.DeliverAborts | yk/iomanager.cc:26-29 | the failing run: READ is registered, READ and WRITE are reported |
| Events.NothingPending | yk/iomanager.cc:252-257 | the counter is zero exactly when no event is registered anywhere |
| Events.FindableStep | yk/iomanager.cc:72-93 | a step keeps every registered event findable in the table if and only if it is no growth that cuts a context with events, and no registration with a context that was cut off |
| Events.FindableIff | yk/iomanager.cc:72-125 | the same over every run of any number of threads |
| Events.CutOffForever | yk/iomanager.cc:72-93 | a context that is cut off, and that no thread has looked up, is found by no operation in any run; only a delivery, for which epoll has a pointer, changes it |
| Events.StaleGrowthCuts | yk/iomanager.cc:84-93 | two threads, for all descriptors: one finds the table too small, the other registers for a larger descriptor, then the first one's resize cuts that registration off; it is still counted, and a delivery still schedules it |
| Events.GrownKeeps | yk/iomanager.cc:72-93 | growth that finds the table as small as it was makes room for the descriptor, keeps the table and all contexts, and adds empty ones |
| Events.Start | yk/iomanager.cc:38-59 | a new manager has 32 empty contexts and satisfies the invariant |
| Events.IOManager.ContextResize | yk/iomanager.cc:72-80 | the table is cut, or filled up with new contexts; those cut off stay as they are |
| Events.IOManager.AddEvent | yk/iomanager.cc:82-125 | grows the table if need be and registers, reports an epoll failure, or fails the assertion exactly when the event is registered already |
| Events.IOManager.DelEvent | yk/iomanager.cc:128-163 | drops exactly the registration of the descriptor's context, schedules nobody; true exactly when there was one and epoll agreed |
| Events.IOManager.CancelEvent | yk/iomanager.cc:165-195 | schedules exactly that registration, drops none; true exactly when there was one and epoll agreed; crashes exactly when it has no scheduler |
| Events.IOManager.CancelAllEvents | yk/iomanager.cc:197-233 | schedules exactly the registrations of the descriptor's context, READ before WRITE, which has none afterwards; crashes exactly when one has no scheduler |
| Events.IOManager.TriggerEvent | yk/iomanager.cc:26-36 | takes the waiter out of its context and schedules exactly it |
| Events.IOManager.DeliverEvents | yk/iomanager.cc:323-369 | the delivery step of idle(): schedules exactly the reported registrations, all on error, drops none; with its aborting and its crashing case |
| Timers.Apply | yk/timer.cc:41-206 | every operation keeps the set sorted by deadline and address, and a callback in exactly the timers that are in the set |
| Timers.AddExact | yk/timer.cc:103-109 | a new timer is in the set, due its period after the clock sample; no other timer changes |
| Timers.CancelExact | yk/timer.cc:41-51 | a cancelled timer is out of the set and has no callback; no other timer changes |
| Timers.RefreshExact | yk/timer.cc:53-67 | a timer in the set is due a full period from now; a dead one stays dead; no other timer changes |
| Timers.ResetExact | yk/timer.cc:69-92 | a timer in the set gets the new period, counted from now or from when it was last started; no other timer changes |
| Timers.FindExact | yk/timer.cc:41-51 | find, which goes by the order alone, finds exactly the members, so the erase in cancel is always valid |
| Timers.InsertSorted | yk/timer.cc:185-186 | insertion keeps the order and adds exactly one member, at the front or behind the old front |
| Timers.Taken | yk/timer.cc:58-62 | erasing removes exactly the timer |
| Timers.CutExact | yk/timer.cc:157-161 | lower_bound and the loop behind it cut exactly behind the last timer whose deadline is not after now |
| Timers.RequeueExact | yk/timer.cc:166-174 | the loop over the expired timers puts the recurring ones back with a new deadline, in order, and takes the callback from the others |
| Timers.ExpireFirst | yk/timer.cc:162-174 | the same for a prefix of the set: what stays, what changes |
| Timers.ExpiryExact | yk/timer.cc:140-176 | listExpiredCb lists exactly the timers with deadline <= now, all of them on rollover, in deadline order, re-inserts only recurring ones, remembers the clock, and changes nothing else |
| Timers.ExpiryMeans | yk/timer.cc:140-176 | the list is ordered by deadline and then address; an expired recurring timer is due its period after now, modulo 2^64, and another one loses its callback only |
| Timers.RolloverMeans | yk/timer.cc:198-206 | a rollover is a clock more than an hour behind the last one seen, or behind it at all within the first hour of the epoch |
| Timers.NextDelayExact | yk/timer.cc:125-138 | the wait ends exactly at the earliest deadline; it is zero exactly when one has passed, and all ones without timers |
| Timers.HookExact | yk/timer.cc:185-196 | onTimerInsertedAtFront is called exactly when addTimer or reset puts a timer in front of all others and nobody has asked since the last report; only a report clears the flag |
| Timers.AnswersExact | yk/timer.cc:41-92 | cancel, refresh and reset answer whether the timer is in the set, but for a reset that changes nothing |
| Timers.DeadForever | yk/timer.cc:41-92 | a timer without callback is never listed again in any run |
| Timers.CancelledNeverListed | yk/timer.cc:41-51 | in particular after it was cancelled |
| Timers.OneShotListedOnce | yk/timer.cc:166-174 | a one-shot timer is listed at most once in any run |
| Timers.OrderlyStep | yk/timer.cc:53-196 | each operation keeps: an earliest deadline before the last reported one means the flag is set, and the hook was called once since the report exactly when it is |
| Timers.NoLostWakeUp | yk/timer.cc:125-138 | the same over every run, whatever operations are mixed, with a clock that does not go back, deadlines below 2^64, and no clock sample so old that it counts as a rollover |
| Timers.RefreshNoneEarlier | yk/timer.cc:53-67 | refresh moves a deadline back only, which is why it need not set the flag |
| Timers.AlertKeptIff | yk/timer.cc:41-196 | for every set, clock and operation, wrap-around and rollover included, a step keeps the promise if and only if the flag is set, or it is a report, or no refreshed or re-inserted deadline is before the reported one |
| Timers.AlertRunIff | yk/timer.cc:41-196 | so over every run the promise holds throughout if and only if each step meets that condition |
| Timers.WrappingRefreshRun | yk/timer.cc:53-67 | a run of a new manager after which a refresh whose deadline wraps around breaks the promise |
| Timers.StaleSampleRun | yk/timer.cc:140-176 | one after which a listExpiredCb with a sample that counts as a rollover breaks it |
| Timers.WrappingExpiryRun | yk/timer.cc:166-174 | one after which the re-insertion of a recurring timer whose deadline wraps around breaks it, without rollover |
| Timers.InitialAlert | yk/timer.cc:95-97 | a new manager satisfies all three invariants |
| Timers.TimerManager.InsertTimer | yk/timer.cc:185-196 | insertion is the step of the model, and answers whether the hook was called |
| Timers.TimerManager.AddTimer | yk/timer.cc:103-109 | addTimer is the step of the model |
| Timers.TimerManager.Cancel | yk/timer.cc:41-51 | true exactly when the timer was in the set |
| Timers.TimerManager.Refresh | yk/timer.cc:53-67 | true exactly when the timer was in the set |
| Timers.TimerManager.Reset | yk/timer.cc:69-92 | true exactly when the timer was in the set, or nothing was to be changed |
| Timers.TimerManager.GetNextTimer | yk/timer.cc:125-138 | the delay ends exactly at the earliest deadline, is zero exactly when one has passed, and all ones without timers |
| Timers.TimerManager.DetectClockRollover | yk/timer.cc:198-206 | the test, and the clock value it remembers |
| Timers.TimerManager.ExpiredEnd | yk/timer.cc:158-161 | the loop that finds the end of the expired range |
| Timers.TimerManager.ListExpiredCb | yk/timer.cc:140-176 | lists the callback of each expired timer, none of them empty |
| Timers.TimerManager.ExpireRange | yk/timer.cc:162-174 | takes a prefix out of the set and lists its callbacks, none of them empty |
| Timers.TimerManager.RequeueAll | yk/timer.cc:166-174 | the loop that lists the callbacks and requeues |
| Semaphores.FiberSemaphore.TryWait | yk/worker.cc:20-30 | takes a permit or fails, keeping: initial + notified = available + granted + dropped, waiters only when none is available, waiters resumed in the order in which they came |
| Semaphores.FiberSemaphore.WaitBy | yk/worker.cc:32-43 | goes on with a permit or joins the end of the waiters, keeping the same |
| Semaphores.FiberSemaphore.NotifyOne | yk/worker.cc:45-54 | resumes the first waiter or makes a permit available, keeping the same |
| Semaphores.FiberSemaphore.ResetPermits | yk/worker.h:27 | drops the available permits and accounts for them |
| WorkerGroups.StepKeeps | yk/worker.cc:57-86 | each step keeps: batchSize = available + with a callback + lost with one that threw + taken by the callers of waitAll(); m_finish is read and written in two steps, and callbacks run in fibers that may use the group themselves |
| WorkerGroups.BatchBound | yk/worker.cc:68-77 | in every run at most batchSize callbacks are in flight |
| WorkerGroups.CallbacksCounted | yk/worker.cc:68-77 | in every run each callback handed over runs until it returns or throws, each that returned gives its permit back once, and a permit is lost for each that throws |
| WorkerGroups.WaitAllWaits | yk/worker.cc:79-86 | a call of waitAll() leaves its loop only when no callback is in flight and none has thrown |
| WorkerGroups.ThrowBlocksWaitAll | yk/worker.cc:74-77 | a callback that throws keeps every call from returning in every run |
| WorkerGroups.CanReturn | yk/worker.cc:68-86 | from every reachable state a caller in the loop that is not blocked has a run to its return |
| WorkerGroups.WaitAllReturnsIff | yk/worker.cc:79-86 | a caller in the loop can return if and only if no callback has thrown, no other caller of waitAll() has a permit or gets one before it has all of its own, no callback waits for itself in waitAll(), and callbacks asleep in schedule() find a live permit besides the one this caller takes first |
| WorkerGroups.BlockedForever | yk/worker.cc:79-86 | otherwise it returns in no run |
| WorkerGroups.OnlyCallerReturnsIff | yk/worker.cc:79-86 | for the only caller the condition is that no callback has thrown, waits for itself or is starved in its own group; and only that none has thrown when no callback is inside a call of the group |
| WorkerGroups.TwoWaitAllsBlock | yk/worker.cc:79-86 | a run from the start, in every group of two or more, in which two callers read m_finish as false, take a permit each and are blocked, although nothing has thrown |
| WorkerGroups.OwnWaitAllBlocks | yk/worker.cc:74-86 | a run from the start, in a group of any size, in which a callback calls waitAll() of its own group and never returns |
| WorkerGroups.OwnScheduleBlocks | yk/worker.cc:68-86 | one in which a callback calls schedule() of its own group and the only caller of waitAll() never returns, although nothing has thrown |
| WorkerGroups.NothingAfterWaitAll | yk/worker.cc:68-86 | after it has returned, nobody gets a permit again |
| WorkerGroups.ReturnsAtOnceOnlyAfter | yk/worker.cc:79-81 | waitAll() returns at once only when another call has set m_finish before, and enters its loop only when none had when it looked |
| WorkerGroups.SecondWaitAllIsSafeAfterFirst | yk/worker.cc:64-66 | in every run in which the first waitAll() has returned nothing is in flight, so a second one may return at once |
| WorkerGroups.SecondWaitAllReturnsEarly | yk/worker.cc:79-81 | while the first is waiting, a second one can return with a callback in flight, in a group of any size |
| Requests.StepKeeps | rock/rock_stream.cc:55-73 | every step of the requester, the timeout, the reader and a close keeps the invariant about contexts and the table |
| Requests.ResumedAtMostOnce | streams/async_socket_stream.cc:18-36 | in every interleaving, even with numbers used twice, a request is resumed at most once, a resumed one is not in the table, and one not resumed has its timer armed or its timeout callback pending |
| Requests.OutcomeIsOwn | rock/rock_stream.cc:69-109 | what request() reads for its return: a response is a reply to its own number; a reply's result comes with that reply's response, or with none once the timeout has marked the context; a close's result comes with none; TIMEOUT only when it has marked it |
| Requests.TimeoutWithResponse | rock/rock_stream.cc:101-109 | a run from the start in which request() returns TIMEOUT with a response |
| Requests.ReplyWithoutResponse | rock/rock_stream.cc:101-109 | one in which it returns a reply's result without the response |
| Requests.TimerLeftIff | streams/async_socket_stream.cc:24-28 | after every run, a resumed request whose timer was made and has not expired has left it armed if and only if it was completed before request() had stored it; otherwise it is disarmed |
| Requests.EarlyCloseLeavesTimer | rock/rock_stream.cc:63-66 | a run from the start, with a close between addCtx and addTimer, that leaves an armed timer |
| Requests.ReachableStep | streams/async_socket_stream.cc:164-194 | a step keeps a request reachable if and only if it does not enter it under a number in use and does not erase its number for another request |
| Requests.ReachableIff | streams/async_socket_stream.cc:164-229 | over every run, a request can be found or is being completed until it is resumed if and only if every step spares it in that sense |
| Requests.LostForever | streams/async_socket_stream.cc:164-229 | a request that became unreachable is never found again in any run; only its own timeout resumes it, with TIMEOUT |
| Requests.SecondUseIsLost | streams/async_socket_stream.cc:190-194 | a request entered under a number in use is lost in every run |
| Requests.SecondUseRun | streams/async_socket_stream.cc:190-194 | two requests with one number, from the start: the second is lost, in every continuation |
| Requests.LeftOverTimerLoses | streams/async_socket_stream.cc:164-171 | a run from the start in which a timer left over from a resumed request makes a later one with its number lost, although that was free |
| Requests.NoRequestLost | streams/async_socket_stream.cc:164-229 | with unique numbers every request entered and not resumed is in the table, taken by the reader or a closer, or being completed by its timeout, in every run |
| Requests.Context.DoRspNow | streams/async_socket_stream.cc:18-36 | doRsp on the object is the step of the model: which timer it cancels, which fiber it schedules |
| Requests.ContextTable.EnterCtx | streams/async_socket_stream.cc:190-194 | the table of objects follows the step system: it does not overwrite |
| Requests.ContextTable.GetAndDelCtx | streams/async_socket_stream.cc:179-188 | the table follows the step system, and the object returned is the one whose context the reader holds there |
| Requests.ContextTable.EraseCtx | streams/async_socket_stream.cc:164-171 | the table follows the step system: whoever is entered under the number goes |
| Requests.ContextTable.TakeAll | streams/async_socket_stream.cc:215-219 | the objects taken are exactly those whose contexts the closer holds in the step system |
| SendQueue.StepKeeps | streams/async_socket_stream.cc:128-229 | each step of enqueuers, writer, reader, closers and start() keeps the wake-up, leave and order invariants |
| SendQueue.NoLostWakeUp | streams/async_socket_stream.cc:128-206 | in every run with failures, closes and restarts: a non-empty queue has a permit, an owed notify, or a writer about to swap; a writer asleep on a closed stream will be woken; doSend sees messages in enqueue order, none twice |
| SendQueue.ExactlyOnce | streams/async_socket_stream.cc:128-147 | without failures sent + batch + queue is exactly what was enqueued, in order |
| SendQueue.ExitDropsQueue | streams/async_socket_stream.cc:148-154 | once doWrite has left, no message enqueued before is ever sent, in any run: nothing of a connection that is gone goes out on the next one |
| SendQueue.CloseDropsQueue | streams/async_socket_stream.cc:220-223 | nor once a close has cleared the queue, but for the messages in the writer's batch at that moment |
| SendQueue.NotifiesCounted | streams/async_socket_stream.cc:196-206 | in every run notify() is called once for each enqueue into an empty queue and once for each close, and each call leads to one swap |
| SendQueue.ClosesCounted | streams/async_socket_stream.cc:208-229 | each innerClose() clears the queue once, after its notify |
| SendQueue.AfterRefused | streams/async_socket_stream.cc:138-143 | after a doSend that fails the writer closes the stream before it does anything else |
| SendQueue.AfterThrew | streams/async_socket_stream.cc:144-154 | after one that throws it leaves without closing |
| SendQueue.TestsAgain | streams/async_socket_stream.cc:130-143 | after a whole batch, and after closing the stream itself, it tests the connection before it does anything else |
| SendQueue.FailedBatchIsDropped | streams/async_socket_stream.cc:138-147 | what was behind the failed message in the batch is never sent, in any run |
| SendQueue.CloseStopsWriter | streams/async_socket_stream.cc:128-147 | whoever closes the stream, the writer takes at most one more batch before the stream is started again, and none unless it was about to wait, waiting or woken |
| SendQueue.CanRestart | streams/async_socket_stream.cc:62-85 | when both loops have ended a start makes the writer live again |
| SendQueue.CanDrain | streams/async_socket_stream.cc:128-206 | from every reachable state with a live writer, its steps and the notifies owed suffice to send everything, in order |
| RestartGate.StepKeeps | streams/async_socket_stream.cc:48-126 | each step keeps the two permits accounted for |
| RestartGate.OneLoopEach | streams/async_socket_stream.cc:148-154 | across any number of concurrent starts, failures and reconnects at most one doRead and one doWrite are live |
| RestartGate.LoopsCounted | streams/async_socket_stream.cc:62-154 | in every run each loop that was started is live until it ends itself, and a start that fails starts none |
| RestartGate.StuckIffDeadlocked | streams/async_socket_stream.cc:231-235 | nobody can give a permit back exactly when two starters have one each and wait for the other |
| RestartGate.CarefulStartsNeverStuck | streams/async_socket_stream.cc:58-60 | in every run in which start() is called only when no other caller still has to make one of its waits, the gate is never stuck, and each call under way has a run to both permits without any further call |
| RestartGate.GetsBothPermits | streams/async_socket_stream.cc:231-235 | from every careful state a starter under way can get both permits |
| RestartGate.StartSafeIff | streams/async_socket_stream.cc:58-60 | a call is made then if and only if in all later careful runs the gate is never stuck, and if and only if in all of them each call under way can get both permits; otherwise two can block each other without any further call |
| RestartGate.DeadlockIsForever | streams/async_socket_stream.cc:231-235 | then neither loop is ever started again, whatever happens |
| RestartGate.ConcurrentStartsDeadlock | streams/async_socket_stream.cc:48-60 | two concurrent start() calls on a new stream can get there |
| AsyncStreams.StepProjects | streams/async_socket_stream.cc:48-90 | gate and send queue together, with the steps of start() guarded by its permits alone: each action is a step of either system, so a start finds the loops before it ended |
| AsyncStreams.RunProjects | streams/async_socket_stream.cc:48-229 | every run of the whole stream projects to a run of the send queue and to a run of the gate |
| AsyncStreams.NoLostWakeUp | streams/async_socket_stream.cc:48-229 | so across any number of concurrent starts, failures, closes and reconnects no wake-up is lost, messages go out in order, none twice, and at most one loop of each kind is live |
| AsyncStreams.NothingOldIsSent | streams/async_socket_stream.cc:128-229 | over the whole stream, what was enqueued before doWrite left, or was in the queue when a close cleared it, is never sent afterwards, however often it is started again |
| AsyncStreams.CanDrain | streams/async_socket_stream.cc:128-206 | and after every such run with a live writer everything enqueued can be sent, in order |
| RoundRobin.StreamManager.Get | streams/async_socket_stream.cc:295-304 | returns the first connected stream in round-robin order, or none exactly when none of the slots looked at is connected; moves the 32-bit index by the attempts made |
| RoundRobin.CoversIff | streams/async_socket_stream.cc:295-304 | one call looks at every stream if and only if the index does not wrap during it or the number of streams divides 2^32 |
| RoundRobin.FindsConnected | streams/async_socket_stream.cc:295-304 | then a stream is found exactly when one is connected |
| RoundRobin.MissesConnected | streams/async_socket_stream.cc:298 | otherwise there is a pattern of connections in which the only connected stream is missed |
| RoundRobin.WrapMissesOne | streams/async_socket_stream.cc:298 | three streams, index 2^32 - 1: slots 0, 0 and 1 are looked at |
| Blocks.ByteArray.constructor | yk/bytearray.cc:32-40 | one block, position and size zero, big-endian |
| Blocks.ByteArray.CursorIsBlock | yk/bytearray.cc:358-359 | the cursor is always block position / baseSize, and null exactly at position == capacity |
| Blocks.ByteArray.AddCapacity | yk/bytearray.cc:506-535 | makes room behind the position with the fewest blocks, keeps the bytes, and repairs a null cursor |
| Blocks.ByteArray.Write | yk/bytearray.cc:352-385 | the flat sequence is overwritten at the position and grows at its end; position and size move accordingly; the list grows by the fewest blocks |
| Blocks.ByteArray.Read | yk/bytearray.cc:387-414 | returns the flat bytes behind the position and moves it, or fails leaving everything as it was |
| Blocks.ByteArray.SetPosition | yk/bytearray.cc:446-462 | moves the position up to the capacity, extending the size, or fails |
| Blocks.ByteArray.Clear | yk/bytearray.cc:339-350 | drops all blocks but the first and rewinds |
| Blocks.ByteArray.WriteChunks | yk/bytearray.cc:358-380 | the copy loop across blocks is one overwrite of the flat sequence |
| Blocks.ByteArray.ReadChunks | yk/bytearray.cc:392-413 | the copy loop across blocks returns one flat slice |
| Blocks.ByteArray.Seek | yk/bytearray.cc:454-461 | walks to the block that holds the offset |
| Blocks.ByteArray.LastNode | yk/bytearray.cc:517-520 | walks to the last block |
| Blocks.ByteArray.Grow | yk/bytearray.cc:522-530 | appends the given number of blocks and returns the first |
| Blocks.BlocksFor | yk/bytearray.cc:516 | the number of blocks is the smallest that suffices |
| Blocks.ByteArray.Cut | yk/bytearray.cc:571-590 | slices lie in consecutive blocks and cover exactly the flat range |
| Blocks.ByteArray.TilesDisjoint | yk/bytearray.cc:576-590 | they are in bounds and pairwise disjoint |
| Blocks.ByteArray.GetReadBuffers | yk/bytearray.cc:563-592 | slices for the readable range [position, position + n) |
| Blocks.ByteArray.GetReadBuffersAt | yk/bytearray.cc:594-629 | the same from an explicit position inside the data |
| Blocks.ByteArray.GetWriteBuffers | yk/bytearray.cc:631-659 | slices for [position, position + len) after growth; bytes, position and size as before |
| Blocks.ByteArray.Drain | yk/socket_stream.cc:41-52 | gathering n bytes from read slices gives the flat bytes from the position on |
| Blocks.ByteArray.Fill | yk/socket_stream.cc:23-34 | scattering data into write slices is one flat overwrite at the position |
| FlatRuns.Run | yk/bytearray.cc:339-462 | every sequence of write, read, setPosition and clear is a run of the flat model with the same results, bytes, position and size, up to its end or the first null cursor |
| FlatRuns.Apply | yk/bytearray.cc:339-462 | each single operation is a step of the flat model |
| FlatRuns.OverwritesFlat | yk/bytearray.cc:352-385 | the overwritten part of the blocks is the overwritten flat sequence |
| Codec.VarintRoundTrip | yk/bytearray.cc:149-173 | a varint reads back as its value and ends exactly behind it |
| Codec.VarintLength | yk/bytearray.cc:149-173 | a value takes at most k bytes exactly when it is below 128^k |
| Codec.VarintLengths | yk/bytearray.cc:149-173 | 1 to 5 bytes for 32-bit values, 1 to 10 for 64-bit values |
| Codec.VarintAt | yk/bytearray.cc:149-173 | byte i of a varint holds bits 7i to 7i + 6, and its top bit says whether another follows |
| Codec.VarintShortest | yk/bytearray.cc:149-173 | no bytes that read back as the value, modulo the word size, are fewer |
| Codec.VarintCut | yk/bytearray.cc:257-291 | a varint that breaks off cannot be read |
| Codec.VarintsRoundTrip | yk/bytearray.cc:257-291 | any list of values written one after the other reads back unchanged |
| Codec.OrIsSum | yk/bytearray.cc:261-273 | a bitwise or with a number whose low bits are clear is a sum, in a word of any width |
| BufferCodec.JoinIsSum | yk/bytearray.cc:261-291 | so joining a group into the accumulator adds it, in both readers, because the earlier groups do not reach that far |
| Codec.ZigzagRoundTrip | yk/bytearray.cc:120-142 | decoding undoes encoding for every signed word, the smallest one included, and small magnitudes get small codes |
| Codec.ZigzagOnto | yk/bytearray.cc:120-142 | encoding undoes decoding for every unsigned word |
| Codec.ByteSwapLaws | yk/endian.h:17-37 | byteswap is its own inverse and turns a little-endian store into a big-endian one |
| Codec.LittleAt | yk/bytearray.cc:70-110 | byte i of a little-endian store holds bits 8i to 8i + 7 |
| Codec.BigAt | yk/bytearray.cc:70-110 | and of a big-endian store those from the other end |
| Codec.FixedRoundTrip | yk/bytearray.cc:63-110 | fixed-width writers store the bytes in the chosen order and readers give the value back |
| BufferCodec.WriteFuint8 | yk/bytearray.cc:67-69 | one byte at the position |
| BufferCodec.WriteFixed | yk/bytearray.cc:70-110 | n bytes in the buffer's byte order at the position |
| BufferCodec.WriteUint | yk/bytearray.cc:149-173 | the loop writes exactly the varint, which fits the local array |
| BufferCodec.WriteInt | yk/bytearray.cc:145-163 | the varint of the zigzag code |
| BufferCodec.WriteStringVint | yk/bytearray.cc:202-205 | the length as a varint, then the bytes |
| BufferCodec.ReadFuint8 | yk/bytearray.cc:217-221 | the next byte, or failure at the end |
| BufferCodec.ReadFixed | yk/bytearray.cc:223-253 | the integer the next n bytes denote, or failure without moving |
| BufferCodec.ReadUint | yk/bytearray.cc:261-291 | the loop returns the value of the groups, cut to the word, and stops exactly behind them; it fails exactly when the data end first |
| BufferCodec.ReadInt | yk/bytearray.cc:257-277 | the zigzag decoding of that, and the position moved as by that, in the failing case too |
| BufferCodec.IntRoundTrip | yk/bytearray.cc:120-173 | every signed value survives writing and reading, in at most 5 or 10 bytes, whatever follows |
| BufferCodec.ReadStringVint | yk/bytearray.cc:331-337 | the string, a failure, or the null cursor: an empty string at the very end of the last block; and how far the position has moved in each case |
| Streams.Stream.ReadFixSize | yk/stream.cc:6-18 | returns the length exactly when that many bytes arrived, which they do over every healthy transport however it splits them; asking for nothing returns 0 |
| Streams.Stream.WriteFixSize | yk/stream.cc:31-47 | everything is sent or 0 is returned; what was sent is a prefix |
| Streams.Stream.ReadFixSizeInto | yk/stream.cc:19-29 | the same into a byte array, as one overwrite at its position |
| Streams.Stream.WriteFixSizeFrom | yk/stream.cc:48-58 | the same out of a byte array, whose position ends behind what was sent; a length beyond the readable bytes sends those and returns 0 |
| Streams.Stream.ReadSomeInto | yk/socket_stream.cc:23-34 | one scattering receive writes what arrived at the position and moves it, growing by the fewest blocks |
| Streams.Stream.WriteSomeFrom | yk/socket_stream.cc:41-52 | one gathering send sends bytes behind the position, clipped to the readable ones, and moves it |
| Streams.FixLoopMethod | yk/stream.cc:6-58 | the four fix-size loops run on any list of values that read() or write() returns, errors included |
| Streams.WriterLiesIff | yk/stream.cc:31-47 | writeFixSize on a plain buffer returns the length with fewer bytes moved if and only if an error comes before a 0 and before everything has been written |
| Streams.OthersOverrun | yk/stream.cc:6-58 | the other three, the byte-array writer included, return the length only when length + errors bytes have been moved, and 0 only for a 0 |
| Streams.ErrorsKeepLooping | yk/stream.cc:6-58 | errors alone keep those three looping, wanting one byte more each time |
| Rock.BodyRoundTrip | yk/protocol.cc:19-69 | the body of every message parses back to it, unless its last string is empty and ends at the end of the last block |
| Rock.FrameRoundTrip | rock/rock_protocol.cc:171-250 | the frame of every message below the length limit parses back to it and leaves exactly the bytes behind it, except in that one family |
| Rock.FrameLayout | rock/rock_protocol.cc:235-250 | a frame byte by byte: magic, version, flag, the length with its highest byte first, the body |
| Rock.ParseMeans | rock/rock_protocol.cc:171-233 | for all bytes, whatever is not refused has the magic, the version and a length above zero and below the limit; of a message that is accepted exactly the announced bytes are consumed |
| Rock.BodyMeans | yk/protocol.cc:26-69 | and they hold its type byte and its fields in order, however they are written |
| Rock.FramesRoundTrip | rock/rock_protocol.cc:171-250 | messages serialized back to back decode to the same messages if and only if none of them is in that family |
| Rock.OversizeRefused | rock/rock_protocol.cc:189-226 | a message at or above the length limit is refused by every peer, whatever follows, also one of 2^32 bytes or more, whose length wraps around to that of a part of its body |
| Rock.CutRefused | yk/protocol.cc:19-69 | a body that breaks off anywhere is refused |
| Rock.NullCursorFamily | yk/bytearray.cc:392-393 | the family is not empty, and only responses belong to it |
| Rock.SerializeToByteArray | rock/rock_protocol.cc:53-64 | appends exactly the body of the message |
| Rock.ToByteArray | yk/protocol.cc:6-12 | a new byte array that holds exactly the body |
| Rock.SerializeTo | rock/rock_protocol.cc:235-250 | sends exactly the frame, or reports -3 or -4; over a healthy transport it always sends it |
| Rock.ParseMessage | rock/rock_protocol.cc:205-226 | the type byte and the parser it selects agree with parsing on flat bytes, in failure and crash too |
| Rock.ParseRequest | yk/protocol.cc:26-30 | a request, field by field |
| Rock.ParseResponse | yk/protocol.cc:48-54 | a response, field by field |
| Rock.ParseNotify | yk/protocol.cc:66-69 | a notification, field by field |
| Rock.ReceiveBody | rock/rock_protocol.cc:196-202 | the body arrives in a rewound byte array that is full exactly when its length is a multiple of the block size |
| Rock.ParseFrom | rock/rock_protocol.cc:171-233 | over every healthy transport the decoder returns what flat parsing of the arrived bytes returns; over any, a message it returns had a good header and its type and fields in order, and exactly its frame is consumed |
| Rock.SendAll | rock/rock_stream.cc:75-83 | messages sent one after the other put exactly their frames on the wire |
| Rock.ReceiveAll | streams/async_socket_stream.cc:109-114 | the read loop returns exactly the messages whose frames arrive, or crashes exactly when one is in the family |
| Rock.SendAndReceive | rock/rock_protocol.cc:171-250 | both ends together, each with its own way of splitting transfers: received = sent and nothing left over, if and only if no message is in the family |
| WebSocket.MaskTwice | http/ws_session.cc:182-186 | masking twice with one key gives the data back |
| WebSocket.MaskChanges | http/ws_session.cc:244-251 | masking leaves data alone exactly when every key byte used is zero |
| WebSocket.XorBitAt | http/ws_session.cc:182-186 | combining is exclusive or, bit by bit |
| WebSocket.LengthRoundTrip | http/ws_session.cc:144-159 | field and extended length denote the length again |
| WebSocket.LengthShortest | http/ws_session.cc:215-222 | the sender uses the shortest form that denotes the length |
| WebSocket.FrameLayout | http/ws_session.cc:207-266 | a frame byte by byte, as in section 5.2 of RFC 6455: FIN, reserved bits clear, opcode, mask flag, length in network order, key, and data combined with the key |
| WebSocket.ReadDataRoundTrip | http/ws_session.cc:144-187 | one data frame is read back as it was sent, under any key and in either direction, or refused exactly when it is empty or makes the message too long |
| WebSocket.ReceiveWire | http/ws_session.cc:118-205 | for every list of fragments with any keys, in either direction, with pings and pongs in between, the receiver gets the concatenation and the first opcode, answers each ping, and stops behind the last frame, if and only if no fragment is empty and the total is below the maximum; otherwise it closes |
| WebSocket.FirstItem | http/ws_session.cc:122-202 | one pass of the receive loop consumes exactly one frame |
| WebSocket.ReceiveMessage | http/ws_session.cc:118-205 | the same for a whole message: concatenation of the fragments, opcode of the first that names one, one pong per ping, if and only if none is empty and the total is below the maximum |
| WebSocket.CarryIs | http/ws_session.cc:177-192 | what the loop accumulates is the concatenation, the first opcode and the number of pings |
| WebSocket.DataFrameExact | http/ws_session.cc:136-199 | every data frame that has arrived whole, in any form: a server refuses it without a mask, empty and oversize ones are refused, otherwise its data are appended and FIN ends the message |
| WebSocket.DataFrameMeans | http/ws_session.cc:136-199 | and whatever arrives, a pass accepts a data frame only when it has arrived whole |
| WebSocket.WrapOverflows | http/ws_session.cc:160-180 | a length that wraps the unchecked sum past the size limit takes the original out of bounds once the key has arrived |
| WebSocket.UnmaskedStops | http/ws_session.cc:140-143 | a server closes at every data frame without a mask, whatever it announces and whatever follows |
| WebSocket.OtherOpcode | http/ws_session.cc:199-201 | of a frame with any other opcode two bytes are consumed and nothing is done |
| WebSocket.ControlExact | http/ws_session.cc:130-135 | for every key, payload, direction and continuation, of a ping or pong two bytes are consumed; that is the whole frame if and only if it has neither mask nor payload |
| WebSocket.MaskedPingMisread | http/ws_session.cc:130-134 | a masked ping without payload that closes the connection whatever follows |
| WebSocket.PingPayloadMisread | http/ws_session.cc:130-134 | a ping with a payload after which a text message is lost |
| WebSocket.ResendCarriesMasked | http/ws_session.cc:248-251 | sending one message object twice delivers the message again exactly when the first key left it alone |
| WebSocket.FrameMessage.MaskInPlace | http/ws_session.cc:248-251 | the sender's loop masks the message in place |
| WebSocket.SendMessage | http/ws_session.cc:207-266 | sends exactly the frame and leaves the message masked, or closes the stream; fails for empty data, whose frame is then on the wire, and succeeds otherwise over a healthy transport |
| WebSocket.Unmask | http/ws_session.cc:182-186 | the receiver's loop unmasks the new part in place |
| WebSocket.ReadLength | http/ws_session.cc:144-159 | the length the header announces |
| WebSocket.ReadPayload | http/ws_session.cc:169-187 | key and payload agree with reading on flat bytes; a wrapped length goes out of bounds only once the key has arrived |
| WebSocket.ReceiveData | http/ws_session.cc:140-187 | a data frame agrees with reading on flat bytes, in its size limit and wrap-around too |
| WebSocket.ReceiveFrame | http/ws_session.cc:123-201 | one pass of the loop agrees with the flat step; a ping is answered with a pong |
| WebSocket.RecvMessage | http/ws_session.cc:118-205 | over every healthy transport the result is that of flat receiving; a message returned was there, exactly its frames are consumed, and one pong per ping was sent |
| WebSocket.SendControl | http/ws_session.cc:272-294 | WSPing and WSPong send exactly a control frame or close the stream |
| WebSocket.SendItems | http/ws_session.cc:207-294 | a message sent as fragments, pings and pongs: exactly its wire form, up to the first empty fragment, over a healthy transport |
| WebSocket.ReceiveAllSent | http/ws_session.cc:118-266 | what got on the wire is received as the whole message or not at all |
| WebSocket.SendAndReceive | http/ws_session.cc:118-294 | both ends together, in either direction, each with its own way of splitting transfers: sending succeeds if and only if no fragment is empty, and the concatenation arrives under the first opcode, with a pong per ping and nothing left over, if and only if moreover it is below the maximum; otherwise no message |
| Base64.RoundTrip | yk/util.cc:216-254 | the encoding of every input decodes to it |
| Base64.Shape | yk/util.cc:216-254 | the length is 4 * ceil(n / 3), with padding at the end as section 4 of RFC 4648 says and nowhere else |
| Base64.AlphabetIs | yk/util.cc:217-220 | the alphabet in its order |
| Base64.TestVectors | yk/util.cc:216-254 | the encodings of f, fo and foobar in section 10 of RFC 4648 |
| Base64.Base64Encode | yk/util.cc:216-254 | the loop computes exactly that encoding |
| Base64.PackNext | yk/util.cc:227-239 | the inner loops pack up to three bytes and fill up with zero bits |

## Left out

- ReadFixSize: a primitive transfer returns 0 to the number of bytes wanted; what the loops do with negative values is stated on lists of return values, by WriterLiesIff, OthersOverrun and ErrorsKeepLooping, and each loop is tied to that form.
- WriterLiesIff: a primitive transfer returns -1 or the number of bytes moved, as recv and send do, and lengths are below 2^64 - 1.
- GetReadBuffersAt: only for a range inside the data, as the original walks off the list otherwise.
- Read: a read of no bytes needs a current block; what happens without one is an outcome of FlatRuns.Run and of ReadStringVint.
- FirstEligible: a queue entry with neither fiber nor callback cannot arise; the assertion against it is not modelled.
- AddCapacity: the block count is computed exactly, where the original divides doubles; they differ only beyond 2^53 bytes.
- AddEvent: descriptors are not negative; a negative one indexes out of bounds in the original.
- DeliverEvents: where both an assertion would fail and a scheduler is null, it reports the assertion; the run ends either way.
- ScanMayTake: the test of the entry a scan takes and its removal, both under the mutex, are one step; fibers the scan passes may change state meanwhile.
- GetAndDelCtx: `getCtx`, which does not remove, is not used by any modelled operation.
- DoRspNow: doRsp takes no lock in the original; it is one step here, so two of them running at the same time on one context are not covered.
- Reset: the original compares the periods before it takes the lock, the model under the lock, so a change of the period in between is not covered.
- AddTimer: a timer always has a callback; an empty function object, which fails only when it is called, is not modelled. Addresses of freed timers are not reused.
- Context switching, stacks, pthreads, epoll, pipes, sockets, the system call hooks and the caller-thread root fiber: they are steps or inputs of the model.
- Agreement between the kernel's epoll set and the registered events: `delEvent` and `cancelEvent` pass uninitialised events to epoll.
- An exception that leaves the idle fiber.
- Liveness of the scheduler and fairness between fibers: the results are about safety, and about what can still happen (`CanDrain`, `CanReturn`, `GetsBothPermits`).
- Explicit-position `ByteArray::read`, `writeToFile`, `readFromFile`, `toHexString`: the first starts from the wrong block and the second miscounts from a position inside a block; the others would add easy members.
- Floating-point values and the other string forms of `ByteArray`: fixed-width and varint encodings cover them.
- WebSocket handshake, Ragel HTTP parsers, HTTP servers and connection pools.
- MySQL, Redis, ZooKeeper, YAML configuration, JSON and protobuf adapters: thin use of libraries that are not part of the repository.
- Logging, daemon, environment, modules, application start-up, servlets and addresses: easy maps and plumbing.
