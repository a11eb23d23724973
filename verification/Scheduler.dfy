/**
  The work queue of the fiber scheduler (yk/scheduler.h, yk/scheduler.cc).

  `SchedulerQueue` holds what a worker thread does while it owns the scheduler's mutex:
  appending an item and scanning for the first item it may run.
 */
module Scheduling {
  import opened Common

  type FiberId = nat
  type ThreadId = int
  type CallbackId = nat
  type ItemId = nat

  datatype FiberState = INIT | HOLD | EXEC | TERM | READY | EXCEPT

  datatype Work = FiberWork(fiber: FiberId) | CallbackWork(cb: CallbackId)

  /** A queue entry. `thread` is -1 when any thread may take it; `id` numbers the calls to schedule. */
  datatype Item = Item(id: ItemId, work: Work, thread: ThreadId)

  const ANY_THREAD: ThreadId := -1

  predicate PinnedElsewhere(item: Item, self: ThreadId) {
    item.thread != ANY_THREAD && item.thread != self
  }

  /** The scan takes an item unless it is pinned to another thread or its fiber is still EXEC. */
  predicate Eligible(item: Item, exec: bool, self: ThreadId) {
    !PinnedElsewhere(item, self) && !(item.work.FiberWork? && exec)
  }

  /**
    Index of the item the scan takes, or |queue| when it takes none.  exec[i]: the fiber of entry i was
    EXEC when the scan came to it; fiber states change while the scan holds the mutex.
   */
  function FirstEligible(queue: seq<Item>, exec: seq<bool>, self: ThreadId): (k: nat)
    requires |exec| == |queue|
    ensures k <= |queue|
    ensures k < |queue| ==> Eligible(queue[k], exec[k], self)
    ensures forall i :: 0 <= i < k ==> !Eligible(queue[i], exec[i], self)
  {
    if |queue| == 0 then 0
    else if Eligible(queue[0], exec[0], self) then 0
    else
      var rest := FirstEligible(queue[1..], exec[1..], self);
      assert forall i :: 1 <= i < rest + 1 ==> queue[i] == queue[1..][i - 1] && exec[i] == exec[1..][i - 1];
      1 + rest
  }

  function Without<T>(s: seq<T>, k: nat): (r: seq<T>)
    requires k < |s|
    ensures |r| == |s| - 1
    ensures forall i :: 0 <= i < k ==> r[i] == s[i]
    ensures forall i :: k <= i < |r| ==> r[i] == s[i + 1]
  {
    s[..k] + s[k + 1..]
  }

  /** The part of the scheduler guarded by its mutex. */
  class SchedulerQueue {
    var fibers: seq<Item>
    var activeThreadCount: nat

    constructor ()
      ensures fibers == [] && activeThreadCount == 0
    {
      fibers, activeThreadCount := [], 0;
    }

    /** Appends an item; the caller tickles exactly when the queue was empty before. */
    method ScheduleNoLock(item: Item) returns (needTickle: bool)
      modifies this
      ensures fibers == old(fibers) + [item]
      ensures activeThreadCount == old(activeThreadCount)
      ensures needTickle <==> old(fibers) == []
    {
      needTickle := fibers == [];
      fibers := fibers + [item];
    }

    /** One pass of the scan a worker thread makes while it holds the mutex. */
    method TakeWork(exec: seq<bool>, self: ThreadId) returns (taken: Option<Item>, tickleMe: bool)
      requires |exec| == |fibers|
      modifies this
      ensures var k := FirstEligible(old(fibers), exec, self);
              && (taken.None? <==> k == |old(fibers)|)
              && (taken.None? ==> fibers == old(fibers) && activeThreadCount == old(activeThreadCount))
              && (taken.Some? ==>
                    && taken.value == old(fibers)[k]
                    && fibers == Without(old(fibers), k)
                    && activeThreadCount == old(activeThreadCount) + 1)
              && (tickleMe <==>
                    || k + 1 < |old(fibers)|
                    || exists i :: 0 <= i < k && PinnedElsewhere(old(fibers)[i], self))
    {
      var k := 0;
      taken, tickleMe := None, false;
      while k < |fibers|
        invariant 0 <= k <= |fibers|
        invariant fibers == old(fibers) && activeThreadCount == old(activeThreadCount) && taken == None
        invariant forall i :: 0 <= i < k ==> !Eligible(fibers[i], exec[i], self)
        invariant tickleMe <==> exists i :: 0 <= i < k && PinnedElsewhere(fibers[i], self)
      {
        var it := fibers[k];
        if it.thread != ANY_THREAD && it.thread != self {
          tickleMe := true;
          k := k + 1;
          continue;
        }
        if it.work.FiberWork? && exec[k] {
          k := k + 1;
          continue;
        }
        FirstIsUnique(fibers, exec, self, k);
        taken := Some(it);
        fibers := Without(fibers, k);
        activeThreadCount := activeThreadCount + 1;
        tickleMe := tickleMe || k < |fibers|;
        return;
      }
      FirstIsUnique(fibers, exec, self, k);
    }
  }

  /** The scan's answer is the only index with nothing eligible before it that is itself eligible or the end. */
  lemma FirstIsUnique(queue: seq<Item>, exec: seq<bool>, self: ThreadId, k: nat)
    requires |exec| == |queue| && k <= |queue|
    requires k < |queue| ==> Eligible(queue[k], exec[k], self)
    requires forall i :: 0 <= i < k ==> !Eligible(queue[i], exec[i], self)
    ensures FirstEligible(queue, exec, self) == k
  {
  }
}
