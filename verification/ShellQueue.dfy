/** The priority queue of a shell, and the pop that skips what may not run yet. */
module ShellQueue {
  import opened Options
  import opened Messages

  datatype QueueItem = QueueItem(priority: real, order: nat, inbound: Request)

  /** `QueueItem::cmp`: the heap pops `a` before `b`. */
  predicate Above(a: QueueItem, b: QueueItem) {
    a.priority > b.priority || (a.priority == b.priority && a.order < b.order)
  }

  /** `BinaryHeap::pop`, on the heap as a bag of items. */
  method PopBest(queue: seq<QueueItem>) returns (item: QueueItem, rest: seq<QueueItem>)
    requires queue != []
    ensures multiset(queue) == multiset(rest) + multiset{item}
    ensures forall x | x in queue :: x.priority < item.priority || (x.priority == item.priority && item.order <= x.order)
    ensures |rest| == |queue| - 1
  {
    var best := 0;
    for i := 1 to |queue|
      invariant best < i <= |queue|
      invariant forall k | 0 <= k < i :: !Above(queue[k], queue[best])
    {
      if Above(queue[i], queue[best]) { best := i; }
    }
    item := queue[best];
    rest := queue[..best] + queue[best + 1..];
    assert queue == queue[..best] + [item] + queue[best + 1..];
  }

  /** The guard of the pop: an execute request waits for the lane, and for a hold that is at least
      as urgent. */
  predicate MayRun(item: QueueItem, executionActive: bool, held: Option<QueueItem>) {
    !item.inbound.kind.Execute? || (!executionActive && (held.Some? ==> item.priority > held.value.priority))
  }

  /** `pop_runnable`: pop items, park the ones that may not run, and put them back. It takes out
      the best item that may run, and nothing else. */
  method PopRunnable(queue: seq<QueueItem>, executionActive: bool, held: Option<QueueItem>)
    returns (runnable: Option<QueueItem>, rest: seq<QueueItem>)
    ensures runnable.None? ==>
              && multiset(rest) == multiset(queue)
              && forall x | x in queue ::
                   x.inbound.kind.Execute? && (executionActive || (held.Some? && x.priority <= held.value.priority))
    ensures runnable.Some? ==>
              var item := runnable.value;
              && (item.inbound.kind.Execute? ==> !executionActive && (held.Some? ==> item.priority > held.value.priority))
              && multiset(queue) == multiset(rest) + multiset{item}
              && forall x | x in queue && !(x.inbound.kind.Execute? && (executionActive || (held.Some? && x.priority <= held.value.priority))) ::
                   x.priority < item.priority || (x.priority == item.priority && item.order <= x.order)
  {
    var heap, parked := queue, [];
    runnable := None;
    while heap != [] && runnable.None?
      invariant multiset(queue) == multiset(heap) + multiset(parked) + if runnable.Some? then multiset{runnable.value} else multiset{}
      invariant forall x | x in parked :: !MayRun(x, executionActive, held)
      invariant runnable.Some? ==>
                  && MayRun(runnable.value, executionActive, held)
                  && forall x | x in heap ::
                       x.priority < runnable.value.priority
                       || (x.priority == runnable.value.priority && runnable.value.order <= x.order)
      decreases |heap|, runnable.None?
    {
      var item, left := PopBest(heap);
      ghost var before := heap;
      heap := left;
      assert forall x | x in heap :: x in multiset(before);
      assert multiset(before)[item] > 0;
      if MayRun(item, executionActive, held) {
        runnable := Some(item);
      } else {
        parked := parked + [item];
      }
    }
    rest := heap + parked;
    forall x | x in queue
      ensures x in heap || x in parked || runnable == Some(x)
    {
      assert multiset(queue)[x] > 0;
    }
  }
}
