/** The bounded drop-oldest queue: what each critical section does, as a function on values and as
    an object updated in place. */
module FrameQueue {

  datatype Q<T> = Q(items: seq<T>, dropped: nat, isShut: bool)

  /** How many items a queue may hold. */
  type Size = n: nat | 1 <= n witness 1

  /** `push` with room for `max` items: the oldest goes when there is none left. */
  function AfterPush<T>(q: Q<T>, max: Size, item: T): (r: Q<T>)
    ensures |q.items| <= max ==> |r.items| <= max
  {
    if |q.items| >= max then Q(q.items[1..] + [item], q.dropped + 1, q.isShut)
    else Q(q.items + [item], q.dropped, q.isShut)
  }

  /** Whether a waiter may leave the wait: something to take, or shutdown. */
  predicate MayPass<T>(q: Q<T>) { q.items != [] || q.isShut }

  /** The outcome of `pop` once it may pass: nothing after shutdown, the oldest item otherwise. */
  datatype Popped<T> = Nothing | Item(value: T)

  function AfterPop<T>(q: Q<T>): (r: (Q<T>, Popped<T>))
    requires MayPass(q)
  {
    if q.isShut then (q, Nothing) else (q.(items := q.items[1..]), Item(q.items[0]))
  }

  // ---- the object -----------------------------------------------------------

  class FrameQueue<T> {
    const maxSize: Size
    var queue: seq<T>
    var droppedCount: nat
    var isShut: bool

    /** Everything ever pushed, and how many of the removed items were popped rather than dropped. */
    ghost var history: seq<T>
    ghost var popped: nat

    constructor (maxSize: Size)
      ensures this.maxSize == maxSize && Valid() && Value() == Q([], 0, false) && history == []
    {
      this.maxSize, queue, droppedCount, isShut := maxSize, [], 0, false;
      history, popped := [], 0;
    }

    /** Removed items followed by the present ones are exactly what was pushed, in order. */
    ghost predicate Valid()
      reads this
    {
      && |queue| <= maxSize
      && droppedCount + popped + |queue| == |history|
      && queue == history[droppedCount + popped..]
    }

    function Value(): Q<T>
      reads this
    {
      Q(queue, droppedCount, isShut)
    }

    method Push(item: T)
      requires Valid()
      modifies this
      ensures Valid() && Value() == AfterPush(old(Value()), maxSize, item)
      ensures history == old(history) + [item] && popped == old(popped)
      ensures queue[|queue| - 1] == item && droppedCount >= old(droppedCount)
    {
      if |queue| >= maxSize {
        queue := queue[1..];
        droppedCount := droppedCount + 1;
      }
      queue := queue + [item];
      history := history + [item];
    }

    /** The part of `pop` after the wait. A packet it returns is the oldest one neither popped nor dropped. */
    method TakeFront() returns (r: Popped<T>)
      requires Valid() && MayPass(Value())
      modifies this
      ensures Valid() && (Value(), r) == AfterPop(old(Value())) && history == old(history)
      ensures r.Item? <==> !isShut
      ensures r.Item? ==> popped == old(popped) + 1 && r.value == history[droppedCount + old(popped)]
    {
      if isShut {
        return Nothing;
      }
      r := Item(queue[0]);
      queue := queue[1..];
      popped := popped + 1;
    }

    method Shutdown()
      requires Valid()
      modifies this
      ensures Valid() && Value() == old(Value()).(isShut := true) && history == old(history)
    {
      isShut := true;
    }

    method Size() returns (n: nat)
      requires Valid()
      ensures n == |queue| <= maxSize
    {
      n := |queue|;
    }

    method Dropped() returns (n: nat)
      ensures n == droppedCount
    {
      n := droppedCount;
    }
  }
}
