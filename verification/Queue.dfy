/** The bounded queue between connections and the reducer (include/cif/bounded_queue.hpp). */
module Queue {
  import opened Tables

  /** Each method is one critical section of the original. `pushed` and `popped` are its history. */
  class BoundedQueue<T> {
    const capacity: nat
    var queue: seq<T>
    var closed: bool
    ghost var pushed: seq<T>
    ghost var popped: nat

    constructor (capacity: nat)
      ensures Valid() && queue == [] && !closed && pushed == [] && popped == 0
      ensures this.capacity == if capacity == 0 then 1 else capacity
    {
      this.capacity := if capacity == 0 then 1 else capacity;
      queue, closed, pushed, popped := [], false, [], 0;
    }

    /** First in, first out: what waits is what was pushed less what was taken, in the same order. */
    ghost predicate Valid()
      reads this
    {
      0 < capacity && |queue| <= capacity && popped <= |pushed| && queue == pushed[popped..]
    }

    method Push(value: T) returns (ok: bool)
      requires Valid()
      modifies this`queue, this`pushed
      ensures Valid() && ok == (!closed && |old(queue)| < capacity)
      ensures pushed == if ok then old(pushed) + [value] else old(pushed)
    {
      if closed || |queue| >= capacity { return false; }
      queue, pushed := queue + [value], pushed + [value];
      return true;
    }

    /** `try_pop`; also what `pop_wait` does once it wakes, which is when something is queued or the queue
        has been closed. */
    method TryPop() returns (out: Option<T>)
      requires Valid()
      modifies this`queue, this`popped
      ensures Valid() && popped == old(popped) + (if out.Some? then 1 else 0)
      ensures out == if old(popped) < |pushed| then Some(pushed[old(popped)]) else None
    {
      if queue == [] { return None; }
      out := Some(queue[0]);
      queue, popped := queue[1..], popped + 1;
    }

    /** Closing refuses further items; what is queued can still be taken. */
    method Close()
      requires Valid()
      modifies this`closed
      ensures Valid() && closed
    {
      closed := true;
    }

    /** Drops everything that waits and opens again. */
    method Reset()
      requires Valid()
      modifies this`queue, this`closed, this`popped
      ensures Valid() && !closed && popped == |pushed|
    {
      queue, closed, popped := [], false, |pushed|;
    }
  }
}
