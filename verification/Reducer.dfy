/** The reducer's inner loop as it runs (`reducer_loop`, src/server.cpp). */
module Reducer {
  import opened Tables
  import opened Model
  import opened Dispatch
  import opened Queue

  class ReducerThread {
    const setup: Setup
    const maxBatch: nat
    var authority: Authority
    ghost var acts: seq<Act>

    constructor (setup: Setup, maxBatch: nat)
      ensures Valid() && acts == [] && this.setup == setup
      ensures this.maxBatch == if maxBatch == 0 then 1 else maxBatch
    {
      this.setup, this.maxBatch := setup, if maxBatch == 0 then 1 else maxBatch;
      authority, acts := Start(setup), [];
    }

    /** What this thread holds is what the sequential authority makes of the same acts. */
    ghost predicate Valid()
      reads this
    {
      maxBatch > 0 && authority == Fold(setup, acts)
    }

    method Take(item: Item)
      requires Valid()
      modifies this
      ensures Valid() && acts == old(acts) + [Served(item)]
    {
      hide Serve, Items;
      FoldStep(setup, acts, Served(item));
      authority := Serve(setup, authority, item);
      acts := acts + [Served(item)];
    }

    method Housekeeping(due: bool)
      requires Valid()
      modifies this
      ensures Valid() && acts == old(acts) + [Tidied(due)]
    {
      hide Tidy, Items;
      FoldStep(setup, acts, Tidied(due));
      authority := authority.(core := Tidy(authority.core, due));
      acts := acts + [Tidied(due)];
    }

    /** One batch, starting from an item just taken: up to `maxBatch` items in queue order, ending early at
        the stop item or when nothing waits. */
    method Batch(queue: BoundedQueue<Item>, first: Item) returns (stopping: bool)
      requires Valid() && queue.Valid() && queue.popped > 0 && first == queue.pushed[queue.popped - 1]
      modifies this, queue`queue, queue`popped
      ensures Valid() && queue.Valid() && queue.pushed == old(queue.pushed)
      ensures var from := old(queue.popped) - 1;
              && from <= queue.popped - (if stopping then 1 else 0)
              && acts == old(acts) + AllServed(queue.pushed[from..queue.popped - (if stopping then 1 else 0)])
              && (forall i :: from <= i < queue.popped - (if stopping then 1 else 0) ==> queue.pushed[i] != Stop)
              && (stopping ==> queue.pushed[queue.popped - 1] == Stop)
              && (!stopping ==> queue.popped - from == maxBatch || queue.queue == [])
    {
      hide Fold, AllServed;
      ServedNone(queue.pushed, queue.popped - 1);
      var item := first;
      ghost var from := queue.popped - 1;
      var processed := 0;
      while true
        invariant Valid() && queue.Valid() && queue.pushed == old(queue.pushed)
        invariant processed < maxBatch && queue.popped == from + processed + 1
        invariant item == queue.pushed[from + processed]
        invariant acts == old(acts) + AllServed(queue.pushed[from..from + processed])
        invariant forall i :: from <= i < from + processed ==> queue.pushed[i] != Stop
        decreases maxBatch - processed
      {
        if item == Stop { return true; }
        Take(item);
        ServedMore(queue.pushed, from, from + processed);
        if processed + 1 >= maxBatch { return false; }
        var next := queue.TryPop();
        if next.None? { return false; }
        item, processed := next.value, processed + 1;
      }
    }
  }

  function AllServed(items: seq<Item>): seq<Act>
  {
    seq(|items|, i requires 0 <= i < |items| => Served(items[i]))
  }

  lemma ServedNone(items: seq<Item>, at: nat)
    requires at <= |items|
    ensures AllServed(items[at..at]) == []
  {}

  lemma ServedMore(items: seq<Item>, from: nat, to: nat)
    requires from <= to < |items|
    ensures AllServed(items[from..to]) + [Served(items[to])] == AllServed(items[from..to + 1])
  {}

  lemma FoldStep(setup: Setup, acts: seq<Act>, act: Act)
    ensures Fold(setup, acts + [act]) == Act1(setup, Fold(setup, acts), act)
  {
    hide Act1;
    assert (acts + [act])[..|acts|] == acts;
  }
}
