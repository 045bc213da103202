module RingQueue {
  /** The ring as an object over its vector. A call runs from its semaphore to its last post; a call that its
    semaphore would block reports so and changes nothing. How calls interleave is the matter of module
    `RingMachine`. */

  import opened Modular

  type Item = int

  datatype Emplaced = EmplaceBlocks | Refused | Accepted

  datatype Popped = PopBlocks | Nothing | Got(item: Item)

  class RingQueue {
    var tasks: array<Item>
    var head: nat
    var tail: nat
    var full: nat     // semaphore: free slots
    var empty: nat    // semaphore: items
    var stop: bool
    ghost var written: seq<Item>
    ghost var read: nat
    ghost var posts: nat   // by Stop, to each semaphore

    ghost predicate Valid()
      reads this, tasks
    {
      && 1 <= tasks.Length && read <= |written| <= read + tasks.Length
      && head == read % tasks.Length && tail == |written| % tasks.Length
      && (forall k :: read <= k < |written| ==> tasks[k % tasks.Length] == written[k])
      && full + (|written| - read) == tasks.Length + posts && empty == |written| - read + posts
      && (if stop then tasks.Length <= posts else posts == 0)
    }

    /** What is in the ring, oldest first. */
    ghost function Items(): seq<Item>
      reads this
      requires read <= |written|
    {
      written[read..]
    }

    constructor (size: nat)
      requires 1 <= size
      ensures Valid() && fresh(tasks) && tasks.Length == size && Items() == [] && !stop
    {
      tasks := new Item[size];
      head, tail, full, empty, stop := 0, 0, size, 0, false;
      written, read, posts := [], 0, 0;
    }

    method Emplace(x: Item) returns (r: Emplaced)
      requires Valid()
      modifies this, tasks
      ensures Valid() && tasks == old(tasks) && stop == old(stop)
      ensures r == EmplaceBlocks <==> !stop && |old(Items())| == tasks.Length
      ensures r == Refused <==> stop
      ensures Items() == if r == Accepted then old(Items()) + [x] else old(Items())
    {
      if full == 0 {
        return EmplaceBlocks;
      }
      NotTail();
      full := full - 1;
      if stop {
        full := full + 1;
        return Refused;
      }
      var nextTail := (tail + 1) % tasks.Length;
      Succ(|written|, tasks.Length);
      tasks[tail] := x;
      tail := nextTail;
      written := written + [x];
      empty := empty + 1;
      r := Accepted;
    }

    /** While a slot is free, tail points at none of the items. */
    lemma NotTail()
      requires Valid()
      ensures |written| < read + tasks.Length ==> forall k :: read <= k < |written| ==> k % tasks.Length != tail
    {
      if |written| == read + tasks.Length {
        return;
      }
      forall k | read <= k < |written|
        ensures k % tasks.Length != tail
      {
        Apart(k, |written|, tasks.Length);
      }
    }

    lemma IndicesEqual()
      requires Valid()
      ensures head == tail <==> Items() == [] || |Items()| == tasks.Length
    {
      if 0 < |Items()| < tasks.Length {
        Apart(read, |written|, tasks.Length);
      }
      Round(read, tasks.Length);
    }

    method Pop() returns (r: Popped)
      requires Valid()
      modifies this
      ensures Valid() && tasks == old(tasks) && stop == old(stop)
      ensures r == PopBlocks <==> !stop && old(Items()) == []
      ensures r == Nothing <==> stop && (old(Items()) == [] || |old(Items())| == tasks.Length)
      ensures r.Got? ==> old(Items()) == [r.item] + Items()
      ensures !r.Got? ==> Items() == old(Items())
    {
      if empty == 0 {
        return PopBlocks;
      }
      IndicesEqual();
      empty := empty - 1;
      if stop && head == tail {
        empty := empty + 1;
        return Nothing;
      }
      r := Got(tasks[head]);
      Succ(read, tasks.Length);
      head := (head + 1) % tasks.Length;
      read := read + 1;
      full := full + 1;
    }

    /** The flag first, then a post to each semaphore for each slot. */
    method Stop()
      requires Valid()
      modifies this
      ensures Valid() && tasks == old(tasks) && stop && Items() == old(Items())
      ensures full == old(full) + tasks.Length && empty == old(empty) + tasks.Length
    {
      stop := true;
      for i := 0 to tasks.Length
        invariant tasks == old(tasks) && stop && written == old(written) && read == old(read)
        invariant head == old(head) && tail == old(tail) && posts == old(posts) + i
        invariant full == old(full) + i && empty == old(empty) + i
      {
        empty := empty + 1;
        full := full + 1;
        posts := posts + 1;
      }
    }

    /** Equal indices also mean a full ring. */
    method IsEmpty() returns (b: bool)
      requires Valid()
      ensures b <==> Items() == [] || |Items()| == tasks.Length
    {
      IndicesEqual();
      b := head == tail;
    }
  }
}
