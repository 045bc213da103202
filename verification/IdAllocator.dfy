module IdAllocator {
  /** The allocator of ids: what has been given out, what has been given back, and how many ids it needs. */

  import opened Sequences

  /** recycled_ids, used_ids and next_id. */
  datatype Ids = Ids(recycled: seq<int>, used: set<int>, next: int)

  datatype Op = Allocate | Deallocate(id: int)

  datatype Batch = Ok(ids: seq<int>) | LengthError

  /** The id that the next allocation gives out: the one given back longest ago, else a new one. */
  function Given(s: Ids): int
  {
    if s.recycled != [] then s.recycled[0] else s.next
  }

  function After(s: Ids, op: Op): Ids
  {
    match op
    case Allocate =>
      if s.recycled != [] then Ids(s.recycled[1..], s.used + {s.recycled[0]}, s.next)
      else Ids([], s.used + {s.next}, s.next + 1)
    case Deallocate(id) =>
      if id in s.used then Ids(s.recycled + [id], s.used - {id}, s.next) else s
  }

  /** The state after a sequence of operations on an allocator reset to start. */
  function Run(start: int, ops: seq<Op>): Ids
  {
    if ops == [] then Ids([], {}, start) else After(Run(start, ops[..|ops| - 1]), ops[|ops| - 1])
  }

  /** The largest number of ids ever in use at once. */
  function Peak(start: int, ops: seq<Op>): nat
  {
    if ops == [] then 0
    else
      var before := Peak(start, ops[..|ops| - 1]);
      var now := |Run(start, ops).used|;
      if before < now then now else before
  }

  /** Every id from start up to next is either in use or given back, once. */
  ghost predicate Partition(s: Ids, start: int)
  {
    && start <= s.next && NoDup(s.recycled)
    && (forall id :: id in s.recycled ==> id !in s.used)
    && (forall id: int :: start <= id < s.next <==> id in s.used || id in s.recycled)
    && |s.used| + |s.recycled| == s.next - start
  }

  /** The front of the recycled ids goes back into use. */
  lemma ReusePartition(s: Ids, start: int)
    requires Partition(s, start) && s.recycled != []
    ensures Partition(Ids(s.recycled[1..], s.used + {s.recycled[0]}, s.next), start)
  {
    var x, rest := s.recycled[0], s.recycled[1..];
    assert s.recycled == [x] + rest;
    forall i, j | 0 <= i < j < |rest|
      ensures rest[i] != rest[j]
    {
      assert s.recycled[i + 1] != s.recycled[j + 1];
    }
    forall id | id in rest
      ensures id != x
    {
      var j :| 0 <= j < |rest| && rest[j] == id;
      assert s.recycled[0] != s.recycled[j + 1];
    }
    assert x !in s.used;
    Members(x, rest);
  }

  lemma Members(x: int, rest: seq<int>)
    ensures forall id :: id in [x] + rest <==> id == x || id in rest
  {
  }

  lemma NewPartition(s: Ids, start: int)
    requires Partition(s, start) && s.recycled == []
    ensures Partition(Ids([], s.used + {s.next}, s.next + 1), start)
  {
    assert s.next !in s.used;
  }

  lemma FreePartition(s: Ids, start: int, id: int)
    requires Partition(s, start) && id in s.used
    ensures Partition(Ids(s.recycled + [id], s.used - {id}, s.next), start)
  {
    var q := s.recycled + [id];
    forall i, j | 0 <= i < j < |q|
      ensures q[i] != q[j]
    {
      assert j < |s.recycled| ==> s.recycled[i] != s.recycled[j];
      assert s.recycled[i] in s.recycled;
    }
    forall x
      ensures x in q <==> x in s.recycled || x == id
    {
    }
  }

  lemma AfterPartition(s: Ids, start: int, op: Op)
    requires Partition(s, start)
    ensures Partition(After(s, op), start)
  {
    match op
    case Allocate =>
      if s.recycled != [] {
        ReusePartition(s, start);
      } else {
        NewPartition(s, start);
      }
    case Deallocate(id) =>
      if id in s.used {
        FreePartition(s, start, id);
      }
  }

  /** Over every run since the last reset: the ids in use and the ids given back are disjoint, none is given
      back twice, together they are exactly those from start up to next, and as many ids have been made
      as were ever in use at once. */
  lemma {:induction false} NextIsPeak(start: int, ops: seq<Op>)
    ensures Partition(Run(start, ops), start)
    ensures Run(start, ops).next - start == Peak(start, ops)
  {
    if ops != [] {
      var rest, op := ops[..|ops| - 1], ops[|ops| - 1];
      NextIsPeak(start, rest);
      AfterPartition(Run(start, rest), start, op);
    }
  }

  /** An id is given out only while nobody holds it. */
  lemma GivenIsFree(start: int, ops: seq<Op>)
    ensures var s := Run(start, ops); Given(s) !in s.used && After(s, Allocate).used == s.used + {Given(s)}
    ensures start <= Given(Run(start, ops)) <= start + Peak(start, ops)
  {
    NextIsPeak(start, ops);
    var s := Run(start, ops);
    assert Given(s) in s.recycled || Given(s) == s.next;
  }

  /** Whoever got an id holds it until it is given back. */
  lemma {:induction false} Held(start: int, ops: seq<Op>, i: nat, j: nat)
    requires i < j <= |ops| && ops[i] == Allocate
    requires forall k :: i < k < j ==> ops[k] != Deallocate(Given(Run(start, ops[..i])))
    ensures Given(Run(start, ops[..i])) in Run(start, ops[..j]).used
  {
    assert ops[..j][..j - 1] == ops[..j - 1];
    if i < j - 1 {
      Held(start, ops, i, j - 1);
    }
  }

  /** Two allocations that give the same id have its deallocation between them. */
  lemma NeverTwice(start: int, ops: seq<Op>, i: nat, j: nat)
    requires i < j < |ops| && ops[i] == Allocate && ops[j] == Allocate
    requires Given(Run(start, ops[..i])) == Given(Run(start, ops[..j]))
    ensures exists k :: i < k < j && ops[k] == Deallocate(Given(Run(start, ops[..i])))
  {
    if forall k :: i < k < j ==> ops[k] != Deallocate(Given(Run(start, ops[..i]))) {
      Held(start, ops, i, j);
      GivenIsFree(start, ops[..j]);
    }
  }

  // ---- batches ----

  /** count allocations one after the other. */
  function Allocations(count: nat): seq<Op>
  {
    seq(count, i => Allocate)
  }

  function Deallocations(ids: seq<int>): seq<Op>
  {
    seq(|ids|, i requires 0 <= i < |ids| => Deallocate(ids[i]))
  }

  lemma DeallocateOn(ids: seq<int>, i: nat)
    requires i < |ids|
    ensures Deallocations(ids[..i + 1]) == Deallocations(ids[..i]) + [Deallocate(ids[i])]
  {
  }

  lemma RunOn(start: int, ops: seq<Op>, op: Op)
    ensures Run(start, ops + [op]) == After(Run(start, ops), op)
  {
    assert (ops + [op])[..|ops|] == ops;
  }

  lemma AllocateOn(start: int, ops: seq<Op>, count: nat)
    requires 0 < count
    ensures Run(start, ops + Allocations(count)) == After(Run(start, ops + Allocations(count - 1)), Allocate)
  {
    assert ops + Allocations(count) == (ops + Allocations(count - 1)) + [Allocate];
    RunOn(start, ops + Allocations(count - 1), Allocate);
  }

  /** The ids that count allocations give out, in their order. */
  function Gifts(start: int, ops: seq<Op>, count: nat): seq<int>
  {
    if count == 0 then [] else Gifts(start, ops, count - 1) + [Given(Run(start, ops + Allocations(count - 1)))]
  }

  /** The ids g taken in state s leave state t. */
  ghost predicate Taken(s: Ids, g: seq<int>, t: Ids)
  {
    NoDup(g) && (forall id :: id in g ==> id !in s.used) && forall id :: id in t.used <==> id in s.used || id in g
  }

  lemma TakenOneMore(s: Ids, g: seq<int>, t: Ids)
    requires Taken(s, g, t) && Given(t) !in t.used
    ensures Taken(s, g + [Given(t)], After(t, Allocate))
  {
    var x := Given(t);
    assert After(t, Allocate).used == t.used + {x};
    forall id
      ensures id in g + [x] <==> id in g || id == x
    {
    }
    forall i, j | 0 <= i < j < |g + [x]|
      ensures (g + [x])[i] != (g + [x])[j]
    {
      assert g[i] in g;
    }
  }

  /** They are as many, all different, none was in use before, and all are then. */
  lemma {:induction false} GiftsAreNew(start: int, ops: seq<Op>, count: nat)
    ensures |Gifts(start, ops, count)| == count
    ensures Taken(Run(start, ops), Gifts(start, ops, count), Run(start, ops + Allocations(count)))
  {
    if count == 0 {
      assert ops + Allocations(count) == ops;
    } else {
      AllocateOn(start, ops, count);
      GiftsAreNew(start, ops, count - 1);
      GivenIsFree(start, ops + Allocations(count - 1));
      TakenOneMore(Run(start, ops), Gifts(start, ops, count - 1), Run(start, ops + Allocations(count - 1)));
    }
  }

  function Reused(s: Ids, count: nat): nat
  {
    if count <= |s.recycled| then count else |s.recycled|
  }

  lemma {:induction false} BatchState(start: int, ops: seq<Op>, count: nat)
    ensures var s, t := Run(start, ops), Run(start, ops + Allocations(count));
      t.recycled == s.recycled[Reused(s, count)..] && t.next == s.next + (count - Reused(s, count))
  {
    if count == 0 {
      assert ops + Allocations(count) == ops;
    } else {
      AllocateOn(start, ops, count);
      BatchState(start, ops, count - 1);
    }
  }

  lemma GiftAt(start: int, ops: seq<Op>, count: nat, i: nat)
    requires i < count
    ensures |Gifts(start, ops, count)| == count
    ensures Gifts(start, ops, count)[i] == Given(Run(start, ops + Allocations(i)))
  {
    if i < count - 1 {
      GiftAt(start, ops, count - 1, i);
    } else {
      GiftsAreNew(start, ops, count);
      GiftsAreNew(start, ops, count - 1);
    }
  }

  /** A batch gives first what was given back, in its order, then new ids in theirs. */
  lemma BatchGives(start: int, ops: seq<Op>, count: nat, i: nat)
    requires i < count
    ensures var s, g := Run(start, ops), Gifts(start, ops, count);
      |g| == count && g[i] == if i < |s.recycled| then s.recycled[i] else s.next + (i - |s.recycled|)
  {
    GiftAt(start, ops, count, i);
    BatchState(start, ops, i);
  }

  /** Giving back ids in state s leaves state t: those in use are free, once each; the others and
      repetitions change nothing. */
  ghost predicate Freed(s: Ids, ids: seq<int>, t: Ids)
  {
    && (forall id :: id in t.used <==> id in s.used && id !in ids)
    && (forall id :: id in t.recycled <==> id in s.recycled || (id in s.used && id in ids))
    && s.recycled <= t.recycled && t.next == s.next
  }

  lemma FreedOneMore(s: Ids, ids: seq<int>, t: Ids, x: int)
    requires Freed(s, ids, t)
    ensures Freed(s, ids + [x], After(t, Deallocate(x)))
  {
    forall id
      ensures id in ids + [x] <==> id in ids || id == x
      ensures id in t.recycled + [x] <==> id in t.recycled || id == x
    {
    }
  }

  lemma {:induction false} BatchFrees(start: int, ops: seq<Op>, ids: seq<int>)
    ensures Freed(Run(start, ops), ids, Run(start, ops + Deallocations(ids)))
    ensures NoDup(Run(start, ops + Deallocations(ids)).recycled)
  {
    NextIsPeak(start, ops + Deallocations(ids));
    if ids == [] {
      assert ops + Deallocations(ids) == ops;
    } else {
      var rest, x := ids[..|ids| - 1], ids[|ids| - 1];
      assert ids == rest + [x];
      assert ops + Deallocations(ids) == (ops + Deallocations(rest)) + [Deallocate(x)];
      RunOn(start, ops + Deallocations(rest), Deallocate(x));
      BatchFrees(start, ops, rest);
      FreedOneMore(Run(start, ops), rest, Run(start, ops + Deallocations(rest)), x);
    }
  }

  /** Those of the ids that are in use, each where it first stands. */
  function FirstStanding(used: set<int>, ids: seq<int>): seq<int>
  {
    if ids == [] then []
    else
      var before, x := FirstStanding(used, ids[..|ids| - 1]), ids[|ids| - 1];
      if x in used && x !in before then before + [x] else before
  }

  lemma {:induction false} StandingIs(used: set<int>, ids: seq<int>, id: int)
    ensures id in FirstStanding(used, ids) <==> id in used && id in ids
  {
    if ids != [] {
      StandingIs(used, ids[..|ids| - 1], id);
      assert ids == ids[..|ids| - 1] + [ids[|ids| - 1]];
    }
  }

  lemma {:induction false} StandingAll(used: set<int>, ids: seq<int>)
    requires NoDup(ids) && forall id :: id in ids ==> id in used
    ensures FirstStanding(used, ids) == ids
  {
    if ids != [] {
      var rest, x := ids[..|ids| - 1], ids[|ids| - 1];
      assert ids == rest + [x];
      StandingAll(used, rest);
    }
  }

  /** They queue up for reuse in the order in which they stand, behind those given back before. */
  lemma {:induction false} BatchQueues(start: int, ops: seq<Op>, ids: seq<int>)
    ensures var s, t := Run(start, ops), Run(start, ops + Deallocations(ids));
      t.recycled == s.recycled + FirstStanding(s.used, ids)
  {
    if ids == [] {
      assert ops + Deallocations(ids) == ops;
    } else {
      var rest, x := ids[..|ids| - 1], ids[|ids| - 1];
      assert ops + Deallocations(ids) == (ops + Deallocations(rest)) + [Deallocate(x)];
      RunOn(start, ops + Deallocations(rest), Deallocate(x));
      BatchQueues(start, ops, rest);
      BatchFrees(start, ops, rest);
      StandingIs(Run(start, ops).used, rest, x);
    }
  }

  /** A batch of different ids in use comes back in its order. */
  lemma BatchComesBack(start: int, ops: seq<Op>, ids: seq<int>)
    requires NoDup(ids) && forall id :: id in ids ==> id in Run(start, ops).used
    ensures Run(start, ops + Deallocations(ids)).recycled == Run(start, ops).recycled + ids
  {
    BatchQueues(start, ops, ids);
    StandingAll(Run(start, ops).used, ids);
  }

  /** Allocating a batch and giving it back frees all of it: use is as it was. */
  lemma BatchRoundTrip(start: int, ops: seq<Op>, count: nat, ids: seq<int>)
    requires forall id :: id in ids <==> id in Run(start, ops + Allocations(count)).used && id !in Run(start, ops).used
    ensures Run(start, ops + Allocations(count) + Deallocations(ids)).used == Run(start, ops).used
  {
    BatchFrees(start, ops + Allocations(count), ids);
    UseGrows(start, ops, count);
    var s, u := Run(start, ops), Run(start, ops + Allocations(count) + Deallocations(ids));
    forall id
      ensures id in u.used <==> id in s.used
    {
      assert id in ids || id !in ids;
    }
    assert u.used == s.used;
  }

  lemma {:induction false} UseGrows(start: int, ops: seq<Op>, count: nat)
    ensures Run(start, ops).used <= Run(start, ops + Allocations(count)).used
  {
    var all := ops + Allocations(count);
    if count == 0 {
      assert all == ops;
    } else {
      var less := ops + Allocations(count - 1);
      assert all == less + [Allocate];
      RunOn(start, less, Allocate);
      UseGrows(start, ops, count - 1);
    }
  }

  // ---- the object ----

  /** The methods hold the mutex throughout, so each is one step. */
  class IdAllocator {
    var recycledIds: seq<int>
    var usedIds: set<int>
    var nextId: int
    ghost var start: int
    ghost var history: seq<Op>   // since the last reset

    ghost function View(): Ids
      reads this
    {
      Ids(recycledIds, usedIds, nextId)
    }

    ghost predicate Valid()
      reads this
    {
      View() == Run(start, history)
    }

    /** What the history makes certain of the fields. */
    lemma Consistent()
      requires Valid()
      ensures Partition(View(), start) && nextId - start == Peak(start, history)
    {
      NextIsPeak(start, history);
    }

    constructor ()
      ensures Valid() && start == 1 && history == []
    {
      recycledIds, usedIds, nextId := [], {}, 1;
      start, history := 1, [];
    }

    method Allocate() returns (id: int)
      requires Valid()
      modifies this
      ensures Valid() && start == old(start) && history == old(history) + [Op.Allocate]
      ensures id == Given(old(View())) && id !in old(usedIds) && usedIds == old(usedIds) + {id}
    {
      id := Take();
    }

    /** The region that allocating one id and allocating several have in common. */
    method Take() returns (id: int)
      requires Valid()
      modifies this
      ensures Valid() && start == old(start) && history == old(history) + [Op.Allocate]
      ensures id == Given(old(View())) && id !in old(usedIds) && usedIds == old(usedIds) + {id}
    {
      GivenIsFree(start, history);
      RunOn(start, history, Op.Allocate);
      if recycledIds != [] {
        id := recycledIds[0];
        recycledIds := recycledIds[1..];
      } else {
        id := nextId;
        nextId := nextId + 1;
      }
      usedIds := usedIds + {id};
      history := history + [Op.Allocate];
    }

    method Deallocate(id: int) returns (ok: bool)
      requires Valid()
      modifies this
      ensures Valid() && start == old(start) && history == old(history) + [Op.Deallocate(id)]
      ensures ok <==> id in old(usedIds)
      ensures usedIds == old(usedIds) - {id} && nextId == old(nextId)
      ensures recycledIds == if ok then old(recycledIds) + [id] else old(recycledIds)
    {
      ok := GiveBack(id);
    }

    /** The region that releasing one id and releasing several have in common. */
    method GiveBack(id: int) returns (ok: bool)
      requires Valid()
      modifies this
      ensures Valid() && start == old(start) && history == old(history) + [Op.Deallocate(id)]
      ensures ok <==> id in old(usedIds)
      ensures usedIds == old(usedIds) - {id} && nextId == old(nextId)
      ensures recycledIds == if ok then old(recycledIds) + [id] else old(recycledIds)
    {
      RunOn(start, history, Op.Deallocate(id));
      history := history + [Op.Deallocate(id)];
      if id !in usedIds {
        return false;
      }
      usedIds := usedIds - {id};
      recycledIds := recycledIds + [id];
      ok := true;
    }

    /** A negative count makes reserve throw before anything has changed. */
    method AllocateBatch(count: int) returns (r: Batch)
      requires Valid()
      modifies this
      ensures Valid() && start == old(start)
      ensures count < 0 ==> r == LengthError && View() == old(View()) && history == old(history)
      ensures 0 <= count ==> r == Ok(Gifts(start, old(history), count)) && history == old(history) + Allocations(count)
    {
      if count < 0 {
        return LengthError;
      }
      var ids := [];
      for i := 0 to count
        invariant Valid() && start == old(start)
        invariant history == old(history) + Allocations(i) && ids == Gifts(start, old(history), i)
      {
        var id := Take();
        ids := ids + [id];
        assert Allocations(i + 1) == Allocations(i) + [Op.Allocate];
      }
      r := Ok(ids);
    }

    method DeallocateBatch(ids: seq<int>)
      requires Valid()
      modifies this
      ensures Valid() && start == old(start) && history == old(history) + Deallocations(ids)
    {
      for i := 0 to |ids|
        invariant Valid() && start == old(start) && history == old(history) + Deallocations(ids[..i])
      {
        DeallocateOn(ids, i);
        var ok := GiveBack(ids[i]);
      }
      assert ids[..|ids|] == ids;
    }

    method IsInUse(id: int) returns (r: bool)
      requires Valid()
      ensures r <==> start <= id < nextId && id !in recycledIds
    {
      Consistent();
      r := id in usedIds;
    }

    method UsedCount() returns (n: nat)
      requires Valid()
      ensures n + |recycledIds| == Peak(start, history)
    {
      Consistent();
      n := |usedIds|;
    }

    /** Everything given out so far is forgotten. */
    method Reset(startId: int)
      modifies this
      ensures Valid() && start == startId && history == []
    {
      recycledIds, usedIds, nextId := [], {}, startId;
      start, history := startId, [];
    }
  }
}
