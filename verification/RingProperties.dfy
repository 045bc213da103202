module RingProperties {
  /** What the ring does in every reachable state: a bounded first-in first-out queue, also across its
    shutdown, whatever the producers, consumers and their interleaving. */

  import opened Sequences
  import opened Modular
  import opened RingMachine

  /** The items in the ring, oldest first. */
  function Queue(r: Ring): seq<Item>
    requires |r.read| <= |r.written|
  {
    r.written[|r.read|..]
  }

  /** The k-th oldest item stands k slots behind head. */
  lemma SlotOf(size: nat, r: Ring, k: nat)
    requires Contents(size, r) && k < |Queue(r)|
    ensures r.slots[(r.head + k) % size] == Queue(r)[k]
  {
    Shift(|r.read|, k, size);
    assert r.slots[(|r.read| + k) % size] == r.written[|r.read| + k];
  }

  /** Items come out in the order in which they went in; the live slots, going round from head, are
      exactly the items not yet read; there are never more than size. */
  lemma BoundedFifo(size: nat, r: Ring)
    requires 1 <= size && Reachable(size, r)
    ensures |r.read| <= |r.written| && |r.slots| == size && r.read == r.written[..|r.read|]
    ensures |Queue(r)| <= size
    ensures forall k :: 0 <= k < |Queue(r)| ==> r.slots[(r.head + k) % size] == Queue(r)[k]
    ensures r.tail == (r.head + |Queue(r)|) % size
  {
    ReachableInv(size, r);
    forall k | 0 <= k < |Queue(r)|
      ensures r.slots[(r.head + k) % size] == Queue(r)[k]
    {
      SlotOf(size, r, k);
    }
    Shift(|r.read|, |Queue(r)|, size);
  }

  lemma {:induction false} Shift(a: nat, k: nat, size: nat)
    requires 1 <= size
    ensures (a % size + k) % size == (a + k) % size
  {
    if k == 0 {
      ModIs(a % size, 0, a % size, size);
    } else {
      Shift(a, k - 1, size);
      Succ(a % size + (k - 1), size);
      Succ(a + (k - 1), size);
    }
  }

  /** Before the shutdown posts anything, every slot is free, promised to a producer past its P, occupied,
      or about to be announced free; and every item is announced, promised to a consumer past its P, or
      about to be announced. */
  lemma Accounting(size: nat, r: Ring)
    requires 1 <= size && Reachable(size, r) && !r.stop
    ensures r.full + ProCount(r.producers, false) + Occupancy(r) + ConCount(r.consumers, true) == size
    ensures r.empty + ConCount(r.consumers, false) + ProCount(r.producers, true) == Occupancy(r)
  {
    ReachableInv(size, r);
  }

  lemma ProRefines(size: nat, r: Ring, i: nat, t: Ring)
    requires Inv(size, r) && i < |r.producers| && ProStep(size, r, i) == Some(t)
    ensures |t.read| <= |t.written|
    ensures if r.producers[i].PAdvancing? then |Queue(r)| < size && Queue(t) == Queue(r) + [r.producers[i].x]
      else Queue(t) == Queue(r)
  {
    assert ProOk(size, r, i);
    if r.producers[i].PAdvancing? {
      SlotFree(size, r, i);
    }
  }

  lemma ConRefines(size: nat, r: Ring, j: nat, t: Ring)
    requires Inv(size, r) && j < |r.consumers| && ConStep(size, r, j) == Some(t)
    ensures |t.read| <= |t.written|
    ensures if r.consumers[j].CAdvancing? then
        Queue(r) != [] && r.consumers[j].v == Queue(r)[0] && Queue(t) == Queue(r)[1..]
      else Queue(t) == Queue(r)
  {
    assert ConOk(size, r, j);
  }

  lemma OtherRefines(size: nat, r: Ring, a: Action, t: Ring)
    requires Inv(size, r) && !a.Produce? && !a.Consume? && Step(size, r, a) == Some(t)
    ensures t.read == r.read && t.written == r.written
  {
  }

  /** Each step leaves the queue as it is, appends the item of the producer that advances tail while there
      is room, or takes the oldest item for the consumer that advances head. */
  lemma StepRefinesQueue(size: nat, r: Ring, a: Action, t: Ring)
    requires Inv(size, r) && Step(size, r, a) == Some(t)
    ensures |t.read| <= |t.written|
    ensures if a.Produce? && r.producers[a.i].PAdvancing? then
        |Queue(r)| < size && Queue(t) == Queue(r) + [r.producers[a.i].x]
      else if a.Consume? && r.consumers[a.j].CAdvancing? then
        Queue(r) != [] && r.consumers[a.j].v == Queue(r)[0] && Queue(t) == Queue(r)[1..]
      else Queue(t) == Queue(r)
  {
    match a
    case Produce(i) => ProRefines(size, r, i, t);
    case Consume(j) => ConRefines(size, r, j, t);
    case _ => OtherRefines(size, r, a, t);
  }

  /** The two mutexes suffice: a producer at its slot and a consumer at its slot are at different slots, two
      producers or two consumers are never at their slots at once. */
  lemma DifferentSlots(size: nat, r: Ring, i: nat, j: nat)
    requires 1 <= size && Reachable(size, r) && i < |r.producers| && j < |r.consumers|
    requires r.producers[i].PWriting? || r.producers[i].PAdvancing?
    ensures r.consumers[j].CReading? || r.consumers[j].CAdvancing? ==> r.head != r.tail
    ensures forall k :: 0 <= k < |r.producers| && k != i ==> !InsideP(r.producers[k])
  {
    ReachableInv(size, r);
    assert ProOk(size, r, i) && ConOk(size, r, j);
    SlotFree(size, r, i);
    IndicesEqual(size, r);
    forall k | 0 <= k < |r.producers| && k != i
      ensures !InsideP(r.producers[k])
    {
      assert ProOk(size, r, k);
    }
  }

  lemma OneConsumer(size: nat, r: Ring, i: nat, j: nat)
    requires 1 <= size && Reachable(size, r) && i < |r.consumers| && j < |r.consumers|
    requires InsideC(r.consumers[i]) && InsideC(r.consumers[j])
    ensures i == j
  {
    ReachableInv(size, r);
    assert ConOk(size, r, i) && ConOk(size, r, j);
  }

  // ---- shutdown ----

  lemma StopStays(size: nat, r: Ring, a: Action, t: Ring)
    requires Inv(size, r) && r.stop && Step(size, r, a) == Some(t)
    ensures t.stop
  {
  }

  lemma StoppedConsume(size: nat, r: Ring, j: nat, t: Ring)
    requires Inv(size, r) && r.stop && j < |r.consumers| && ConStep(size, r, j) == Some(t)
    ensures t.written == r.written && r.read <= t.read && (Occupancy(r) == size ==> t.read == r.read)
  {
    assert ConOk(size, r, j);
  }

  /** Once stop is set, nothing is written and the flag stays; from a full ring nothing is read either. */
  lemma StoppedStep(size: nat, r: Ring, t: Ring)
    requires Inv(size, r) && r.stop && Next(size, r, t)
    ensures Inv(size, t) && t.stop && t.written == r.written && r.read <= t.read
    ensures Occupancy(r) == size ==> t.read == r.read
  {
    NextKeeps(size, r, t);
    var a :| Step(size, r, a) == Some(t);
    StopStays(size, r, a, t);
    match a
    case Produce(i) => ProWrites(size, r, i, t);
    case Consume(j) => StoppedConsume(size, r, j, t);
    case _ => OtherRefines(size, r, a, t);
  }

  lemma {:induction false} StoppedRun(size: nat, q: seq<Ring>)
    requires 1 <= size && IsRun(size, q) && Inv(size, q[0]) && q[0].stop
    ensures var r, t := q[0], q[|q| - 1];
      && Inv(size, t) && t.stop && t.written == r.written && r.read <= t.read
      && (Occupancy(r) == size ==> t.read == r.read)
  {
    if 1 < |q| {
      var p := q[..|q| - 1];
      forall k | 0 <= k < |p| - 1
        ensures Next(size, p[k], p[k + 1])
      {
        assert Next(size, q[k], q[k + 1]);
      }
      StoppedRun(size, p);
      assert Next(size, q[|q| - 2], q[|q| - 2 + 1]);
      StoppedStep(size, q[|q| - 2], q[|q| - 1]);
    }
  }

  /** A pop that finds stop set returns false exactly when the ring is empty or full. */
  lemma RejectedIff(size: nat, r: Ring, j: nat, t: Ring)
    requires Reachable(size, r) && Shaped(size, r) && r.stop && j < |r.consumers| && r.consumers[j].CIn?
    requires ConStep(size, r, j) == Some(t)
    ensures |r.read| <= |r.written| && |t.consumers| == |r.consumers|
    ensures t.consumers[j].CRejected? <==> Queue(r) == [] || |Queue(r)| == size
    ensures t.consumers[j].CRejected? || t.consumers[j].CReading?
  {
    ReachableInv(size, r);
    IndicesEqual(size, r);
  }

  /** If the ring was not full when stop was set, a pop returns false only when every item written has been
      read; and items still come out in their order. */
  lemma DrainedBeforeRejected(size: nat, q: seq<Ring>, j: nat, t: Ring)
    requires 1 <= size && IsRun(size, q) && Reachable(size, q[0]) && q[0].stop && |q[0].written| < |q[0].read| + size
    requires var r := q[|q| - 1];
      Shaped(size, r) && j < |r.consumers| && r.consumers[j].CIn? && ConStep(size, r, j) == Some(t)
    ensures t.consumers[j].CRejected? <==> t.read == q[0].written
    ensures q[0].read <= t.read <= q[0].written
  {
    ReachableInv(size, q[0]);
    StoppedRun(size, q);
    var r := q[|q| - 1];
    IndicesEqual(size, r);
    assert r.read <= r.written;
  }

  /** The sharp converse: if it was full, its items stay where they are for ever. */
  lemma FullAtStopIsLost(size: nat, q: seq<Ring>, j: nat)
    requires 1 <= size && IsRun(size, q) && Reachable(size, q[0]) && q[0].stop && |q[0].written| == |q[0].read| + size
    ensures var t := q[|q| - 1]; t.read == q[0].read && t.written == q[0].written
    ensures var t := q[|q| - 1]; j < |t.consumers| ==> !t.consumers[j].CReading? && !t.consumers[j].CAdvancing?
  {
    ReachableInv(size, q[0]);
    StoppedRun(size, q);
    var t := q[|q| - 1];
    assert j < |t.consumers| ==> ConOk(size, t, j);
  }

  // ---- nobody is left waiting ----

  /** No call under way can move. */
  predicate Quiescent(size: nat, r: Ring)
    requires Shaped(size, r)
  {
    && (forall i :: 0 <= i < |r.producers| ==> ProStep(size, r, i) == None)
    && (forall j :: 0 <= j < |r.consumers| ==> ConStep(size, r, j) == None)
    && (r.stopper.SIdle? || StopperStep(size, r) == None)
  }

  lemma LocksFree(size: nat, r: Ring)
    requires Inv(size, r) && Shaped(size, r) && Quiescent(size, r)
    ensures r.pro == Free && r.con == Free && (r.stopper.SIdle? || r.stopper.SDone?)
  {
    assert r.con.ByThread? ==> ConOk(size, r, r.con.i) && ConStep(size, r, r.con.i) == None;
    assert !r.con.ByThread?;
    assert !r.stopper.SBoth? && !r.stopper.SSet?;
    assert r.con == Free;
    assert r.pro.ByThread? ==> ProOk(size, r, r.pro.i) && ProStep(size, r, r.pro.i) == None;
  }

  lemma OnlyWaiting(size: nat, r: Ring)
    requires Inv(size, r) && Shaped(size, r) && Quiescent(size, r)
    ensures forall i :: 0 <= i < |r.producers| ==> r.producers[i].PIdle? || (r.producers[i].PWait? && r.full == 0)
    ensures forall j :: 0 <= j < |r.consumers| ==> r.consumers[j].CIdle? || (r.consumers[j].CWait? && r.empty == 0)
  {
    LocksFree(size, r);
    forall i | 0 <= i < |r.producers|
      ensures r.producers[i].PIdle? || (r.producers[i].PWait? && r.full == 0)
    {
      assert ProStep(size, r, i) == None;
    }
    forall j | 0 <= j < |r.consumers|
      ensures r.consumers[j].CIdle? || (r.consumers[j].CWait? && r.empty == 0)
    {
      assert ConStep(size, r, j) == None;
    }
  }

  /** When nothing can move: an emplace is blocked only by a full ring and a pop only by an empty one, and
      once Stop has posted, neither is blocked at all. */
  lemma BlockedOnlyIf(size: nat, r: Ring)
    requires Reachable(size, r) && Shaped(size, r) && Quiescent(size, r)
    ensures |r.read| <= |r.written|
    ensures (exists i :: 0 <= i < |r.producers| && !r.producers[i].PIdle?) ==> |Queue(r)| == size && !r.stop
    ensures (exists j :: 0 <= j < |r.consumers| && !r.consumers[j].CIdle?) ==> Queue(r) == [] && !r.stop
    ensures r.stop ==> r.stopper.SDone?
  {
    ReachableInv(size, r);
    LocksFree(size, r);
    OnlyWaiting(size, r);
    ProNone(r.producers, false);
    ProNone(r.producers, true);
    ConNone(r.consumers, false);
    ConNone(r.consumers, true);
  }

  // ---- and it takes only so long ----

  function ProLeft(pc: ProPc): nat
  {
    match pc
    case PIdle => 0
    case PWait(_) => 7
    case PToken(_) => 6
    case PIn(_) => 5
    case PWriting(_) => 4
    case PAdvancing(_) => 3
    case PWrote => 2
    case PPost => 1
    case PRejected => 1
  }

  function ConLeft(pc: ConPc): nat
  {
    match pc
    case CIdle => 0
    case CWait => 7
    case CToken => 6
    case CIn => 5
    case CReading => 4
    case CAdvancing(_) => 3
    case CRead(_) => 2
    case CPost(_) => 1
    case CRejected => 1
  }

  function StopLeft(size: nat, pc: StopPc): nat
  {
    match pc
    case SIdle => 2 * size + 6
    case SWantCon => 2 * size + 5
    case SBoth => 2 * size + 4
    case SSet => 2 * size + 3
    case SHalf => 2 * size + 2
    case SPosting(i) => if i <= size then 2 * (size - i) + 1 else 0
    case SPostFull(i) => if i <= size then 2 * (size - i) else 0
    case SDone => 0
  }

  function ProLefts(pcs: seq<ProPc>): nat
  {
    if pcs == [] then 0 else ProLefts(pcs[..|pcs| - 1]) + ProLeft(pcs[|pcs| - 1])
  }

  function ConLefts(pcs: seq<ConPc>): nat
  {
    if pcs == [] then 0 else ConLefts(pcs[..|pcs| - 1]) + ConLeft(pcs[|pcs| - 1])
  }

  function Left(size: nat, r: Ring): nat
  {
    ProLefts(r.producers) + ConLefts(r.consumers) + StopLeft(size, r.stopper)
  }

  lemma {:induction false} ProLeftsUpdate(pcs: seq<ProPc>, i: nat, pc: ProPc)
    requires i < |pcs|
    ensures ProLefts(pcs[i := pc]) + ProLeft(pcs[i]) == ProLefts(pcs) + ProLeft(pc)
  {
    var n := |pcs| - 1;
    if i < n {
      assert pcs[i := pc][..n] == pcs[..n][i := pc];
      ProLeftsUpdate(pcs[..n], i, pc);
    } else {
      assert pcs[i := pc][..n] == pcs[..n];
    }
  }

  lemma {:induction false} ConLeftsUpdate(pcs: seq<ConPc>, j: nat, pc: ConPc)
    requires j < |pcs|
    ensures ConLefts(pcs[j := pc]) + ConLeft(pcs[j]) == ConLefts(pcs) + ConLeft(pc)
  {
    var n := |pcs| - 1;
    if j < n {
      assert pcs[j := pc][..n] == pcs[..n][j := pc];
      ConLeftsUpdate(pcs[..n], j, pc);
    } else {
      assert pcs[j := pc][..n] == pcs[..n];
    }
  }

  lemma ProNearer(size: nat, r: Ring, i: nat, t: Ring)
    requires Shaped(size, r) && i < |r.producers| && ProStep(size, r, i) == Some(t)
    ensures |t.producers| == |r.producers| && ProLeft(t.producers[i]) < ProLeft(r.producers[i])
  {
  }

  lemma ConNearer(size: nat, r: Ring, j: nat, t: Ring)
    requires Shaped(size, r) && j < |r.consumers| && ConStep(size, r, j) == Some(t)
    ensures |t.consumers| == |r.consumers| && ConLeft(t.consumers[j]) < ConLeft(r.consumers[j])
  {
  }

  /** Every step of a call under way brings the ring nearer to standing still: the calls under way end, each
      after at most seven steps, or block. */
  lemma CallsEnd(size: nat, r: Ring, a: Action, t: Ring)
    requires Inv(size, r) && Shaped(size, r) && !a.Emplace? && !a.Pop? && Step(size, r, a) == Some(t)
    ensures Left(size, t) < Left(size, r)
  {
    match a
    case Produce(i) =>
      ProduceNearer(size, r, i, t);
    case Consume(j) =>
      ConsumeNearer(size, r, j, t);
    case StopStep =>
    case _ =>
  }

  lemma ProduceNearer(size: nat, r: Ring, i: nat, t: Ring)
    requires Shaped(size, r) && i < |r.producers| && ProStep(size, r, i) == Some(t)
    ensures Left(size, t) < Left(size, r)
  {
    ProStepMoves(size, r, i, t);
    ProNearer(size, r, i, t);
    ProLeftsUpdate(r.producers, i, t.producers[i]);
  }

  lemma ConsumeNearer(size: nat, r: Ring, j: nat, t: Ring)
    requires Shaped(size, r) && j < |r.consumers| && ConStep(size, r, j) == Some(t)
    ensures Left(size, t) < Left(size, r)
  {
    ConStepMoves(size, r, j, t);
    ConNearer(size, r, j, t);
    ConLeftsUpdate(r.consumers, j, t.consumers[j]);
  }
}
