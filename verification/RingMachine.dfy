module RingMachine {
  /** The bounded ring as a machine of any number of producers and consumers and one call of Stop.

    A step is one semaphore operation, one acquisition or release of a mutex, or one access inside a
    critical section. The source's semaphore `full` counts free slots and `empty` counts items. */

  import opened Sequences
  import opened Modular

  type Item = int

  /** emplace: P(full), lock, look at stop, write the slot, advance tail, unlock, V(empty). */
  datatype ProPc =
    | PIdle
    | PWait(x: Item)
    | PToken(x: Item)
    | PIn(x: Item)
    | PWriting(x: Item)
    | PAdvancing(x: Item)
    | PWrote
    | PPost
    | PRejected

  /** pop: P(empty), lock, look at stop and the indices, read the slot, advance head, unlock, V(full). */
  datatype ConPc =
    | CIdle
    | CWait
    | CToken
    | CIn
    | CReading
    | CAdvancing(v: Item)
    | CRead(v: Item)
    | CPost(v: Item)
    | CRejected

  /** Stop: both mutexes, the flag, both released, then Size times V(empty) and V(full). */
  datatype StopPc = SIdle | SWantCon | SBoth | SSet | SHalf | SPosting(i: nat) | SPostFull(i: nat) | SDone

  datatype Holder = Free | ByThread(i: nat) | ByStopper

  datatype Ring = Ring(
    slots: seq<Item>, head: nat, tail: nat, full: nat, empty: nat, stop: bool,
    pro: Holder, con: Holder,
    producers: seq<ProPc>, consumers: seq<ConPc>, stopper: StopPc,
    // history: all items written, in tail order, and all items read, in head order
    written: seq<Item>, read: seq<Item>)

  datatype Action = Emplace(i: nat, x: Item) | Pop(j: nat) | Produce(i: nat) | Consume(j: nat) | StopStep

  function Init(size: nat, producers: nat, consumers: nat): Ring
  {
    Ring(seq(size, i => 0), 0, 0, size, 0, false, Free, Free, seq(producers, i => PIdle),
         seq(consumers, j => CIdle), SIdle, [], [])
  }

  /** The indices are within the vector. */
  predicate Shaped(size: nat, r: Ring)
  {
    1 <= size == |r.slots| && r.head < size && r.tail < size
  }

  function Step(size: nat, r: Ring, a: Action): Option<Ring>
    requires Shaped(size, r)
  {
    match a
    case Emplace(i, x) =>
      if i < |r.producers| && r.producers[i].PIdle? then Some(r.(producers := r.producers[i := PWait(x)])) else None
    case Pop(j) =>
      if j < |r.consumers| && r.consumers[j].CIdle? then Some(r.(consumers := r.consumers[j := CWait])) else None
    case Produce(i) => if i < |r.producers| then ProStep(size, r, i) else None
    case Consume(j) => if j < |r.consumers| then ConStep(size, r, j) else None
    case StopStep => StopperStep(size, r)
  }

  function ProStep(size: nat, r: Ring, i: nat): Option<Ring>
    requires Shaped(size, r) && i < |r.producers|
  {
    match r.producers[i]
    case PIdle => None
    case PWait(x) =>
      if r.full == 0 then None else Some(r.(full := r.full - 1, producers := r.producers[i := PToken(x)]))
    case PToken(x) =>
      if r.pro != Free then None else Some(r.(pro := ByThread(i), producers := r.producers[i := PIn(x)]))
    case PIn(x) =>
      if r.stop then Some(r.(full := r.full + 1, producers := r.producers[i := PRejected]))
      else Some(r.(producers := r.producers[i := PWriting(x)]))
    case PWriting(x) => Some(r.(slots := r.slots[r.tail := x], producers := r.producers[i := PAdvancing(x)]))
    case PAdvancing(x) =>
      Some(r.(tail := (r.tail + 1) % size, written := r.written + [x], producers := r.producers[i := PWrote]))
    case PWrote => Some(r.(pro := Free, producers := r.producers[i := PPost]))
    case PPost => Some(r.(empty := r.empty + 1, producers := r.producers[i := PIdle]))
    case PRejected => Some(r.(pro := Free, producers := r.producers[i := PIdle]))
  }

  function ConStep(size: nat, r: Ring, j: nat): Option<Ring>
    requires Shaped(size, r) && j < |r.consumers|
  {
    match r.consumers[j]
    case CIdle => None
    case CWait =>
      if r.empty == 0 then None else Some(r.(empty := r.empty - 1, consumers := r.consumers[j := CToken]))
    case CToken =>
      if r.con != Free then None else Some(r.(con := ByThread(j), consumers := r.consumers[j := CIn]))
    case CIn =>
      if r.stop && r.head == r.tail then Some(r.(empty := r.empty + 1, consumers := r.consumers[j := CRejected]))
      else Some(r.(consumers := r.consumers[j := CReading]))
    case CReading => Some(r.(consumers := r.consumers[j := CAdvancing(r.slots[r.head])]))
    case CAdvancing(v) =>
      Some(r.(head := (r.head + 1) % size, read := r.read + [v], consumers := r.consumers[j := CRead(v)]))
    case CRead(v) => Some(r.(con := Free, consumers := r.consumers[j := CPost(v)]))
    case CPost(v) => Some(r.(full := r.full + 1, consumers := r.consumers[j := CIdle]))
    case CRejected => Some(r.(con := Free, consumers := r.consumers[j := CIdle]))
  }

  function StopperStep(size: nat, r: Ring): Option<Ring>
  {
    match r.stopper
    case SIdle => if r.pro != Free then None else Some(r.(pro := ByStopper, stopper := SWantCon))
    case SWantCon => if r.con != Free then None else Some(r.(con := ByStopper, stopper := SBoth))
    case SBoth => Some(r.(stop := true, stopper := SSet))
    case SSet => Some(r.(con := Free, stopper := SHalf))
    case SHalf => Some(r.(pro := Free, stopper := SPosting(0)))
    case SPosting(i) =>
      if i < size then Some(r.(empty := r.empty + 1, stopper := SPostFull(i))) else Some(r.(stopper := SDone))
    case SPostFull(i) => Some(r.(full := r.full + 1, stopper := SPosting(i + 1)))
    case SDone => None
  }

  // ---- counting threads ----

  /** Whether a producer holds a free slot (between P(full) and the advance of tail) or, if owes, an item
      it has still to announce (between the advance of tail and V(empty)). */
  function ProWeight(pc: ProPc, owes: bool): nat
  {
    if owes then (if pc.PWrote? || pc.PPost? then 1 else 0)
    else if pc.PToken? || pc.PIn? || pc.PWriting? || pc.PAdvancing? then 1 else 0
  }

  /** Whether a consumer holds an item (between P(empty) and the advance of head) or, if owes, a free slot
      it has still to announce (between the advance of head and V(full)). */
  function ConWeight(pc: ConPc, owes: bool): nat
  {
    if owes then (if pc.CRead? || pc.CPost? then 1 else 0)
    else if pc.CToken? || pc.CIn? || pc.CReading? || pc.CAdvancing? then 1 else 0
  }

  function ProCount(pcs: seq<ProPc>, owes: bool): nat
  {
    if pcs == [] then 0 else ProCount(pcs[..|pcs| - 1], owes) + ProWeight(pcs[|pcs| - 1], owes)
  }

  function ConCount(pcs: seq<ConPc>, owes: bool): nat
  {
    if pcs == [] then 0 else ConCount(pcs[..|pcs| - 1], owes) + ConWeight(pcs[|pcs| - 1], owes)
  }

  lemma {:induction false} ProUpdate(pcs: seq<ProPc>, i: nat, pc: ProPc, owes: bool)
    requires i < |pcs|
    ensures ProCount(pcs[i := pc], owes) + ProWeight(pcs[i], owes) == ProCount(pcs, owes) + ProWeight(pc, owes)
    ensures ProWeight(pcs[i], owes) <= ProCount(pcs, owes)
  {
    var n := |pcs| - 1;
    if i < n {
      assert pcs[i := pc][..n] == pcs[..n][i := pc];
      ProUpdate(pcs[..n], i, pc, owes);
    } else {
      assert pcs[i := pc][..n] == pcs[..n];
    }
  }

  lemma {:induction false} ConUpdate(pcs: seq<ConPc>, j: nat, pc: ConPc, owes: bool)
    requires j < |pcs|
    ensures ConCount(pcs[j := pc], owes) + ConWeight(pcs[j], owes) == ConCount(pcs, owes) + ConWeight(pc, owes)
    ensures ConWeight(pcs[j], owes) <= ConCount(pcs, owes)
  {
    var n := |pcs| - 1;
    if j < n {
      assert pcs[j := pc][..n] == pcs[..n][j := pc];
      ConUpdate(pcs[..n], j, pc, owes);
    } else {
      assert pcs[j := pc][..n] == pcs[..n];
    }
  }

  lemma {:induction false} ProNone(pcs: seq<ProPc>, owes: bool)
    requires forall i :: 0 <= i < |pcs| ==> ProWeight(pcs[i], owes) == 0
    ensures ProCount(pcs, owes) == 0
  {
    if pcs != [] {
      ProNone(pcs[..|pcs| - 1], owes);
    }
  }

  lemma {:induction false} ConNone(pcs: seq<ConPc>, owes: bool)
    requires forall j :: 0 <= j < |pcs| ==> ConWeight(pcs[j], owes) == 0
    ensures ConCount(pcs, owes) == 0
  {
    if pcs != [] {
      ConNone(pcs[..|pcs| - 1], owes);
    }
  }

  // ---- the invariant ----

  /** Posts of the shutdown so far. */
  function EmptyPosts(size: nat, pc: StopPc): nat
  {
    match pc
    case SPosting(i) => i
    case SPostFull(i) => i + 1
    case SDone => size
    case _ => 0
  }

  function FullPosts(size: nat, pc: StopPc): nat
  {
    match pc
    case SPosting(i) => i
    case SPostFull(i) => i
    case SDone => size
    case _ => 0
  }

  function Occupancy(r: Ring): int
  {
    |r.written| - |r.read|
  }

  /** Each thread between a P, its slot access and its V is accounted for. */
  ghost predicate Tokens(size: nat, r: Ring)
  {
    && r.full + ProCount(r.producers, false) + Occupancy(r) + ConCount(r.consumers, true)
         == size + FullPosts(size, r.stopper)
    && r.empty + ConCount(r.consumers, false) + ProCount(r.producers, true)
         == Occupancy(r) + EmptyPosts(size, r.stopper)
    && (r.stopper.SPosting? ==> r.stopper.i <= size) && (r.stopper.SPostFull? ==> r.stopper.i < size)
  }

  /** What has been read is a prefix of what has been written; the slots hold the rest, in order. */
  ghost predicate Contents(size: nat, r: Ring)
  {
    && 1 <= size == |r.slots| && |r.read| <= |r.written| <= |r.read| + size
    && r.read == r.written[..|r.read|]
    && r.head == |r.read| % size && r.tail == |r.written| % size
    && forall k :: |r.read| <= k < |r.written| ==> r.slots[k % size] == r.written[k]
  }

  predicate InsideP(pc: ProPc)
  {
    pc.PIn? || pc.PWriting? || pc.PAdvancing? || pc.PWrote? || pc.PRejected?
  }

  predicate InsideC(pc: ConPc)
  {
    pc.CIn? || pc.CReading? || pc.CAdvancing? || pc.CRead? || pc.CRejected?
  }

  predicate ProHeld(pc: StopPc)
  {
    pc.SWantCon? || pc.SBoth? || pc.SSet? || pc.SHalf?
  }

  predicate ConHeld(pc: StopPc)
  {
    pc.SBoth? || pc.SSet?
  }

  ghost predicate ProOk(size: nat, r: Ring, i: nat)
    requires i < |r.producers|
  {
    var pc := r.producers[i];
    && (InsideP(pc) <==> r.pro == ByThread(i))
    && (pc.PWriting? || pc.PAdvancing? ==> !r.stop)
    && (pc.PAdvancing? ==> r.tail < |r.slots| && r.slots[r.tail] == pc.x)
  }

  ghost predicate ConOk(size: nat, r: Ring, j: nat)
    requires j < |r.consumers|
  {
    var pc := r.consumers[j];
    && (InsideC(pc) <==> r.con == ByThread(j))
    && (pc.CReading? || pc.CAdvancing? ==> |r.read| < |r.written| && (r.stop ==> Occupancy(r) < size))
    && (pc.CAdvancing? ==> |r.read| < |r.written| && pc.v == r.written[|r.read|])
  }

  ghost predicate Threads(size: nat, r: Ring)
  {
    && (forall i {:trigger ProOk(size, r, i)} :: 0 <= i < |r.producers| ==> ProOk(size, r, i))
    && (forall j {:trigger ConOk(size, r, j)} :: 0 <= j < |r.consumers| ==> ConOk(size, r, j))
    && (r.pro == ByStopper <==> ProHeld(r.stopper)) && (r.con == ByStopper <==> ConHeld(r.stopper))
    && (r.pro.ByThread? ==> r.pro.i < |r.producers|) && (r.con.ByThread? ==> r.con.i < |r.consumers|)
    && (r.stop <==> !r.stopper.SIdle? && !r.stopper.SWantCon? && !r.stopper.SBoth?)
  }

  ghost predicate Inv(size: nat, r: Ring)
  {
    Contents(size, r) && Tokens(size, r) && Threads(size, r)
  }

  lemma InitInv(size: nat, producers: nat, consumers: nat)
    requires 1 <= size
    ensures Inv(size, Init(size, producers, consumers))
    ensures |Init(size, producers, consumers).producers| == producers
    ensures |Init(size, producers, consumers).consumers| == consumers
  {
    var r := Init(size, producers, consumers);
    ProNone(r.producers, false);
    ProNone(r.producers, true);
    ConNone(r.consumers, false);
    ConNone(r.consumers, true);
  }

  // ---- every step keeps it ----

  /** Producer i moves: what it gains or loses the semaphores and the ring lose or gain. */
  ghost predicate ProMoves(r: Ring, i: nat, t: Ring)
  {
    && i < |r.producers| == |t.producers| && t.producers == r.producers[i := t.producers[i]]
    && t.consumers == r.consumers && t.stopper == r.stopper && t.read == r.read
    && t.full + ProWeight(t.producers[i], false) + |t.written| ==
       r.full + ProWeight(r.producers[i], false) + |r.written|
    && t.empty + ProWeight(t.producers[i], true) - |t.written| ==
       r.empty + ProWeight(r.producers[i], true) - |r.written|
  }

  ghost predicate ConMoves(r: Ring, j: nat, t: Ring)
  {
    && j < |r.consumers| == |t.consumers| && t.consumers == r.consumers[j := t.consumers[j]]
    && t.producers == r.producers && t.stopper == r.stopper && t.written == r.written
    && t.full + ConWeight(t.consumers[j], true) - |t.read| == r.full + ConWeight(r.consumers[j], true) - |r.read|
    && t.empty + ConWeight(t.consumers[j], false) + |t.read| == r.empty + ConWeight(r.consumers[j], false) + |r.read|
  }

  lemma ProStepMoves(size: nat, r: Ring, i: nat, t: Ring)
    requires Shaped(size, r) && i < |r.producers| && ProStep(size, r, i) == Some(t)
    ensures ProMoves(r, i, t)
  {
  }

  lemma ConStepMoves(size: nat, r: Ring, j: nat, t: Ring)
    requires Shaped(size, r) && j < |r.consumers| && ConStep(size, r, j) == Some(t)
    ensures ConMoves(r, j, t)
  {
  }

  lemma ProTokens(size: nat, r: Ring, i: nat, t: Ring)
    requires Tokens(size, r) && ProMoves(r, i, t)
    ensures Tokens(size, t)
  {
    ProUpdate(r.producers, i, t.producers[i], false);
    ProUpdate(r.producers, i, t.producers[i], true);
  }

  lemma ConTokens(size: nat, r: Ring, j: nat, t: Ring)
    requires Tokens(size, r) && ConMoves(r, j, t)
    ensures Tokens(size, t)
  {
    ConUpdate(r.consumers, j, t.consumers[j], false);
    ConUpdate(r.consumers, j, t.consumers[j], true);
  }

  /** While a producer is between its P and the advance of tail and no stop is posted, a slot is free. */
  lemma SlotFree(size: nat, r: Ring, i: nat)
    requires Tokens(size, r) && Threads(size, r) && i < |r.producers|
    requires ProWeight(r.producers[i], false) == 1 && !r.stop
    ensures Occupancy(r) < size
  {
    ProUpdate(r.producers, i, r.producers[i], false);
  }

  /** While a consumer is between its P and the advance of head and no stop is posted, an item is there. */
  lemma ItemThere(size: nat, r: Ring, j: nat)
    requires Tokens(size, r) && Threads(size, r) && j < |r.consumers|
    requires ConWeight(r.consumers[j], false) == 1 && !r.stop
    ensures 0 < Occupancy(r)
  {
    ConUpdate(r.consumers, j, r.consumers[j], false);
  }

  /** A write goes to the free slot behind the last item. */
  lemma WriteContents(size: nat, r: Ring, x: Item)
    requires Contents(size, r) && Occupancy(r) < size
    ensures Contents(size, r.(slots := r.slots[r.tail := x]))
  {
    forall k | |r.read| <= k < |r.written|
      ensures k % size != r.tail
    {
      Apart(k, |r.written|, size);
    }
  }

  lemma AdvanceContents(size: nat, r: Ring, x: Item, t: Ring)
    requires Contents(size, r) && Occupancy(r) < size && r.slots[r.tail] == x
    requires t == r.(tail := (r.tail + 1) % size, written := r.written + [x], producers := t.producers)
    ensures Contents(size, t)
  {
    Succ(|r.written|, size);
  }

  lemma ProContents(size: nat, r: Ring, i: nat, t: Ring)
    requires Inv(size, r) && i < |r.producers| && ProStep(size, r, i) == Some(t)
    ensures Contents(size, t)
  {
    assert ProOk(size, r, i);
    match r.producers[i]
    case PWriting(x) =>
      SlotFree(size, r, i);
      WriteContents(size, r, x);
    case PAdvancing(x) =>
      SlotFree(size, r, i);
      AdvanceContents(size, r, x, t);
    case _ =>
  }

  lemma ConContents(size: nat, r: Ring, j: nat, t: Ring)
    requires Inv(size, r) && j < |r.consumers| && ConStep(size, r, j) == Some(t)
    ensures Contents(size, t)
  {
    assert ConOk(size, r, j);
    Succ(|r.read|, size);
  }

  /** With the indices equal the ring is empty or full. */
  lemma IndicesEqual(size: nat, r: Ring)
    requires Contents(size, r)
    ensures r.head == r.tail <==> Occupancy(r) == 0 || Occupancy(r) == size
  {
    if 0 < Occupancy(r) < size {
      Apart(|r.read|, |r.written|, size);
    }
    if Occupancy(r) == size {
      Round(|r.read|, size);
    }
  }

  lemma ProPros(size: nat, r: Ring, i: nat, t: Ring, k: nat)
    requires Inv(size, r) && i < |r.producers| && ProStep(size, r, i) == Some(t) && k < |t.producers|
    ensures ProOk(size, t, k)
  {
    assert ProOk(size, r, k) && ProOk(size, r, i);
  }

  lemma ProWrites(size: nat, r: Ring, i: nat, t: Ring)
    requires Inv(size, r) && i < |r.producers| && ProStep(size, r, i) == Some(t)
    ensures t.consumers == r.consumers && t.con == r.con && t.stop == r.stop && t.read == r.read
    ensures r.written <= t.written && (r.stop ==> t.written == r.written)
  {
    assert ProOk(size, r, i);
  }

  lemma ProCons(size: nat, r: Ring, t: Ring, j: nat)
    requires Threads(size, r) && j < |t.consumers|
    requires t.consumers == r.consumers && t.con == r.con && t.stop == r.stop && t.read == r.read
    requires r.written <= t.written && (r.stop ==> t.written == r.written)
    ensures ConOk(size, t, j)
  {
    assert ConOk(size, r, j);
  }

  lemma ProLocks(size: nat, r: Ring, i: nat, t: Ring)
    requires Inv(size, r) && i < |r.producers| && ProStep(size, r, i) == Some(t)
    ensures |t.producers| == |r.producers| && t.consumers == r.consumers
    ensures t.con == r.con && t.stop == r.stop && t.stopper == r.stopper
    ensures t.pro == r.pro || (r.pro == Free && t.pro == ByThread(i)) || (r.pro == ByThread(i) && t.pro == Free)
  {
    assert ProOk(size, r, i);
  }

  lemma ProThreads(size: nat, r: Ring, i: nat, t: Ring)
    requires Inv(size, r) && i < |r.producers| && ProStep(size, r, i) == Some(t)
    ensures Threads(size, t)
  {
    forall k | 0 <= k < |t.producers|
      ensures ProOk(size, t, k)
    {
      ProPros(size, r, i, t, k);
    }
    ProWrites(size, r, i, t);
    forall j | 0 <= j < |t.consumers|
      ensures ConOk(size, t, j)
    {
      ProCons(size, r, t, j);
    }
    ProLocks(size, r, i, t);
  }

  lemma ConThreads(size: nat, r: Ring, j: nat, t: Ring)
    requires Inv(size, r) && j < |r.consumers| && ConStep(size, r, j) == Some(t)
    ensures Threads(size, t)
  {
    IndicesEqual(size, r);
    if !r.stop && ConWeight(r.consumers[j], false) == 1 {
      ItemThere(size, r, j);
    }
    forall k | 0 <= k < |t.consumers|
      ensures ConOk(size, t, k)
    {
      assert ConOk(size, r, k) && ConOk(size, r, j);
    }
    forall i | 0 <= i < |t.producers|
      ensures ProOk(size, t, i)
    {
      assert ProOk(size, r, i);
    }
    assert ConOk(size, r, j);
  }

  lemma StopperThreads(size: nat, r: Ring, t: Ring)
    requires Inv(size, r) && StopperStep(size, r) == Some(t)
    ensures Threads(size, t)
  {
    forall i | 0 <= i < |t.producers|
      ensures ProOk(size, t, i)
    {
      assert ProOk(size, r, i);
    }
    forall j | 0 <= j < |t.consumers|
      ensures ConOk(size, t, j)
    {
      assert ConOk(size, r, j);
    }
  }

  lemma StopperKeeps(size: nat, r: Ring, t: Ring)
    requires Inv(size, r) && StopperStep(size, r) == Some(t)
    ensures Inv(size, t)
  {
    StopperThreads(size, r, t);
  }

  lemma EmplaceKeeps(size: nat, r: Ring, i: nat, x: Item)
    requires Inv(size, r) && i < |r.producers| && r.producers[i].PIdle?
    ensures Inv(size, r.(producers := r.producers[i := PWait(x)]))
  {
    var t := r.(producers := r.producers[i := PWait(x)]);
    ProTokens(size, r, i, t);
    forall k | 0 <= k < |t.producers|
      ensures ProOk(size, t, k)
    {
      assert ProOk(size, r, k);
    }
    forall j | 0 <= j < |t.consumers|
      ensures ConOk(size, t, j)
    {
      assert ConOk(size, r, j);
    }
  }

  lemma PopKeeps(size: nat, r: Ring, j: nat)
    requires Inv(size, r) && j < |r.consumers| && r.consumers[j].CIdle?
    ensures Inv(size, r.(consumers := r.consumers[j := CWait]))
  {
    var t := r.(consumers := r.consumers[j := CWait]);
    ConTokens(size, r, j, t);
    forall k | 0 <= k < |t.consumers|
      ensures ConOk(size, t, k)
    {
      assert ConOk(size, r, k);
    }
    forall i | 0 <= i < |t.producers|
      ensures ProOk(size, t, i)
    {
      assert ProOk(size, r, i);
    }
  }

  lemma StepKeeps(size: nat, r: Ring, a: Action, t: Ring)
    requires Inv(size, r) && Step(size, r, a) == Some(t)
    ensures Inv(size, t)
  {
    match a
    case Produce(i) =>
      ProStepMoves(size, r, i, t);
      ProTokens(size, r, i, t);
      ProContents(size, r, i, t);
      ProThreads(size, r, i, t);
    case Consume(j) =>
      ConStepMoves(size, r, j, t);
      ConTokens(size, r, j, t);
      ConContents(size, r, j, t);
      ConThreads(size, r, j, t);
    case StopStep => StopperKeeps(size, r, t);
    case Emplace(i, x) => EmplaceKeeps(size, r, i, x);
    case Pop(j) => PopKeeps(size, r, j);
  }

  // ---- runs ----

  ghost predicate Next(size: nat, r: Ring, t: Ring)
  {
    Shaped(size, r) && exists a :: Step(size, r, a) == Some(t)
  }

  ghost predicate IsRun(size: nat, q: seq<Ring>)
  {
    0 < |q| && forall k :: 0 <= k < |q| - 1 ==> Next(size, q[k], q[k + 1])
  }

  /** r occurs in a run of some producers and consumers on a new ring. */
  ghost predicate Reachable(size: nat, r: Ring)
  {
    exists q, m: nat, n: nat :: IsRun(size, q) && q[0] == Init(size, m, n) && q[|q| - 1] == r
  }

  lemma NextKeeps(size: nat, r: Ring, t: Ring)
    requires Inv(size, r) && Next(size, r, t)
    ensures Inv(size, t)
  {
    var a :| Step(size, r, a) == Some(t);
    StepKeeps(size, r, a, t);
  }

  lemma {:induction false} RunKeeps(size: nat, q: seq<Ring>)
    requires IsRun(size, q) && Inv(size, q[0])
    ensures Inv(size, q[|q| - 1])
  {
    if 1 < |q| {
      var p := q[..|q| - 1];
      forall k | 0 <= k < |p| - 1
        ensures Next(size, p[k], p[k + 1])
      {
        assert Next(size, q[k], q[k + 1]);
      }
      RunKeeps(size, p);
      assert Next(size, q[|q| - 2], q[|q| - 2 + 1]);
      NextKeeps(size, q[|q| - 2], q[|q| - 1]);
    }
  }

  lemma ReachableInv(size: nat, r: Ring)
    requires 1 <= size && Reachable(size, r)
    ensures Inv(size, r)
  {
    var q, m: nat, n: nat :| IsRun(size, q) && q[0] == Init(size, m, n) && q[|q| - 1] == r;
    InitInv(size, m, n);
    RunKeeps(size, q);
  }
}
