module RingCalls {
  /** The ring's calls against an atomic bounded queue: each call of emplace or pop takes effect at one step
    between its beginning and its end, with the item it was given or the item it returns. */

  import opened Sequences
  import opened RingMachine
  import opened RingProperties

  // ---- the atomic queue ----

  /** A call of emplace, and what it will return: true after Put, false after NotPut. */
  datatype PutCall = NoPut | Putting(x: Item) | Put | NotPut

  /** A call of pop, which returns true with the item, or false. */
  datatype TakeCall = NoTake | Taking | Took(v: Item) | NotTook

  datatype Queued = Queued(items: seq<Item>, stopped: bool, puts: seq<PutCall>, takes: seq<TakeCall>)

  datatype Event =
    | BeginPut(i: nat, x: Item)
    | Append(i: nat)
    | RefusePut(i: nat)
    | EndPut(i: nat)
    | BeginTake(j: nat)
    | Remove(j: nat)
    | RefuseTake(j: nat)
    | EndTake(j: nat)
    | Close
    | Nothing

  /** What each event does, or None where it is not allowed. */
  function Atomic(size: nat, q: Queued, e: Event): Option<Queued>
  {
    match e
    case BeginPut(i, x) => PutTo(q, i, i < |q.puts| && q.puts[i].NoPut?, Putting(x))
    case Append(i) =>
      if i < |q.puts| && q.puts[i].Putting? && !q.stopped && |q.items| < size
      then Some(q.(items := q.items + [q.puts[i].x], puts := q.puts[i := Put])) else None
    case RefusePut(i) => PutTo(q, i, i < |q.puts| && q.puts[i].Putting? && q.stopped, NotPut)
    case EndPut(i) => PutTo(q, i, i < |q.puts| && (q.puts[i].Put? || q.puts[i].NotPut?), NoPut)
    case BeginTake(j) => TakeTo(q, j, j < |q.takes| && q.takes[j].NoTake?, Taking)
    case Remove(j) =>
      if j < |q.takes| && q.takes[j].Taking? && q.items != [] && !(q.stopped && |q.items| == size)
      then Some(q.(items := q.items[1..], takes := q.takes[j := Took(q.items[0])])) else None
    case RefuseTake(j) =>
      TakeTo(q, j, j < |q.takes| && q.takes[j].Taking? && q.stopped && (q.items == [] || |q.items| == size), NotTook)
    case EndTake(j) => TakeTo(q, j, j < |q.takes| && (q.takes[j].Took? || q.takes[j].NotTook?), NoTake)
    case Close => if q.stopped then None else Some(q.(stopped := true))
    case Nothing => Some(q)
  }

  function PutTo(q: Queued, i: nat, allowed: bool, call: PutCall): Option<Queued>
    requires allowed ==> i < |q.puts|
  {
    if allowed then Some(q.(puts := q.puts[i := call])) else None
  }

  function TakeTo(q: Queued, j: nat, allowed: bool, call: TakeCall): Option<Queued>
    requires allowed ==> j < |q.takes|
  {
    if allowed then Some(q.(takes := q.takes[j := call])) else None
  }

  // ---- the ring as that queue ----

  function PutOf(pc: ProPc): PutCall
  {
    match pc
    case PIdle => NoPut
    case PWait(x) => Putting(x)
    case PToken(x) => Putting(x)
    case PIn(x) => Putting(x)
    case PWriting(x) => Putting(x)
    case PAdvancing(x) => Putting(x)
    case PWrote => Put
    case PPost => Put
    case PRejected => NotPut
  }

  function TakeOf(pc: ConPc): TakeCall
  {
    match pc
    case CIdle => NoTake
    case CWait => Taking
    case CToken => Taking
    case CIn => Taking
    case CReading => Taking
    case CAdvancing(_) => Taking
    case CRead(v) => Took(v)
    case CPost(v) => Took(v)
    case CRejected => NotTook
  }

  function PutsOf(pcs: seq<ProPc>): seq<PutCall>
  {
    seq(|pcs|, i requires 0 <= i < |pcs| => PutOf(pcs[i]))
  }

  function TakesOf(pcs: seq<ConPc>): seq<TakeCall>
  {
    seq(|pcs|, j requires 0 <= j < |pcs| => TakeOf(pcs[j]))
  }

  function QueuedOf(r: Ring): Queued
    requires |r.read| <= |r.written|
  {
    Queued(Queue(r), r.stop, PutsOf(r.producers), TakesOf(r.consumers))
  }

  /** What a step of the machine is to the queue: a call's beginning is the action itself, with its item. */
  function EventOf(r: Ring, a: Action, t: Ring): Event
    requires |t.producers| == |r.producers| && |t.consumers| == |r.consumers|
  {
    match a
    case Emplace(i, x) => BeginPut(i, x)
    case Pop(j) => BeginTake(j)
    case Produce(i) =>
      if i < |r.producers| then PutEvent(i, PutOf(r.producers[i]), PutOf(t.producers[i])) else Nothing
    case Consume(j) =>
      if j < |r.consumers| then TakeEvent(j, TakeOf(r.consumers[j]), TakeOf(t.consumers[j])) else Nothing
    case StopStep => if t.stop && !r.stop then Close else Nothing
  }

  function PutEvent(i: nat, before: PutCall, after: PutCall): Event
  {
    if before.Putting? && after.Put? then Append(i)
    else if before.Putting? && after.NotPut? then RefusePut(i)
    else if after.NoPut? then EndPut(i)
    else Nothing
  }

  function TakeEvent(j: nat, before: TakeCall, after: TakeCall): Event
  {
    if before.Taking? && after.Took? then Remove(j)
    else if before.Taking? && after.NotTook? then RefuseTake(j)
    else if after.NoTake? then EndTake(j)
    else Nothing
  }

  lemma PutsUpdate(pcs: seq<ProPc>, i: nat, pc: ProPc)
    requires i < |pcs|
    ensures PutsOf(pcs[i := pc]) == PutsOf(pcs)[i := PutOf(pc)]
  {
  }

  lemma TakesUpdate(pcs: seq<ConPc>, j: nat, pc: ConPc)
    requires j < |pcs|
    ensures TakesOf(pcs[j := pc]) == TakesOf(pcs)[j := TakeOf(pc)]
  {
  }

  /** A producer's step appends its own item, refuses, ends its call, or is not seen. */
  lemma ProAtomic(size: nat, r: Ring, i: nat, t: Ring)
    requires Inv(size, r) && i < |r.producers| && ProStep(size, r, i) == Some(t)
    ensures |t.read| <= |t.written| && |t.producers| == |r.producers| && |t.consumers| == |r.consumers|
    ensures Atomic(size, QueuedOf(r), EventOf(r, Produce(i), t)) == Some(QueuedOf(t))
  {
    assert ProOk(size, r, i);
    ProRefines(size, r, i, t);
    ProStepMoves(size, r, i, t);
    ProWrites(size, r, i, t);
    PutsUpdate(r.producers, i, t.producers[i]);
    assert PutsOf(r.producers)[i := PutOf(r.producers[i])] == PutsOf(r.producers);
  }

  /** A consumer's step removes the oldest item for itself, refuses, ends its call, or is not seen. */
  lemma ConAtomic(size: nat, r: Ring, j: nat, t: Ring)
    requires Inv(size, r) && j < |r.consumers| && ConStep(size, r, j) == Some(t)
    ensures |t.read| <= |t.written| && |t.producers| == |r.producers| && |t.consumers| == |r.consumers|
    ensures Atomic(size, QueuedOf(r), EventOf(r, Consume(j), t)) == Some(QueuedOf(t))
  {
    assert ConOk(size, r, j);
    ConRefines(size, r, j, t);
    ConStepMoves(size, r, j, t);
    IndicesEqual(size, r);
    TakesUpdate(r.consumers, j, t.consumers[j]);
    assert TakesOf(r.consumers)[j := TakeOf(r.consumers[j])] == TakesOf(r.consumers);
  }

  lemma BeginAtomic(size: nat, r: Ring, a: Action, t: Ring)
    requires Inv(size, r) && (a.Emplace? || a.Pop?) && Step(size, r, a) == Some(t)
    ensures |t.read| <= |t.written| && |t.producers| == |r.producers| && |t.consumers| == |r.consumers|
    ensures Atomic(size, QueuedOf(r), EventOf(r, a, t)) == Some(QueuedOf(t))
  {
    match a
    case Emplace(i, x) => PutsUpdate(r.producers, i, PWait(x));
    case Pop(j) => TakesUpdate(r.consumers, j, CWait);
  }

  /** Every step of the machine is an event of the atomic queue: emplace begins with the item it is given and
      appends that very item while there is room and no stop, pop removes the oldest item and returns it, and
      both refuse only after stop. */
  lemma StepIsAtomic(size: nat, r: Ring, a: Action, t: Ring)
    requires Inv(size, r) && Step(size, r, a) == Some(t)
    ensures |t.read| <= |t.written| && |t.producers| == |r.producers| && |t.consumers| == |r.consumers|
    ensures Atomic(size, QueuedOf(r), EventOf(r, a, t)) == Some(QueuedOf(t))
  {
    match a
    case Produce(i) => ProAtomic(size, r, i, t);
    case Consume(j) => ConAtomic(size, r, j, t);
    case StopStep => OtherRefines(size, r, a, t);
    case _ => BeginAtomic(size, r, a, t);
  }

  // ---- one call over a whole run ----

  lemma NextShape(size: nat, r: Ring, t: Ring)
    requires Inv(size, r) && Next(size, r, t)
    ensures Inv(size, t) && |t.producers| == |r.producers| && |t.consumers| == |r.consumers|
    ensures exists e :: Atomic(size, QueuedOf(r), e) == Some(QueuedOf(t))
  {
    var a :| Step(size, r, a) == Some(t);
    StepIsAtomic(size, r, a, t);
    NextKeeps(size, r, t);
  }

  /** What the step appends in the call of producer i. */
  function AppendedBy(r: Ring, t: Ring, i: nat): seq<Item>
  {
    if i < |r.producers| && i < |t.producers| && PutOf(r.producers[i]).Putting? && PutOf(t.producers[i]).Put?
       && |r.written| <= |t.written|
    then t.written[|r.written|..] else []
  }

  function Appended(q: seq<Ring>, i: nat): seq<Item>
  {
    if |q| < 2 then [] else Appended(q[..|q| - 1], i) + AppendedBy(q[|q| - 2], q[|q| - 1], i)
  }

  /** What the step removes in the call of consumer j. */
  function RemovedBy(r: Ring, t: Ring, j: nat): seq<Item>
  {
    if j < |r.consumers| && j < |t.consumers| && TakeOf(r.consumers[j]).Taking? && TakeOf(t.consumers[j]).Took?
       && |r.read| <= |t.read|
    then t.read[|r.read|..] else []
  }

  function Removed(q: seq<Ring>, j: nat): seq<Item>
  {
    if |q| < 2 then [] else Removed(q[..|q| - 1], j) + RemovedBy(q[|q| - 2], q[|q| - 1], j)
  }

  lemma Prefix(size: nat, q: seq<Ring>)
    requires IsRun(size, q) && 2 <= |q|
    ensures IsRun(size, q[..|q| - 1]) && Next(size, q[|q| - 2], q[|q| - 1])
  {
    var p := q[..|q| - 1];
    forall k | 0 <= k < |p| - 1
      ensures Next(size, p[k], p[k + 1])
    {
      assert Next(size, q[k], q[k + 1]);
    }
    assert Next(size, q[|q| - 2], q[|q| - 2 + 1]);
  }

  /** A call of emplace that is not over, with its item x: nothing appended yet, or x once, or refused after
      stop. */
  predicate PutSoFar(t: Ring, i: nat, x: Item, appended: seq<Item>)
  {
    && i < |t.producers|
    && match PutOf(t.producers[i])
       case NoPut => false
       case Putting(y) => y == x && appended == []
       case Put => appended == [x]
       case NotPut => t.stop && appended == []
  }

  predicate TakeSoFar(t: Ring, j: nat, removed: seq<Item>)
  {
    && j < |t.consumers|
    && match TakeOf(t.consumers[j])
       case NoTake => false
       case Taking => removed == []
       case Took(v) => removed == [v]
       case NotTook => t.stop && removed == []
  }

  lemma ProPut(size: nat, r: Ring, i: nat, t: Ring, x: Item, appended: seq<Item>)
    requires Inv(size, r) && i < |r.producers| && ProStep(size, r, i) == Some(t) && PutSoFar(r, i, x, appended)
    requires i < |t.producers| && !PutOf(t.producers[i]).NoPut?
    ensures PutSoFar(t, i, x, appended + AppendedBy(r, t, i))
  {
    assert ProOk(size, r, i);
  }

  lemma ConTake(size: nat, r: Ring, j: nat, t: Ring, removed: seq<Item>)
    requires Inv(size, r) && j < |r.consumers| && ConStep(size, r, j) == Some(t) && TakeSoFar(r, j, removed)
    requires j < |t.consumers| && !TakeOf(t.consumers[j]).NoTake?
    ensures TakeSoFar(t, j, removed + RemovedBy(r, t, j))
  {
    assert ConOk(size, r, j);
  }

  lemma ProStays(size: nat, r: Ring, i: nat, t: Ring)
    requires Shaped(size, r) && i < |r.producers| && ProStep(size, r, i) == Some(t)
    ensures |t.producers| == |r.producers| && t.producers == r.producers[i := t.producers[i]]
    ensures t.consumers == r.consumers && t.stop == r.stop && (t.producers[i].PRejected? ==> r.stop)
  {
  }

  lemma ConStays(size: nat, r: Ring, j: nat, t: Ring)
    requires Shaped(size, r) && j < |r.consumers| && ConStep(size, r, j) == Some(t)
    ensures |t.consumers| == |r.consumers| && t.consumers == r.consumers[j := t.consumers[j]]
    ensures t.producers == r.producers && t.stop == r.stop && (t.consumers[j].CRejected? ==> r.stop)
  {
  }

  lemma StopperStays(size: nat, r: Ring, t: Ring)
    requires StopperStep(size, r) == Some(t)
    ensures t.producers == r.producers && t.consumers == r.consumers && (r.stop ==> t.stop)
  {
  }

  lemma OtherPut(size: nat, r: Ring, a: Action, t: Ring, i: nat)
    requires Shaped(size, r) && Step(size, r, a) == Some(t) && i < |r.producers|
    requires a != Produce(i) && !r.producers[i].PIdle?
    ensures |t.producers| == |r.producers| && t.producers[i] == r.producers[i] && (r.stop ==> t.stop)
  {
    match a
    case Produce(k) => ProStays(size, r, k, t);
    case Consume(j) => ConStays(size, r, j, t);
    case StopStep => StopperStays(size, r, t);
    case _ =>
  }

  lemma OtherTake(size: nat, r: Ring, a: Action, t: Ring, j: nat)
    requires Shaped(size, r) && Step(size, r, a) == Some(t) && j < |r.consumers|
    requires a != Consume(j) && !r.consumers[j].CIdle?
    ensures |t.consumers| == |r.consumers| && t.consumers[j] == r.consumers[j] && (r.stop ==> t.stop)
  {
    match a
    case Produce(i) => ProStays(size, r, i, t);
    case Consume(k) => ConStays(size, r, k, t);
    case StopStep => StopperStays(size, r, t);
    case _ =>
  }

  lemma NextPut(size: nat, r: Ring, t: Ring, i: nat, x: Item, appended: seq<Item>)
    requires Inv(size, r) && Next(size, r, t) && PutSoFar(r, i, x, appended)
    requires i < |t.producers| && !PutOf(t.producers[i]).NoPut?
    ensures PutSoFar(t, i, x, appended + AppendedBy(r, t, i))
  {
    var a :| Step(size, r, a) == Some(t);
    if a == Produce(i) {
      ProPut(size, r, i, t, x, appended);
    } else {
      OtherPut(size, r, a, t, i);
    }
  }

  lemma NextTake(size: nat, r: Ring, t: Ring, j: nat, removed: seq<Item>)
    requires Inv(size, r) && Next(size, r, t) && TakeSoFar(r, j, removed)
    requires j < |t.consumers| && !TakeOf(t.consumers[j]).NoTake?
    ensures TakeSoFar(t, j, removed + RemovedBy(r, t, j))
  {
    var a :| Step(size, r, a) == Some(t);
    if a == Consume(j) {
      ConTake(size, r, j, t, removed);
    } else {
      OtherTake(size, r, a, t, j);
    }
  }

  /** A call of emplace(x) carries x until it is over, whatever the others do meanwhile: it appends x, once,
      or nothing and is refused, and that only after stop. */
  lemma {:induction false} PutOnce(size: nat, q: seq<Ring>, i: nat, x: Item)
    requires IsRun(size, q) && Inv(size, q[0]) && i < |q[0].producers| && q[0].producers[i] == PWait(x)
    requires forall k :: 0 <= k < |q| ==> i < |q[k].producers| && !PutOf(q[k].producers[i]).NoPut?
    ensures Inv(size, q[|q| - 1]) && PutSoFar(q[|q| - 1], i, x, Appended(q, i))
  {
    if 2 <= |q| {
      Prefix(size, q);
      PutOnce(size, q[..|q| - 1], i, x);
      NextPut(size, q[|q| - 2], q[|q| - 1], i, x, Appended(q[..|q| - 1], i));
      NextKeeps(size, q[|q| - 2], q[|q| - 1]);
    }
  }

  /** A call of pop returns the one item that it has removed, or has removed nothing and returns false, and
      that only after stop. */
  lemma {:induction false} TakeOnce(size: nat, q: seq<Ring>, j: nat)
    requires IsRun(size, q) && Inv(size, q[0]) && j < |q[0].consumers| && q[0].consumers[j] == CWait
    requires forall k :: 0 <= k < |q| ==> j < |q[k].consumers| && !TakeOf(q[k].consumers[j]).NoTake?
    ensures Inv(size, q[|q| - 1]) && TakeSoFar(q[|q| - 1], j, Removed(q, j))
  {
    if 2 <= |q| {
      Prefix(size, q);
      TakeOnce(size, q[..|q| - 1], j);
      NextTake(size, q[|q| - 2], q[|q| - 1], j, Removed(q[..|q| - 1], j));
      NextKeeps(size, q[|q| - 2], q[|q| - 1]);
    }
  }

  // ---- refusals ----

  /** Whoever has been refused has been so after stop. */
  predicate RefusedAfterStop(r: Ring)
  {
    && (forall i :: 0 <= i < |r.producers| && r.producers[i].PRejected? ==> r.stop)
    && (forall j :: 0 <= j < |r.consumers| && r.consumers[j].CRejected? ==> r.stop)
  }

  lemma RefusedStep(size: nat, r: Ring, t: Ring)
    requires RefusedAfterStop(r) && Next(size, r, t)
    ensures RefusedAfterStop(t)
  {
    var a :| Step(size, r, a) == Some(t);
    match a
    case Produce(i) => ProStays(size, r, i, t);
    case Consume(j) => ConStays(size, r, j, t);
    case StopStep => StopperStays(size, r, t);
    case _ =>
  }

  lemma {:induction false} RefusedRun(size: nat, q: seq<Ring>)
    requires IsRun(size, q) && Inv(size, q[0]) && RefusedAfterStop(q[0])
    ensures Inv(size, q[|q| - 1]) && RefusedAfterStop(q[|q| - 1])
  {
    if 2 <= |q| {
      Prefix(size, q);
      RefusedRun(size, q[..|q| - 1]);
      RefusedStep(size, q[|q| - 2], q[|q| - 1]);
      NextKeeps(size, q[|q| - 2], q[|q| - 1]);
    }
  }

  /** Before stop nobody is refused, and a consumer with a token in its critical section goes on to take an
      item, also from a full ring; after it, pop is refused exactly on an empty or full ring. */
  lemma RefusedOnlyAfterStop(size: nat, r: Ring)
    requires 1 <= size && Reachable(size, r)
    ensures RefusedAfterStop(r) && |r.read| <= |r.written| && Shaped(size, r)
    ensures forall j, t :: 0 <= j < |r.consumers| && r.consumers[j].CIn? && ConStep(size, r, j) == Some(t) ==>
      && |t.consumers| == |r.consumers| && (t.consumers[j].CRejected? || t.consumers[j].CReading?)
      && (t.consumers[j].CRejected? <==> r.stop && (Queue(r) == [] || |Queue(r)| == size))
  {
    var q, m: nat, n: nat :| IsRun(size, q) && q[0] == Init(size, m, n) && q[|q| - 1] == r;
    InitInv(size, m, n);
    RefusedRun(size, q);
    IndicesEqual(size, r);
  }

  // ---- calls begin and end ----

  /** An idle producer may begin with any item, an idle consumer may begin, and Stop begins once no producer is
      in its critical section. */
  lemma CallsBegin(size: nat, r: Ring)
    requires 1 <= size && Reachable(size, r)
    ensures Shaped(size, r)
    ensures forall i, x {:trigger Emplace(i, x)} :: 0 <= i < |r.producers| ==>
      (Step(size, r, Emplace(i, x)).Some? <==> r.producers[i].PIdle?)
    ensures forall j {:trigger Pop(j)} :: 0 <= j < |r.consumers| ==>
      (Step(size, r, Pop(j)).Some? <==> r.consumers[j].CIdle?)
    ensures r.stopper.SIdle? ==>
      (Step(size, r, StopStep).Some? <==> forall i :: 0 <= i < |r.producers| ==> !InsideP(r.producers[i]))
  {
    ReachableInv(size, r);
    forall i | 0 <= i < |r.producers|
      ensures InsideP(r.producers[i]) <==> r.pro == ByThread(i)
    {
      assert ProOk(size, r, i);
    }
  }

  /** A step of a call under way: nobody begins. */
  ghost predicate Under(size: nat, r: Ring, t: Ring)
  {
    Shaped(size, r) && exists a: Action ::
      !a.Emplace? && !a.Pop? && (r.stopper.SIdle? ==> !a.StopStep?) && Step(size, r, a) == Some(t)
  }

  ghost predicate UnderAt(size: nat, q: seq<Ring>, k: nat)
  {
    k + 1 < |q| ==> Under(size, q[k], q[k + 1])
  }

  ghost predicate UnderRun(size: nat, q: seq<Ring>)
  {
    0 < |q| && forall k {:trigger UnderAt(size, q, k)} :: UnderAt(size, q, k)
  }

  /** The calls under way, moving in some order, come from r to t. */
  ghost predicate Finishes(size: nat, r: Ring, t: Ring)
  {
    exists q :: UnderRun(size, q) && q[0] == r && q[|q| - 1] == t
  }

  lemma Extends(size: nat, r: Ring, u: Ring, t: Ring)
    requires Under(size, r, u) && Finishes(size, u, t)
    ensures Finishes(size, r, t)
  {
    var q :| UnderRun(size, q) && q[0] == u && q[|q| - 1] == t;
    var z := [r] + q;
    forall k: nat
      ensures UnderAt(size, z, k)
    {
      ExtendsAt(size, r, q, k);
    }
    assert z[0] == r && z[|z| - 1] == q[|q| - 1];
    assert UnderRun(size, z);
  }

  lemma ExtendsAt(size: nat, r: Ring, q: seq<Ring>, k: nat)
    requires UnderRun(size, q) && Under(size, r, q[0])
    ensures UnderAt(size, [r] + q, k)
  {
    var z := [r] + q;
    if k == 0 {
      assert z[0] == r && z[1] == q[0];
    } else if k < |q| {
      assert UnderAt(size, q, k - 1) && z[k] == q[k - 1] && z[k + 1] == q[k];
    }
  }

  /** Some run of the calls under way comes to where none of them can move; which these are and why is
      `BlockedOnlyIf`. */
  lemma {:induction false} CallsFinish(size: nat, r: Ring) returns (t: Ring)
    requires 1 <= size && Inv(size, r) && Shaped(size, r)
    ensures Finishes(size, r, t) && Inv(size, t) && Shaped(size, t) && Quiescent(size, t)
    ensures |t.producers| == |r.producers| && |t.consumers| == |r.consumers| && (r.stop ==> t.stop)
    decreases Left(size, r)
  {
    if Quiescent(size, r) {
      t := r;
      assert UnderRun(size, [r]) && [r][0] == r && [r][|[r]| - 1] == r;
    } else {
      var u := MoveOne(size, r);
      t := CallsFinish(size, u);
      Extends(size, r, u, t);
    }
  }

  lemma MoveOne(size: nat, r: Ring) returns (u: Ring)
    requires 1 <= size && Inv(size, r) && Shaped(size, r) && !Quiescent(size, r)
    ensures Under(size, r, u) && Inv(size, u) && Shaped(size, u) && Left(size, u) < Left(size, r)
    ensures |u.producers| == |r.producers| && |u.consumers| == |r.consumers| && (r.stop ==> u.stop)
  {
    var a: Action;
    if i: nat :| i < |r.producers| && ProStep(size, r, i) != None {
      a := Produce(i);
    } else if j: nat :| j < |r.consumers| && ConStep(size, r, j) != None {
      a := Consume(j);
    } else {
      a := StopStep;
    }
    u := Step(size, r, a).value;
    Moved(size, r, a, u);
  }

  lemma Moved(size: nat, r: Ring, a: Action, u: Ring)
    requires 1 <= size && Inv(size, r) && Shaped(size, r) && !a.Emplace? && !a.Pop? && Step(size, r, a) == Some(u)
    ensures Inv(size, u) && Shaped(size, u) && Left(size, u) < Left(size, r)
    ensures |u.producers| == |r.producers| && |u.consumers| == |r.consumers| && (r.stop ==> u.stop)
  {
    StepKeeps(size, r, a, u);
    CallsEnd(size, r, a, u);
    match a
    case Produce(i) => ProStays(size, r, i, u);
    case Consume(j) => ConStays(size, r, j, u);
    case StopStep => StopperStays(size, r, u);
    case _ =>
  }
}
