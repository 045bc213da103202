module DispatchOrder {
  /** The order in which subtasks are dispatched: whole passes by falling priority, first in first out
    within a priority, each main task's subtasks together and in the order they were added. */

  import opened Sequences
  import opened Protocol
  import opened Invariant
  import opened CallerPreserves
  import opened ReleasePreserves
  import opened CallPreserves
  import opened History

  function PrioOf(s: State, id: Id): nat
  {
    if id in s.subs && s.subs[id].mainId in s.mains then s.mains[s.subs[id].mainId].prio else 0
  }

  /** The elements of q that have priority p, in their order. */
  function OfPrio(s: State, q: seq<Id>, p: nat): seq<Id>
  {
    if q == [] then []
    else OfPrio(s, q[..|q| - 1], p) + (if PrioOf(s, q[|q| - 1]) == p then [q[|q| - 1]] else [])
  }

  lemma {:induction false} OfPrioConcat(s: State, a: seq<Id>, b: seq<Id>, p: nat)
    ensures OfPrio(s, a + b, p) == OfPrio(s, a, p) + OfPrio(s, b, p)
  {
    if b == [] {
      assert a + b == a;
    } else {
      var c := b[..|b| - 1];
      assert (a + b)[..|a + b| - 1] == a + c && (a + b)[|a + b| - 1] == b[|b| - 1];
      OfPrioConcat(s, a, c, p);
    }
  }

  lemma {:induction false} OfPrioNone(s: State, q: seq<Id>, p: nat)
    requires forall id :: id in q ==> PrioOf(s, id) != p
    ensures OfPrio(s, q, p) == []
  {
    if q != [] {
      OfPrioNone(s, q[..|q| - 1], p);
    }
  }

  lemma {:induction false} OfPrioAll(s: State, q: seq<Id>, p: nat)
    requires forall id :: id in q ==> PrioOf(s, id) == p
    ensures OfPrio(s, q, p) == q
  {
    if q != [] {
      OfPrioAll(s, q[..|q| - 1], p);
      assert q == q[..|q| - 1] + [q[|q| - 1]];
    }
  }

  lemma {:induction false} OfPrioSame(s: State, t: State, q: seq<Id>, p: nat)
    requires forall id :: id in q ==> PrioOf(s, id) == PrioOf(t, id)
    ensures OfPrio(s, q, p) == OfPrio(t, q, p)
  {
    if q != [] {
      OfPrioSame(s, t, q[..|q| - 1], p);
    }
  }

  // ---- the invariant ----

  predicate QueuedAt(s: State, p: nat, id: Id)
  {
    p < |s.ready| && id in s.ready[p] ==> PrioOf(s, id) == p
  }

  ghost predicate Descending(s: State, q: seq<Id>)
  {
    forall i, j {:trigger q[i], q[j]} :: 0 <= i < j < |q| ==> PrioOf(s, q[j]) <= PrioOf(s, q[i])
  }

  predicate Contiguous(a: seq<Id>, l: seq<Id>, b: seq<Id>, q: seq<Id>)
  {
    q == a + l + b
  }

  /** A released main task's subtasks stand together among those of its priority, in the order in which
      they were added. */
  ghost predicate Block(s: State, m: Id)
    requires m in s.mains
  {
    var main := s.mains[m];
    2 <= main.rel ==>
      && (forall id :: id in main.order <==> id in main.begun)
      && exists a, b :: Contiguous(a, main.order, b, OfPrio(s, Order(s), main.prio))
  }

  ghost predicate Arranged(s: State)
  {
    && (forall p, id {:trigger QueuedAt(s, p, id)} :: QueuedAt(s, p, id))
    && (forall k {:trigger s.passes[k]} :: 0 <= k < |s.passes| ==> Descending(s, s.passes[k]))
    && (forall m {:trigger Block(s, m)} :: m in s.mains ==> Block(s, m))
  }

  // ---- steps that release nothing ----

  /** Priorities of released subtasks, released main tasks and the dispatch order stay. */
  ghost predicate Settled(s: State, t: State)
  {
    && (forall id {:trigger PrioOf(t, id)} :: Released(s, id) ==> PrioOf(t, id) == PrioOf(s, id))
    && (forall m {:trigger SameRelease(s, t, m)} :: m in t.mains && 2 <= t.mains[m].rel ==> SameRelease(s, t, m))
    && Order(t) == Order(s)
  }

  predicate SameRelease(s: State, t: State, m: Id)
    requires m in t.mains
  {
    m in s.mains && 2 <= s.mains[m].rel && t.mains[m].order == s.mains[m].order
    && t.mains[m].begun == s.mains[m].begun && t.mains[m].prio == s.mains[m].prio
  }

  /** Per priority the dispatch order only grows at its end. */
  ghost predicate Grows(s: State, t: State)
  {
    forall p {:trigger OfPrio(t, Order(t), p)} :: OfPrio(s, Order(s), p) <= OfPrio(t, Order(t), p)
  }

  lemma SettledOrders(c: Config, s: State, t: State)
    requires Ordered(c, s) && Settled(s, t)
    ensures forall p :: OfPrio(t, Order(t), p) == OfPrio(s, Order(s), p)
  {
    forall p: nat
      ensures OfPrio(t, Order(t), p) == OfPrio(s, Order(s), p)
    {
      forall id | id in Order(s)
        ensures PrioOf(t, id) == PrioOf(s, id)
      {
        assert Released(s, id);
      }
      OfPrioSame(t, s, Order(s), p);
    }
  }

  lemma SettledBlocks(c: Config, s: State, t: State)
    requires Ordered(c, s) && Arranged(s) && Settled(s, t)
    ensures Grows(s, t) && forall m {:trigger Block(t, m)} :: m in t.mains ==> Block(t, m)
  {
    SettledOrders(c, s, t);
    forall m | m in t.mains
      ensures Block(t, m)
    {
      if 2 <= t.mains[m].rel {
        assert SameRelease(s, t, m) && Block(s, m);
      }
    }
  }

  lemma PassReleased(c: Config, s: State, k: nat, id: Id)
    requires LockOk(s) && Ordered(c, s) && k < |s.passes| && id in s.passes[k]
    ensures Released(s, id)
  {
    InConcat(s.passes, k, id);
    assert id in Order(s);
  }

  lemma {:induction false} InConcat(qs: seq<seq<Id>>, k: nat, id: Id)
    requires k < |qs| && id in qs[k]
    ensures id in Concat(qs)
  {
    if k < |qs| - 1 {
      InConcat(qs[..|qs| - 1], k, id);
    }
  }

  /** Passes already begun stay sorted. */
  lemma PassesStay(c: Config, s: State, t: State, k: nat)
    requires LockOk(s) && Ordered(c, s) && Arranged(s) && Settled(s, t) && k < |s.passes|
    ensures Descending(t, s.passes[k])
  {
    var q := s.passes[k];
    assert Descending(s, q);
    forall i, j | 0 <= i < j < |q|
      ensures PrioOf(t, q[j]) <= PrioOf(t, q[i])
    {
      PassReleased(c, s, k, q[i]);
      PassReleased(c, s, k, q[j]);
    }
  }

  lemma ReadyReleased(c: Config, s: State, p: nat, id: Id)
    requires Ordered(c, s) && p < |s.ready| && id in s.ready[p]
    ensures Released(s, id)
  {
    InFlat(s.ready, p, id);
    assert id in Order(s);
  }

  /** Steps that leave passes alone and take at most from the ready queues. */
  lemma SettledArranged(c: Config, s: State, t: State)
    requires LockOk(s) && Ordered(c, s) && Arranged(s) && Settled(s, t)
    requires t.passes == s.passes && |t.ready| == |s.ready|
    requires forall p, id :: 0 <= p < |s.ready| && id in t.ready[p] ==> id in s.ready[p]
    ensures Arranged(t) && Grows(s, t)
  {
    SettledBlocks(c, s, t);
    forall k | 0 <= k < |t.passes|
      ensures Descending(t, t.passes[k])
    {
      PassesStay(c, s, t, k);
    }
    forall p: nat, id: Id
      ensures QueuedAt(t, p, id)
    {
      if p < |t.ready| && id in t.ready[p] {
        ReadyReleased(c, s, p, id);
        assert QueuedAt(s, p, id);
      }
    }
  }

  // ---- a pass begins ----

  /** The ready queues end to end are sorted by falling priority. */
  lemma {:induction false} FlatDescends(s: State, queues: seq<seq<Id>>)
    requires forall p, id :: 0 <= p < |queues| && id in queues[p] ==> PrioOf(s, id) == p
    ensures Descending(s, Flat(queues)) && forall id :: id in Flat(queues) ==> PrioOf(s, id) < |queues|
  {
    if queues != [] {
      var n := |queues| - 1;
      FlatDescends(s, queues[..n]);
      var q, r := queues[n], Flat(queues[..n]);
      forall i, j | 0 <= i < j < |q + r|
        ensures PrioOf(s, (q + r)[j]) <= PrioOf(s, (q + r)[i])
      {
        if i < |q| {
          assert (q + r)[i] in queues[n];
          assert (q + r)[j] in q || (q + r)[j] in r;
        } else {
          assert (q + r)[i] == r[i - |q|] && (q + r)[j] == r[j - |q|];
        }
      }
    }
  }

  lemma WantArranged(c: Config, s: State, t: State)
    requires LockOk(s) && Ordered(c, s) && Arranged(s) && Settled(s, t)
    requires t.passes == s.passes + [Flat(s.ready)] && t.ready == s.ready
    ensures Arranged(t) && Grows(s, t)
  {
    SettledBlocks(c, s, t);
    forall p: nat, id: Id | p < |t.ready| && id in t.ready[p]
      ensures PrioOf(t, id) == p
    {
      ReadyReleased(c, s, p, id);
      assert QueuedAt(s, p, id);
    }
    FlatDescends(t, t.ready);
    forall k | 0 <= k < |t.passes|
      ensures Descending(t, t.passes[k])
    {
      if k < |s.passes| {
        PassesStay(c, s, t, k);
      }
    }
    forall p: nat, id: Id
      ensures QueuedAt(t, p, id)
    {
    }
  }

  // ---- a release ----

  ghost predicate QueuesOk(s: State, queues: seq<seq<Id>>)
  {
    forall q, id :: 0 <= q < |queues| && id in queues[q] ==> PrioOf(s, id) == q
  }

  /** Pushing onto the highest queue: what lies lower has another priority. */
  lemma PushTop(s: State, top: seq<Id>, l: seq<Id>, low: seq<Id>, p: nat, k: nat)
    requires forall id :: id in low ==> PrioOf(s, id) < p
    requires forall id :: id in l ==> PrioOf(s, id) == p
    ensures OfPrio(s, top + l + low, k) == OfPrio(s, top + low, k) + (if k == p then l else [])
  {
    OfPrioConcat(s, top + l, low, k);
    OfPrioConcat(s, top, l, k);
    OfPrioConcat(s, top, low, k);
    PushSwaps(s, l, low, p, k);
    Regroup(OfPrio(s, top, k), OfPrio(s, l, k), OfPrio(s, low, k), if k == p then l else []);
  }

  lemma Regroup(a: seq<Id>, b: seq<Id>, d: seq<Id>, e: seq<Id>)
    requires b + d == d + e
    ensures a + b + d == a + d + e
  {
    assert a + b + d == a + (b + d) && a + d + e == a + (d + e);
  }

  lemma PushSwaps(s: State, l: seq<Id>, low: seq<Id>, p: nat, k: nat)
    requires forall id :: id in low ==> PrioOf(s, id) < p
    requires forall id :: id in l ==> PrioOf(s, id) == p
    ensures OfPrio(s, l, k) + OfPrio(s, low, k) == OfPrio(s, low, k) + (if k == p then l else [])
  {
    if k == p {
      OfPrioNone(s, low, k);
      OfPrioAll(s, l, k);
    } else {
      OfPrioNone(s, l, k);
    }
  }

  lemma PushLow(s: State, top: seq<Id>, low: seq<Id>, pushed: seq<Id>, tail: seq<Id>, k: nat)
    requires OfPrio(s, pushed, k) == OfPrio(s, low, k) + tail
    ensures OfPrio(s, top + pushed, k) == OfPrio(s, top + low, k) + tail
  {
    OfPrioConcat(s, top, pushed, k);
    OfPrioConcat(s, top, low, k);
  }

  lemma FlatReleaseTop(s: State, queues: seq<seq<Id>>, l: seq<Id>, k: nat)
    requires queues != [] && QueuesOk(s, queues)
    requires forall id :: id in l ==> PrioOf(s, id) == |queues| - 1
    ensures var p := |queues| - 1;
      OfPrio(s, Flat(queues[p := queues[p] + l]), k) == OfPrio(s, Flat(queues), k) + (if k == p then l else [])
  {
    var p := |queues| - 1;
    var rest := queues[..p];
    assert queues[p := queues[p] + l][..p] == rest;
    FlatDescends(s, rest);
    PushTop(s, queues[p], l, Flat(rest), p, k);
  }

  /** A push below the top queue grows what lies below it. */
  lemma FlatReleaseLow(s: State, queues: seq<seq<Id>>, p: nat, l: seq<Id>, tail: seq<Id>, k: nat)
    requires p < |queues| - 1
    requires var rest := queues[..|queues| - 1];
      OfPrio(s, Flat(rest[p := rest[p] + l]), k) == OfPrio(s, Flat(rest), k) + tail
    ensures OfPrio(s, Flat(queues[p := queues[p] + l]), k) == OfPrio(s, Flat(queues), k) + tail
  {
    var n := |queues| - 1;
    var rest, pushed := queues[..n], queues[p := queues[p] + l];
    assert pushed[..n] == rest[p := rest[p] + l];
    PushLow(s, queues[n], Flat(rest), Flat(pushed[..n]), tail, k);
  }

  /** A release appends the main task's list to those of its priority. */
  lemma {:induction false} FlatRelease(s: State, queues: seq<seq<Id>>, p: nat, l: seq<Id>, k: nat)
    requires p < |queues| && QueuesOk(s, queues)
    requires forall id :: id in l ==> PrioOf(s, id) == p
    ensures OfPrio(s, Flat(queues[p := queues[p] + l]), k) == OfPrio(s, Flat(queues), k) + (if k == p then l else [])
  {
    if p == |queues| - 1 {
      FlatReleaseTop(s, queues, l, k);
    } else {
      FlatRelease(s, queues[..|queues| - 1], p, l, k);
      FlatReleaseLow(s, queues, p, l, if k == p then l else [], k);
    }
  }

  /** The main task being released pushes its list onto the queue of its priority. */
  ghost predicate Pushes(s: State, t: State, m: Id)
  {
    && |s.ready| == PRIORITIES && m in s.mains && s.mains[m].prio < PRIORITIES && s.mains[m].rel == 1
    && t.taken == s.taken && t.ring == s.ring && t.passes == s.passes
    && t.ready == s.ready[s.mains[m].prio := s.ready[s.mains[m].prio] + List(s, m)]
    && t.mains == s.mains[m := s.mains[m].(rel := 2, order := List(s, m))]
    && (forall id {:trigger PrioOf(t, id)} :: PrioOf(t, id) == PrioOf(s, id))
    && (forall id :: id in List(s, m) ==> PrioOf(s, id) == s.mains[m].prio)
    && (forall id :: id in List(s, m) <==> id in s.mains[m].begun)
  }

  lemma ReleaseGrows(c: Config, s: State, t: State, m: Id, k: nat)
    requires Ordered(c, s) && Arranged(s) && Pushes(s, t, m)
    ensures OfPrio(t, Order(t), k) == OfPrio(s, Order(s), k) + (if k == s.mains[m].prio then List(s, m) else [])
  {
    forall q, id | 0 <= q < |s.ready| && id in s.ready[q]
      ensures PrioOf(s, id) == q
    {
      assert QueuedAt(s, q, id);
    }
    var prio, l := s.mains[m].prio, List(s, m);
    FlatRelease(s, s.ready, prio, l, k);
    PushLow(s, s.taken + s.ring, Flat(s.ready), Flat(t.ready), if k == prio then l else [], k);
    OfPrioSame(s, t, Order(t), k);
  }

  lemma ReleaseBlock(c: Config, s: State, t: State, m: Id, x: Id)
    requires Ordered(c, s) && Arranged(s) && Pushes(s, t, m) && x in t.mains
    ensures Block(t, x)
  {
    var l := List(s, m);
    var prio := t.mains[x].prio;
    ReleaseGrows(c, s, t, m, prio);
    if x == m {
      var a := OfPrio(s, Order(s), prio);
      assert a + l == a + l + [];
      assert Contiguous(a, l, [], OfPrio(t, Order(t), prio));
    } else if 2 <= t.mains[x].rel {
      assert Block(s, x);
      var a, b :| Contiguous(a, s.mains[x].order, b, OfPrio(s, Order(s), prio));
      var b' := b + (if prio == s.mains[m].prio then l else []);
      assert a + s.mains[x].order + b' == a + s.mains[x].order + b + (if prio == s.mains[m].prio then l else []);
      assert Contiguous(a, s.mains[x].order, b', OfPrio(t, Order(t), prio));
    }
  }

  lemma ReleaseArranged(c: Config, s: State, t: State, m: Id)
    requires Ordered(c, s) && Arranged(s) && Pushes(s, t, m)
    ensures Arranged(t) && Grows(s, t)
  {
    forall x | x in t.mains
      ensures Block(t, x)
    {
      ReleaseBlock(c, s, t, m, x);
    }
    forall k: nat
      ensures OfPrio(s, Order(s), k) <= OfPrio(t, Order(t), k)
    {
      ReleaseGrows(c, s, t, m, k);
    }
    forall k | 0 <= k < |t.passes|
      ensures Descending(t, t.passes[k])
    {
      assert Descending(s, s.passes[k]);
    }
    forall p: nat, id: Id
      ensures QueuedAt(t, p, id)
    {
      assert QueuedAt(s, p, id);
      assert PrioOf(t, id) == PrioOf(s, id);
    }
  }

  // ---- every step ----

  lemma CarriedSettled(s: State, t: State)
    requires Carried(s, t)
    ensures Settled(s, t)
  {
    forall id | Released(s, id)
      ensures PrioOf(t, id) == PrioOf(s, id)
    {
      assert Carries(s.subs[id], t.subs[id]) && MainCarries(s.mains[s.subs[id].mainId], t.mains[s.subs[id].mainId]);
    }
    forall m | m in t.mains && 2 <= t.mains[m].rel
      ensures SameRelease(s, t, m)
    {
      assert MainCarries(s.mains[m], t.mains[m]);
    }
  }

  /** A caller's step that releases nothing touches one subtask and one main task. */
  ghost predicate Touches(s: State, t: State, i: Id, m: Id)
  {
    && t.passes == s.passes && t.ready == s.ready && t.taken == s.taken && t.ring == s.ring
    && (forall id :: id in s.subs && id != i ==> id in t.subs && t.subs[id] == s.subs[id])
    && (forall x :: x in t.mains && x != m ==> x in s.mains && t.mains[x] == s.mains[x])
    && (forall x :: x in s.mains ==> x in t.mains && t.mains[x].prio == s.mains[x].prio)
    && (i in s.subs && HAS_MAIN <= s.subs[i].add ==> i in t.subs && t.subs[i].mainId == s.subs[i].mainId)
    && (m in t.mains && 2 <= t.mains[m].rel ==> SameRelease(s, t, m))
  }

  lemma TouchSettled(s: State, t: State, i: Id, m: Id)
    requires Touches(s, t, i, m)
    ensures Settled(s, t)
  {
    assert Order(t) == Order(s);
  }

  lemma TouchArranged(c: Config, s: State, t: State, i: Id, m: Id)
    requires LockOk(s) && Ordered(c, s) && Arranged(s) && Touches(s, t, i, m)
    ensures Arranged(t) && Grows(s, t)
  {
    TouchSettled(s, t, i, m);
    SettledArranged(c, s, t);
  }

  lemma TakeQueues(s: State, n: Name, id: Id)
    requires id in s.subs && n in s.getters
    ensures TakeStep(s, n, id).passes == s.passes && TakeStep(s, n, id).ready == s.ready
  {
  }

  lemma GetQueues(s: State, n: Name, t: State)
    requires GetCase(s, n, t)
    ensures t.passes == s.passes && t.ready == s.ready
  {
    if t != s.(getters := t.getters) {
      TakeQueues(s, n, s.getters[n].id);
    }
  }

  lemma ActQueues(c: Config, s: State, w: nat)
    requires SoundAt(s, w) && w < |s.workers| && !s.workers[w].Idle?
    ensures ActStep(c, s, w).passes == s.passes && ActStep(c, s, w).ready == s.ready
  {
  }

  lemma WorkQueues(c: Config, s: State, w: nat, t: State)
    requires SoundAt(s, w) && WorkStep(c, s, w) == Some(t)
    ensures t.passes == s.passes && t.ready == s.ready
  {
    if !s.workers[w].Idle? {
      ActQueues(c, s, w);
    }
  }

  lemma EmitQueues(s: State, p: nat)
    requires p < |s.ready| && s.ready[p] != [] && s.ready[p][0] in s.subs
    ensures EmitStep(s, p).passes == s.passes && EmitStep(s, p).ready == s.ready[p := s.ready[p][1..]]
  {
  }

  lemma LoopQueues(c: Config, s: State, t: State)
    requires SoundLoop(s) && LoopStep(c, s) == Some(t)
    ensures t.passes == if s.loop == Want then s.passes + [Flat(s.ready)] else s.passes
    ensures |t.ready| == |s.ready| && (s.loop == Want ==> t.ready == s.ready)
    ensures forall p, id :: 0 <= p < |s.ready| && id in t.ready[p] ==> id in s.ready[p]
  {
    if Dispatching(s) {
      EmitQueues(s, s.loop.p);
    } else {
      LoopControls(c, s, t);
    }
  }

  lemma LoopArranged(c: Config, s: State, t: State)
    requires Inv(c, s) && Sound(c, s) && Arranged(s) && LoopStep(c, s) == Some(t) && Settled(s, t)
    ensures Arranged(t) && Grows(s, t)
  {
    LoopQueues(c, s, t);
    if s.loop == Want {
      WantArranged(c, s, t);
    } else {
      SettledArranged(c, s, t);
    }
  }

  lemma QuietArranged(c: Config, s: State, a: Action, t: State)
    requires Inv(c, s) && Sound(c, s) && Arranged(s) && Quiet(a) && Step(c, s, a) == Some(t)
    ensures Arranged(t) && Grows(s, t)
  {
    QuietCarries(c, s, a, t);
    CarriedSettled(s, t);
    match a
    case BeginGet(_) => SettledArranged(c, s, t);
    case Start => SettledArranged(c, s, t);
    case Stop => SettledArranged(c, s, t);
    case Get(n) =>
      GetCases(s, n, t);
      GetQueues(s, n, t);
      SettledArranged(c, s, t);
    case Loop => LoopArranged(c, s, t);
    case Work(w) =>
      WorkQueues(c, s, w, t);
      SettledArranged(c, s, t);
  }

  lemma BeginMainTouches(s: State, name: Name, size: nat, prio: nat, t: State)
    requires Names(s) && BeginMainStep(s, name, size, prio) == Some(t)
    ensures Touches(s, t, s.nextSub, s.nextMain)
  {
    FreshSub(s);
  }

  lemma BeginSubTouches(c: Config, s: State, name: Name, mainName: Name, deps: seq<Name>, t: State)
    requires Inv(c, s) && (forall n :: n in s.mainNames ==> s.mainNames[n] in s.mains)
    requires BeginSubStep(s, name, mainName, deps) == Some(t)
    ensures Touches(s, t, s.nextSub, if mainName in s.mainNames then s.mainNames[mainName] else s.nextMain)
  {
    FreshSub(s);
    if mainName in s.mainNames {
      RoomUnreleased(s, s.mainNames[mainName]);
    }
  }

  lemma AddMainTouches(s: State, m: Id, t: State)
    requires |s.waiting| == PRIORITIES && (forall m :: m in s.mains ==> s.mains[m].prio < PRIORITIES)
    requires Names(s) && AddMainStep(s, m) == Some(t)
    ensures Touches(s, t, s.nextSub, m)
  {
    FreshSub(s);
  }

  lemma LookUpArranged(c: Config, s: State, i: Id, t: State)
    requires Inv(c, s) && Arranged(s) && i in s.subs
    requires s.subs[i].add == ALLOCATED
    requires var u := s.subs[i];
      || t == s.(subs := s.subs[i := u.(threw := true)])
      || (u.mainName in s.mainIds && t == s.(subs := s.subs[i := u.(add := HAS_MAIN, mainId := s.mainIds[u.mainName])]))
    ensures Arranged(t) && Grows(s, t)
  {
    FreshSub(s);
    TouchArranged(c, s, t, i, s.nextMain);
  }

  lemma RegisterArranged(c: Config, s: State, i: Id, t: State)
    requires Inv(c, s) && Arranged(s) && i in s.subs
    requires t == RegisterStep(s, i)
    ensures Arranged(t) && Grows(s, t)
  {
    FreshSub(s);
    TouchArranged(c, s, t, i, s.nextMain);
  }

  lemma ReadyArranged(c: Config, s: State, i: Id, t: State)
    requires Inv(c, s) && Arranged(s) && i in s.subs
    requires s.subs[i].mainId in s.mains
    requires t == ReadyStep(s, i)
    ensures Arranged(t) && Grows(s, t)
  {
    TouchArranged(c, s, t, i, s.subs[i].mainId);
  }

  lemma UnwaitArranged(c: Config, s: State, i: Id, t: State)
    requires Inv(c, s) && Arranged(s) && i in s.subs
    requires s.subs[i].add == HOLDING && s.subs[i].mainId in s.mains
    requires |s.waiting| == PRIORITIES && s.mains[s.subs[i].mainId].prio < PRIORITIES
    requires t == UnwaitStep(s, i)
    ensures Arranged(t) && Grows(s, t)
  {
    ReleasingFacts(s, i);
    TouchArranged(c, s, t, i, s.subs[i].mainId);
  }

  lemma ReleasePushes(c: Config, s: State, i: Id, t: State)
    requires Inv(c, s) && i in s.subs && s.subs[i].add == RELEASING
    requires s.subs[i].mainId in s.mains && s.mains[s.subs[i].mainId].prio < PRIORITIES && t == ReleaseStep(s, i)
    ensures Pushes(s, t, s.subs[i].mainId)
  {
    var m := s.subs[i].mainId;
    ReleasingFacts(s, i);
    ListIsFresh(c, s, i, m);
  }

  lemma PushArranged(c: Config, s: State, i: Id, t: State)
    requires Inv(c, s) && Arranged(s) && i in s.subs && s.subs[i].add == RELEASING
    requires s.subs[i].mainId in s.mains && s.mains[s.subs[i].mainId].prio < PRIORITIES && t == ReleaseStep(s, i)
    ensures Arranged(t) && Grows(s, t)
  {
    ReleasePushes(c, s, i, t);
    ReleaseArranged(c, s, t, s.subs[i].mainId);
  }

  lemma AddSubArranged(c: Config, s: State, i: Id, t: State)
    requires Inv(c, s) && Sound(c, s) && Arranged(s) && AddSubStep(s, i) == Some(t)
    ensures Arranged(t) && Grows(s, t)
  {
    var add := s.subs[i].add;
    if add == ALLOCATED {
      LookUpArranged(c, s, i, t);
    } else if add <= SLOTTED {
      RegisterArranged(c, s, i, t);
    } else if add == FOUND {
      ReadyArranged(c, s, i, t);
    } else if add == RELEASING {
      PushArranged(c, s, i, t);
    } else {
      UnwaitArranged(c, s, i, t);
    }
  }

  lemma StepArranged(c: Config, s: State, a: Action, t: State)
    requires Inv(c, s) && Sound(c, s) && Arranged(s) && Step(c, s, a) == Some(t)
    ensures Arranged(t) && Grows(s, t)
  {
    if Quiet(a) {
      QuietArranged(c, s, a, t);
    } else {
      match a
      case BeginMain(name, size, prio) =>
        BeginMainTouches(s, name, size, prio, t);
        TouchArranged(c, s, t, s.nextSub, s.nextMain);
      case BeginSub(name, mainName, deps) =>
        BeginSubTouches(c, s, name, mainName, deps, t);
        TouchArranged(c, s, t, s.nextSub, if mainName in s.mainNames then s.mainNames[mainName] else s.nextMain);
      case AddMain(m) =>
        AddMainTouches(s, m, t);
        TouchArranged(c, s, t, s.nextSub, m);
      case AddSub(id) => AddSubArranged(c, s, id, t);
      case _ =>
    }
  }

  lemma NextArranged(c: Config, s: State, t: State)
    requires Inv(c, s) && Arranged(s) && Next(c, s, t)
    ensures Arranged(t) && Grows(s, t) && Inv(c, t)
  {
    var a :| Step(c, s, a) == Some(t);
    StepArranged(c, s, a, t);
    StepPreserves(c, s, a, t);
  }

  lemma GrowsOn(s: State, u: State, t: State)
    requires Grows(s, u) && Grows(u, t)
    ensures Grows(s, t)
  {
    forall p: nat
      ensures OfPrio(s, Order(s), p) <= OfPrio(t, Order(t), p)
    {
      assert OfPrio(s, Order(s), p) <= OfPrio(u, Order(u), p) <= OfPrio(t, Order(t), p);
    }
  }

  lemma {:induction false} RunArranged(c: Config, r: seq<State>)
    requires IsRun(c, r) && Inv(c, r[0]) && Arranged(r[0])
    ensures Inv(c, r[|r| - 1]) && Arranged(r[|r| - 1]) && Grows(r[0], r[|r| - 1])
  {
    if 1 < |r| {
      var q, x, y := r[..|r| - 1], r[|r| - 2], r[|r| - 1];
      RunBefore(c, r);
      RunArranged(c, q);
      NextArranged(c, x, y);
      GrowsOn(r[0], x, y);
    }
  }

  lemma InitArranged(c: Config)
    requires 1 <= c.poolSize
    ensures Arranged(Init(c))
  {
  }

  lemma ReachableArranged(c: Config, s: State)
    requires 1 <= c.poolSize && Reachable(c, s)
    ensures Inv(c, s) && Arranged(s)
  {
    var r :| IsRun(c, r) && r[0] == Init(c) && r[|r| - 1] == s;
    InvInit(c);
    InitArranged(c);
    RunArranged(c, r);
  }

  // ---- the theorems ----

  /** Workers and ring have received the passes of the event loop end to end, except for what the pass
      under way has still to emit; every pass falls in priority. */
  lemma PassesInOrder(c: Config, s: State)
    requires 1 <= c.poolSize && Reachable(c, s)
    ensures s.taken + s.ring <= Concat(s.passes)
    ensures !s.loop.Emit? ==> s.taken + s.ring == Concat(s.passes)
    ensures forall k :: 0 <= k < |s.passes| ==> Descending(s, s.passes[k])
  {
    ReachableArranged(c, s);
    if !s.loop.Emit? {
      DropSuffix(s.taken + s.ring, Concat(s.passes), Flat(s.ready));
    } else {
      assert Order(s) == Concat(s.passes);
    }
  }

  /** The subtasks of a released main task come together among all those of its priority, in the order in
      which they were added. */
  lemma AddOrderKept(c: Config, s: State, m: Id)
    requires 1 <= c.poolSize && Reachable(c, s) && m in s.mains && 2 <= s.mains[m].rel
    ensures exists a, b :: Contiguous(a, s.mains[m].order, b, OfPrio(s, Order(s), s.mains[m].prio))
    ensures forall id :: id in s.mains[m].order <==> id in s.mains[m].begun
  {
    ReachableArranged(c, s);
    assert Block(s, m);
  }

  /** First in, first out within each priority: along a run the sequence of a priority only grows at its
      end, so nothing released later is dispatched before it. */
  lemma FirstInFirstOut(c: Config, r: seq<State>, p: nat)
    requires 1 <= c.poolSize && IsRun(c, r) && Reachable(c, r[0])
    ensures OfPrio(r[0], Order(r[0]), p) <= OfPrio(r[|r| - 1], Order(r[|r| - 1]), p)
  {
    ReachableArranged(c, r[0]);
    RunArranged(c, r);
  }
}
