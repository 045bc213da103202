module RingLoss {
  /** A shutdown can lose items: for every size there is a run in which stop is set on a full ring and a pop
    returns false although every slot still holds an item. */

  import opened Sequences
  import opened RingMachine

  lemma Go(size: nat, r: Ring, a: Action, t: Ring)
    requires Reachable(size, r) && Shaped(size, r) && Step(size, r, a) == Some(t)
    ensures Reachable(size, t)
  {
    var q, m: nat, n: nat :| IsRun(size, q) && q[0] == Init(size, m, n) && q[|q| - 1] == r;
    var z := q + [t];
    assert Next(size, r, t);
    forall k | 0 <= k < |z| - 1
      ensures Next(size, z[k], z[k + 1])
    {
      if k < |q| - 1 {
        assert Next(size, q[k], q[k + 1]);
      }
    }
    assert IsRun(size, z) && z[0] == Init(size, m, n) && z[|z| - 1] == t;
  }

  /** Nobody is under way; n items have been written and none read. */
  predicate Filled(size: nat, r: Ring, n: nat)
  {
    && Shaped(size, r) && |r.producers| == 1 == |r.consumers|
    && r.producers[0] == PIdle && r.consumers[0] == CIdle && r.stopper == SIdle
    && r.pro == Free && r.con == Free && !r.stop && |r.written| == n
    && r.read == [] && r.full + n == size && r.empty == n
  }

  /** One call of emplace, from its P to its V. */
  lemma EmplaceOnce(size: nat, r: Ring, x: Item, n: nat) returns (t: Ring)
    requires Reachable(size, r) && Filled(size, r, n) && n < size
    ensures Reachable(size, t) && Filled(size, t, n + 1)
  {
    var a := r.(producers := r.producers[0 := PWait(x)]);
    Go(size, r, Emplace(0, x), a);
    var b := a.(full := r.full - 1, producers := a.producers[0 := PToken(x)]);
    Go(size, a, Produce(0), b);
    var c := b.(pro := ByThread(0), producers := b.producers[0 := PIn(x)]);
    Go(size, b, Produce(0), c);
    var d := c.(producers := c.producers[0 := PWriting(x)]);
    Go(size, c, Produce(0), d);
    t := EmplaceRest(size, d, x, n);
  }

  lemma EmplaceRest(size: nat, d: Ring, x: Item, n: nat) returns (t: Ring)
    requires Reachable(size, d) && |d.producers| == 1 && d.producers[0] == PWriting(x) && d.pro == ByThread(0)
    requires Filled(size, d.(producers := d.producers[0 := PIdle], pro := Free, full := d.full + 1), n)
    ensures Reachable(size, t) && Filled(size, t, n + 1)
  {
    var e := d.(slots := d.slots[d.tail := x], producers := d.producers[0 := PAdvancing(x)]);
    Go(size, d, Produce(0), e);
    var f := e.(tail := (e.tail + 1) % size, written := e.written + [x], producers := e.producers[0 := PWrote]);
    Go(size, e, Produce(0), f);
    t := Announce(size, f, n);
  }

  lemma Announce(size: nat, f: Ring, n: nat) returns (t: Ring)
    requires Reachable(size, f) && |f.producers| == 1 && f.producers[0] == PWrote && f.pro == ByThread(0)
    requires Filled(size, f.(producers := f.producers[0 := PIdle], pro := Free, empty := f.empty + 1), n + 1)
    ensures Reachable(size, t) && Filled(size, t, n + 1)
  {
    var g := f.(pro := Free, producers := f.producers[0 := PPost]);
    Go(size, f, Produce(0), g);
    t := g.(empty := g.empty + 1, producers := g.producers[0 := PIdle]);
    Go(size, g, Produce(0), t);
  }

  lemma {:induction false} Fill(size: nat, n: nat) returns (r: Ring)
    requires 1 <= size && n <= size
    ensures Reachable(size, r) && Filled(size, r, n)
  {
    if n == 0 {
      r := Init(size, 1, 1);
      assert IsRun(size, [r]);
      assert [r][0] == Init(size, 1, 1) && [r][|[r]| - 1] == r;
    } else {
      var s := Fill(size, n - 1);
      r := EmplaceOnce(size, s, n, n - 1);
    }
  }

  lemma SetStop(size: nat, r: Ring) returns (t: Ring)
    requires Reachable(size, r) && Filled(size, r, size)
    ensures Reachable(size, t) && t == r.(stop := true, stopper := SHalf, pro := ByStopper)
  {
    var a := r.(pro := ByStopper, stopper := SWantCon);
    Go(size, r, StopStep, a);
    var b := a.(con := ByStopper, stopper := SBoth);
    Go(size, a, StopStep, b);
    var c := b.(stop := true, stopper := SSet);
    Go(size, b, StopStep, c);
    t := c.(con := Free, stopper := SHalf);
    Go(size, c, StopStep, t);
  }

  /** Full at stop: the pop is refused although the ring holds size items. */
  lemma RefusedWithItemsLeft(size: nat) returns (t: Ring)
    requires 1 <= size
    ensures Reachable(size, t) && |t.consumers| == 1 && t.consumers[0] == CRejected
    ensures t.stop && t.read == [] && |t.written| == size
  {
    var f := Fill(size, size);
    var r := SetStop(size, f);
    ReachableInv(size, f);
    IndicesEqual(size, f);
    var a := r.(consumers := r.consumers[0 := CWait]);
    Go(size, r, Pop(0), a);
    var b := a.(empty := r.empty - 1, consumers := a.consumers[0 := CToken]);
    Go(size, a, Consume(0), b);
    var d := b.(con := ByThread(0), consumers := b.consumers[0 := CIn]);
    Go(size, b, Consume(0), d);
    t := d.(empty := d.empty + 1, consumers := d.consumers[0 := CRejected]);
    Go(size, d, Consume(0), t);
  }
}
