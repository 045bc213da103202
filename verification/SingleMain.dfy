module SingleMain {
  /** One main task whose subtasks are added in dependency order: any pool finishes it. */

  import opened Sequences
  import opened Protocol
  import opened Invariant
  import opened CallPreserves
  import opened Safety
  import opened Dependencies
  import opened Progress
  import opened Deadlock
  import opened Standstill
  import opened Completion
  import opened DispatchOrder

  /** A part that has all the elements of a sequence without repetition is all of it. */
  lemma WholePart(q: seq<Id>, a: seq<Id>, l: seq<Id>, b: seq<Id>)
    requires q == a + l + b && NoDup(q) && forall x :: x in q ==> x in l
    ensures q == l
  {
    forall i, j | 0 <= i < j < |l|
      ensures l[i] != l[j]
    {
      assert q[|a| + i] != q[|a| + j];
    }
    forall x
      ensures x in q <==> x in l
    {
    }
    var elements := set x | x in q;
    NoDupLength(q, elements);
    NoDupLength(l, elements);
    assert a == [] && b == [];
  }

  lemma OnlyMain(c: Config, s: State, m: Id, id: Id)
    requires Inv(c, s) && s.mains.Keys == {m} && id in Order(s)
    ensures PrioOf(s, id) == s.mains[m].prio && id in s.mains[m].begun && 2 <= s.mains[m].rel
  {
    assert Released(s, id) && SubMain(s, id);
    assert NameOk(s, s.subs[id].mainName);
    assert s.subs[id].mainId in s.mains.Keys;
  }

  /** With one main task the dispatch order is the order in which its subtasks were added. */
  lemma OrderIsAddOrder(c: Config, s: State, m: Id)
    requires 1 <= c.poolSize && Reachable(c, s) && s.mains.Keys == {m} && 2 <= s.mains[m].rel
    ensures Order(s) == s.mains[m].order
  {
    ReachableArranged(c, s);
    var q, l := Order(s), s.mains[m].order;
    forall id | id in q
      ensures PrioOf(s, id) == s.mains[m].prio && id in l
    {
      OnlyMain(c, s, m, id);
      assert Block(s, m);
    }
    OfPrioAll(s, q, s.mains[m].prio);
    assert Block(s, m);
    var a, b :| Contiguous(a, l, b, OfPrio(s, q, s.mains[m].prio));
    WholePart(q, a, l, b);
  }

  /** No subtask depends on itself or on one added after it. */
  predicate AddedInDependencyOrder(s: State, q: seq<Id>)
  {
    forall i, j :: 0 <= i < |q| && 0 <= j < |q| && DependsOn(s, q[i], q[j]) ==> j < i
  }

  /** Subtasks added in dependency order finish with any number of workers, one included: every complete
      run has called every function once and posted every slot. */
  lemma AddOrderFinish(c: Config, s: State, t: State, m: Id)
    requires 1 <= c.poolSize && Reachable(c, s) && Submitted(s) && s.mains.Keys == {m}
    requires AddedInDependencyOrder(s, s.mains[m].order) && Leads(c, s, t) && !CanProgress(c, t)
    ensures AllThrough(t)
  {
    assert Unwaited(s, m);
    OrderIsAddOrder(c, s, m);
    assert Topological(s);
    ReachableInv(c, s);
    SubmittedContained(c, s);
    TopologicalFinish(c, s, t);
  }

  /** And some run comes there. */
  lemma AddOrderRun(c: Config, s: State, m: Id) returns (t: State)
    requires 1 <= c.poolSize && Reachable(c, s) && Submitted(s) && s.mains.Keys == {m}
    requires AddedInDependencyOrder(s, s.mains[m].order)
    ensures Leads(c, s, t) && !CanProgress(c, t) && AllThrough(t)
  {
    ReachableInv(c, s);
    SubmittedContained(c, s);
    t := RunToEnd(c, s);
    AddOrderFinish(c, s, t, m);
  }
}
