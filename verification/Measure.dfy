/** How many steps of dispatch and of workers are left for the released subtasks. */
module Measure {
  import opened Sequences
  import opened Protocol
  import opened Invariant
  import opened History

  function DepCount(s: State, id: Id): nat
  {
    if id in s.subs then |s.subs[id].deps| else 0
  }

  /** Steps a worker still takes along the subtask it holds: three for each dependency ahead. */
  function PcWork(s: State, pc: WorkerPc): nat
  {
    match pc
    case Idle => 0
    case Fetch(id) => 3 * DepCount(s, id) + 10
    case Dep(id, k) => 3 * Ahead(s, id, k) + 9
    case DepNamed(id, k, _) => 3 * Ahead(s, id, k) + 8
    case DepWait(id, k, _) => 3 * Ahead(s, id, k) + 7
    case Running(_) => 8
    case Ran(_, _) => 7
    case Posted(_) => 6
    case Completed(_) => 5
    case Done(_) => 4
    case AtMain(_) => 3
    case LastOne(_) => 2
    case Unlisting(_) => 1
  }

  function Ahead(s: State, id: Id, k: nat): nat
  {
    if k <= DepCount(s, id) then DepCount(s, id) - k else 0
  }

  /** Steps left for the k-th subtask of the dispatch order, which is taken, in the ring, or ready. */
  function LeftAt(s: State, k: nat): nat
    requires k < |Order(s)|
  {
    var id := Order(s)[k];
    if k < |s.taken| then
      if id in s.subs && s.subs[id].rank < FINISHED && s.subs[id].owner < |s.workers|
      then PcWork(s, s.workers[s.subs[id].owner]) else 0
    else if k < |s.taken + s.ring| then 3 * DepCount(s, id) + 11
    else 3 * DepCount(s, id) + 12
  }

  ghost function Sum(s: State, n: nat): nat
    requires n <= |Order(s)|
  {
    if n == 0 then 0 else Sum(s, n - 1) + LeftAt(s, n - 1)
  }

  ghost function Effort(s: State): nat
  {
    Sum(s, |Order(s)|)
  }

  /** Twelve for each released subtask and three for each of its dependencies. */
  ghost function Budget(s: State, n: nat): nat
    requires n <= |Order(s)|
  {
    if n == 0 then 0 else Budget(s, n - 1) + 12 + 3 * DepCount(s, Order(s)[n - 1])
  }

  lemma {:induction false} EffortBounded(c: Config, s: State, n: nat)
    requires Inv(c, s) && n <= |Order(s)|
    ensures Sum(s, n) <= Budget(s, n)
  {
    if 0 < n {
      EffortBounded(c, s, n - 1);
      var id := Order(s)[n - 1];
      if n - 1 < |s.taken| {
        assert s.taken[n - 1] == id && id in s.taken;
        if s.subs[id].rank < FINISHED {
          assert HeldBy(s, id);
        }
      }
    }
  }

  /** If nothing is costlier and one thing is cheaper, the sum is smaller. */
  lemma {:induction false} SumFalls(s: State, t: State, n: nat, k: nat)
    requires Order(t) == Order(s) && n <= |Order(s)| && k < |Order(s)|
    requires forall j :: 0 <= j < |Order(s)| ==> LeftAt(t, j) <= LeftAt(s, j)
    requires LeftAt(t, k) < LeftAt(s, k)
    ensures Sum(t, n) <= Sum(s, n) && (k < n ==> Sum(t, n) < Sum(s, n))
  {
    if 0 < n {
      SumFalls(s, t, n - 1, k);
    }
  }

  lemma {:induction false} SumStays(s: State, t: State, n: nat)
    requires Order(t) == Order(s) && n <= |Order(s)|
    requires forall j :: 0 <= j < |Order(s)| ==> LeftAt(t, j) == LeftAt(s, j)
    ensures Sum(t, n) == Sum(s, n)
  {
    if 0 < n {
      SumStays(s, t, n - 1);
    }
  }

  lemma CarriedDeps(s: State, t: State)
    requires Carried(s, t)
    ensures forall id :: DepCount(t, id) == DepCount(s, id)
  {
    forall id
      ensures DepCount(t, id) == DepCount(s, id)
    {
      assert id in s.subs ==> Carries(s.subs[id], t.subs[id]);
    }
  }

  /** A worker's step along its subtask brings the subtask closer to its end. */
  lemma PcFalls(c: Config, s: State, w: nat, t: State)
    requires SoundAt(s, w) && w < |s.workers| && !s.workers[w].Idle? && t == ActStep(c, s, w)
    requires forall id :: DepCount(t, id) == DepCount(s, id)
    ensures PcWork(t, t.workers[w]) < PcWork(s, s.workers[w])
  {
  }

  lemma OtherPc(s: State, t: State, pc: WorkerPc)
    requires forall id :: DepCount(t, id) == DepCount(s, id)
    ensures PcWork(t, pc) == PcWork(s, pc)
  {
  }

  lemma OrderTaken(s: State, k: nat)
    requires k < |Order(s)|
    ensures k < |s.taken| ==> Order(s)[k] == s.taken[k] && Order(s)[k] in s.taken
  {
  }

  /** Where an id stands in the dispatch order. */
  lemma TakenAt(s: State, id: Id) returns (k: nat)
    requires id in s.taken
    ensures k < |s.taken| && s.taken[k] == id && Order(s)[k] == id
  {
    k :| 0 <= k < |s.taken| && s.taken[k] == id;
  }

  lemma ActFalls(c: Config, s: State, w: nat, t: State)
    requires Ordered(c, s) && Workers(c, s) && SoundAt(s, w) && w < |s.workers|
    requires !s.workers[w].Idle? && WorkStep(c, s, w) == Some(t)
    requires Ordered(c, t) && Workers(c, t) && Carried(s, t)
    ensures Effort(t) < Effort(s)
  {
    var i := s.workers[w].id;
    assert WorkerOk(s, w);
    assert i in s.taken;
    CarriedDeps(s, t);
    PcFalls(c, s, w, t);
    var k := TakenAt(s, i);
    forall j | 0 <= j < |Order(s)|
      ensures LeftAt(t, j) <= LeftAt(s, j) && (j == k ==> LeftAt(t, j) < LeftAt(s, j))
    {
      var id := Order(s)[j];
      OrderTaken(s, j);
      if j < |s.taken| {
        assert Carries(s.subs[id], t.subs[id]);
        if s.subs[id].rank < FINISHED {
          assert HeldBy(s, id);
          OtherPc(s, t, s.workers[s.subs[id].owner]);
        }
        if id != i {
          assert t.subs[id] == s.subs[id];
        }
      }
    }
    SumFalls(s, t, |Order(s)|, k);
  }

  lemma PopFalls(c: Config, s: State, w: nat, t: State)
    requires Ordered(c, s) && Workers(c, s) && SoundAt(s, w) && w < |s.workers|
    requires s.workers[w].Idle? && s.ring != [] && t == PopStep(s, w)
    requires Carried(s, t) && s.subs[s.ring[0]].rank == UNTAKEN
    ensures Effort(t) < Effort(s)
  {
    var i, k := s.ring[0], |s.taken|;
    assert s.ring == [i] + s.ring[1..];
    CarriedDeps(s, t);
    assert Order(s)[k] == i && t.taken[k] == i;
    forall j | 0 <= j < |Order(s)|
      ensures LeftAt(t, j) <= LeftAt(s, j) && (j == k ==> LeftAt(t, j) < LeftAt(s, j))
    {
      var id := Order(s)[j];
      OrderTaken(s, j);
      if j < |s.taken| {
        assert id in s.taken;
        assert id != i;
        if s.subs[id].rank < FINISHED {
          assert HeldBy(s, id);
          OtherPc(s, t, s.workers[s.subs[id].owner]);
        }
      }
    }
    SumFalls(s, t, |Order(s)|, k);
  }

  lemma EmitFalls(c: Config, s: State, p: nat, t: State)
    requires Ordered(c, s) && p < |s.ready| && s.ready[p] != [] && s.ready[p][0] in s.subs && t == EmitStep(s, p)
    requires Carried(s, t)
    ensures Effort(t) < Effort(s)
  {
    var k := |s.taken + s.ring|;
    CarriedDeps(s, t);
    assert |Order(t)| == |Order(s)| && |t.taken + t.ring| == k + 1 <= |Order(t)|;
    forall j | 0 <= j < |Order(s)|
      ensures LeftAt(t, j) <= LeftAt(s, j) && (j == k ==> LeftAt(t, j) < LeftAt(s, j))
    {
      var id := Order(s)[j];
      OrderTaken(s, j);
      if j < |s.taken| && id in s.subs && s.subs[id].owner < |s.workers| {
        OtherPc(s, t, s.workers[s.subs[id].owner]);
      }
    }
    SumFalls(s, t, |Order(s)|, k);
  }

  /** Steps that neither dispatch nor move a worker change nothing that is left to do. */
  lemma IdleStays(s: State, t: State)
    requires Carried(s, t) && t.workers == s.workers && t.taken == s.taken && t.ring == s.ring
    requires forall id :: id in s.subs ==> t.subs[id].rank == s.subs[id].rank && t.subs[id].owner == s.subs[id].owner
    ensures Effort(t) == Effort(s)
  {
    CarriedDeps(s, t);
    forall j | 0 <= j < |Order(s)|
      ensures LeftAt(t, j) == LeftAt(s, j)
    {
      var id := Order(s)[j];
      if id in s.subs && s.subs[id].owner < |s.workers| {
        OtherPc(s, t, s.workers[s.subs[id].owner]);
      }
    }
    SumStays(s, t, |Order(s)|);
  }
}
