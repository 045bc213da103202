module Tight {
  /** The bound on late subtasks is sharp: for every number of workers N, one main task of N + 1 subtasks,
    of which the first N depend on the one added last, can block every worker for ever. */

  import opened Sequences
  import opened Protocol
  import opened Invariant
  import opened CallPreserves
  import opened History
  import opened Safety
  import opened Dependencies
  import opened Progress
  import opened Deadlock
  import opened Standstill
  import opened Completion
  import opened Submission

  /** n subtasks that depend on the one added after them, which depends on none. */
  function AllOnLast(n: nat): Deps
  {
    seq(n + 1, j => if j < n then [n] else [])
  }

  lemma OnlyEdges(s: State, n: nat, a: Id, b: Id)
    requires Ready0(s, AllOnLast(n))
    ensures Edge(s, a, b) <==> 1 <= a <= n && b == n + 1
  {
    ReadyEdges(s, AllOnLast(n), a, b);
  }

  lemma OnlyPaths(s: State, n: nat, a: Id, b: Id)
    requires Ready0(s, AllOnLast(n)) && Reaches(s, a, b)
    ensures 1 <= a <= n && b == n + 1
  {
    var p :| IsPath(s, p) && p[0] == a && p[|p| - 1] == b;
    assert EdgeAt(s, p, 0) && EdgeAt(s, p, |p| - 2);
    OnlyEdges(s, n, p[0], p[1]);
    OnlyEdges(s, n, p[|p| - 2], p[|p| - 1]);
  }

  lemma ReadyAcyclic(s: State, n: nat)
    requires Ready0(s, AllOnLast(n))
    ensures Acyclic(s)
  {
    forall a
      ensures !Reaches(s, a, a)
    {
      if Reaches(s, a, a) {
        OnlyPaths(s, n, a, a);
      }
    }
  }

  lemma {:induction false} FirstIds(n: nat, k: nat) returns (b: set<Id>)
    requires k <= n
    ensures |b| == k && forall id: nat :: id in b <==> 1 <= id <= k
  {
    if k == 0 {
      b := {};
    } else {
      b := FirstIds(n, k - 1);
      b := b + {k};
    }
  }

  lemma ReadyCrowded(c: Config, s: State)
    requires 1 <= c.poolSize && Ready0(s, AllOnLast(c.poolSize))
    ensures Crowded(c, s)
  {
    var n, q := c.poolSize, Order(s);
    var b := FirstIds(n, n);
    forall id | id in b
      ensures id in Open(s, n)
    {
      assert q[..n][id - 1] == id && q[n..][0] == n + 1;
      OnlyEdges(s, n, id, n + 1);
      EdgeReaches(s, id, n + 1);
      assert Escapes(s, id, n);
    }
    SubsetSize(b, Open(s, n));
  }

  /** With something ready, room in the ring would let the event loop dispatch. */
  lemma RingFilled(c: Config, t: State)
    requires Inv(c, t) && SelfContained(t) && Stuck(c, t) && Flat(t.ready) != []
    ensures t.ring != []
  {
    if t.ring == [] {
      LoopDispatches(c, t, RankOf(t.loop));
    }
  }

  lemma OrderParts(s: State, t: State, n: nat)
    requires Ready0(s, AllOnLast(n)) && Carried(s, t)
    ensures t.taken + (t.ring + Flat(t.ready)) == seq(n + 1, j => j + 1)
  {
    assert Order(t) == t.taken + (t.ring + Flat(t.ready));
  }

  /** All but the last one added have been taken. */
  predicate LastRemains(t: State, n: nat)
  {
    |t.taken| == n && t.ring + Flat(t.ready) == [n + 1]
  }

  lemma WaitShape(c: Config, s: State, t: State)
    requires 1 <= c.poolSize && Ready0(s, AllOnLast(c.poolSize)) && Carried(s, t) && Inv(c, t) && AllWait(t)
    ensures LastRemains(t, c.poolSize)
  {
    LastUntaken(c, s, t);
    HeldAreTaken(c, t);
    OrderParts(s, t, c.poolSize);
    LastLeft(t.taken, t.ring + Flat(t.ready), c.poolSize);
  }

  /** In a standstill of this submission every worker holds one of the first n, so the last one added is
      all that is left, and it sits in the ring. */
  lemma LastInRing(c: Config, t: State)
    requires Inv(c, t) && SelfContained(t) && Stuck(c, t) && LastRemains(t, c.poolSize)
    ensures |t.taken| == c.poolSize && t.ring == [c.poolSize + 1]
  {
    if Flat(t.ready) != [] {
      RingFilled(c, t);
    }
    OneLeft(t.ring, Flat(t.ready), c.poolSize + 1);
  }

  lemma OneLeft(a: seq<Id>, b: seq<Id>, x: Id)
    requires a + b == [x] && (b != [] ==> a != [])
    ensures a == [x]
  {
    assert |a| + |b| == 1 && (a + b)[0] == a[0];
  }

  lemma InPrefix(a: seq<Id>, b: seq<Id>, n: nat)
    requires n < |a + b|
    ensures n < |a| ==> (a + b)[n] in a
  {
  }

  lemma LastLeft(a: seq<Id>, b: seq<Id>, n: nat)
    requires a + b == seq(n + 1, j => j + 1) && n + 1 !in a && n <= |a|
    ensures |a| == n && b == [n + 1]
  {
    assert (a + b)[n] == n + 1;
    InPrefix(a, b, n);
    assert (a + b)[n..] == b;
  }

  /** One main task of n + 1 subtasks: the first n depend on the one added last, which depends on none. */
  ghost predicate OneForAll(t: State, n: nat)
  {
    && t.mains.Keys == {1} && t.mains[1].size == n + 1 && (forall id: nat :: id in t.subs <==> 1 <= id <= n + 1)
    && (forall id: nat :: 1 <= id <= n ==> t.subs[id].deps == [t.subs[n + 1].name]) && t.subs[n + 1].deps == []
  }

  lemma StaysOneForAll(s: State, t: State, n: nat)
    requires Ready0(s, AllOnLast(n)) && Carried(s, t)
    ensures OneForAll(t, n)
  {
    assert MainCarries(s.mains[1], t.mains[1]);
    assert IsIn(s, AllOnLast(n), n + 1) && Carries(s.subs[n + 1], t.subs[n + 1]);
    forall id: nat | 1 <= id <= n
      ensures t.subs[id].deps == [t.subs[n + 1].name]
    {
      assert IsIn(s, AllOnLast(n), id) && Carries(s.subs[id], t.subs[id]);
    }
  }

  /** The worker has one of the first n and is blocked at its wait for the last. */
  predicate OnLast(pc: WorkerPc, n: nat)
  {
    pc.DepWait? && 1 <= pc.id <= n && pc.dep == n + 1
  }

  /** Every waiting worker has one of the first n and waits for the last. */
  lemma WaitsForLast(c: Config, s: State, t: State, w: nat)
    requires Ready0(s, AllOnLast(c.poolSize)) && Inv(c, t) && Carried(s, t) && AllWait(t) && w < |t.workers|
    ensures OnLast(t.workers[w], c.poolSize)
  {
    var n, a, d := c.poolSize, t.workers[w].id, t.workers[w].dep;
    assert WorkerOk(t, w);
    assert IsIn(s, AllOnLast(n), a) && Carries(s.subs[a], t.subs[a]);
    assert IsIn(s, AllOnLast(n), d) && Carries(s.subs[d], t.subs[d]);
  }

  /** What all workers wait for is not done. */
  lemma LastNotDone(c: Config, s: State, t: State)
    requires Ready0(s, AllOnLast(c.poolSize)) && Inv(c, t) && Carried(s, t) && AllWait(t)
    ensures c.poolSize + 1 in t.subs && !t.subs[c.poolSize + 1].done && t.subs[c.poolSize + 1].deps == []
  {
    WaitsForLast(c, s, t, 0);
    StaysOneForAll(s, t, c.poolSize);
  }

  lemma LastUntaken(c: Config, s: State, t: State)
    requires Ready0(s, AllOnLast(c.poolSize)) && Inv(c, t) && Carried(s, t) && AllWait(t)
    ensures c.poolSize + 1 !in t.taken
  {
    var z := c.poolSize + 1;
    LastNotDone(c, s, t);
    assert Local(t.subs[z], t.clock);
    assert z in t.taken ==> HeldBy(t, z);
    assert HeldBy(t, z) ==> WorkerOk(t, t.subs[z].owner);
  }

  lemma HeldAreTaken(c: Config, t: State)
    requires Inv(c, t) && AllWait(t)
    ensures c.poolSize <= |t.taken|
  {
    var n := c.poolSize;
    HeldSetFacts(c, t, n);
    var taken := set id | id in t.taken;
    assert NoDup(t.taken) by {
      forall i, j | 0 <= i < j < |t.taken|
        ensures t.taken[i] != t.taken[j]
      {
        assert Order(t)[i] == t.taken[i] && Order(t)[j] == t.taken[j];
      }
    }
    NoDupLength(t.taken, taken);
    SubsetSize(HeldSet(t, n), taken);
  }

  lemma AcyclicLater(c: Config, s: State, t: State)
    requires Inv(c, s) && SelfContained(s) && Acyclic(s) && Leads(c, s, t)
    ensures Inv(c, t) && SelfContained(t) && Carried(s, t) && Acyclic(t)
  {
    LeadsKept(c, s, t);
    PathsCarried(s, t);
  }

  /** One main task of n + 1 subtasks, the first n depending on the last: all n are with the n workers, each
      blocked at its wait for the last, which is in the ring; exactly n subtasks are late. */
  ghost predicate Sharp(t: State, n: nat)
  {
    && OneForAll(t, n) && |t.workers| == n && (forall w :: 0 <= w < n ==> OnLast(t.workers[w], n))
    && |t.taken| == n && t.ring == [n + 1] && |Order(t)| == n + 1 && |Late(t)| == n
  }

  /** No later step of anybody moves a worker. */
  ghost predicate ForEver(c: Config, t: State)
  {
    forall r :: IsRun(c, r) && r[0] == t ==> WorkersStay(t, r[|r| - 1])
  }

  /** For every number of workers there is such a reachable state, and it is a standstill for ever. */
  lemma BoundIsSharp(c: Config) returns (t: State)
    requires 1 <= c.poolSize
    ensures Reachable(c, t) && Stuck(c, t) && Sharp(t, c.poolSize) && ForEver(c, t)
  {
    var s := Submit(c, AllOnLast(c.poolSize));
    ReachableInv(c, s);
    ReadySubmitted(s, AllOnLast(c.poolSize));
    ReadyAcyclic(s, c.poolSize);
    SubmittedContained(c, s);
    ReadyCrowded(c, s);
    t := CrowdedLeadsToStuck(c, s);
    LeadsReachable(c, s, t);
    AcyclicLater(c, s, t);
    SharpShape(c, s, t);
    forall r | IsRun(c, r) && r[0] == t
      ensures WorkersStay(t, r[|r| - 1])
    {
      StandstillLasts(c, r);
    }
  }

  lemma SharpShape(c: Config, s: State, t: State)
    requires 1 <= c.poolSize && Ready0(s, AllOnLast(c.poolSize)) && Carried(s, t)
    requires Inv(c, t) && SelfContained(t) && Acyclic(t) && Stuck(c, t)
    ensures AllWait(t) && Sharp(t, c.poolSize)
  {
    StuckWaits(c, t);
    WaitShape(c, s, t);
    LastInRing(c, t);
    LateCount(c, s, t);
    StaysOneForAll(s, t, c.poolSize);
    forall w | 0 <= w < |t.workers|
      ensures OnLast(t.workers[w], c.poolSize)
    {
      WaitsForLast(c, s, t, w);
    }
  }

  lemma LateOnly(s: State, t: State, n: nat, a: Id)
    requires Ready0(s, AllOnLast(n)) && Carried(s, t) && a in Late(t)
    ensures 1 <= a <= n
  {
    var i, j :| 0 <= i < j < |Order(t)| && Order(t)[i] == a && Reaches(t, a, Order(t)[j]);
    PathsCarried(s, t);
    OnlyPaths(s, n, a, Order(t)[j]);
  }

  lemma LateAt(t: State, i: nat, j: nat)
    requires i < j < |Order(t)| && Reaches(t, Order(t)[i], Order(t)[j])
    ensures Order(t)[i] in Late(t)
  {
    assert IsLate(t, Order(t)[i]);
  }

  lemma FirstLate(s: State, t: State, n: nat, a: Id)
    requires Ready0(s, AllOnLast(n)) && Carried(s, t) && 1 <= a <= n
    ensures a in Late(t)
  {
    FirstReaches(s, n, a);
    StillReaches(s, t, a, n + 1);
    OrderAt(s, t, n, a - 1);
    OrderAt(s, t, n, n);
    LateAt(t, a - 1, n);
  }

  lemma OrderAt(s: State, t: State, n: nat, k: nat)
    requires Ready0(s, AllOnLast(n)) && Carried(s, t) && k <= n
    ensures k < |Order(t)| && Order(t)[k] == k + 1
  {
  }

  lemma FirstReaches(s: State, n: nat, a: Id)
    requires Ready0(s, AllOnLast(n)) && 1 <= a <= n
    ensures Reaches(s, a, n + 1)
  {
    OnlyEdges(s, n, a, n + 1);
    EdgeReaches(s, a, n + 1);
  }

  lemma StillReaches(s: State, t: State, a: Id, b: Id)
    requires Carried(s, t) && Reaches(s, a, b)
    ensures Reaches(t, a, b)
  {
    PathsCarried(s, t);
  }

  /** One late subtask fewer and there would be no standstill. */
  lemma LateCount(c: Config, s: State, t: State)
    requires Ready0(s, AllOnLast(c.poolSize)) && Carried(s, t)
    ensures |Late(t)| == c.poolSize
  {
    var b := FirstIds(c.poolSize, c.poolSize);
    forall a: nat
      ensures a in Late(t) <==> a in b
    {
      if a in Late(t) {
        LateOnly(s, t, c.poolSize, a);
      }
      if a in b {
        FirstLate(s, t, c.poolSize, a);
      }
    }
    assert Late(t) == b;
  }
}
