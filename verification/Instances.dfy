module Instances {
  /** What the dependency lists of a main task decide before anything runs, and submissions that show what
    can happen. */

  import opened Protocol
  import opened Invariant
  import opened CallPreserves
  import opened Dependencies
  import opened Progress
  import opened Deadlock
  import opened Standstill
  import opened Runs
  import opened Submission

  // ---- the lists decide ----

  /** The a-th subtask names the b-th. */
  ghost predicate ListEdge(deps: Deps, a: Id, b: Id)
  {
    1 <= a <= |deps| && 1 <= b <= |deps| && b - 1 in deps[a - 1]
  }

  ghost predicate ListsAt(deps: Deps, p: seq<Id>, k: nat)
  {
    k + 1 < |p| ==> ListEdge(deps, p[k], p[k + 1])
  }

  ghost predicate ListPath(deps: Deps, p: seq<Id>)
  {
    2 <= |p| && forall k {:trigger ListsAt(deps, p, k)} :: ListsAt(deps, p, k)
  }

  /** The a-th subtask depends on the b-th, directly or through others. */
  ghost predicate ListReaches(deps: Deps, a: Id, b: Id)
  {
    exists p :: ListPath(deps, p) && p[0] == a && p[|p| - 1] == b
  }

  ghost predicate CyclicLists(deps: Deps)
  {
    exists a :: ListReaches(deps, a, a)
  }

  ghost predicate ListCycles(deps: Deps, a: Id, x: Id)
  {
    (a == x || ListReaches(deps, a, x)) && ListReaches(deps, x, x)
  }

  /** Those among the first p that depend on one added after the p-th, or on a cycle. */
  ghost function OpenLists(deps: Deps, p: nat): set<Id>
    requires p <= |deps|
  {
    set a: Id | 1 <= a <= p && LeavesFirst(deps, a, p)
  }

  ghost predicate LeavesFirst(deps: Deps, a: Id, p: nat)
  {
    (exists x :: ListCycles(deps, a, x)) || exists b :: p < b <= |deps| && ListReaches(deps, a, b)
  }

  ghost predicate CrowdedLists(deps: Deps, n: nat)
  {
    exists p: nat :: p <= |deps| && n <= |OpenLists(deps, p)|
  }

  lemma PathListed(s: State, deps: Deps, p: seq<Id>)
    requires Ready0(s, deps)
    ensures IsPath(s, p) <==> ListPath(deps, p)
  {
    forall k: nat
      ensures EdgeAt(s, p, k) <==> ListsAt(deps, p, k)
    {
      if k + 1 < |p| {
        ReadyEdges(s, deps, p[k], p[k + 1]);
      }
    }
    assert IsPath(s, p) ==> forall k: nat :: EdgeAt(s, p, k);
  }

  lemma ReachesListed(s: State, deps: Deps, a: Id, b: Id)
    requires Ready0(s, deps)
    ensures Reaches(s, a, b) <==> ListReaches(deps, a, b)
  {
    if Reaches(s, a, b) {
      var p :| IsPath(s, p) && p[0] == a && p[|p| - 1] == b;
      PathListed(s, deps, p);
    }
    if ListReaches(deps, a, b) {
      var p :| ListPath(deps, p) && p[0] == a && p[|p| - 1] == b;
      PathListed(s, deps, p);
    }
  }

  lemma EscapesListed(s: State, deps: Deps, a: Id, p: nat)
    requires Ready0(s, deps) && p <= |deps|
    ensures Escapes(s, a, p) <==> LeavesFirst(deps, a, p)
  {
    var q := Order(s);
    CyclesListed(s, deps, a);
    if b :| b in q[p..] && Reaches(s, a, b) {
      ReachesListed(s, deps, a, b);
      assert p < b <= |deps|;
    }
    if b :| p < b <= |deps| && ListReaches(deps, a, b) {
      ReachesListed(s, deps, a, b);
      assert q[p..][b - 1 - p] == b;
    }
  }

  lemma CyclesListed(s: State, deps: Deps, a: Id)
    requires Ready0(s, deps)
    ensures OnCycle(s, a) <==> exists x :: ListCycles(deps, a, x)
  {
    forall x
      ensures Cycles(s, a, x) <==> ListCycles(deps, a, x)
    {
      ReachesListed(s, deps, a, x);
      ReachesListed(s, deps, x, x);
    }
  }

  lemma OpenListed(s: State, deps: Deps, p: nat)
    requires Ready0(s, deps) && p <= |deps|
    ensures p <= |Order(s)| && Open(s, p) == OpenLists(deps, p)
  {
    var q := Order(s);
    forall a: Id
      ensures a in Open(s, p) <==> a in OpenLists(deps, p)
    {
      EscapesListed(s, deps, a, p);
      if 1 <= a <= p {
        assert q[..p][a - 1] == a;
      }
    }
  }

  lemma GraphListed(c: Config, s: State, deps: Deps)
    requires Ready0(s, deps)
    ensures Acyclic(s) <==> !CyclicLists(deps)
    ensures Crowded(c, s) <==> CrowdedLists(deps, c.poolSize)
  {
    forall a, b
      ensures Reaches(s, a, b) <==> ListReaches(deps, a, b)
    {
      ReachesListed(s, deps, a, b);
    }
    forall p: nat | p <= |deps|
      ensures p <= |Order(s)| && Open(s, p) == OpenLists(deps, p)
    {
      OpenListed(s, deps, p);
    }
  }

  /** The lists alone decide, before anything has run: once a single main task with these lists has been
      submitted, a standstill can come if and only if the lists are cyclic or, for some p, at least as many of
      the first p subtasks as there are workers depend, directly or not, on one added later. */
  lemma ListsDecide(c: Config, s: State, deps: Deps)
    requires 1 <= c.poolSize && Reachable(c, s) && Ready0(s, deps)
    ensures (exists t :: Leads(c, s, t) && Stuck(c, t)) <==> (CyclicLists(deps) || CrowdedLists(deps, c.poolSize))
  {
    ReadySubmitted(s, deps);
    Contained(c, s);
    StandstillIff(c, s);
    GraphListed(c, s, deps);
  }

  lemma Contained(c: Config, s: State)
    requires 1 <= c.poolSize && Reachable(c, s) && Submitted(s)
    ensures SelfContained(s)
  {
    ReachableInv(c, s);
    SubmittedContained(c, s);
  }

  // ---- a main task with a cycle ----

  /** From a cycle of registered dependencies some run ends in a standstill in which none of them has started. */
  lemma CycleEnds(c: Config, s: State, a: Id) returns (t: State)
    requires 1 <= c.poolSize && Reachable(c, s) && Submitted(s) && KnownAll(s) && Reaches(s, a, a)
    ensures !Acyclic(s) && Leads(c, s, t) && Reachable(c, t) && Stuck(c, t)
    ensures a in t.subs && t.subs[a].rank < STARTED
  {
    ReachableInv(c, s);
    SubmittedContained(c, s);
    t := CycleStandsStill(c, s);
    LeadsReachable(c, s, t);
    StillCyclic(c, s, t, a);
  }

  lemma StillCyclic(c: Config, s: State, t: State, a: Id)
    requires Inv(c, s) && SelfContained(s) && KnownAll(s) && Leads(c, s, t) && Reaches(s, a, a)
    ensures a in t.subs && t.subs[a].rank < STARTED
  {
    LeadsKept(c, s, t);
    PathsCarried(s, t);
    CycleUnstarted(c, t, a);
  }

  /** Whatever the pool: a main task with a cycle among its subtasks can be submitted, and then some run ends
      in a standstill in which the subtask on the cycle has not started. */
  lemma CycleHappens(c: Config, deps: Deps, a: Id) returns (s: State, t: State)
    requires 1 <= c.poolSize && ListReaches(deps, a, a)
    ensures Reachable(c, s) && Ready0(s, deps) && Submitted(s) && !Acyclic(s)
    ensures Leads(c, s, t) && Reachable(c, t) && Stuck(c, t)
    ensures a in t.subs && t.subs[a].rank < STARTED
  {
    s := CycleSubmitted(c, deps, a);
    t := CycleEnds(c, s, a);
  }

  lemma CycleSubmitted(c: Config, deps: Deps, a: Id) returns (s: State)
    requires 1 <= c.poolSize && ListReaches(deps, a, a)
    ensures Reachable(c, s) && Ready0(s, deps) && Submitted(s) && KnownAll(s) && Reaches(s, a, a)
  {
    var p :| ListPath(deps, p) && p[0] == a && p[|p| - 1] == a;
    assert ListsAt(deps, p, 0);
    s := Submit(c, deps);
    ReadySubmitted(s, deps);
    ReachesListed(s, deps, a, a);
  }

  lemma SelfReaches()
    ensures ListReaches([[0]], 1, 1)
  {
    assert ListPath([[0]], [1, 1]);
  }

  lemma OneOrder(s: State)
    requires Ready0(s, [[0]])
    ensures Order(s) == [1]
  {
  }

  /** The smallest: one subtask that names itself. */
  lemma SelfDependence(c: Config) returns (s: State, t: State)
    requires 1 <= c.poolSize
    ensures Reachable(c, s) && Submitted(s) && Order(s) == [1] && !Acyclic(s)
    ensures Leads(c, s, t) && Reachable(c, t) && Stuck(c, t)
  {
    SelfReaches();
    s, t := CycleHappens(c, [[0]], 1);
    OneOrder(s);
  }

  // ---- the event loop comes round ----

  /** A run as `LoopComesRound` is about: with one subtask ready at its start the event loop turns more often
      than its distance from a dispatch. */
  lemma RoundHappens(c: Config) returns (r: seq<State>)
    requires 1 <= c.poolSize
    ensures IsRun(c, r) && Reachable(c, r[0]) && Flat(r[0].ready) != [] && RankOf(r[0].loop) < Turns(r)
  {
    var s := Submit(c, [[]]);
    ReachableInv(c, s);
    ReadySubmitted(s, [[]]);
    SubmittedContained(c, s);
    assert Order(s) == Flat(s.ready) && |Order(s)| == 1;
    ReadyUncompleted(c, s);
    NotExited(c, s);
    r := LoopGoesOn(c, s, RankOf(s.loop) + 1);
  }
}
