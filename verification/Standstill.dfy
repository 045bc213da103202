module Standstill {
  /** The exact condition for a standstill, its consequences, and what complete runs achieve. */

  import opened Sequences
  import opened Protocol
  import opened Invariant
  import opened CallPreserves
  import opened History
  import opened Safety
  import opened Dependencies
  import opened Measure
  import opened Progress
  import opened Deadlock

  // ---- driving a run to a chosen point of the dispatch order ----

  /** The run can be driven from s to position p: on the way fewer subtasks are open than there are
      workers. */
  ghost predicate Drivable(c: Config, s: State, p: nat)
  {
    && Inv(c, s) && SelfContained(s) && |s.taken| <= p <= |Order(s)|
    && forall q: nat {:trigger Open(s, q)} :: |s.taken| <= q < p ==> |Open(s, q)| < c.poolSize
  }

  lemma MoveOf(c: Config, s: State, w: nat) returns (t: State)
    requires Inv(c, s) && w < |s.workers| && WorkerMoves(s, w)
    ensures QuietNext(c, s, t) && WorkStep(c, s, w) == Some(t) && SoundAt(s, w)
  {
    InvSound(c, s);
    MovesStep(c, s, w);
    t := WorkStep(c, s, w).value;
    assert Step(c, s, Work(w)) == Some(t) && Quiet(Work(w));
  }

  lemma MovedTaken(c: Config, s: State, w: nat, t: State)
    requires SoundAt(s, w) && w < |s.workers| && WorkStep(c, s, w) == Some(t)
    ensures |t.taken| <= |s.taken| + (if s.workers[w].Idle? then 1 else 0)
  {
    if !s.workers[w].Idle? {
      ActTaken(c, s, w);
    }
  }

  lemma ActTaken(c: Config, s: State, w: nat)
    requires SoundAt(s, w) && w < |s.workers| && !s.workers[w].Idle?
    ensures ActStep(c, s, w).taken == s.taken
  {
  }

  lemma StillDrivable(c: Config, s: State, t: State, p: nat)
    requires Drivable(c, s, p) && Inv(c, t) && SelfContained(t) && Carried(s, t) && |t.taken| <= p
    ensures Drivable(c, t, p)
  {
    OpenCarried(s, t);
  }

  /** A worker moves: one step closer, and p is not overrun. */
  lemma DriveWorker(c: Config, s: State, p: nat, w: nat) returns (t: State)
    requires Drivable(c, s, p) && w < |s.workers| && WorkerMoves(s, w)
    requires !s.workers[w].Idle? || |s.taken| < p
    ensures Drivable(c, t, p) && Leads(c, s, t) && Effort(t) < Effort(s)
  {
    t := MoveOf(c, s, w);
    StepKept(c, s, t);
    MovedTaken(c, s, w, t);
    WorkEffort(c, s, w, t);
    StillDrivable(c, s, t, p);
    LeadsSelf(c, t);
    LeadsStep(c, s, t, t);
  }

  /** No busy worker can move and p is not reached: an idle worker pops or the event loop dispatches. */
  lemma DriveIdle(c: Config, s: State, p: nat) returns (t: State)
    requires Drivable(c, s, p) && AllBlocked(s) && |s.taken| < p
    ensures Drivable(c, t, p) && Leads(c, s, t) && Effort(t) < Effort(s)
  {
    FewOpenIdle(c, s);
    var w :| 0 <= w < |s.workers| && s.workers[w].Idle?;
    if s.ring != [] {
      t := DriveWorker(c, s, p, w);
    } else {
      assert Order(s) == s.taken + Flat(s.ready);
      LoopDispatches(c, s, RankOf(s.loop));
      t := Dispatched(c, s);
      StillDrivable(c, s, t, p);
    }
  }

  /** Some run pops exactly up to position p and then has every busy worker blocked. */
  lemma {:induction false} Drive(c: Config, s: State, p: nat) returns (t: State)
    requires Drivable(c, s, p)
    ensures Leads(c, s, t) && AllBlocked(t) && |t.taken| == p
    decreases Effort(s)
  {
    var u := s;
    if w :| 0 <= w < |s.workers| && !s.workers[w].Idle? && WorkerMoves(s, w) {
      u := DriveWorker(c, s, p, w);
    } else if |s.taken| < p {
      u := DriveIdle(c, s, p);
    } else {
      LeadsSelf(c, s);
      return s;
    }
    t := Drive(c, u, p);
    LeadsOn(c, s, u, t);
  }

  /** With every worker blocked, the event loop can only fill the ring; then nothing moves. */
  lemma {:induction false} FillUp(c: Config, s: State) returns (t: State)
    requires Inv(c, s) && SelfContained(s)
    requires forall w :: 0 <= w < |s.workers| ==> !s.workers[w].Idle? && !WorkerMoves(s, w)
    ensures Leads(c, s, t) && Stuck(c, t)
    decreases Effort(s)
  {
    if CanDispatch(c, s) {
      var u := Dispatched(c, s);
      forall w | 0 <= w < |u.workers|
        ensures !u.workers[w].Idle? && !WorkerMoves(u, w)
      {
        assert WorkerOk(s, w) && !WorkerMoves(s, w);
      }
      t := FillUp(c, u);
      LeadsOn(c, s, u, t);
    } else {
      LeadsSelf(c, s);
      t := s;
      assert WorkerOk(s, 0) && !WorkerMoves(s, 0);
      assert Local(s.subs[s.workers[0].id], s.clock);
      assert Unfinished(s, s.workers[0].id);
    }
  }

  /** Some position of the dispatch order, from here on, has as many open subtasks before it as there
      are workers. */
  ghost predicate Crowded(c: Config, s: State)
  {
    exists p: nat :: |s.taken| <= p <= |Order(s)| && c.poolSize <= |Open(s, p)|
  }

  lemma {:induction false} FirstCrowded(c: Config, s: State, p: nat) returns (q: nat)
    requires |s.taken| <= p <= |Order(s)| && c.poolSize <= |Open(s, p)|
    ensures |s.taken| <= q <= |Order(s)| && c.poolSize <= |Open(s, q)|
    ensures forall k: nat :: |s.taken| <= k < q ==> |Open(s, k)| < c.poolSize
    decreases p
  {
    if k: nat :| |s.taken| <= k < p && c.poolSize <= |Open(s, k)| {
      q := FirstCrowded(c, s, k);
    } else {
      q := p;
    }
  }

  /** Once all subtasks open at the position reached are held, no worker is idle. */
  lemma AllHeld(c: Config, u: State)
    requires Inv(c, u) && KnownAll(u) && AllBlocked(u)
    requires |u.taken| <= |Order(u)| && c.poolSize <= |Open(u, |u.taken|)|
    ensures forall w :: 0 <= w < |u.workers| ==> !u.workers[w].Idle? && !WorkerMoves(u, w)
  {
    OpenHeld(c, u);
    HeldSetFacts(c, u, |u.workers|);
    SubsetSize(Open(u, |u.taken|), HeldSet(u, |u.workers|));
    forall w | 0 <= w < |u.workers|
      ensures !u.workers[w].Idle? && !WorkerMoves(u, w)
    {
      assert !u.workers[w].Idle?;
    }
  }

  lemma CrowdedLeadsToStuck(c: Config, s: State) returns (t: State)
    requires Inv(c, s) && SelfContained(s) && KnownAll(s) && Crowded(c, s)
    ensures Leads(c, s, t) && Stuck(c, t)
  {
    var p0: nat :| |s.taken| <= p0 <= |Order(s)| && c.poolSize <= |Open(s, p0)|;
    var p := FirstCrowded(c, s, p0);
    var u := Drive(c, s, p);
    LeadsKept(c, s, u);
    OpenCarried(s, u);
    AllHeld(c, u);
    t := FillUp(c, u);
    LeadsOn(c, s, u, t);
  }

  lemma StuckIsCrowded(c: Config, s: State, t: State)
    requires Inv(c, s) && SelfContained(s) && Acyclic(s) && Leads(c, s, t) && Stuck(c, t)
    ensures Crowded(c, s)
  {
    LeadsKept(c, s, t);
    PathsCarried(s, t);
    StuckMeansOpen(c, t);
    OpenCarried(s, t);
    assert |s.taken| <= |t.taken| <= |Order(s)|;
  }

  // ---- running to the end ----

  lemma Onward(c: Config, s: State) returns (t: State)
    requires Inv(c, s) && CanProgress(c, s)
    ensures Leads(c, s, t) && Inv(c, t) && Effort(t) < Effort(s)
  {
    if w :| 0 <= w < |s.workers| && WorkerMoves(s, w) {
      t := MoveOf(c, s, w);
      StepKept(c, s, t);
      WorkEffort(c, s, w, t);
      LeadsSelf(c, t);
      LeadsStep(c, s, t, t);
    } else {
      t := Dispatched(c, s);
    }
  }

  /** From everywhere some run comes to a state in which nothing can advance any more. */
  lemma {:induction false} RunToEnd(c: Config, s: State) returns (t: State)
    requires Inv(c, s)
    ensures Leads(c, s, t) && !CanProgress(c, t)
    decreases Effort(s)
  {
    if CanProgress(c, s) {
      var u := Onward(c, s);
      t := RunToEnd(c, u);
      LeadsOn(c, s, u, t);
    } else {
      LeadsSelf(c, s);
      t := s;
    }
  }

  /** Nothing on a cycle of known dependencies has started. */
  lemma CycleUnstarted(c: Config, s: State, a: Id)
    requires Inv(c, s) && KnownAll(s) && Reaches(s, a, a)
    ensures Released(s, a) && s.subs[a].rank < STARTED
  {
    var p :| IsPath(s, p) && p[0] == a && p[|p| - 1] == a;
    assert EdgeAt(s, p, 0);
    assert Released(s, a);
    if STARTED <= s.subs[a].rank {
      StartedChain(c, s, p, |p| - 1);
    }
  }

  /** On cyclic dependencies every run to the end is a standstill. */
  lemma CycleStandsStill(c: Config, s: State) returns (t: State)
    requires Inv(c, s) && SelfContained(s) && KnownAll(s) && !Acyclic(s)
    ensures Leads(c, s, t) && Stuck(c, t)
  {
    t := RunToEnd(c, s);
    LeadsKept(c, s, t);
    PathsCarried(s, t);
    var a :| Reaches(t, a, a);
    CycleUnstarted(c, t, a);
    assert Unfinished(t, a);
  }

  /** The exact criterion. With each dependency registered before its dependent is dispatched, a standstill
      can come if and only if dependencies are cyclic or, at some position of the dispatch order, at
      least as many subtasks before it as there are workers depend, directly or not, on one at or behind
      it. Other main tasks may be in the course of submission. */
  lemma StandstillIff(c: Config, s: State)
    requires 1 <= c.poolSize && Reachable(c, s) && SelfContained(s) && KnownAll(s)
    ensures (exists t :: Leads(c, s, t) && Stuck(c, t)) <==> (!Acyclic(s) || Crowded(c, s))
  {
    ReachableInv(c, s);
    if !Acyclic(s) {
      var t := CycleStandsStill(c, s);
    } else if Crowded(c, s) {
      var t := CrowdedLeadsToStuck(c, s);
    }
    if t :| Acyclic(s) && Leads(c, s, t) && Stuck(c, t) {
      StuckIsCrowded(c, s, t);
    }
  }

  // ---- no standstill ----

  /** Subtasks with a transitive dependency dispatched after them. */
  ghost function Late(s: State): set<Id>
  {
    set a | a in Order(s) && IsLate(s, a)
  }

  ghost predicate IsLate(s: State, a: Id)
  {
    exists i, j :: 0 <= i < j < |Order(s)| && Order(s)[i] == a && Reaches(s, a, Order(s)[j])
  }

  lemma OpenAreLate(s: State, p: nat)
    requires p <= |Order(s)| && Acyclic(s)
    ensures Open(s, p) <= Late(s)
  {
    var q := Order(s);
    forall a | a in Open(s, p)
      ensures a in Late(s)
    {
      NotOnCycle(s, a);
      var i :| 0 <= i < p && q[..p][i] == a;
      var b :| b in q[p..] && Reaches(s, a, b);
      var j :| 0 <= j < |q| - p && q[p..][j] == b;
      assert q[i] == a && q[p + j] == b;
      assert IsLate(s, a);
    }
  }

  lemma FewLateNotStuck(c: Config, s: State)
    requires Inv(c, s) && SelfContained(s) && Acyclic(s) && |Late(s)| < c.poolSize
    ensures !Stuck(c, s)
  {
    if Stuck(c, s) {
      StuckMeansOpen(c, s);
      OpenAreLate(s, |s.taken|);
      SubsetSize(Open(s, |s.taken|), Late(s));
    }
  }

  /** A call has pushed its main task's list and is about to give up the lock on the ready queues. */
  ghost predicate HolderMoves(c: Config, s: State)
  {
    && s.readyLock.ByAdder? && Holding(s, s.readyLock.id) && Sound(c, s)
    && Step(c, s, AddSub(s.readyLock.id)).Some?
  }

  lemma HolderCanMove(c: Config, s: State)
    requires Inv(c, s) && s.readyLock.ByAdder?
    ensures HolderMoves(c, s)
  {
    InvSound(c, s);
    assert Holding(s, s.readyLock.id);
    assert Local(s.subs[s.readyLock.id], s.clock);
  }

  lemma HolderLeaves(s: State, id: Id, t: State)
    requires id in s.subs && s.subs[id].mainId in s.mains && |s.waiting| == PRIORITIES
    requires s.subs[id].add == HOLDING && s.mains[s.subs[id].mainId].rel == 2
    requires s.mains[s.subs[id].mainId].prio < PRIORITIES && t == UnwaitStep(s, id)
    ensures Order(t) == Order(s) && (forall a, b :: Edge(t, a, b) <==> Edge(s, a, b))
    ensures forall x :: Released(t, x) <==> Released(s, x)
  {
  }

  /** When it has given the lock up, nothing released waits for a submitter, and the graph is as it was. */
  lemma HolderFrees(c: Config, s: State, t: State)
    requires Inv(c, s) && Sound(c, s) && ReleasedClosed(s) && StopCovers(s) && s.readyLock.ByAdder?
    requires Step(c, s, AddSub(s.readyLock.id)) == Some(t)
    ensures SelfContained(t) && Order(t) == Order(s) && forall a, b :: Edge(t, a, b) <==> Edge(s, a, b)
  {
    var id := s.readyLock.id;
    assert Holding(s, id) && SubMain(s, id);
    assert t == UnwaitStep(s, id);
    HolderLeaves(s, id, t);
    forall a, b | Released(t, a) && DependsOn(t, a, b) && INSERTED <= t.subs[b].add
      ensures Released(t, b)
    {
      assert DependsOn(s, a, b);
    }
  }

  /** Deadlock freedom in every reachable state, however many main tasks are in the course of submission:
      if the dependencies of released subtasks are acyclic and released, and fewer of them than workers
      have a later dependency, then while a released subtask is unfinished a worker can move, the event
      loop can dispatch, or the call that holds the lock on the ready queues can give it up. */
  lemma InFlightProgress(c: Config, s: State, id: Id)
    requires 1 <= c.poolSize && Reachable(c, s) && ReleasedClosed(s) && StopCovers(s)
    requires Acyclic(s) && |Late(s)| < c.poolSize && Unfinished(s, id)
    ensures CanProgress(c, s) || HolderMoves(c, s)
  {
    ReachableInv(c, s);
    if s.readyLock.ByAdder? {
      HolderCanMove(c, s);
    } else {
      FewLateNotStuck(c, s);
    }
  }

  lemma {:induction false} LateCarried(s: State, t: State)
    requires Carried(s, t)
    ensures Late(t) == Late(s)
  {
    PathsCarried(s, t);
    SameLate(s, t);
  }

  lemma SameLate(s: State, t: State)
    requires Order(t) == Order(s) && forall a, b :: Reaches(t, a, b) <==> Reaches(s, a, b)
    ensures Late(t) == Late(s)
  {
    forall a
      ensures IsLate(t, a) <==> IsLate(s, a)
    {
    }
  }

  /** Fewer late subtasks than workers: no state from here on is a standstill, whatever the schedule. */
  lemma FewLateNeverStuck(c: Config, s: State, t: State)
    requires 1 <= c.poolSize && Reachable(c, s) && SelfContained(s) && Acyclic(s) && |Late(s)| < c.poolSize
    requires Leads(c, s, t)
    ensures !Stuck(c, t)
  {
    ReachableInv(c, s);
    LeadsKept(c, s, t);
    PathsCarried(s, t);
    LateCarried(s, t);
    FewLateNotStuck(c, t);
  }

  /** Every dependency is dispatched before its dependent. */
  ghost predicate Topological(s: State)
  {
    forall i, j :: 0 <= i < |Order(s)| && 0 <= j < |Order(s)| && Edge(s, Order(s)[i], Order(s)[j]) ==> j < i
  }

  lemma {:induction false} PathGoesBack(s: State, p: seq<Id>, k: nat, i: nat) returns (j: nat)
    requires Topological(s) && IsPath(s, p) && k < |p| && i < |Order(s)| && Order(s)[i] == p[0]
    ensures j < |Order(s)| && Order(s)[j] == p[k] && j + k <= i
  {
    if k == 0 {
      j := i;
    } else {
      var j' := PathGoesBack(s, p, k - 1, i);
      assert EdgeAt(s, p, k - 1);
      var x :| 0 <= x < |Order(s)| && Order(s)[x] == p[k];
      assert Edge(s, Order(s)[j'], Order(s)[x]);
      j := x;
    }
  }

  lemma TopologicalGraph(s: State)
    requires Topological(s) && NoDup(Order(s))
    ensures Acyclic(s) && Late(s) == {}
  {
    forall a
      ensures !Reaches(s, a, a)
    {
      if Reaches(s, a, a) {
        var p :| IsPath(s, p) && p[0] == a && p[|p| - 1] == a;
        assert EdgeAt(s, p, 0);
        var i :| 0 <= i < |Order(s)| && Order(s)[i] == a;
        var j := PathGoesBack(s, p, |p| - 1, i);
      }
    }
    forall a
      ensures !IsLate(s, a)
    {
      if IsLate(s, a) {
        var i, j :| 0 <= i < j < |Order(s)| && Order(s)[i] == a && Reaches(s, a, Order(s)[j]);
        var p :| IsPath(s, p) && p[0] == a && p[|p| - 1] == Order(s)[j];
        var x := PathGoesBack(s, p, |p| - 1, i);
      }
    }
  }

  /** Submission in dependency order needs only one worker. */
  lemma TopologicalNeverStuck(c: Config, s: State, t: State)
    requires 1 <= c.poolSize && Reachable(c, s) && SelfContained(s) && Topological(s) && Leads(c, s, t)
    ensures !Stuck(c, t)
  {
    ReachableInv(c, s);
    TopologicalGraph(s);
    FewLateNeverStuck(c, s, t);
  }

  lemma LeadsReachable(c: Config, s: State, t: State)
    requires 1 <= c.poolSize && Reachable(c, s) && Leads(c, s, t)
    ensures Reachable(c, t)
  {
    var r :| QuietRun(c, r) && r[0] == s && r[|r| - 1] == t;
    QuietIsRun(c, r);
    RunReachable(c, r);
  }

  lemma QuietOn(c: Config, s: State, t: State)
    requires Reachable(c, s) && QuietNext(c, s, t)
    ensures Reachable(c, t)
  {
    RunOn(c, s, t);
  }
}
