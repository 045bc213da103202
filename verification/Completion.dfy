module Completion {
  /** Complete runs: how long they can be, what they achieve, and why a standstill never ends. */

  import opened Sequences
  import opened Protocol
  import opened Invariant
  import opened Frames
  import opened WorkerPreserves
  import opened RestPreserves
  import opened CallPreserves
  import opened History
  import opened Safety
  import opened Dependencies
  import opened Measure
  import opened Progress
  import opened Deadlock
  import opened Standstill
  import opened CallerSteps

  // ---- bounded effort ----

  /** The steps of a run that move a worker or dispatch a subtask. */
  function AdvanceCount(r: seq<State>): nat
  {
    if |r| < 2 then 0 else AdvanceCount(r[..|r| - 1]) + (if Advances(r[|r| - 2], r[|r| - 1]) then 1 else 0)
  }

  lemma LastMove(c: Config, s: State, t: State)
    requires QuietNext(c, s, t) && Inv(c, s)
    ensures Inv(c, t) && (if Advances(s, t) then 1 else 0) + Effort(t) <= Effort(s)
  {
    StepKept(c, s, t);
  }

  lemma {:induction false} MovesSpend(c: Config, r: seq<State>)
    requires QuietRun(c, r) && Inv(c, r[0])
    ensures Inv(c, r[|r| - 1]) && AdvanceCount(r) + Effort(r[|r| - 1]) <= Effort(r[0])
  {
    if 2 <= |r| {
      var q, x, y := r[..|r| - 1], r[|r| - 2], r[|r| - 1];
      RunPrefix(c, r);
      MovesSpend(c, q);
      LastMove(c, x, y);
    }
  }

  function Dependences(s: State, n: nat): nat
    requires n <= |Order(s)|
  {
    if n == 0 then 0 else Dependences(s, n - 1) + DepCount(s, Order(s)[n - 1])
  }

  lemma {:induction false} BudgetIs(s: State, n: nat)
    requires n <= |Order(s)|
    ensures Budget(s, n) == 12 * n + 3 * Dependences(s, n)
  {
    if 0 < n {
      BudgetIs(s, n - 1);
    }
  }

  /** Any run of workers, event loop and getters, however long, has at most twelve steps of dispatch and of
      workers for each subtask and three for each dependency. */
  lemma RunsAreBounded(c: Config, r: seq<State>)
    requires 1 <= c.poolSize && QuietRun(c, r) && Reachable(c, r[0])
    ensures var n := |Order(r[0])|; AdvanceCount(r) <= 12 * n + 3 * Dependences(r[0], n)
  {
    ReachableInv(c, r[0]);
    MovesSpend(c, r);
    EffortBounded(c, r[0], |Order(r[0])|);
    BudgetIs(r[0], |Order(r[0])|);
  }

  // ---- maximal runs ----

  /** The subtask has been through everything: called once, posted once, marked, counted. */
  predicate Through(s: State, id: Id)
  {
    && id in s.subs && s.subs[id].rank == FINISHED && s.subs[id].starts == 1 && s.subs[id].posts == 1
    && s.subs[id].out.Some? && s.subs[id].completed && s.subs[id].done
  }

  /** The main task's counter has reached its size and its entry is gone. */
  predicate Removed(s: State, m: Id)
  {
    m in s.mains && s.mains[m].completedCount == s.mains[m].size && m !in s.mainTasks
  }

  /** Everything released is through, and every released main task removed. */
  ghost predicate ReleasedThrough(s: State)
  {
    && (forall id {:trigger Through(s, id)} :: Released(s, id) ==> Through(s, id))
    && (forall m {:trigger Removed(s, m)} :: m in s.mains && 2 <= s.mains[m].rel ==> Removed(s, m))
  }

  /** Every subtask whose adding did not throw is through, and every main task removed. */
  ghost predicate AllThrough(s: State)
  {
    && (forall id {:trigger Through(s, id)} :: id in s.subs && !s.subs[id].threw ==> Through(s, id))
    && (forall m {:trigger Removed(s, m)} :: m in s.mains ==> Removed(s, m))
  }

  lemma MainRemoved(c: Config, s: State, m: Id)
    requires Inv(c, s) && m in s.mains && 2 <= s.mains[m].rel && forall id :: !Unfinished(s, id)
    ensures Removed(s, m)
  {
    AllReadied(s, m);
    assert MainOk(s, m) && MainTabled(s, m);
    var main := s.mains[m];
    SubsetSize(main.readied, main.begun);
    forall id | id in main.begun
      ensures id in main.counted && s.subs[id].rank == FINISHED
    {
      MemberOf(s, m, id);
      assert MemberOk(s, m, id) && Local(s.subs[id], s.clock) && Released(s, id) && !Unfinished(s, id);
    }
    assert main.counted == main.begun;
  }

  lemma NotStuckDone(c: Config, s: State)
    requires Inv(c, s) && !CanProgress(c, s) && !Stuck(c, s)
    ensures ReleasedThrough(s)
  {
    assert forall id :: !Unfinished(s, id);
    forall id | Released(s, id)
      ensures Through(s, id)
    {
      assert Local(s.subs[id], s.clock) && !Unfinished(s, id);
    }
    forall m | m in s.mains && 2 <= s.mains[m].rel
      ensures Removed(s, m)
    {
      MainRemoved(c, s, m);
    }
  }

  lemma SubmittedThrough(c: Config, s: State)
    requires Inv(c, s) && Submitted(s) && ReleasedThrough(s)
    ensures AllThrough(s)
  {
    forall id | id in s.subs && !s.subs[id].threw
      ensures Through(s, id)
    {
      SubmittedReleased(c, s, id);
    }
    forall m | m in s.mains
      ensures Removed(s, m)
    {
      assert Unwaited(s, m);
    }
  }

  /** Nothing can advance in a reachable state, submissions in flight or not: with released, acyclic
      dependencies and fewer late subtasks than workers everything released is through. */
  lemma InFlightRest(c: Config, s: State)
    requires 1 <= c.poolSize && Reachable(c, s) && ReleasedClosed(s) && StopCovers(s)
    requires Acyclic(s) && |Late(s)| < c.poolSize && !CanProgress(c, s) && !HolderMoves(c, s)
    ensures ReleasedThrough(s)
  {
    ReachableInv(c, s);
    if s.readyLock.ByAdder? {
      HolderCanMove(c, s);
    }
    FewLateNotStuck(c, s);
    NotStuckDone(c, s);
  }

  /** Total correctness. With fewer late subtasks than workers, every run at whose end nothing can advance
      any more has called every released function once, posted its slot once, and counted every released
      main task to its size and removed it; if submission was over, that is all there is. */
  lemma CompleteRunsFinish(c: Config, s: State, t: State)
    requires 1 <= c.poolSize && Reachable(c, s) && SelfContained(s) && Acyclic(s) && |Late(s)| < c.poolSize
    requires Leads(c, s, t) && !CanProgress(c, t)
    ensures ReleasedThrough(t) && (Submitted(s) ==> AllThrough(t))
  {
    FewLateNeverStuck(c, s, t);
    ReachableInv(c, s);
    LeadsKept(c, s, t);
    NotStuckDone(c, t);
    if Submitted(s) {
      SubmittedCarried(s, t);
      SubmittedThrough(c, t);
    }
  }

  /** And there is such a run. */
  lemma SomeRunFinishes(c: Config, s: State) returns (t: State)
    requires 1 <= c.poolSize && Reachable(c, s) && SelfContained(s) && Acyclic(s) && |Late(s)| < c.poolSize
    ensures Leads(c, s, t) && !CanProgress(c, t) && ReleasedThrough(t) && (Submitted(s) ==> AllThrough(t))
  {
    ReachableInv(c, s);
    t := RunToEnd(c, s);
    CompleteRunsFinish(c, s, t);
  }

  /** Also while a call holds the lock on the ready queues: it gives the lock up, and some run from there
      finishes all that was released. */
  lemma InFlightFinishes(c: Config, s: State) returns (u: State, t: State)
    requires 1 <= c.poolSize && Reachable(c, s) && ReleasedClosed(s) && StopCovers(s)
    requires Acyclic(s) && |Late(s)| < c.poolSize
    ensures Sound(c, s) && if s.readyLock.ByAdder? then Step(c, s, AddSub(s.readyLock.id)) == Some(u) else u == s
    ensures Leads(c, u, t) && !CanProgress(c, t) && ReleasedThrough(t)
    ensures Order(t) == Order(s) && forall id :: id in Order(s) ==> Through(t, id)
  {
    ReachableInv(c, s);
    u := s;
    if s.readyLock.ByAdder? {
      u := HolderGone(c, s);
    }
    t := SomeRunFinishes(c, u);
    OrderedThrough(c, u, t);
  }

  lemma HolderGone(c: Config, s: State) returns (u: State)
    requires 1 <= c.poolSize && Reachable(c, s) && Sound(c, s) && ReleasedClosed(s) && StopCovers(s)
    requires Acyclic(s) && |Late(s)| < c.poolSize && s.readyLock.ByAdder?
    ensures Step(c, s, AddSub(s.readyLock.id)) == Some(u) && Reachable(c, u)
    ensures SelfContained(u) && Order(u) == Order(s) && Acyclic(u) && |Late(u)| < c.poolSize
  {
    ReachableInv(c, s);
    HolderCanMove(c, s);
    u := Step(c, s, AddSub(s.readyLock.id)).value;
    HolderFrees(c, s, u);
    SamePaths(s, u);
    SameLate(s, u);
    RunOn(c, s, u);
  }

  lemma OrderedThrough(c: Config, s: State, t: State)
    requires 1 <= c.poolSize && Reachable(c, s) && Leads(c, s, t) && ReleasedThrough(t)
    ensures Order(t) == Order(s) && forall id :: id in Order(s) ==> Through(t, id)
  {
    ReachableInv(c, s);
    LeadsKept(c, s, t);
    forall id | id in Order(s)
      ensures Through(t, id)
    {
      assert id in Order(t) && Released(t, id);
    }
  }

  /** The last subtask of the dispatch order is not late. */
  lemma LateSize(s: State)
    requires NoDup(Order(s))
    ensures Order(s) != [] ==> |Late(s)| < |Order(s)|
    ensures Order(s) == [] ==> |Late(s)| == 0
  {
    var q := Order(s);
    if q == [] {
      assert Late(s) == {};
    } else {
      var rest := q[..|q| - 1];
      var b := set x | x in rest;
      NoDupLength(rest, b);
      forall a | a in Late(s)
        ensures a in b
      {
        var i, j :| 0 <= i < j < |q| && q[i] == a && Reaches(s, a, q[j]);
        assert rest[i] == a;
      }
      SubsetSize(Late(s), b);
    }
  }

  /** As many workers as subtasks are always enough. */
  lemma EnoughWorkersFinish(c: Config, s: State, t: State)
    requires 1 <= c.poolSize && Reachable(c, s) && SelfContained(s) && Acyclic(s) && |Order(s)| <= c.poolSize
    requires Leads(c, s, t) && !CanProgress(c, t)
    ensures ReleasedThrough(t) && (Submitted(s) ==> AllThrough(t))
  {
    ReachableInv(c, s);
    LateSize(s);
    CompleteRunsFinish(c, s, t);
  }

  /** Submission in dependency order needs one worker only. */
  lemma TopologicalFinish(c: Config, s: State, t: State)
    requires 1 <= c.poolSize && Reachable(c, s) && SelfContained(s) && Topological(s)
    requires Leads(c, s, t) && !CanProgress(c, t)
    ensures ReleasedThrough(t) && (Submitted(s) ==> AllThrough(t))
  {
    ReachableInv(c, s);
    TopologicalGraph(s);
    CompleteRunsFinish(c, s, t);
  }

  // ---- a standstill is for ever ----

  /** Every worker is blocked at a dependency whose event has not happened. */
  predicate AllWait(s: State)
  {
    forall w :: 0 <= w < |s.workers| ==>
      s.workers[w].DepWait? && s.workers[w].dep in s.subs && !s.subs[s.workers[w].dep].done
  }

  /** t has the workers of s, and the completion events of s. */
  predicate WorkersStay(s: State, t: State)
  {
    t.workers == s.workers && t.taken == s.taken &&
    forall id :: id in s.subs ==> id in t.subs && t.subs[id].done == s.subs[id].done
  }

  lemma ControlStays(s: State, t: State)
    requires Control(s, t)
    ensures WorkersStay(s, t)
  {
  }

  lemma TakeStays(s: State, n: Name, id: Id, t: State)
    requires n in s.getters && id in s.subs && t == TakeStep(s, n, id)
    ensures WorkersStay(s, t)
  {
  }

  lemma GetStays(s: State, n: Name, t: State)
    requires GetCase(s, n, t)
    ensures WorkersStay(s, t)
  {
    if t == s.(getters := t.getters) {
      ControlStays(s, t);
    } else {
      TakeStays(s, n, s.getters[n].id, t);
    }
  }

  lemma EmitStays(s: State, p: nat)
    requires p < |s.ready| && s.ready[p] != [] && s.ready[p][0] in s.subs
    ensures WorkersStay(s, EmitStep(s, p))
  {
  }

  lemma LoopStays(c: Config, s: State, t: State)
    requires SoundLoop(s) && LoopStep(c, s) == Some(t)
    ensures WorkersStay(s, t)
  {
    if Dispatching(s) {
      EmitStays(s, s.loop.p);
    } else {
      LoopControls(c, s, t);
    }
  }

  lemma CallerStays(s: State, t: State)
    requires CallerFrame(s, t)
    ensures WorkersStay(s, t)
  {
    forall id | id in s.subs
      ensures id in t.subs && t.subs[id].done == s.subs[id].done
    {
      assert Registers(s.subs[id], t.subs[id]);
    }
  }

  lemma NoWork(c: Config, s: State, w: nat)
    requires SoundAt(s, w) && AllWait(s)
    ensures WorkStep(c, s, w) == None
  {
  }

  lemma WaitQuiet(c: Config, s: State, a: Action, t: State)
    requires Inv(c, s) && Sound(c, s) && AllWait(s) && Quiet(a) && Step(c, s, a) == Some(t)
    ensures WorkersStay(s, t)
  {
    match a
    case BeginGet(_) => ControlStays(s, t);
    case Start => ControlStays(s, t);
    case Stop => ControlStays(s, t);
    case Get(n) =>
      GetCases(s, n, t);
      GetStays(s, n, t);
    case Loop => LoopStays(c, s, t);
    case Work(w) => NoWork(c, s, w);
  }

  lemma WaitStep(c: Config, s: State, a: Action, t: State)
    requires Inv(c, s) && Sound(c, s) && AllWait(s) && Step(c, s, a) == Some(t)
    ensures WorkersStay(s, t) && AllWait(t)
  {
    if Quiet(a) {
      WaitQuiet(c, s, a, t);
    } else {
      CallerStep(c, s, a, t);
      CallerStays(s, t);
    }
  }

  lemma WaitNext(c: Config, s: State, t: State)
    requires Inv(c, s) && AllWait(s) && Next(c, s, t)
    ensures Inv(c, t) && WorkersStay(s, t) && AllWait(t)
  {
    var a :| Step(c, s, a) == Some(t);
    WaitStep(c, s, a, t);
    StepPreserves(c, s, a, t);
  }

  lemma StayOn(s: State, u: State, t: State)
    requires WorkersStay(s, u) && WorkersStay(u, t)
    ensures WorkersStay(s, t)
  {
  }

  /** Once every worker waits for something that is not done, whatever is submitted, asked for or
      dispatched afterwards, no worker ever moves again. */
  lemma {:induction false} StandstillLasts(c: Config, r: seq<State>)
    requires IsRun(c, r) && Inv(c, r[0]) && AllWait(r[0])
    ensures WorkersStay(r[0], r[|r| - 1]) && AllWait(r[|r| - 1]) && Inv(c, r[|r| - 1])
  {
    if 1 < |r| {
      var q, x, y := r[..|r| - 1], r[|r| - 2], r[|r| - 1];
      RunBefore(c, r);
      StandstillLasts(c, q);
      WaitNext(c, x, y);
      StayOn(r[0], x, y);
    }
  }

  /** A standstill of released subtasks is of that kind: all workers wait. */
  lemma StuckWaits(c: Config, s: State)
    requires Inv(c, s) && SelfContained(s) && Acyclic(s) && Stuck(c, s)
    ensures AllWait(s)
  {
    StuckMeansOpen(c, s);
    forall w | 0 <= w < |s.workers|
      ensures !s.workers[w].Idle?
    {
      if s.workers[w].Idle? {
        assert !WorkerMoves(s, w);
        IdleFinished(c, s);
      }
    }
    forall w | 0 <= w < |s.workers|
      ensures s.workers[w].DepWait? && s.workers[w].dep in s.subs && !s.subs[s.workers[w].dep].done
    {
      assert !WorkerMoves(s, w) && WorkerOk(s, w);
    }
  }
}
