module Runs {
  /** What holds over whole runs of the machine, with submissions going on all the while. */

  import opened Sequences
  import opened Protocol
  import opened Invariant
  import opened CallPreserves
  import opened History
  import opened Safety
  import opened Measure
  import opened Progress
  import opened Deadlock
  import opened Completion
  import opened CallerSteps

  // ---- a run has only so many steps of dispatch and of workers ----

  /** What has been done so far of what the released subtasks will take. */
  ghost function Spent(s: State, n: nat): int
    requires n <= |Order(s)|
  {
    Budget(s, n) - Sum(s, n)
  }

  /** Nothing has been done yet for those still ready. */
  lemma {:induction false} ReadyUnspent(s: State, n: nat)
    requires |s.taken + s.ring| <= n <= |Order(s)|
    ensures Spent(s, n) == Spent(s, |s.taken + s.ring|)
  {
    if |s.taken + s.ring| < n {
      ReadyUnspent(s, n - 1);
    }
  }

  /** A subtask's work left is the same in t as in s. */
  predicate SameLeft(s: State, t: State, k: nat)
  {
    && k < |Order(s)| && k < |Order(t)| && Order(t)[k] == Order(s)[k]
    && LeftAt(t, k) == LeftAt(s, k) && DepCount(t, Order(t)[k]) == DepCount(s, Order(s)[k])
  }

  lemma {:induction false} SameSpent(s: State, t: State, n: nat)
    requires n <= |Order(s)| && n <= |Order(t)|
    requires forall k {:trigger SameLeft(s, t, k)} :: 0 <= k < n ==> SameLeft(s, t, k)
    ensures Spent(t, n) == Spent(s, n)
  {
    if 0 < n {
      SameSpent(s, t, n - 1);
      assert SameLeft(s, t, n - 1);
    }
  }

  lemma DispatchedSubs(c: Config, s: State, id: Id)
    requires Ordered(c, s) && id in s.taken + s.ring
    ensures id in s.subs
  {
    assert id in Order(s) && Released(s, id);
  }

  /** A submitter's step leaves the work on what has been dispatched as it is. */
  lemma CallerLeft(c: Config, s: State, t: State, k: nat)
    requires Ordered(c, s) && Workers(c, s) && CallerFrame(s, t) && k < |s.taken + s.ring|
    ensures SameLeft(s, t, k)
  {
    var id := (s.taken + s.ring)[k];
    assert Order(s)[k] == id == Order(t)[k] && id in s.taken + s.ring;
    DispatchedSubs(c, s, id);
    assert Registers(s.subs[id], t.subs[id]);
    if k < |s.taken| && s.subs[id].rank < FINISHED {
      assert s.taken[k] == id && id in s.taken && HeldBy(s, id);
      assert WorkerOk(s, s.subs[id].owner);
    }
  }

  lemma CallerSpent(c: Config, s: State, t: State)
    requires Ordered(c, s) && Workers(c, s) && CallerFrame(s, t)
    ensures Spent(t, |Order(t)|) == Spent(s, |Order(s)|)
  {
    var n := |s.taken + s.ring|;
    ReadyUnspent(s, |Order(s)|);
    ReadyUnspent(t, |Order(t)|);
    forall k | 0 <= k < n
      ensures SameLeft(s, t, k)
    {
      CallerLeft(c, s, t, k);
    }
    SameSpent(s, t, n);
  }

  lemma {:induction false} BudgetCarried(s: State, t: State, n: nat)
    requires Order(t) == Order(s) && n <= |Order(s)| && forall id :: DepCount(t, id) == DepCount(s, id)
    ensures Budget(t, n) == Budget(s, n)
  {
    if 0 < n {
      BudgetCarried(s, t, n - 1);
    }
  }

  lemma QuietSpent(c: Config, s: State, a: Action, t: State)
    requires Inv(c, s) && Sound(c, s) && Quiet(a) && Step(c, s, a) == Some(t)
    ensures Spent(s, |Order(s)|) + (if Advances(s, t) then 1 else 0) <= Spent(t, |Order(t)|)
  {
    QuietCarries(c, s, a, t);
    CarriedDeps(s, t);
    BudgetCarried(s, t, |Order(s)|);
    QuietEffort(c, s, a, t);
  }

  lemma NextSpent(c: Config, s: State, t: State)
    requires Inv(c, s) && Next(c, s, t)
    ensures Spent(s, |Order(s)|) + (if Advances(s, t) then 1 else 0) <= Spent(t, |Order(t)|)
  {
    var a :| Step(c, s, a) == Some(t);
    if Quiet(a) {
      QuietSpent(c, s, a, t);
    } else {
      CallerStep(c, s, a, t);
      CallerSpent(c, s, t);
    }
  }

  lemma {:induction false} RunSpends(c: Config, r: seq<State>)
    requires IsRun(c, r) && Inv(c, r[0])
    ensures var s, t := r[0], r[|r| - 1]; Inv(c, t) && Spent(s, |Order(s)|) + AdvanceCount(r) <= Spent(t, |Order(t)|)
  {
    if 2 <= |r| {
      RunBefore(c, r);
      RunSpends(c, r[..|r| - 1]);
      NextSpent(c, r[|r| - 2], r[|r| - 1]);
      NextPreserves(c, r[|r| - 2], r[|r| - 1]);
    }
  }

  /** Every run from the start, with whatever submissions, has at most twelve steps of dispatch and workers
      for each subtask released by its end and three for each of their dependencies. */
  lemma EveryRunIsBounded(c: Config, r: seq<State>)
    requires 1 <= c.poolSize && IsRun(c, r) && r[0] == Init(c)
    ensures var t := r[|r| - 1]; AdvanceCount(r) <= 12 * |Order(t)| + 3 * Dependences(t, |Order(t)|)
  {
    InvInit(c);
    RunSpends(c, r);
    FlatEmpty(Init(c).ready);
    BudgetIs(r[|r| - 1], |Order(r[|r| - 1])|);
  }

  // ---- the event loop comes round ----

  /** The k-th step puts one more subtask into the ring. */
  predicate DispatchAt(r: seq<State>, k: nat)
  {
    k + 1 < |r| && |r[k + 1].taken + r[k + 1].ring| == |r[k].taken + r[k].ring| + 1
  }

  /** The steps at which the event loop moves on. */
  function Turns(r: seq<State>): nat
  {
    if |r| < 2 then 0 else Turns(r[..|r| - 1]) + (if r[|r| - 2].loop != r[|r| - 1].loop then 1 else 0)
  }

  lemma ScanNearer(c: Config, s: State, t: State)
    requires SoundLoop(s) && (s.loop == Scan1 || s.loop == Scan2 || s.loop == Scan3) && LoopStep(c, s) == Some(t)
    requires exists id :: id in s.subTasks && id in s.subs && !s.subs[id].completed
    ensures RankOf(t.loop) < RankOf(s.loop)
  {
  }

  lemma TopNearer(c: Config, s: State, t: State)
    requires SoundLoop(s) && (s.loop == Top || s.loop == Want) && LoopStep(c, s) == Some(t)
    ensures RankOf(t.loop) < RankOf(s.loop)
  {
  }

  lemma PassNearer(c: Config, s: State, t: State)
    requires SoundLoop(s) && s.loop.Emit? && s.ready[s.loop.p] == [] && LoopStep(c, s) == Some(t)
    requires exists p :: 0 <= p < PRIORITIES && s.ready[p] != []
    requires forall q :: s.loop.p < q < PRIORITIES ==> s.ready[q] == []
    ensures RankOf(t.loop) < RankOf(s.loop)
  {
  }

  /** While something is ready, each move of the loop that is no dispatch brings it nearer to one. */
  lemma LoopNearer(c: Config, s: State, t: State)
    requires SoundLoop(s) && !Dispatching(s) && LoopStep(c, s) == Some(t)
    requires exists id :: id in s.subTasks && id in s.subs && !s.subs[id].completed
    requires exists p :: 0 <= p < PRIORITIES && s.ready[p] != []
    requires s.loop.Emit? ==> forall q :: s.loop.p < q < PRIORITIES ==> s.ready[q] == []
    ensures RankOf(t.loop) < RankOf(s.loop)
  {
    if s.loop.Emit? {
      PassNearer(c, s, t);
    } else if s.loop == Top || s.loop == Want {
      TopNearer(c, s, t);
    } else {
      ScanNearer(c, s, t);
    }
  }

  lemma EmitAdds(s: State, p: nat)
    requires p < |s.ready| && s.ready[p] != [] && s.ready[p][0] in s.subs
    ensures var t := EmitStep(s, p); |t.taken + t.ring| == |s.taken + s.ring| + 1
  {
  }

  lemma WorkLoop(c: Config, s: State, w: nat, t: State)
    requires SoundAt(s, w) && WorkStep(c, s, w) == Some(t)
    ensures t.loop == s.loop && t.ready == s.ready
  {
    if !s.workers[w].Idle? {
      ActLoop(c, s, w);
    }
  }

  lemma ActLoop(c: Config, s: State, w: nat)
    requires SoundAt(s, w) && w < |s.workers| && !s.workers[w].Idle?
    ensures ActStep(c, s, w).loop == s.loop && ActStep(c, s, w).ready == s.ready
  {
  }

  lemma TakeLoop(s: State, n: Name, id: Id)
    requires n in s.getters && id in s.subs
    ensures TakeStep(s, n, id).loop == s.loop && TakeStep(s, n, id).ready == s.ready
  {
  }

  lemma GetLoop(s: State, n: Name, t: State)
    requires GetCase(s, n, t)
    ensures t.loop == s.loop && t.ready == s.ready
  {
    if t != s.(getters := t.getters) {
      TakeLoop(s, n, s.getters[n].id);
    }
  }

  /** One more subtask is in the ring, or has passed through it. */
  predicate Emitted(s: State, t: State)
  {
    |t.taken + t.ring| == |s.taken + s.ring| + 1
  }

  lemma LoopTurns(c: Config, s: State, t: State)
    requires Inv(c, s) && Sound(c, s) && Flat(s.ready) != [] && LoopStep(c, s) == Some(t)
    ensures Emitted(s, t) || (t.ready == s.ready && RankOf(t.loop) < RankOf(s.loop))
  {
    if Dispatching(s) {
      EmitAdds(s, s.loop.p);
    } else {
      ReadyUncompleted(c, s);
      LoopControls(c, s, t);
      LoopNearer(c, s, t);
    }
  }

  lemma QuietLoop(c: Config, s: State, a: Action, t: State)
    requires Inv(c, s) && Sound(c, s) && Flat(s.ready) != [] && Quiet(a) && Step(c, s, a) == Some(t)
    ensures Emitted(s, t) || (t.ready == s.ready && (t.loop == s.loop || RankOf(t.loop) < RankOf(s.loop)))
  {
    match a
    case Loop => LoopTurns(c, s, t);
    case Get(n) =>
      GetCases(s, n, t);
      GetLoop(s, n, t);
    case Work(w) => WorkLoop(c, s, w, t);
    case _ =>
  }

  lemma FlatHas(queues: seq<seq<Id>>, p: nat)
    requires p < |queues| && queues[p] != []
    ensures Flat(queues) != []
  {
    if p + 1 < |queues| {
      FlatHas(queues[..|queues| - 1], p);
    }
  }

  lemma CallerGrows(c: Config, s: State, t: State)
    requires Inv(c, s) && Sound(c, s) && Flat(s.ready) != [] && CallerFrame(s, t)
    ensures Flat(t.ready) != []
  {
    ReadyUncompleted(c, s);
    var p :| 0 <= p < PRIORITIES && s.ready[p] != [];
    assert Grows(s, t, p);
    FlatHas(t.ready, p);
  }

  /** While something is ready, no step but a dispatch takes it away or moves the loop away from one. */
  lemma NextLoop(c: Config, s: State, t: State)
    requires Inv(c, s) && Next(c, s, t) && Flat(s.ready) != []
    ensures Emitted(s, t) || (Flat(t.ready) != [] && (t.loop == s.loop || RankOf(t.loop) < RankOf(s.loop)))
  {
    var a :| Step(c, s, a) == Some(t);
    if Quiet(a) {
      QuietLoop(c, s, a, t);
    } else {
      CallerStep(c, s, a, t);
      CallerGrows(c, s, t);
    }
  }

  /** While nothing is dispatched, what is ready stays so and every turn brings the loop nearer. */
  lemma {:induction false} TurnsSpend(c: Config, r: seq<State>)
    requires IsRun(c, r) && Inv(c, r[0]) && Flat(r[0].ready) != []
    requires forall k {:trigger DispatchAt(r, k)} :: !DispatchAt(r, k)
    ensures var t := r[|r| - 1]; Inv(c, t) && Flat(t.ready) != [] && Turns(r) + RankOf(t.loop) <= RankOf(r[0].loop)
  {
    if 2 <= |r| {
      var q, s, t := r[..|r| - 1], r[|r| - 2], r[|r| - 1];
      RunBefore(c, r);
      forall k: nat
        ensures !DispatchAt(q, k)
      {
        assert !DispatchAt(r, k);
      }
      TurnsSpend(c, q);
      assert !DispatchAt(r, |r| - 2);
      NextLoop(c, s, t);
      NextPreserves(c, s, t);
    }
  }

  /** In any run, whatever submitters, workers and getters do in between: if something is ready at its start
      and the event loop moves on more often than its distance from a dispatch, at most twenty times, then
      it has dispatched. */
  lemma LoopComesRound(c: Config, r: seq<State>)
    requires 1 <= c.poolSize && IsRun(c, r) && Reachable(c, r[0])
    requires Flat(r[0].ready) != [] && RankOf(r[0].loop) < Turns(r)
    ensures exists k :: DispatchAt(r, k)
  {
    ReachableInv(c, r[0]);
    if forall k :: !DispatchAt(r, k) {
      TurnsSpend(c, r);
    }
  }

  // ---- and goes on coming round ----

  /** Some subtask in sub_tasks is not completed: the third scan does not let the loop end. */
  predicate Uncompleted(s: State)
  {
    exists id :: id in s.subTasks && id in s.subs && !s.subs[id].completed
  }

  /** Nothing keeps the loop from moving on: no call has the lock, and the ring has room for all that is
      ready. */
  ghost predicate Going(c: Config, s: State)
  {
    && Inv(c, s) && s.loop != Exited && !s.readyLock.ByAdder? && Uncompleted(s)
    && |Order(s)| <= |s.taken| + c.poolSize
  }

  /** The loop's step: it is somewhere else, or a subtask is no longer ready. */
  predicate Turned(s: State, t: State)
  {
    t.loop != s.loop || |Flat(t.ready)| < |Flat(s.ready)|
  }

  lemma StartsLoop(s: State, t: State)
    requires s.loop == Off && t == s.(running := true, loop := Top)
    ensures t.loop != s.loop && t.loop != Exited && t.readyLock == s.readyLock && (Uncompleted(s) ==> Uncompleted(t))
  {
  }

  lemma LoopRoom(s: State, poolSize: nat)
    requires |Order(s)| <= |s.taken| + poolSize && Flat(s.ready) != []
    ensures |s.ring| < poolSize
  {
  }

  lemma LoopEnabled(c: Config, s: State)
    requires SoundLoop(s) && s.loop != Off && s.loop != Exited
    requires s.readyLock == if s.loop.Emit? then ByLoop else Free
    requires Dispatching(s) ==> |s.ring| < c.poolSize
    ensures LoopStep(c, s).Some?
  {
  }

  lemma ScanMoves(c: Config, s: State, t: State)
    requires SoundLoop(s) && (s.loop == Scan1 || s.loop == Scan2 || s.loop == Scan3) && LoopStep(c, s) == Some(t)
    requires Uncompleted(s)
    ensures t.loop != s.loop && t.loop != Exited && t.readyLock == s.readyLock
  {
  }

  lemma TopMoves(c: Config, s: State, t: State)
    requires SoundLoop(s) && (s.loop == Top || s.loop == Want) && LoopStep(c, s) == Some(t)
    ensures t.loop != s.loop && t.loop != Exited && (t.readyLock == s.readyLock || t.readyLock == ByLoop)
  {
  }

  lemma PassMoves(s: State, p: nat, t: State)
    requires s.loop == Emit(p) && t == PassStep(s, p)
    ensures t.loop != s.loop && t.loop != Exited && (t.readyLock == s.readyLock || t.readyLock == Free)
  {
  }

  lemma MovesOn(c: Config, s: State, t: State)
    requires SoundLoop(s) && !Dispatching(s) && LoopStep(c, s) == Some(t)
    requires Uncompleted(s) && !s.readyLock.ByAdder?
    ensures t.loop != s.loop && t.loop != Exited && !t.readyLock.ByAdder? && Uncompleted(t)
  {
    LoopControls(c, s, t);
    if s.loop.Emit? {
      PassMoves(s, s.loop.p, t);
    } else if s.loop == Top || s.loop == Want {
      TopMoves(c, s, t);
    } else {
      ScanMoves(c, s, t);
    }
  }

  lemma EmitsOn(s: State, p: nat, t: State)
    requires |s.ready| == PRIORITIES && p < PRIORITIES && s.ready[p] != [] && s.ready[p][0] in s.subs
    requires t == EmitStep(s, p) && Uncompleted(s) && Order(t) == Order(s)
    ensures t.loop == s.loop && t.readyLock == s.readyLock && t.taken == s.taken && Uncompleted(t) && Turned(s, t)
  {
    var id :| id in s.subTasks && id in s.subs && !s.subs[id].completed;
    assert id in t.subTasks && id in t.subs && !t.subs[id].completed;
    assert |t.ring| == |s.ring| + 1;
  }

  lemma GoOn(c: Config, s: State) returns (t: State)
    requires Going(c, s)
    ensures Next(c, s, t) && Going(c, t) && Turned(s, t)
  {
    InvSound(c, s);
    if s.loop == Off {
      t := s.(running := true, loop := Top);
      assert Step(c, s, Start) == Some(t);
      StartsLoop(s, t);
      StepPreserves(c, s, Start, t);
      QuietCarries(c, s, Start, t);
    } else {
      t := LoopOn(c, s);
      StepPreserves(c, s, Loop, t);
      QuietCarries(c, s, Loop, t);
    }
    assert |t.taken| >= |s.taken|;
  }

  lemma LoopOn(c: Config, s: State) returns (t: State)
    requires Going(c, s) && Sound(c, s) && s.loop != Off
    ensures Step(c, s, Loop) == Some(t) && Turned(s, t) && t.loop != Exited && !t.readyLock.ByAdder? && Uncompleted(t)
  {
    if Dispatching(s) {
      t := EmitOn(c, s);
    } else {
      t := MoveOn(c, s);
    }
  }

  lemma MoveOn(c: Config, s: State) returns (t: State)
    requires Going(c, s) && Sound(c, s) && s.loop != Off && !Dispatching(s)
    ensures LoopStep(c, s) == Some(t) && Turned(s, t) && t.loop != Exited && !t.readyLock.ByAdder? && Uncompleted(t)
  {
    LoopEnabled(c, s);
    t := LoopStep(c, s).value;
    MovesOn(c, s, t);
  }

  lemma EmitOn(c: Config, s: State) returns (t: State)
    requires Going(c, s) && Sound(c, s) && Dispatching(s)
    ensures LoopStep(c, s) == Some(t) && Turned(s, t) && t.loop != Exited && !t.readyLock.ByAdder? && Uncompleted(t)
  {
    FlatHas(s.ready, s.loop.p);
    LoopRoom(s, c.poolSize);
    t := EmitStep(s, s.loop.p);
    LoopCarries(c, s, t);
    EmitsOn(s, s.loop.p, t);
  }

  lemma TurnsAfter(r: seq<State>, t: State)
    requires r != []
    ensures Turns(r + [t]) == Turns(r) + (if r[|r| - 1].loop != t.loop then 1 else 0)
  {
    assert (r + [t])[..|r + [t]| - 1] == r;
  }

  /** After the dispatches there are the loop moves on. */
  lemma {:induction false} NextTurn(c: Config, q: seq<State>) returns (r: seq<State>)
    requires IsRun(c, q) && Going(c, q[|q| - 1])
    ensures IsRun(c, r) && r[0] == q[0] && Going(c, r[|r| - 1]) && Turns(r) == Turns(q) + 1
    decreases |Flat(q[|q| - 1].ready)|
  {
    var s := q[|q| - 1];
    var t := GoOn(c, s);
    RunAfter(c, q, t);
    TurnsAfter(q, t);
    r := q + [t];
    if t.loop == s.loop {
      r := NextTurn(c, r);
    }
  }

  /** Moving alone, the event loop comes to move on any number of times, unless a call keeps its lock, the
      ring is too small for all that is ready, or it ends; and while a subtask in its table is not
      completed it does not end. */
  lemma {:induction false} LoopGoesOn(c: Config, s: State, n: nat) returns (r: seq<State>)
    requires Going(c, s)
    ensures IsRun(c, r) && r[0] == s && Going(c, r[|r| - 1]) && Turns(r) == n
  {
    if n == 0 {
      r := [s];
    } else {
      r := LoopGoesOn(c, s, n - 1);
      r := NextTurn(c, r);
    }
  }

  // ---- what is registered before the dispatch is waited for ----

  /** d is registered, and once id has been dispatched it knows d. */
  ghost predicate KnowsWhenDispatched(s: State, id: Id, d: Id)
  {
    && d in s.subs && INSERTED <= s.subs[d].add
    && (id in s.taken + s.ring ==> id in s.subs && d in s.subs[id].known)
  }

  lemma QuietKnows(c: Config, s: State, a: Action, t: State, id: Id, d: Id)
    requires Inv(c, s) && Sound(c, s) && KnowsWhenDispatched(s, id, d) && Quiet(a) && Step(c, s, a) == Some(t)
    ensures KnowsWhenDispatched(t, id, d)
  {
    QuietCarries(c, s, a, t);
    QuietKnown(c, s, a, t);
    assert Carries(s.subs[d], t.subs[d]);
    if id in t.taken + t.ring {
      assert id in Order(t) && id in Order(s) && Released(s, id);
      assert d in InsertedSubs(s);
    }
  }

  lemma CallerKnows(s: State, t: State, id: Id, d: Id)
    requires KnowsWhenDispatched(s, id, d) && CallerFrame(s, t)
    ensures KnowsWhenDispatched(t, id, d)
  {
    assert Registers(s.subs[d], t.subs[d]);
    if id in t.taken + t.ring {
      assert Registers(s.subs[id], t.subs[id]);
    }
  }

  ghost predicate Knowing(c: Config, s: State, id: Id, d: Id)
  {
    Inv(c, s) && KnowsWhenDispatched(s, id, d)
  }

  lemma NextKnows(c: Config, s: State, t: State, id: Id, d: Id)
    requires Knowing(c, s, id, d) && Next(c, s, t)
    ensures Knowing(c, t, id, d)
  {
    var a :| Step(c, s, a) == Some(t);
    StepPreserves(c, s, a, t);
    if Quiet(a) {
      QuietKnows(c, s, a, t, id, d);
    } else {
      CallerStep(c, s, a, t);
      CallerKnows(s, t, id, d);
    }
  }

  lemma RunKnows(c: Config, r: seq<State>, id: Id, d: Id)
    requires IsRun(c, r) && Knowing(c, r[0], id, d)
    ensures Knowing(c, r[|r| - 1], id, d)
  {
    var p := (x: State) => Knowing(c, x, id, d);
    forall x, y | p(x) && Next(c, x, y)
      ensures p(y)
    {
      NextKnows(c, x, y, id, d);
    }
    RunInduction(c, r, p);
  }

  /** A dependency, of whichever main task, that is in sub_tasks before its dependent has been dispatched: over
      every run its function has ended before the dependent's starts. */
  lemma RegisteredFirst(c: Config, r: seq<State>, id: Id, d: Id)
    requires 1 <= c.poolSize && IsRun(c, r) && Reachable(c, r[0]) && d in r[0].subs && INSERTED <= r[0].subs[d].add
    requires id !in r[0].taken + r[0].ring
    ensures var t := r[|r| - 1];
      d in t.subs && (id in t.subs && t.subs[d].name in t.subs[id].deps && 0 < t.subs[id].starts ==>
        0 < t.subs[d].starts && t.subs[d].out.Some? && t.subs[d].endAt < t.subs[id].startAt)
  {
    var t := r[|r| - 1];
    ReachableInv(c, r[0]);
    RunKnows(c, r, id, d);
    RunReachable(c, r);
    if id in t.subs && t.subs[d].name in t.subs[id].deps && 0 < t.subs[id].starts {
      StartedTaken(c, t, id);
      DependencyOrder(c, t, id, d);
    }
  }

  // ---- a main task is removed by one worker only ----

  /** The removal of m is settled on subtask f in the hands of worker w. */
  predicate Settled(s: State, m: Id, f: Id, w: nat)
  {
    && m in s.mains && 1 <= s.mains[m].fin && s.mains[m].finisher == f
    && f in s.subs && TAKEN <= s.subs[f].rank && s.subs[f].owner == w
  }

  lemma RemovingSettled(c: Config, s: State, m: Id, w: nat)
    requires Inv(c, s) && w < |s.workers| && Removing(s, m, w)
    ensures Settled(s, m, s.workers[w].id, w)
  {
    assert WorkerOk(s, w) && SubMain(s, s.workers[w].id);
    assert NameOk(s, s.subs[s.workers[w].id].mainName);
  }

  lemma SettledStays(c: Config, s: State, t: State, m: Id, f: Id, w: nat)
    requires Inv(c, s) && Next(c, s, t) && Settled(s, m, f, w)
    ensures Settled(t, m, f, w)
  {
    var a :| Step(c, s, a) == Some(t);
    if Quiet(a) {
      QuietCarries(c, s, a, t);
      assert Carries(s.subs[f], t.subs[f]) && MainCarries(s.mains[m], t.mains[m]);
    } else {
      CallerStep(c, s, a, t);
      assert Registers(s.subs[f], t.subs[f]) && SameFinish(s.mains[m], t.mains[m]);
    }
  }

  lemma {:induction false} SettledRun(c: Config, r: seq<State>, m: Id, f: Id, w: nat)
    requires IsRun(c, r) && Inv(c, r[0]) && Settled(r[0], m, f, w)
    ensures Inv(c, r[|r| - 1]) && Settled(r[|r| - 1], m, f, w)
  {
    if 2 <= |r| {
      RunBefore(c, r);
      SettledRun(c, r[..|r| - 1], m, f, w);
      SettledStays(c, r[|r| - 2], r[|r| - 1], m, f, w);
      NextPreserves(c, r[|r| - 2], r[|r| - 1]);
    }
  }

  /** Over any run only one worker, with one subtask, is ever at the removal of a main task. */
  lemma OneRemover(c: Config, r: seq<State>, m: Id, v: nat, w: nat)
    requires 1 <= c.poolSize && IsRun(c, r) && Reachable(c, r[0])
    requires v < |r[0].workers| && Removing(r[0], m, v)
    requires w < |r[|r| - 1].workers| && Removing(r[|r| - 1], m, w)
    ensures v == w && r[0].workers[v].id == r[|r| - 1].workers[w].id
  {
    ReachableInv(c, r[0]);
    RemovingSettled(c, r[0], m, v);
    SettledRun(c, r, m, r[0].workers[v].id, v);
    RemovingSettled(c, r[|r| - 1], m, w);
  }
}
