/** With nobody submitting for the moment: what can always move, and when nothing can. */
module Progress {
  import opened Sequences
  import opened Protocol
  import opened Invariant
  import opened WorkerPreserves
  import opened History
  import opened Safety
  import opened Dependencies
  import opened Measure

  /** A worker moved, or a subtask was dispatched. */
  predicate Advances(s: State, t: State)
  {
    t.workers != s.workers || t.taken + t.ring != s.taken + s.ring
  }

  lemma WorkEffort(c: Config, s: State, w: nat, t: State)
    requires Inv(c, s) && SoundAt(s, w) && w < |s.workers| && WorkStep(c, s, w) == Some(t)
    ensures Effort(t) < Effort(s)
  {
    AtHandFacts(c, s, w);
    WorkCarries(c, s, w, t);
    if s.workers[w].Idle? {
      PopFalls(c, s, w, t);
    } else {
      WorkPreserves(c, s, w, t);
      ActFalls(c, s, w, t);
    }
  }

  lemma LoopEffort(c: Config, s: State, t: State)
    requires Inv(c, s) && Sound(c, s) && LoopStep(c, s) == Some(t)
    ensures Effort(t) <= Effort(s) && (Advances(s, t) ==> Effort(t) < Effort(s))
  {
    LoopCarries(c, s, t);
    if Dispatching(s) {
      EmitFalls(c, s, s.loop.p, t);
    } else {
      LoopControls(c, s, t);
      IdleStays(s, t);
    }
  }

  lemma GetEffort(s: State, n: Name, t: State)
    requires GetCase(s, n, t)
    ensures Effort(t) == Effort(s) && !Advances(s, t)
  {
    GetCarries(s, n, t);
    if t != s.(getters := t.getters) {
      TakeIdle(s, n, s.getters[n].id, t);
    }
    IdleStays(s, t);
  }

  lemma TakeIdle(s: State, n: Name, id: Id, t: State)
    requires n in s.getters && id in s.subs && t == TakeStep(s, n, id)
    ensures t.workers == s.workers && t.taken == s.taken && t.ring == s.ring
    ensures forall id :: id in s.subs ==>
      id in t.subs && t.subs[id].rank == s.subs[id].rank && t.subs[id].owner == s.subs[id].owner
  {
  }

  /** A step that is no submitter's either leaves the effort as it is or, if anything advances, lowers it. */
  lemma QuietEffort(c: Config, s: State, a: Action, t: State)
    requires Inv(c, s) && Sound(c, s) && Quiet(a) && Step(c, s, a) == Some(t)
    ensures Effort(t) <= Effort(s)
    ensures Advances(s, t) || a.Work? ==> Effort(t) < Effort(s)
  {
    match a
    case BeginGet(_) =>
      ControlCarries(s, t);
      IdleStays(s, t);
    case Start =>
      ControlCarries(s, t);
      IdleStays(s, t);
    case Stop =>
      ControlCarries(s, t);
      IdleStays(s, t);
    case Get(n) =>
      GetCases(s, n, t);
      GetEffort(s, n, t);
    case Loop => LoopEffort(c, s, t);
    case Work(w) => WorkEffort(c, s, w, t);
  }

  // ---- runs in which no submitter moves ----

  ghost predicate QuietNext(c: Config, s: State, t: State)
  {
    Sound(c, s) && exists a :: Quiet(a) && Step(c, s, a) == Some(t)
  }

  ghost predicate QuietAt(c: Config, r: seq<State>, k: nat)
  {
    k + 1 < |r| ==> QuietNext(c, r[k], r[k + 1])
  }

  ghost predicate QuietRun(c: Config, r: seq<State>)
  {
    0 < |r| && forall k {:trigger QuietAt(c, r, k)} :: QuietAt(c, r, k)
  }

  /** Such a run is a run of the machine. */
  lemma QuietIsRun(c: Config, r: seq<State>)
    requires QuietRun(c, r)
    ensures IsRun(c, r)
  {
    forall k: nat
      ensures NextAt(c, r, k)
    {
      assert QuietAt(c, r, k);
    }
  }

  /** A run without its last step is a run. */
  lemma RunPrefix(c: Config, r: seq<State>)
    requires QuietRun(c, r) && 2 <= |r|
    ensures QuietRun(c, r[..|r| - 1]) && QuietNext(c, r[|r| - 2], r[|r| - 1])
  {
    var q := r[..|r| - 1];
    forall k: nat
      ensures QuietAt(c, q, k)
    {
      assert QuietAt(c, r, k);
    }
    assert QuietAt(c, r, |r| - 2);
  }

  /** t follows s by steps of workers, getters and the event loop. */
  ghost predicate Leads(c: Config, s: State, t: State)
  {
    exists r :: QuietRun(c, r) && r[0] == s && r[|r| - 1] == t
  }

  lemma LeadsSelf(c: Config, s: State)
    ensures Leads(c, s, s)
  {
    assert QuietRun(c, [s]);
  }

  lemma JoinLeft(c: Config, q: seq<State>, r: seq<State>, k: nat)
    requires k + 1 < |q| && QuietAt(c, q, k)
    ensures QuietAt(c, q + r, k)
  {
    assert (q + r)[k] == q[k] && (q + r)[k + 1] == q[k + 1];
  }

  lemma JoinRight(c: Config, q: seq<State>, r: seq<State>, j: nat)
    requires q != [] && r != [] && r[0] == q[|q| - 1] && QuietAt(c, r, j)
    ensures QuietAt(c, q + r[1..], |q| - 1 + j)
  {
    var z, k := q + r[1..], |q| - 1 + j;
    assert j + 1 < |r| ==> z[k] == r[j] && z[k + 1] == r[j + 1];
  }

  lemma JoinAt(c: Config, q: seq<State>, r: seq<State>, k: nat)
    requires q != [] && r != [] && r[0] == q[|q| - 1] && QuietAt(c, q, k)
    requires |q| - 1 <= k ==> QuietAt(c, r, k - (|q| - 1))
    ensures QuietAt(c, q + r[1..], k)
  {
    if k + 1 < |q| {
      JoinLeft(c, q, r[1..], k);
    } else {
      JoinRight(c, q, r, k - (|q| - 1));
    }
  }

  /** Two runs of which the second starts where the first ends are one. */
  lemma RunsJoin(c: Config, q: seq<State>, r: seq<State>)
    requires QuietRun(c, q) && QuietRun(c, r) && r[0] == q[|q| - 1]
    ensures QuietRun(c, q + r[1..])
  {
    var z := q + r[1..];
    forall k: nat
      ensures QuietAt(c, z, k)
    {
      JoinAt(c, q, r, k);
    }
  }

  lemma LeadsOn(c: Config, s: State, u: State, t: State)
    requires Leads(c, s, u) && Leads(c, u, t)
    ensures Leads(c, s, t)
  {
    var q :| QuietRun(c, q) && q[0] == s && q[|q| - 1] == u;
    var r :| QuietRun(c, r) && r[0] == u && r[|r| - 1] == t;
    RunsJoin(c, q, r);
    var z := q + r[1..];
    assert z[0] == s && z[|z| - 1] == t;
  }

  lemma LeadsStep(c: Config, s: State, u: State, t: State)
    requires QuietNext(c, s, u) && Leads(c, u, t)
    ensures Leads(c, s, t)
  {
    assert QuietRun(c, [s, u]);
    assert [s, u][0] == s && [s, u][|[s, u]| - 1] == u;
    LeadsOn(c, s, u, t);
  }

  lemma CarriedOn(s: State, u: State, t: State)
    requires Carried(s, u) && Carried(u, t)
    ensures Carried(s, t)
  {
    forall id | id in s.subs
      ensures Carries(s.subs[id], t.subs[id])
    {
      assert Carries(s.subs[id], u.subs[id]) && Carries(u.subs[id], t.subs[id]);
    }
    forall m | m in s.mains
      ensures MainCarries(s.mains[m], t.mains[m]) && u.mains[m].add == s.mains[m].add
    {
      assert MainCarries(s.mains[m], u.mains[m]) && MainCarries(u.mains[m], t.mains[m]);
    }
    assert AddedMains(u) == AddedMains(s);
  }

  /** t is a later state of such a run, with less left to do if something was dispatched or popped. */
  ghost predicate Kept(c: Config, s: State, t: State)
  {
    && Inv(c, t) && Carried(s, t) && Effort(t) <= Effort(s) && (SelfContained(s) ==> SelfContained(t))
    && (t.taken + t.ring != s.taken + s.ring ==> Effort(t) < Effort(s))
  }

  lemma CarriedSelf(s: State)
    ensures Carried(s, s)
  {
  }

  lemma KeptSelf(c: Config, s: State)
    requires Inv(c, s)
    ensures Kept(c, s, s)
  {
    CarriedSelf(s);
  }

  lemma KeptOn(c: Config, s: State, x: State, y: State)
    requires Kept(c, s, x) && QuietNext(c, x, y)
    ensures Kept(c, s, y)
  {
    StepKept(c, x, y);
    CarriedOn(s, x, y);
  }

  /** What every step of workers, getters and event loop keeps holds at the end of such a run. */
  lemma {:induction false} QuietInduction(c: Config, r: seq<State>, p: State -> bool)
    requires QuietRun(c, r) && p(r[0]) && forall s, t {:trigger p(s), p(t)} :: p(s) && QuietNext(c, s, t) ==> p(t)
    ensures p(r[|r| - 1])
  {
    if 2 <= |r| {
      RunPrefix(c, r);
      QuietInduction(c, r[..|r| - 1], p);
    }
  }

  /** Quiet runs keep the invariant, keep everything released self-contained, and carry every registration along. */
  lemma RunKept(c: Config, r: seq<State>)
    requires QuietRun(c, r) && Inv(c, r[0])
    ensures Kept(c, r[0], r[|r| - 1])
  {
    var p := (x: State) => Kept(c, r[0], x);
    KeptSelf(c, r[0]);
    forall x, y | p(x) && QuietNext(c, x, y)
      ensures p(y)
    {
      KeptOn(c, r[0], x, y);
    }
    QuietInduction(c, r, p);
  }

  lemma LoopRunQuiet(c: Config, r: seq<State>)
    requires LoopRun(c, r)
    ensures QuietRun(c, r)
  {
    forall k: nat
      ensures QuietAt(c, r, k)
    {
      assert LoopAt(c, r, k);
      assert Quiet(Loop) && Quiet(Start);
    }
  }

  /** Dispatching leads to a state with less left to do. */
  lemma Dispatched(c: Config, s: State) returns (t: State)
    requires CanDispatch(c, s) && Inv(c, s)
    ensures Leads(c, s, t) && DispatchedOne(s, t) && Inv(c, t) && Carried(s, t) && Effort(t) < Effort(s)
    ensures SelfContained(s) ==> SelfContained(t)
  {
    var r :| LoopRun(c, r) && r[0] == s && DispatchedOne(s, r[|r| - 1]);
    t := r[|r| - 1];
    LoopRunQuiet(c, r);
    RunKept(c, r);
  }

  lemma StepKept(c: Config, s: State, t: State)
    requires QuietNext(c, s, t) && Inv(c, s)
    ensures Inv(c, t) && Carried(s, t) && (SelfContained(s) ==> SelfContained(t))
    ensures Effort(t) <= Effort(s) && (Advances(s, t) ==> Effort(t) < Effort(s))
  {
    var a :| Quiet(a) && Step(c, s, a) == Some(t);
    QuietKeeps(c, s, a, t);
    QuietEffort(c, s, a, t);
  }

  // ---- the event loop can dispatch ----

  /** Steps of the event loop alone (or its start) lead from s to t. */
  ghost predicate LoopNext(c: Config, s: State, t: State)
  {
    Sound(c, s) && (Step(c, s, Loop) == Some(t) || Step(c, s, Start) == Some(t))
  }

  ghost predicate LoopAt(c: Config, r: seq<State>, k: nat)
  {
    k + 1 < |r| ==> LoopNext(c, r[k], r[k + 1])
  }

  ghost predicate LoopRun(c: Config, r: seq<State>)
  {
    0 < |r| && forall k {:trigger LoopAt(c, r, k)} :: LoopAt(c, r, k)
  }

  /** The event loop, moving alone, puts one more subtask into the ring. */
  ghost predicate CanDispatch(c: Config, s: State)
  {
    exists r :: LoopRun(c, r) && r[0] == s && DispatchedOne(s, r[|r| - 1])
  }

  predicate DispatchedOne(s: State, t: State)
  {
    t.taken == s.taken && |t.ring| == |s.ring| + 1 && s.ring <= t.ring && t.workers == s.workers && SameDone(s, t)
  }

  predicate SameDone(s: State, t: State)
  {
    forall id :: id in s.subs ==> id in t.subs && t.subs[id].done == s.subs[id].done
  }

  /** Nobody but the event loop holds the lock on the ready queues. */
  lemma LockFree(s: State)
    requires LockOk(s) && SelfContained(s)
    ensures s.readyLock == (if s.loop.Emit? then ByLoop else Free)
  {
  }

  /** The first subtask still ready: released, untaken, in sub_tasks. */
  lemma ReadyFacts(c: Config, s: State)
    requires Inv(c, s) && Flat(s.ready) != []
    ensures var id := Flat(s.ready)[0];
      Released(s, id) && s.subs[id].rank == UNTAKEN && id in s.subTasks && !s.subs[id].completed
  {
    var id := Flat(s.ready)[0];
    assert id in s.ring + Flat(s.ready);
    QueueApart(s, id);
    assert id in Order(s) && Released(s, id);
    ReleasedFacts(s, id);
    assert SubTabled(s, id) && Local(s.subs[id], s.clock);
    assert id !in s.taken;
  }

  /** While something is ready the loop does not exit: the third scan still sees an uncompleted subtask. */
  lemma ReadyUncompleted(c: Config, s: State)
    requires Inv(c, s) && Flat(s.ready) != []
    ensures exists id :: id in s.subTasks && id in s.subs && !s.subs[id].completed
    ensures exists p :: 0 <= p < PRIORITIES && s.ready[p] != []
  {
    ReadyFacts(c, s);
    if forall p :: 0 <= p < PRIORITIES ==> s.ready[p] == [] {
      FlatEmpty(s.ready);
    }
  }

  lemma NotExited(c: Config, s: State)
    requires Inv(c, s) && SelfContained(s) && Flat(s.ready) != []
    ensures s.loop != Exited
  {
    ReadyFacts(c, s);
    var id := Flat(s.ready)[0];
    assert Released(s, id);
    var m := s.subs[id].mainId;
    assert s.loop == Exited ==> m in s.snap;
  }

  /** With something ready and room in the ring, the event loop comes to dispatch. */
  lemma {:induction false} LoopDispatches(c: Config, s: State, n: nat)
    requires Inv(c, s) && SelfContained(s) && Flat(s.ready) != [] && |s.ring| < c.poolSize && n == RankOf(s.loop)
    ensures CanDispatch(c, s)
    decreases n
  {
    InvSound(c, s);
    NotExited(c, s);
    LockFree(s);
    ReadyUncompleted(c, s);
    if Dispatching(s) {
      DispatchNow(c, s);
    } else {
      var a := if s.loop == Off then Start else Loop;
      LoopMoves(c, s, a);
      var t := Step(c, s, a).value;
      QuietKeeps(c, s, a, t);
      LoopDispatches(c, t, RankOf(t.loop));
      PrependLoop(c, s, t);
    }
  }

  lemma DispatchNow(c: Config, s: State)
    requires Sound(c, s) && Dispatching(s) && |s.ring| < c.poolSize
    ensures CanDispatch(c, s)
  {
    var t := EmitStep(s, s.loop.p);
    assert LoopNext(c, s, t);
    assert LoopRun(c, [s, t]) && DispatchedOne(s, t);
  }

  lemma PrependRun(c: Config, s: State, r: seq<State>)
    requires LoopRun(c, r) && LoopNext(c, s, r[0])
    ensures LoopRun(c, [s] + r)
  {
    var q := [s] + r;
    forall k: nat
      ensures LoopAt(c, q, k)
    {
      if 0 < k {
        assert LoopAt(c, r, k - 1);
      }
    }
  }

  /** A run of the event loop that dispatches at its end, with a step before it. */
  lemma Prepended(c: Config, s: State, r: seq<State>)
    requires LoopRun(c, [s] + r) && r != [] && DispatchedOne(r[0], r[|r| - 1])
    requires var t := r[0]; t.taken == s.taken && t.ring == s.ring && t.workers == s.workers && t.subs == s.subs
    ensures CanDispatch(c, s)
  {
    var q := [s] + r;
    assert q[0] == s && q[|q| - 1] == r[|r| - 1];
  }

  lemma PrependLoop(c: Config, s: State, t: State)
    requires LoopNext(c, s, t) && CanDispatch(c, t)
    requires t.taken == s.taken && t.ring == s.ring && t.workers == s.workers && t.subs == s.subs
    ensures CanDispatch(c, s)
  {
    var r :| LoopRun(c, r) && r[0] == t && DispatchedOne(t, r[|r| - 1]);
    PrependRun(c, s, r);
    Prepended(c, s, r);
  }

  lemma LoopMoves(c: Config, s: State, a: Action)
    requires Sound(c, s) && s.loop != Exited && !Dispatching(s)
    requires s.readyLock == (if s.loop.Emit? then ByLoop else Free)
    requires a == if s.loop == Off then Start else Loop
    requires exists id :: id in s.subTasks && id in s.subs && !s.subs[id].completed
    requires exists p :: 0 <= p < PRIORITIES && s.ready[p] != []
    requires s.loop.Emit? ==> forall q :: s.loop.p < q < PRIORITIES ==> s.ready[q] == []
    ensures Step(c, s, a).Some?
    ensures var t := Step(c, s, a).value;
      && t.taken == s.taken && t.ring == s.ring && t.workers == s.workers && t.ready == s.ready && t.subs == s.subs
      && RankOf(t.loop) < RankOf(s.loop)
  {
  }

  function RankOf(l: LoopPc): nat
  {
    match l
    case Off => 20
    case Top => 19
    case Scan1 => 18
    case Scan2 => 17
    case Scan3 => 16
    case Want => 10
    case Emit(p) => p
    case Exited => 0
  }
}
