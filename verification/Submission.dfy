/** One main task with any dependency lists can be submitted: the run that adds its subtasks one after the
  other, step by step. */
module Submission {
  import opened Sequences
  import opened Protocol
  import opened Invariant
  import opened CallPreserves
  import opened Dependencies

  /** The dependency lists of the subtasks in the order of adding; the k-th has name k and id k + 1. */
  type Deps = seq<seq<Name>>

  lemma InitReachable(c: Config)
    ensures Reachable(c, Init(c))
  {
    assert IsRun(c, [Init(c)]);
  }

  lemma Do(c: Config, s: State, a: Action, t: State)
    requires 1 <= c.poolSize && Reachable(c, s) && Sound(c, s) && Step(c, s, a) == Some(t)
    ensures Reachable(c, t) && Inv(c, t) && Sound(c, t)
  {
    assert Next(c, s, t);
    RunOn(c, s, t);
    ReachableInv(c, t);
  }

  // ---- the calls of addSubTask but the last step ----

  /** No thread but the submitter has moved. */
  predicate Fresh(s: State)
  {
    && s.loop == Off && s.taken == [] && s.ring == [] && s.readyLock == Free && s.stopSnap == None
    && |s.ready| == PRIORITIES == |s.waiting|
    && s.mains.Keys == {1} && s.mains[1].name == 0 && s.mains[1].prio == 0
    && s.mainIds == map[0 := 1] && s.mainNames == map[0 := 1] && s.mainTasks == {1}
  }

  /** The first i calls of addSubTask have returned; the next one, if k > 0, has come to k - 1. */
  ghost predicate Adding(s: State, deps: Deps, i: nat, k: nat)
  {
    && Fresh(s) && s.nextSub == (if 0 < k then i + 2 else i + 1)
    && (forall p :: 0 <= p < PRIORITIES ==> s.ready[p] == [])
    && SubsAdded(s, deps, i, k) && MainHas(s, |deps|, i)
    && List(s, 1) == seq(if LISTED < k then i + 1 else i, j => j + 1)
  }

  ghost predicate SubsAdded(s: State, deps: Deps, i: nat, k: nat)
  {
    && (forall id: nat :: id in s.subs <==> 1 <= id < s.nextSub)
    && (forall x: nat :: x in s.names <==> x < s.nextSub - 1)
    && (forall id: nat {:trigger IsIn(s, deps, id)} :: 1 <= id <= i ==> IsIn(s, deps, id))
    && (0 < k ==> AddedAs(s, deps, i + 1, k - 1))
  }

  ghost predicate MainHas(s: State, size: nat, i: nat)
  {
    && 1 in s.mains && s.mains[1].add == MAIN_ADDED && s.mains[1].size == size
    && s.mains[1].readyCount == i && s.mains[1].rel == 0
    && (forall id: nat :: id in s.mains[1].begun <==> 1 <= id < s.nextSub) && |s.mains[1].begun| == s.nextSub - 1
  }

  ghost predicate At(c: Config, s: State, deps: Deps, i: nat, k: nat)
  {
    1 <= c.poolSize && Reachable(c, s) && Adding(s, deps, i, k)
  }

  predicate AddedAs(s: State, deps: Deps, id: Id, add: nat)
  {
    && id in s.subs && 1 <= id <= |deps| && s.subs[id].name == id - 1 && s.subs[id].mainName == 0
    && s.subs[id].deps == deps[id - 1]
    && s.subs[id].add == add && !s.subs[id].threw && (HAS_MAIN <= add ==> s.subs[id].mainId == 1)
  }

  predicate IsIn(s: State, deps: Deps, id: Id)
  {
    AddedAs(s, deps, id, ADDED)
  }

  function NewSub(deps: seq<Name>, i: nat): Sub
  {
    Sub(i, 0, deps, ALLOCATED, false, 0, 0, None, false, false, UNTAKEN, 0, 0, 0, 0, 0, 0, {}, [], None)
  }

  function Begun(s: State, deps: seq<Name>, i: nat): State
    requires 1 in s.mains
  {
    s.(subs := s.subs[i + 1 := NewSub(deps, i)], names := s.names[i := i + 1], nextSub := i + 2,
       mains := s.mains[1 := s.mains[1].(begun := s.mains[1].begun + {i + 1})])
  }

  lemma BeginIs(s: State, deps: Deps, i: nat)
    requires Adding(s, deps, i, 0) && i < |deps|
    ensures BeginSubStep(s, i, 0, deps[i]) == Some(Begun(s, deps[i], i))
  {
  }

  lemma BeginSubs(s: State, deps: Deps, i: nat, t: State)
    requires 1 in s.mains && s.nextSub == i + 1 && SubsAdded(s, deps, i, 0) && i < |deps| && t == Begun(s, deps[i], i)
    ensures SubsAdded(t, deps, i, 1)
  {
    forall id | 1 <= id <= i
      ensures IsIn(t, deps, id)
    {
      assert IsIn(s, deps, id);
    }
    assert AddedAs(t, deps, i + 1, ALLOCATED);
  }

  lemma BeginHas(s: State, deps: Deps, i: nat, t: State)
    requires s.nextSub == i + 1 && MainHas(s, |deps|, i) && i < |deps| && t == Begun(s, deps[i], i)
    ensures MainHas(t, |deps|, i)
  {
  }

  lemma BeginAdding(s: State, deps: Deps, i: nat, t: State)
    requires Adding(s, deps, i, 0) && i < |deps| && t == Begun(s, deps[i], i)
    ensures Adding(t, deps, i, 1)
  {
    BeginSubs(s, deps, i, t);
    BeginHas(s, deps, i, t);
    assert List(t, 1) == List(s, 1);
  }

  lemma Begin(c: Config, s: State, deps: Deps, i: nat) returns (t: State)
    requires At(c, s, deps, i, 0) && i < |deps|
    ensures At(c, t, deps, i, 1)
  {
    ReachableInv(c, s);
    BeginIs(s, deps, i);
    t := Begun(s, deps[i], i);
    Do(c, s, BeginSub(i, 0, deps[i]), t);
    BeginAdding(s, deps, i, t);
  }

  lemma LookUpAdding(s: State, deps: Deps, i: nat, t: State)
    requires Adding(s, deps, i, 1) && t == s.(subs := s.subs[i + 1 := s.subs[i + 1].(add := HAS_MAIN, mainId := 1)])
    ensures Adding(t, deps, i, 2)
  {
    forall id | 1 <= id <= i
      ensures IsIn(t, deps, id)
    {
      assert IsIn(s, deps, id);
    }
  }

  lemma RegisterAdding(s: State, deps: Deps, i: nat, k: nat, t: State)
    requires Adding(s, deps, i, k + 1) && HAS_MAIN <= k < FOUND && t == RegisterStep(s, i + 1)
    ensures Adding(t, deps, i, k + 2)
  {
    forall id | 1 <= id <= i
      ensures IsIn(t, deps, id)
    {
      assert IsIn(s, deps, id);
    }
  }

  lemma ReadyAdding(s: State, deps: Deps, i: nat, t: State)
    requires Adding(s, deps, i, FOUND + 1) && i + 1 < |deps| && t == ReadyStep(s, i + 1)
    ensures Adding(t, deps, i + 1, 0)
  {
    forall id | 1 <= id <= i + 1
      ensures IsIn(t, deps, id)
    {
      assert id <= i ==> IsIn(s, deps, id);
    }
  }

  /** What the next step of the call makes of the state. */
  function Registered(s: State, i: nat, k: nat): State
    requires i + 1 in s.subs
  {
    if k == ALLOCATED then s.(subs := s.subs[i + 1 := s.subs[i + 1].(add := HAS_MAIN, mainId := 1)])
    else RegisterStep(s, i + 1)
  }

  lemma RegisteredAdding(s: State, deps: Deps, i: nat, k: nat)
    requires Adding(s, deps, i, k + 1) && k < FOUND
    ensures i + 1 in s.subs && Adding(Registered(s, i, k), deps, i, k + 2)
  {
    if k == ALLOCATED {
      LookUpAdding(s, deps, i, Registered(s, i, k));
    } else {
      RegisterAdding(s, deps, i, k, Registered(s, i, k));
    }
  }

  lemma RegisterOnce(c: Config, s: State, deps: Deps, i: nat, k: nat) returns (t: State)
    requires At(c, s, deps, i, k + 1) && k < FOUND
    ensures At(c, t, deps, i, k + 2)
  {
    RegisteredAdding(s, deps, i, k);
    t := Registered(s, i, k);
    RegisterDo(c, s, deps, i, k);
  }

  lemma RegisterDo(c: Config, s: State, deps: Deps, i: nat, k: nat)
    requires At(c, s, deps, i, k + 1) && k < FOUND && i + 1 in s.subs
    ensures Reachable(c, Registered(s, i, k))
  {
    ReachableInv(c, s);
    RegisterIn(c, s, deps, i, k);
    Do(c, s, AddSub(i + 1), Registered(s, i, k));
  }

  lemma RegisterIn(c: Config, s: State, deps: Deps, i: nat, k: nat)
    requires Sound(c, s) && Adding(s, deps, i, k + 1) && k < FOUND && i + 1 in s.subs
    ensures Step(c, s, AddSub(i + 1)) == Some(Registered(s, i, k))
  {
    RegisterIs(s, deps, i, k, Registered(s, i, k));
  }

  lemma RegisterIs(s: State, deps: Deps, i: nat, k: nat, t: State)
    requires Adding(s, deps, i, k + 1) && k < FOUND
    requires t == Registered(s, i, k)
    requires forall id :: id in s.subs && 1 <= s.subs[id].add ==> s.subs[id].mainId in s.mains
    requires forall m :: m in s.mains ==> s.mains[m].prio < PRIORITIES
    ensures AddSubStep(s, i + 1) == Some(t)
  {
  }

  /** A call of addSubTask runs up to its lookup of the main task object. */
  lemma {:induction false} Register(c: Config, s: State, deps: Deps, i: nat, k: nat) returns (t: State)
    requires At(c, s, deps, i, k + 1) && k <= FOUND
    ensures At(c, t, deps, i, FOUND + 1)
    decreases FOUND - k
  {
    if k == FOUND {
      return s;
    }
    var u := RegisterOnce(c, s, deps, i, k);
    t := Register(c, u, deps, i, k + 1);
  }

  lemma ReadyIs(s: State, deps: Deps, i: nat)
    requires Adding(s, deps, i, FOUND + 1)
    requires forall id :: id in s.subs && 1 <= s.subs[id].add ==> s.subs[id].mainId in s.mains
    requires forall m :: m in s.mains ==> s.mains[m].prio < PRIORITIES
    ensures i + 1 in s.subs && s.subs[i + 1].mainId in s.mains
    ensures AddSubStep(s, i + 1) == Some(ReadyStep(s, i + 1))
  {
  }

  lemma ReadyNext(c: Config, s: State, deps: Deps, i: nat) returns (t: State)
    requires At(c, s, deps, i, FOUND + 1) && i + 1 < |deps|
    ensures At(c, t, deps, i + 1, 0)
  {
    ReachableInv(c, s);
    ReadyIs(s, deps, i);
    t := ReadyStep(s, i + 1);
    Do(c, s, AddSub(i + 1), t);
    ReadyAdding(s, deps, i, t);
  }

  /** The first i calls, one after the other. */
  lemma {:induction false} AddFirst(c: Config, deps: Deps, i: nat) returns (t: State)
    requires 1 <= c.poolSize && i < |deps|
    ensures At(c, t, deps, i, 0)
  {
    if i == 0 {
      t := AddTheMain(c, deps);
    } else {
      var s := AddFirst(c, deps, i - 1);
      t := AddNext(c, s, deps, i - 1);
    }
  }

  lemma AddNext(c: Config, s: State, deps: Deps, i: nat) returns (t: State)
    requires At(c, s, deps, i, 0) && i + 1 < |deps|
    ensures At(c, t, deps, i + 1, 0)
  {
    var u := Begin(c, s, deps, i);
    var v := Register(c, u, deps, i, ALLOCATED);
    t := ReadyNext(c, v, deps, i);
  }

  // ---- the main task ----

  function NewMain(size: nat, add: nat): Main
  {
    Main(0, size, 0, add, 0, 0, {}, {}, {}, 0, 0, 0, 0, [])
  }

  function MainAt(c: Config, size: nat, add: nat): State
    requires add <= MAIN_ADDED
  {
    Init(c).(mains := map[1 := NewMain(size, add)], mainNames := map[0 := 1], nextMain := 2,
             mainIds := if MAIN_NAMED <= add then map[0 := 1] else map[],
             waiting := if MAIN_WAITING <= add then Init(c).waiting[0 := {1}] else Init(c).waiting,
             mainTasks := if add == MAIN_ADDED then {1} else {})
  }

  lemma BeginMainIs(c: Config, size: nat)
    requires 1 <= size
    ensures BeginMainStep(Init(c), 0, size, 0) == Some(MainAt(c, size, MAIN_ALLOCATED))
  {
  }

  lemma AddMainIs(c: Config, size: nat, add: nat)
    requires add < MAIN_ADDED
    ensures |MainAt(c, size, add).waiting| == PRIORITIES
    ensures AddMainStep(MainAt(c, size, add), 1) == Some(MainAt(c, size, add + 1))
  {
    var s := MainAt(c, size, add);
    assert s.mains[1 := NewMain(size, add + 1)] == map[1 := NewMain(size, add + 1)];
    assert add == MAIN_NAMED ==> s.waiting[0] + {1} == {1};
    assert {} + {1} == {1};
  }

  lemma MainFirst(c: Config, size: nat)
    requires 1 <= c.poolSize && 1 <= size
    ensures Reachable(c, MainAt(c, size, MAIN_ALLOCATED)) && Sound(c, MainAt(c, size, MAIN_ALLOCATED))
  {
    InitReachable(c);
    ReachableInv(c, Init(c));
    BeginMainIs(c, size);
    Do(c, Init(c), BeginMain(0, size, 0), MainAt(c, size, MAIN_ALLOCATED));
  }

  lemma MainNext(c: Config, size: nat, add: nat)
    requires 1 <= c.poolSize && add < MAIN_ADDED
    requires Reachable(c, MainAt(c, size, add)) && Sound(c, MainAt(c, size, add))
    ensures Reachable(c, MainAt(c, size, add + 1)) && Sound(c, MainAt(c, size, add + 1))
  {
    AddMainIs(c, size, add);
    Do(c, MainAt(c, size, add), AddMain(1), MainAt(c, size, add + 1));
  }

  lemma {:induction false} MainReached(c: Config, size: nat, add: nat)
    requires 1 <= c.poolSize && 1 <= size && add <= MAIN_ADDED
    ensures Reachable(c, MainAt(c, size, add)) && Sound(c, MainAt(c, size, add))
  {
    if add == MAIN_ALLOCATED {
      MainFirst(c, size);
    } else {
      MainReached(c, size, add - 1);
      MainNext(c, size, add - 1);
    }
  }

  lemma AddTheMain(c: Config, deps: Deps) returns (t: State)
    requires 1 <= c.poolSize && deps != []
    ensures At(c, t, deps, 0, 0)
  {
    MainReached(c, |deps|, MAIN_ADDED);
    t := MainAt(c, |deps|, MAIN_ADDED);
  }

  // ---- the last call releases the main task ----

  /** The submission is over: one main task of |deps| subtasks with these dependencies, all of them ready, in
      the order of their ids. */
  ghost predicate Ready0(s: State, deps: Deps)
  {
    && s.loop == Off && s.readyLock == Free && s.taken == [] && s.ring == [] && s.stopSnap == None
    && s.mains.Keys == {1} && s.mains[1].name == 0 && s.mains[1].rel == 3 && s.mains[1].size == |deps|
    && (forall id: nat :: id in s.subs <==> 1 <= id <= |deps|)
    && (forall id: nat {:trigger IsIn(s, deps, id)} :: 1 <= id <= |deps| ==> IsIn(s, deps, id))
    && Order(s) == seq(|deps|, j => j + 1)
  }

  function Claimed(s: State, z: Id): State
    requires 1 in s.mains && z in s.subs
  {
    s.(subs := s.subs[z := s.subs[z].(add := RELEASING)],
       mains := s.mains[1 := s.mains[1].(readyCount := z, readied := s.mains[1].readied + {z},
                                         rel := 1, releaser := z)])
  }

  lemma ClaimIs(s: State, deps: Deps, z: Id)
    requires 1 <= z == |deps| && Adding(s, deps, z - 1, FOUND + 1)
    ensures 1 in s.mains && z in s.subs && s.subs[z].mainId == 1
    ensures ReadyStep(s, z) == Claimed(s, z)
  {
  }

  function Pushed(s: State, z: Id): State
    requires 1 in s.mains && z in s.subs && 0 < |s.ready|
  {
    s.(subs := s.subs[z := s.subs[z].(add := HOLDING)], readyLock := ByAdder(z),
       mains := s.mains[1 := s.mains[1].(rel := 2, order := List(s, 1))],
       ready := s.ready[0 := s.ready[0] + List(s, 1)])
  }

  function Freed(s: State, z: Id): State
    requires 1 in s.mains && z in s.subs && 0 < |s.waiting|
  {
    s.(subs := s.subs[z := s.subs[z].(add := ADDED)], readyLock := Free,
       mains := s.mains[1 := s.mains[1].(rel := 3)], waiting := s.waiting[0 := s.waiting[0] - {1}])
  }

  /** What the releasing call leaves behind. */
  lemma FreedReady(s: State, deps: Deps, z: Id)
    requires 1 <= z == |deps| && Adding(s, deps, z - 1, FOUND + 1) && 1 in s.mains && z in s.subs
    ensures Ready0(Freed(Pushed(Claimed(s, z), z), z), deps)
  {
    var t := Freed(Pushed(Claimed(s, z), z), z);
    forall id: nat | 1 <= id <= z
      ensures IsIn(t, deps, id)
    {
      assert id < z ==> IsIn(s, deps, id);
    }
    assert t.ready == s.ready[0 := s.ready[0] + List(s, 1)] && s.ready[0] == [];
    FlatLowest(t.ready);
  }

  lemma FlatLowest(queues: seq<seq<Id>>)
    requires 0 < |queues| && forall p :: 0 < p < |queues| ==> queues[p] == []
    ensures Flat(queues) == queues[0]
  {
    if 1 < |queues| {
      FlatLowest(queues[..|queues| - 1]);
    }
  }

  predicate AtLast(s: State, z: Id, add: nat)
  {
    && 1 in s.mains && z in s.subs && s.subs[z].mainId == 1 && !s.subs[z].threw && s.subs[z].add == add
    && s.mains[1].prio == 0 && (add == RELEASING ==> s.readyLock == Free)
  }

  lemma Push(c: Config, s: State, z: Id)
    requires 1 <= c.poolSize && Reachable(c, s) && Sound(c, s) && AtLast(s, z, RELEASING)
    ensures Reachable(c, Pushed(s, z)) && Sound(c, Pushed(s, z)) && AtLast(Pushed(s, z), z, HOLDING)
  {
    assert AddSubStep(s, z) == Some(Pushed(s, z));
    Do(c, s, AddSub(z), Pushed(s, z));
  }

  lemma Unwait(c: Config, s: State, z: Id)
    requires 1 <= c.poolSize && Reachable(c, s) && Sound(c, s) && AtLast(s, z, HOLDING)
    ensures Reachable(c, Freed(s, z))
  {
    assert AddSubStep(s, z) == Some(Freed(s, z));
    Do(c, s, AddSub(z), Freed(s, z));
  }

  lemma Claim(c: Config, s: State, deps: Deps, z: Id)
    requires 1 <= z == |deps| && At(c, s, deps, z - 1, FOUND + 1)
    ensures 1 in s.mains && z in s.subs
    ensures Reachable(c, Claimed(s, z)) && Sound(c, Claimed(s, z)) && AtLast(Claimed(s, z), z, RELEASING)
  {
    ReachableInv(c, s);
    ClaimIn(c, s, deps, z);
    Do(c, s, AddSub(z), Claimed(s, z));
    assert Fresh(s);
  }

  lemma ClaimIn(c: Config, s: State, deps: Deps, z: Id)
    requires 1 <= z == |deps| && Sound(c, s) && Adding(s, deps, z - 1, FOUND + 1)
    ensures 1 in s.mains && z in s.subs && Step(c, s, AddSub(z)) == Some(Claimed(s, z))
  {
    ClaimIs(s, deps, z);
    assert AddSubStep(s, z) == Some(Claimed(s, z));
  }

  /** The last call: it claims the release, pushes the list, and takes the main task out of its waiting set. */
  lemma AddLast(c: Config, s: State, deps: Deps) returns (t: State)
    requires deps != [] && At(c, s, deps, |deps| - 1, FOUND + 1)
    ensures Reachable(c, t) && Ready0(t, deps)
  {
    var z := |deps|;
    Claim(c, s, deps, z);
    var u := Claimed(s, z);
    Push(c, u, z);
    var v := Pushed(u, z);
    Unwait(c, v, z);
    t := Freed(v, z);
    FreedReady(s, deps, z);
  }

  /** Whatever the dependency lists, some run submits a main task of subtasks with them. */
  lemma Submit(c: Config, deps: Deps) returns (s: State)
    requires 1 <= c.poolSize && deps != []
    ensures Reachable(c, s) && Ready0(s, deps)
  {
    var i := |deps| - 1;
    var u := AddFirst(c, deps, i);
    var v := Begin(c, u, deps, i);
    var w := Register(c, v, deps, i, ALLOCATED);
    s := AddLast(c, w, deps);
  }

  // ---- what has been submitted ----

  lemma ReadySubmitted(s: State, deps: Deps)
    requires Ready0(s, deps)
    ensures Submitted(s) && KnownAll(s)
  {
    forall id | id in s.subs
      ensures SubDone(s, id)
    {
      assert IsIn(s, deps, id);
    }
  }

  /** The edges are those of the lists. */
  lemma ReadyEdges(s: State, deps: Deps, a: Id, b: Id)
    requires Ready0(s, deps)
    ensures Edge(s, a, b) <==> 1 <= a <= |deps| && 1 <= b <= |deps| && b - 1 in deps[a - 1]
  {
    var q := Order(s);
    if 1 <= a <= |deps| && 1 <= b <= |deps| {
      assert IsIn(s, deps, a) && IsIn(s, deps, b);
      assert q[a - 1] == a && q[b - 1] == b;
    }
  }
}
