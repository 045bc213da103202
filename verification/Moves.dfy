module Moves {
  /** Who can move, in every reachable state: a thread is kept only by the lock on the ready queues, a full or
    an empty ring, a dependency that is not done, or a slot that has not been posted. */

  import opened Protocol
  import opened Invariant
  import opened CallerPreserves
  import opened CallPreserves
  import opened History
  import opened Results

  predicate MainKnown(s: State, name: Name)
  {
    exists m :: m in s.mains && s.mains[m].name == name
  }

  predicate SubKnown(s: State, name: Name)
  {
    exists id :: id in s.subs && s.subs[id].name == name
  }

  /** What the environment may begin, and what keeps a thread under way, if anything. */
  ghost predicate CanMove(c: Config, s: State, a: Action)
  {
    match a
    // new names, and no more subtasks than a main task that has been added has room for
    case BeginMain(name, size, prio) =>
      !MainKnown(s, name) && 1 <= size && prio < PRIORITIES && forall id :: id in s.subs ==> s.subs[id].mainName != name
    case BeginSub(name, mainName, _) =>
      !SubKnown(s, name) && forall m :: m in s.mains && s.mains[m].name == mainName ==> HasRoom(s.mains[m])
    // once for a name, and again after it was not found
    case BeginGet(name) => name in s.getters ==> s.getters[name].NotFound?
    case Start => s.loop == Off
    case Stop => true
    // addMainTask never waits, addSubTask only for the lock on the ready queues
    case AddMain(m) => m in s.mains && s.mains[m].add < MAIN_ADDED
    case AddSub(id) =>
      && id in s.subs && !s.subs[id].threw && s.subs[id].add < ADDED
      && (s.subs[id].add == RELEASING ==> s.readyLock == Free)
    // a getter waits for the post
    case Get(name) =>
      && name in s.getters && !s.getters[name].Got? && !s.getters[name].NotFound?
      && (s.getters[name].HasSlot? ==> s.getters[name].id in s.subs && s.subs[s.getters[name].id].posts == 1)
    // the event loop for the lock and for room in the ring
    case Loop =>
      && s.loop != Off && s.loop != Exited && (s.loop == Scan1 || s.loop == Want ==> s.readyLock == Free)
      && (Dispatching(s) ==> |s.ring| < c.poolSize)
    // a worker for an item in the ring, or for a dependency
    case Work(w) =>
      && w < |s.workers| && (s.workers[w].Idle? ==> s.ring != [])
      && (s.workers[w].DepWait? ==> s.workers[w].dep in s.subs && s.subs[s.workers[w].dep].done)
  }

  lemma MainNames(s: State, name: Name)
    requires Names(s)
    ensures name in s.mainNames <==> MainKnown(s, name)
    ensures forall m :: m in s.mains && s.mains[m].name == name ==> name in s.mainNames && s.mainNames[name] == m
  {
    assert NameOk(s, name);
    forall m | m in s.mains && s.mains[m].name == name
      ensures name in s.mainNames && s.mainNames[name] == m
    {
      assert MainNamed(s, m);
    }
  }

  lemma SubNames(s: State, name: Name)
    requires Names(s)
    ensures name in s.names <==> SubKnown(s, name)
  {
    assert NameOk(s, name);
    forall id | id in s.subs && s.subs[id].name == name
      ensures name in s.names
    {
      assert SubNamed(s, id);
    }
  }

  lemma BeginMainIff(c: Config, s: State, name: Name, size: nat, prio: nat)
    requires Names(s)
    ensures BeginMainStep(s, name, size, prio).Some? <==> CanMove(c, s, BeginMain(name, size, prio))
  {
    MainNames(s, name);
  }

  lemma BeginSubIff(c: Config, s: State, name: Name, mainName: Name, deps: seq<Name>)
    requires Names(s) && forall n :: n in s.mainNames ==> s.mainNames[n] in s.mains
    ensures BeginSubStep(s, name, mainName, deps).Some? <==> CanMove(c, s, BeginSub(name, mainName, deps))
  {
    SubNames(s, name);
    MainNames(s, mainName);
    assert NameOk(s, mainName);
  }

  lemma AddMainIff(c: Config, s: State, m: Id)
    requires |s.waiting| == PRIORITIES && forall m :: m in s.mains ==> s.mains[m].prio < PRIORITIES
    ensures AddMainStep(s, m).Some? <==> CanMove(c, s, AddMain(m))
  {
  }

  /** The main task that addSubTask dereferences is there. */
  lemma MainThere(s: State, id: Id)
    requires Names(s) && Locals(s) && Tables(s) && Mains(s) && Members(s) && SubMains(s)
    requires id in s.subs && s.subs[id].add == SLOTTED
    ensures s.subs[id].mainId in s.mainTasks
  {
    RegisteringFacts(s, id);
    assert MainTabled(s, s.subs[id].mainId);
  }

  lemma AddSubIff(c: Config, s: State, id: Id)
    requires |s.ready| == PRIORITIES == |s.waiting|
    requires forall id :: id in s.subs && 1 <= s.subs[id].add ==> s.subs[id].mainId in s.mains
    requires forall m :: m in s.mains ==> s.mains[m].prio < PRIORITIES
    requires id in s.subs && s.subs[id].add == SLOTTED ==> s.subs[id].mainId in s.mainTasks
    requires id in s.subs ==> s.subs[id].add <= ADDED
    ensures AddSubStep(s, id).Some? <==> CanMove(c, s, AddSub(id))
  {
  }

  lemma GetIff(c: Config, s: State, n: Name)
    requires forall n :: n in s.getters && HasTarget(s.getters[n]) ==> s.getters[n].id in s.subs
    requires n in s.getters && s.getters[n].HasSlot? ==>
      s.getters[n].id in s.subs && s.subs[s.getters[n].id].slotSem == s.subs[s.getters[n].id].posts <= 1
    ensures GetStep(s, n).Some? <==> CanMove(c, s, Get(n))
  {
  }

  lemma LoopIff(c: Config, s: State)
    requires SoundLoop(s)
    ensures LoopStep(c, s).Some? <==> CanMove(c, s, Loop)
  {
  }

  lemma WorkIff(c: Config, s: State, w: nat)
    requires SoundAt(s, w)
    ensures WorkStep(c, s, w).Some? <==> CanMove(c, s, Work(w))
  {
  }

  /** The exact condition for every action in every reachable state. */
  lemma WhoCanMove(c: Config, s: State, a: Action)
    requires 1 <= c.poolSize && Reachable(c, s)
    ensures Sound(c, s) && (Step(c, s, a).Some? <==> CanMove(c, s, a))
  {
    ReachableInv(c, s);
    match a
    case BeginMain(name, size, prio) => BeginMainIff(c, s, name, size, prio);
    case BeginSub(name, mainName, deps) => BeginSubIff(c, s, name, mainName, deps);
    case BeginGet(_) =>
    case Start =>
    case Stop =>
    case AddMain(m) => AddMainIff(c, s, m);
    case AddSub(id) => AddSubCanMove(c, s, id);
    case Get(n) => GetCanMove(c, s, n);
    case Loop => LoopIff(c, s);
    case Work(w) => WorkIff(c, s, w);
  }

  lemma AddSubCanMove(c: Config, s: State, id: Id)
    requires Inv(c, s) && Sound(c, s)
    ensures Step(c, s, AddSub(id)).Some? <==> CanMove(c, s, AddSub(id))
  {
    if id in s.subs {
      assert Local(s.subs[id], s.clock);
      if s.subs[id].add == SLOTTED {
        MainThere(s, id);
      }
    }
    AddSubIff(c, s, id);
  }

  lemma GetCanMove(c: Config, s: State, n: Name)
    requires 1 <= c.poolSize && Reachable(c, s) && Inv(c, s) && Sound(c, s)
    ensures Step(c, s, Get(n)).Some? <==> CanMove(c, s, Get(n))
  {
    if n in s.getters && s.getters[n].HasSlot? {
      PostedMeansAvailable(c, s, n);
      assert Local(s.subs[s.getters[n].id], s.clock);
    }
    GetIff(c, s, n);
  }
}
