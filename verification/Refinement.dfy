module Refinement {
  /** The dispatcher as an object refines the machine: whenever a step of the machine is possible in a
    reachable state, the object's method for that region finds what it requires, and what it leaves is what
    the step leaves. */

  import opened Sequences
  import opened Protocol
  import opened Invariant
  import opened WorkerPreserves
  import opened CallerPreserves
  import opened ReleasePreserves
  import opened CallPreserves
  import opened History
  import opened Moves
  import opened ED = EventDispatcher

  /** The object stands for a reachable state of the machine. */
  ghost predicate Stands(d: ED.EventDispatcher)
    reads d, d.waitingMainTasks, d.readySubTasks, d.mainObjects.Values, d.subObjects.Values, d.slotObjects.Values
  {
    d.Valid() && 1 <= d.config.poolSize && Reachable(d.config, d.s)
  }

  lemma StandsInv(d: ED.EventDispatcher)
    requires Stands(d)
    ensures Inv(d.config, d.s) && Sound(d.config, d.s)
  {
    ReachableInv(d.config, d.s);
  }

  /** A main task that a subtask knows is listed with its object. */
  lemma ObjectOf(d: ED.EventDispatcher, m: Id)
    requires d.Valid() && m in d.s.mains && d.s.mains[m].add == MAIN_ADDED && d.s.mains[m].prio < PRIORITIES
    ensures d.OwnsMain(m)
  {
    assert d.MainAt(m);
  }

  // ---- addMainTask ----

  /** Before its addMainTask has returned nothing has been counted at a main task. */
  lemma AddMainMeets(d: ED.EventDispatcher, m: Id)
    requires Stands(d) && Sound(d.config, d.s) && Step(d.config, d.s, AddMain(m)).Some?
    ensures d.AddMainReady(m) && Step(d.config, d.s, AddMain(m)) == AddMainStep(d.s, m)
  {
    StandsInv(d);
    assert MainOk(d.s, m);
  }

  // ---- addSubTask ----

  /** What AddSubReady says, of the state alone. */
  ghost predicate Registrable(s: State, id: Id)
  {
    && id in s.subs && !s.subs[id].threw
    && (s.subs[id].add == NAMED ==> !s.subs[id].completed && !s.subs[id].done)
    && (s.subs[id].add == LISTED ==> s.subs[id].slotSem == 0 && s.subs[id].slotOutcome == None)
    && (s.subs[id].add == SLOTTED ==> s.subs[id].mainId in s.mainTasks)
    && (FOUND <= s.subs[id].add ==>
          s.subs[id].mainId in s.mains && s.mains[s.subs[id].mainId].add == MAIN_ADDED
          && s.mains[s.subs[id].mainId].prio < PRIORITIES)
  }

  /** A subtask being registered has its flags, slot and main task as they were made. */
  lemma RegisteringMeets(s: State, id: Id)
    requires Names(s) && Locals(s) && Tables(s) && Mains(s) && Members(s) && SubMains(s)
    requires id in s.subs && !s.subs[id].threw && s.subs[id].add < ADDED
    ensures Registrable(s, id)
  {
    var u := s.subs[id];
    assert Local(u, s.clock);
    if HAS_MAIN <= u.add < RELEASING {
      RegisteringFacts(s, id);
      assert MainTabled(s, u.mainId) && MainOk(s, u.mainId);
    } else if RELEASING <= u.add {
      ReleasingFacts(s, id);
    }
  }

  /** The state that the method for the call's next region leaves. */
  function Registered(s: State, id: Id): State
    requires id in s.subs
    requires (FOUND <= s.subs[id].add ==> s.subs[id].mainId in s.mains && s.mains[s.subs[id].mainId].prio < PRIORITIES)
    requires |s.ready| == PRIORITIES == |s.waiting|
  {
    var add := s.subs[id].add;
    if add == ALLOCATED then LookedUp(s, id)
    else if add <= SLOTTED then RegisterStep(s, id)
    else if add == FOUND then ReadyStep(s, id)
    else if add == RELEASING then ReleaseStep(s, id)
    else UnwaitStep(s, id)
  }

  lemma RegisteredIs(s: State, id: Id, t: State)
    requires |s.ready| == PRIORITIES == |s.waiting|
    requires forall id :: id in s.subs && 1 <= s.subs[id].add ==> s.subs[id].mainId in s.mains
    requires forall m :: m in s.mains ==> s.mains[m].prio < PRIORITIES
    requires AddSubStep(s, id) == Some(t)
    ensures id in s.subs && !s.subs[id].threw && s.subs[id].add < ADDED && t == Registered(s, id)
    ensures s.subs[id].add == RELEASING ==> s.readyLock == Free
  {
  }

  /** A call of addSubTask that can move: its method finds all it requires, among it the slot empty, the main
      task listed where it is looked up unchecked, and its object, and does the machine's step. */
  lemma AddSubMeets(d: ED.EventDispatcher, id: Id)
    requires Stands(d) && Sound(d.config, d.s) && Step(d.config, d.s, AddSub(id)).Some?
    ensures d.AddSubReady(id) && Step(d.config, d.s, AddSub(id)) == Some(Registered(d.s, id))
  {
    StandsInv(d);
    RegisteredIs(d.s, id, Step(d.config, d.s, AddSub(id)).value);
    RegisteringMeets(d.s, id);
    if FOUND <= d.s.subs[id].add {
      ObjectOf(d, d.s.subs[id].mainId);
    }
  }

  // ---- getSubTaskResult ----

  lemma GetterSlot(s: State, n: Name)
    requires Getters(s) && Locals(s) && n in s.getters && HasTarget(s.getters[n])
    ensures s.getters[n].id in s.subs && (!s.getters[n].HasId? ==> SLOTTED <= s.subs[s.getters[n].id].add)
  {
    assert GetterOk(s, n) && Local(s.subs[s.getters[n].id], s.clock);
  }

  /** A getter that can move finds its subtask's slot object, and its method does the machine's step. */
  lemma GetMeets(d: ED.EventDispatcher, n: Name)
    requires Stands(d) && Sound(d.config, d.s) && Step(d.config, d.s, Get(n)).Some?
    ensures d.GetReady(n)
    ensures var s, t, pc := d.s, Step(d.config, d.s, Get(n)).value, d.s.getters[n];
      && (pc.Asked? ==> t == SetGetter(s, n, if n in s.subIds then HasId(s.subIds[n]) else NotFound))
      && (pc.HasId? ==> t == SetGetter(s, n, if pc.id in s.results then HasSlot(pc.id) else NotFound))
      && (pc.HasSlot? ==> 0 < s.subs[pc.id].slotSem)
      && (!pc.Asked? && !pc.HasId? ==> HasTarget(pc) && !pc.Got? && t == TakeStep(s, n, pc.id))
  {
    StandsInv(d);
    if HasTarget(d.s.getters[n]) {
      GetterSlot(d.s, n);
      assert d.SlotAt(d.s.getters[n].id);
    }
  }

  // ---- a worker ----

  lemma AtWorkFacts(c: Config, s: State, w: nat)
    requires Inv(c, s) && Sound(c, s) && w < |s.workers| && !s.workers[w].Idle?
    ensures AtWork(s, w) && s.subs[s.workers[w].id].mainId in s.mains
    ensures s.mains[s.subs[s.workers[w].id].mainId].add == MAIN_ADDED
    ensures s.mains[s.subs[s.workers[w].id].mainId].prio < PRIORITIES
    ensures s.workers[w].DepWait? ==> s.workers[w].dep in s.subs && INSERTED <= s.subs[s.workers[w].dep].add
  {
    var id := s.workers[w].id;
    assert WorkerOk(s, w);
    HeldFacts(c, s, id);
    ReleasedFacts(s, id);
    assert MainOk(s, s.subs[id].mainId);
  }

  /** A busy worker that can move finds the objects of its subtask, its dependency and its main task, and its
      method does the machine's step; it cannot move only before a dependency that is not done. */
  lemma WorkMeets(d: ED.EventDispatcher, w: nat)
    requires Stands(d) && Sound(d.config, d.s) && w < |d.s.workers| && !d.s.workers[w].Idle?
    ensures d.WorkReady(w)
    ensures var s, pc := d.s, d.s.workers[w];
      Step(d.config, s, Work(w)) == if pc.DepWait? && !s.subs[pc.dep].done then None else Some(ActStep(d.config, s, w))
  {
    StandsInv(d);
    AtWorkFacts(d.config, d.s, w);
    var pc := d.s.workers[w];
    assert d.SubAt(pc.id) && d.SlotAt(pc.id) && d.MainAt(d.s.subs[pc.id].mainId);
    if pc.DepWait? {
      assert d.SubAt(pc.dep);
    }
  }

  // ---- the event loop ----

  /** A move of the event loop is what its region's method leaves: at the head, at each of the three scans, and
      where the front of a queue is emitted, which is then there. */
  lemma LoopMeets(d: ED.EventDispatcher)
    requires Stands(d) && Sound(d.config, d.s) && Step(d.config, d.s, Loop).Some?
    ensures var s, t := d.s, Step(d.config, d.s, Loop).value;
      && (s.loop == Top ==> t == if s.running then s.(loop := Want) else s.(loop := Scan1, snap := AddedMains(s)))
      && (s.loop == Scan1 ==> s.readyLock == Free)
      && (s.loop == Scan1 ==>
            t == s.(loop := if exists p :: 0 <= p < PRIORITIES && s.ready[p] != [] then Want else Scan2))
      && (s.loop == Scan2 ==>
            t == s.(loop := if exists p :: 0 <= p < PRIORITIES && s.waiting[p] != {} then Want else Scan3))
      && (s.loop == Scan3 ==>
            t == s.(loop := if exists id :: id in s.subTasks && id in s.subs && !s.subs[id].completed
                            then Want else Exited))
      && (s.loop == Want ==> s.readyLock == Free)
      && (s.loop == Want ==>
            t == s.(loop := Emit(PRIORITIES - 1), readyLock := ByLoop, passes := s.passes + [Flat(s.ready)]))
      && s.loop != Off && s.loop != Exited && (s.loop.Emit? ==> s.loop.p < PRIORITIES)
      && (s.loop.Emit? && !Dispatching(s) ==> t == PassStep(s, s.loop.p))
      && (Dispatching(s) ==>
            s.ready[s.loop.p][0] in s.subs && |s.ring| < d.config.poolSize && t == EmitStep(s, s.loop.p))
  {
    StandsInv(d);
  }

  // ---- whole threads, region after region ----

  ghost predicate CanStep(d: ED.EventDispatcher, a: Action)
    reads d
  {
    Sound(d.config, d.s) && Step(d.config, d.s, a).Some?
  }

  /** Who can move by the condition of module `Moves` has a step. */
  lemma Enabled(d: ED.EventDispatcher, a: Action)
    requires Stands(d) && CanMove(d.config, d.s, a)
    ensures CanStep(d, a)
  {
    WhoCanMove(d.config, d.s, a);
  }

  /** The machine took the step a. */
  twostate predicate Stepped(d: ED.EventDispatcher, a: Action)
    reads d
  {
    Sound(d.config, old(d.s)) && Step(d.config, old(d.s), a) == Some(d.s)
  }

  lemma StepReached(c: Config, s: State, a: Action, t: State)
    requires Reachable(c, s) && Sound(c, s) && Step(c, s, a) == Some(t)
    ensures Reachable(c, t)
  {
    RunOn(c, s, t);
  }

  /** A dispatcher just made stands for the state from which all runs start. */
  method Create(ghost c: Config) returns (d: ED.EventDispatcher)
    requires 1 <= c.poolSize
    ensures fresh(d) && Stands(d) && d.config == c && d.s == Init(c)
  {
    d := new ED.EventDispatcher(c);
    assert IsRun(c, [Init(c)]);
  }

  // how the calls begin

  /** A call of addMainTask takes its id. */
  method BeginMainRegion(d: ED.EventDispatcher, name: Name, size: nat, prio: nat) returns (m: Id)
    requires Stands(d) && CanMove(d.config, d.s, BeginMain(name, size, prio))
    modifies d
    ensures Stands(d) && d.Kept() && Stepped(d, BeginMain(name, size, prio)) && m !in old(d.s).mains
    ensures AddsMain(d, m, MAIN_ALLOCATED, name, size, prio)
  {
    ghost var was := d.s;
    Enabled(d, BeginMain(name, size, prio));
    StandsInv(d);
    FreshSub(d.s);
    m := d.AllocateMain(name, size, prio);
    StepReached(d.config, was, BeginMain(name, size, prio), d.s);
  }

  /** And one of addSubTask. */
  method BeginSubRegion(d: ED.EventDispatcher, name: Name, mainName: Name, deps: seq<Name>) returns (id: Id)
    requires Stands(d) && CanMove(d.config, d.s, BeginSub(name, mainName, deps))
    modifies d
    ensures Stands(d) && d.Kept() && Stepped(d, BeginSub(name, mainName, deps)) && id !in old(d.s).subs
    ensures AddsSub(d, id, ALLOCATED, name, mainName, deps, 0, null)
  {
    ghost var was := d.s;
    Enabled(d, BeginSub(name, mainName, deps));
    StandsInv(d);
    FreshSub(d.s);
    id := d.AllocateSub(name, mainName, deps);
    StepReached(d.config, was, BeginSub(name, mainName, deps), d.s);
  }

  /** A getter begins with nothing, for a name that was not asked for or not found. */
  ghost method BeginGetRegion(d: ED.EventDispatcher, n: Name)
    requires Stands(d) && (n in d.s.getters ==> d.s.getters[n].NotFound?)
    modifies d
    ensures Stands(d) && d.Kept() && Stepped(d, BeginGet(n)) && Gets(d, n, Asked, null)
  {
    ghost var was := d.s;
    Enabled(d, BeginGet(n));
    d.Ask(n);
    StepReached(d.config, was, BeginGet(n), d.s);
  }

  /** start, once, and Stop, at any time. */
  method StartRegion(d: ED.EventDispatcher)
    requires Stands(d) && d.s.loop == Off
    modifies d
    ensures Stands(d) && d.Kept() && Stepped(d, Start) && d.s.loop == Top
  {
    ghost var was := d.s;
    Enabled(d, Start);
    d.Start();
    StepReached(d.config, was, Start, d.s);
  }

  method StopRegion(d: ED.EventDispatcher)
    requires Stands(d)
    modifies d
    ensures Stands(d) && d.Kept() && Stepped(d, Stop) && !d.isRunning
  {
    ghost var was := d.s;
    StandsInv(d);
    d.Stop();
    StepReached(d.config, was, Stop, d.s);
  }

  /** The event loop at pc, which is its own to know: running the region it is at, on the tables, is the
      machine's next step, and it comes to where the machine says. First the regions of the loop condition. */
  method ScanRegion(d: ED.EventDispatcher, pc: LoopPc) returns (next: LoopPc)
    requires Stands(d) && d.s.loop == pc && (pc == Top || pc == Scan1 || pc == Scan2 || pc == Scan3)
    requires pc == Scan1 ==> d.s.readyLock == Free
    modifies d
    ensures Stands(d) && Stepped(d, Loop) && next == d.s.loop
  {
    ghost var was := d.s;
    Enabled(d, Loop);
    LoopMeets(d);
    if pc == Top {
      var on := d.Head();
      next := if on then Want else Scan1;
    } else if pc == Scan1 {
      var found := d.ScanReady();
      next := if found then Want else Scan2;
    } else if pc == Scan2 {
      var found := d.ScanWaiting();
      next := if found then Want else Scan3;
    } else {
      var found := d.ScanSubTasks();
      next := if found then Want else Exited;
    }
    StepReached(d.config, was, Loop, d.s);
  }

  /** Then those of a pass: it begins at the highest priority, moves the front of a queue to the ring, leaves an
      empty queue for the next lower one, and after the lowest leads back to the loop's condition. */
  method PassRegion(d: ED.EventDispatcher, pc: LoopPc) returns (next: LoopPc)
    requires Stands(d) && d.s.loop == pc && (pc == Want || pc.Emit?) && (pc.Emit? ==> pc.p < d.readySubTasks.Length)
    requires pc == Want ==> d.s.readyLock == Free
    requires pc.Emit? && d.readySubTasks[pc.p] != [] ==> |d.ring| < d.config.poolSize
    modifies d, d.readySubTasks
    ensures Stands(d) && Stepped(d, Loop) && next == d.s.loop
    ensures pc == Want ==> next == Emit(PRIORITIES - 1)
    ensures pc.Emit? && old(d.readySubTasks[pc.p]) != [] ==>
      next == pc && d.ring == old(d.ring) + [old(d.readySubTasks[pc.p])[0]]
    ensures pc.Emit? && old(d.readySubTasks[pc.p]) == [] ==> next == if 0 < pc.p then Emit(pc.p - 1) else Top
  {
    ghost var was := d.s;
    PassEnabled(d, pc);
    LoopMeets(d);
    if pc == Want {
      d.BeginPass();
      next := Emit(PRIORITIES - 1);
    } else {
      assert d.readySubTasks[..] == d.View().ready && d.readySubTasks[pc.p] == d.readySubTasks[..][pc.p];
      if d.readySubTasks[pc.p] == [] {
        d.EndQueue(pc.p);
        next := if 0 < pc.p then Emit(pc.p - 1) else Top;
      } else {
        var id := d.EmitFront(pc.p);
        next := pc;
      }
    }
    StepReached(d.config, was, Loop, d.s);
  }

  lemma PassEnabled(d: ED.EventDispatcher, pc: LoopPc)
    requires Stands(d) && d.s.loop == pc && (pc == Want || pc.Emit?) && (pc.Emit? ==> pc.p < d.readySubTasks.Length)
    requires pc == Want ==> d.s.readyLock == Free
    requires pc.Emit? && d.readySubTasks[pc.p] != [] ==> |d.ring| < d.config.poolSize
    ensures CanStep(d, Loop)
  {
    assert d.View().ring == d.s.ring && d.View().ready == d.s.ready;
    assert pc.Emit? ==> d.readySubTasks[pc.p] == d.readySubTasks[..][pc.p];
    Enabled(d, Loop);
  }

  /** A call of addMainTask with these arguments, k regions into it. */
  ghost predicate AddsMain(d: ED.EventDispatcher, m: Id, k: nat, name: Name, size: nat, prio: nat)
    reads d
  {
    m in d.s.mains && d.s.mains[m].add == k && d.s.mains[m].name == name
    && d.s.mains[m].size == size && d.s.mains[m].prio == prio
  }

  method AddMainRegion(d: ED.EventDispatcher, m: Id, k: nat, name: Name, size: nat, prio: nat)
    requires Stands(d) && AddsMain(d, m, k, name, size, prio) && k < MAIN_ADDED
    modifies d, d.waitingMainTasks
    ensures Stands(d) && d.Kept() && Stepped(d, AddMain(m)) && AddsMain(d, m, k + 1, name, size, prio)
  {
    ghost var was := d.s;
    Enabled(d, AddMain(m));
    AddMainMeets(d, m);
    if k == MAIN_ALLOCATED {
      d.NameMain(m, name);
    } else if k == MAIN_NAMED {
      d.WaitMain(m, prio);
    } else {
      var task := new MainTask(m, size, prio);
      d.InsertMain(m, task);
    }
    StepReached(d.config, was, AddMain(m), d.s);
  }

  /** The whole call, with nobody moving in between. */
  method AddMainTask(d: ED.EventDispatcher, name: Name, size: nat, prio: nat) returns (m: Id)
    requires Stands(d) && CanMove(d.config, d.s, BeginMain(name, size, prio))
    modifies d, d.waitingMainTasks
    ensures Stands(d) && m !in old(d.s).mains && AddsMain(d, m, MAIN_ADDED, name, size, prio)
  {
    m := BeginMainRegion(d, name, size, prio);
    for k := MAIN_ALLOCATED to MAIN_ADDED
      invariant Stands(d) && AddsMain(d, m, k, name, size, prio)
    {
      AddMainRegion(d, m, k, name, size, prio);
    }
  }

  /** A call of addSubTask with these arguments, k regions into it: it knows its main task's id, and from its
      lookup on holds that main task's object. */
  ghost predicate AddsSub(d: ED.EventDispatcher, id: Id, k: nat, name: Name, mainName: Name, deps: seq<Name>,
                          mainId: Id, main: MainTask?)
    reads d
  {
    && id in d.s.subs && d.s.subs[id].add == k && d.s.subs[id].name == name && d.s.subs[id].mainName == mainName
    && d.s.subs[id].deps == deps && !d.s.subs[id].threw
    && (HAS_MAIN <= k ==> d.s.subs[id].mainId == mainId)
    && (FOUND <= k ==> mainId in d.mainObjects && main == d.mainObjects[mainId])
  }

  /** The regions up to the lookup of the main task object. */
  method RegisterRegion(d: ED.EventDispatcher, id: Id, k: nat, name: Name, mainName: Name, deps: seq<Name>, mainId: Id)
      returns (threw: bool, mainId': Id, main: MainTask?)
    requires Stands(d) && AddsSub(d, id, k, name, mainName, deps, mainId, null) && k <= SLOTTED
    modifies d
    ensures Stands(d) && d.Kept() && Stepped(d, AddSub(id)) && id in d.s.subs && d.s.subs[id].threw == threw
    ensures !threw ==> AddsSub(d, id, k + 1, name, mainName, deps, mainId', main)
  {
    ghost var was := d.s;
    Enabled(d, AddSub(id));
    AddSubMeets(d, id);
    threw, mainId', main := false, mainId, null;
    if k == ALLOCATED {
      var found := d.LookUpMain(id, mainName);
      threw, mainId' := found == None, if found.Some? then found.value else mainId;
    } else if k == HAS_MAIN {
      d.NameSub(id, name);
    } else if k == NAMED {
      var task := new SubTask(id, name, deps, mainId);
      d.InsertSub(id, task);
    } else if k == INSERTED {
      d.ListSub(id, mainId);
    } else if k == LISTED {
      d.SlotSub(id);
    } else {
      main := d.FindMain(id, mainId);
    }
    StepReached(d.config, was, AddSub(id), d.s);
  }

  /** The count, and for the last call the release. */
  method ReleaseRegion(d: ED.EventDispatcher, id: Id, k: nat, name: Name, mainName: Name, deps: seq<Name>,
                       mainId: Id, main: MainTask)
      returns (k': nat)
    requires Stands(d) && AddsSub(d, id, k, name, mainName, deps, mainId, main) && FOUND <= k < ADDED
    requires k == RELEASING ==> d.s.readyLock == Free
    modifies d, main, d.readySubTasks, d.waitingMainTasks
    ensures Stands(d) && d.Kept() && Stepped(d, AddSub(id)) && AddsSub(d, id, k', name, mainName, deps, mainId, main)
  {
    ghost var was := d.s;
    Enabled(d, AddSub(id));
    AddSubMeets(d, id);
    if k == FOUND {
      var last := d.CountReady(id, main);
      k' := if last then RELEASING else ADDED;
    } else if k == RELEASING {
      d.PushAll(id, mainId, main);
      k' := HOLDING;
    } else {
      d.Unwait(id, mainId, main);
      k' := ADDED;
    }
    StepReached(d.config, was, AddSub(id), d.s);
  }

  /** A getter at pc, with its slot once it has one. */
  ghost predicate Gets(d: ED.EventDispatcher, n: Name, pc: GetPc, slot: SubTaskResult?)
    reads d
  {
    && n in d.s.getters && d.s.getters[n] == pc
    && (HasTarget(pc) && !pc.HasId? ==> pc.id in d.slotObjects && slot == d.slotObjects[pc.id])
  }

  lemma GetEnabled(d: ED.EventDispatcher, n: Name, pc: GetPc, slot: SubTaskResult?)
    requires Stands(d) && Gets(d, n, pc, slot) && !pc.Got? && !pc.NotFound?
    requires pc.HasSlot? ==> slot != null && 0 < slot.semaphore
    ensures CanStep(d, Get(n))
  {
    StandsInv(d);
    if pc.HasSlot? {
      GetterSlot(d.s, n);
      assert d.SlotAt(pc.id) && Local(d.s.subs[pc.id], d.s.clock);
    }
    Enabled(d, Get(n));
  }

  method GetRegion(d: ED.EventDispatcher, n: Name, pc: GetPc, slot: SubTaskResult?)
      returns (next: GetPc, slot': SubTaskResult?)
    requires Stands(d) && Gets(d, n, pc, slot) && !pc.Got? && !pc.NotFound?
    requires pc.HasSlot? ==> slot != null && 0 < slot.semaphore
    modifies d, if slot == null then {} else {slot}
    ensures Stands(d) && d.Kept() && Stepped(d, Get(n)) && Gets(d, n, next, slot')
  {
    ghost var was := d.s;
    GetEnabled(d, n, pc, slot);
    GetMeets(d, n);
    slot' := slot;
    match pc {
      case Asked =>
        var id := d.LookUpName(n);
        next := if id.Some? then HasId(id.value) else NotFound;
      case HasId(id) =>
        slot' := d.LookUpSlot(n, id);
        next := if slot' != null then HasSlot(id) else NotFound;
      case HasSlot(id) =>
        var passed := d.PassSlot(n, id, slot);
        next := Woken(id);
      case Woken(id) =>
        var o := d.TakeResult(n, id, slot);
        next := Took(id, o);
      case Took(id, o) =>
        d.EraseName(n, id);
        next := NameErased(id, o);
      case NameErased(id, o) =>
        d.EraseSub(n, id);
        next := Got(id, o);
      case _ =>
        next := pc;
    }
    StepReached(d.config, was, Get(n), d.s);
  }

  /** A busy worker at pc, with its subtask's object, while it waits that of the dependency, and at the end
      that of the main task. */
  ghost predicate Works(d: ED.EventDispatcher, w: nat, pc: WorkerPc, task: SubTask?, dep: SubTask?, main: MainTask?)
    reads d
  {
    && w < |d.s.workers| && d.s.workers[w] == pc
    && (!pc.Idle? && !pc.Fetch? ==> pc.id in d.subObjects && task == d.subObjects[pc.id])
    && (pc.DepWait? ==> pc.dep in d.subObjects && dep == d.subObjects[pc.dep])
    && (pc.AtMain? || pc.LastOne? || pc.Unlisting? ==>
          pc.id in d.s.subs && d.s.subs[pc.id].mainId in d.mainObjects && main == d.mainObjects[d.s.subs[pc.id].mainId])
  }

  lemma ActPc(c: Config, s: State, w: nat)
    requires AtWork(s, w)
    ensures var t := ActStep(c, s, w); |t.workers| == |s.workers| && t.workers[w] == NextPc(c, s, s.workers[w])
    ensures var t, id := ActStep(c, s, w), s.workers[w].id; id in t.subs && t.subs[id].mainId == s.subs[id].mainId
  {
  }

  /** An idle worker pops a subtask, if the ring has one. */
  method TakeRegion(d: ED.EventDispatcher, w: nat) returns (next: WorkerPc)
    requires Stands(d) && Works(d, w, Idle, null, null, null) && d.ring != []
    modifies d
    ensures Stands(d) && d.Kept() && Stepped(d, Work(w)) && next.Fetch? && Works(d, w, next, null, null, null)
  {
    ghost var was := d.s;
    assert d.View().ring == d.s.ring;
    Enabled(d, Work(w));
    StandsInv(d);
    var id := d.Take(w);
    next := if id.Some? then Fetch(id.value) else Idle;
    StepReached(d.config, was, Work(w), d.s);
  }

  /** The region that fetches the subtask. */
  method FetchRegion(d: ED.EventDispatcher, w: nat, id: Id) returns (next: WorkerPc, task: SubTask?)
    requires Stands(d) && Works(d, w, Fetch(id), null, null, null)
    modifies d
    ensures Stands(d) && d.Kept() && Stepped(d, Work(w)) && Works(d, w, next, task, null, null)
  {
    ghost var was := d.s;
    Enabled(d, Work(w));
    WorkMeets(d, w);
    ActPc(d.config, d.s, w);
    task := d.Fetch(w, id);
    next := if task != null then Dep(id, 0) else Idle;
    StepReached(d.config, was, Work(w), d.s);
  }

  lemma DepPc(c: Config, s: State, w: nat, id: Id, k: nat)
    requires AtWork(s, w) && s.workers[w] == Dep(id, k)
    ensures k <= |s.subs[id].deps|
    ensures NextPc(c, s, Dep(id, k)) ==
      if k == |s.subs[id].deps| then Running(id)
      else if s.subs[id].deps[k] in s.subIds then DepNamed(id, k, s.subIds[s.subs[id].deps[k]]) else Dep(id, k + 1)
  {
  }

  /** The region that looks the next dependency's id up; when none is left the function is called. */
  method LookUpRegion(d: ED.EventDispatcher, w: nat, id: Id, k: nat, task: SubTask) returns (next: WorkerPc)
    requires Stands(d) && Works(d, w, Dep(id, k), task, null, null)
    modifies d
    ensures Stands(d) && d.Kept() && Stepped(d, Work(w)) && Works(d, w, next, task, null, null)
  {
    ghost var was := d.s;
    Enabled(d, Work(w));
    WorkMeets(d, w);
    ActPc(d.config, d.s, w);
    DepPc(d.config, d.s, w, id, k);
    assert d.SubAt(id);
    if k == |task.deps| {
      d.Call(w);
      next := Running(id);
    } else {
      var x := d.LookUpDep(w, id, k, task);
      next := if x.Some? then DepNamed(id, k, x.value) else Dep(id, k + 1);
    }
    StepReached(d.config, was, Work(w), d.s);
  }

  lemma WorkEnabled(d: ED.EventDispatcher, w: nat, pc: WorkerPc, dep: SubTask?)
    requires Stands(d) && w < |d.s.workers| && d.s.workers[w] == pc && (pc.DepNamed? || pc.DepWait?)
    requires pc.DepWait? ==> pc.dep in d.subObjects && dep == d.subObjects[pc.dep] && dep.done
    ensures CanStep(d, Work(w))
  {
    if pc.DepWait? {
      StandsInv(d);
      AtWorkFacts(d.config, d.s, w);
      assert d.SubAt(pc.dep);
    }
    Enabled(d, Work(w));
  }

  /** The regions that fetch the dependency and pass its wait. */
  method WaitRegion(d: ED.EventDispatcher, w: nat, pc: WorkerPc, task: SubTask, dep: SubTask?)
      returns (next: WorkerPc, dep': SubTask?)
    requires Stands(d) && Works(d, w, pc, task, dep, null) && (pc.DepNamed? || pc.DepWait?)
    requires pc.DepWait? ==> dep != null && dep.done
    modifies d
    ensures Stands(d) && d.Kept() && Stepped(d, Work(w)) && Works(d, w, next, task, dep', null)
  {
    ghost var was := d.s;
    WorkEnabled(d, w, pc, dep);
    WorkMeets(d, w);
    ActPc(d.config, d.s, w);
    dep' := dep;
    if pc.DepNamed? {
      dep' := d.FetchDep(w, pc.id, pc.k, pc.dep);
      next := if dep' != null then DepWait(pc.id, pc.k, pc.dep) else Dep(pc.id, pc.k + 1);
    } else {
      var done := d.TestDone(w, pc.id, pc.k, pc.dep, dep);
      next := Dep(pc.id, pc.k + 1);
    }
    StepReached(d.config, was, Work(w), d.s);
  }

  /** The regions from the task function, which ends with o, to the end. */
  method FinishRegion(d: ED.EventDispatcher, w: nat, pc: WorkerPc, task: SubTask, main: MainTask?, o: Outcome)
      returns (next: WorkerPc, main': MainTask?)
    requires Stands(d) && Works(d, w, pc, task, null, main)
    requires !pc.Idle? && !pc.Fetch? && !pc.Dep? && !pc.DepNamed? && !pc.DepWait?
    requires pc.Running? ==> Sound(d.config, d.s) && NextPc(d.config, d.s, pc) == Ran(pc.id, o)
    modifies d, task, if main == null then {} else {main}, d.slotObjects.Values
    ensures Stands(d) && d.Kept() && Stepped(d, Work(w)) && Works(d, w, next, task, null, main')
  {
    ghost var was := d.s;
    Enabled(d, Work(w));
    WorkMeets(d, w);
    ActPc(d.config, d.s, w);
    main' := main;
    match pc {
      case Running(id) =>
        d.Call(w);
        next := Ran(id, o);
      case Ran(id, x) =>
        d.Post(w, id, x);
        next := Posted(id);
      case Posted(id) =>
        d.MarkCompleted(w, id, task);
        next := Completed(id);
      case Completed(id) =>
        d.MarkDone(w, id, task);
        next := Done(id);
      case Done(id) =>
        assert d.SubAt(id);
        main' := d.FindOwner(w, id, task.mainId);
        next := if main' != null then AtMain(id) else Idle;
      case AtMain(id) =>
        var last := d.CountCompleted(w, id, main);
        next := if last then LastOne(id) else Idle;
      case LastOne(id) =>
        d.EraseMain(w, id, main);
        next := Unlisting(id);
      case Unlisting(id) =>
        d.EraseList(w, id, main);
        next := Idle;
      case _ =>
        next := pc;
    }
    StepReached(d.config, was, Work(w), d.s);
  }
}
