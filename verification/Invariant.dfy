/** What every reachable state of the dispatcher satisfies.

  The parts are separate predicates so that each step's proof names the parts it depends on. */
module Invariant {
  import opened Sequences
  import opened Protocol

  /** Names and ids correspond one to one, and new ids are new. */
  ghost predicate Names(s: State)
  {
    && (forall m {:trigger MainNamed(s, m)} :: m in s.mains ==> MainNamed(s, m))
    && (forall id {:trigger SubNamed(s, id)} :: id in s.subs ==> SubNamed(s, id))
    && (forall n {:trigger NameOk(s, n)} :: NameOk(s, n))
  }

  predicate MainNamed(s: State, m: Id)
    requires m in s.mains
  {
    m < s.nextMain && s.mains[m].name in s.mainNames && s.mainNames[s.mains[m].name] == m
  }

  predicate SubNamed(s: State, id: Id)
    requires id in s.subs
  {
    id < s.nextSub && s.subs[id].name in s.names && s.names[s.subs[id].name] == id
  }

  predicate NameOk(s: State, n: Name)
  {
    && (n in s.mainNames ==> s.mainNames[n] in s.mains && s.mains[s.mainNames[n]].name == n)
    && (n in s.mainIds ==> n in s.mainNames && s.mainIds[n] == s.mainNames[n])
    && (n in s.names ==> s.names[n] in s.subs && s.subs[s.names[n]].name == n)
    && (n in s.subIds ==> n in s.names && s.subIds[n] == s.names[n])
  }

  /** The flags of a subtask follow from how far it has come. */
  predicate Local(u: Sub, clock: nat)
  {
    && u.add <= ADDED && (u.threw ==> u.add == ALLOCATED)
    && u.rank <= FINISHED && (TAKEN <= u.rank ==> RELEASING <= u.add)
    && u.starts == (if STARTED <= u.rank then 1 else 0)
    && u.out.Some? == (ENDED <= u.rank)
    && u.posts == (if POSTED <= u.rank then 1 else 0)
    && u.completed == (COMPLETED <= u.rank)
    && u.done == (DONE <= u.rank)
    && u.slotSem <= u.posts && u.reaped <= 3
    && (0 < u.reaped ==> POSTED <= u.rank)
    && (POSTED <= u.rank && u.reaped == 0 ==> u.slotOutcome == u.out)
    && (u.rank < POSTED ==> u.slotOutcome == None)
    && (STARTED <= u.rank ==> u.startAt < clock)
    && (ENDED <= u.rank ==> u.startAt < u.endAt < clock)
  }

  ghost predicate Locals(s: State)
  {
    forall id {:trigger Local(s.subs[id], s.clock)} :: id in s.subs ==> Local(s.subs[id], s.clock)
  }

  /** The tables hold exactly what has been put in and not been reaped or erased. */
  ghost predicate Tables(s: State)
  {
    && s.subTasks <= s.subs.Keys && s.results <= s.subs.Keys && s.mainTasks <= s.mains.Keys
    && |s.waiting| == PRIORITIES
    && (forall id {:trigger SubTabled(s, id)} :: id in s.subs ==> SubTabled(s, id))
    && (forall m {:trigger MainTabled(s, m)} :: m in s.mains ==> MainTabled(s, m))
    && (forall p, m {:trigger Waits(s, m, p)} ::
          0 <= p < PRIORITIES ==> (m in s.waiting[p] <==> Waits(s, m, p)))
  }

  predicate SubTabled(s: State, id: Id)
    requires id in s.subs
  {
    var u := s.subs[id];
    && (u.name in s.subIds <==> NAMED <= u.add && u.reaped < 2)
    && (id in s.subTasks <==> INSERTED <= u.add && u.reaped < 3)
    && (id in s.results <==> SLOTTED <= u.add && u.reaped < 1)
  }

  predicate MainTabled(s: State, m: Id)
    requires m in s.mains
  {
    var main := s.mains[m];
    && (main.name in s.mainIds <==> MAIN_NAMED <= main.add)
    && (m in s.mainTasks <==> main.add == MAIN_ADDED && main.fin < 2)
  }

  predicate Waits(s: State, m: Id, p: nat)
  {
    m in s.mains && s.mains[m].prio == p && MAIN_WAITING <= s.mains[m].add && s.mains[m].rel < 3
  }

  /** A main task's counters count its subtasks past each increment; one call releases it, one worker
      removes it. */
  ghost predicate MainOk(s: State, m: Id)
    requires m in s.mains
  {
    var main := s.mains[m];
    && main.add <= MAIN_ADDED && 1 <= main.size && main.prio < PRIORITIES && main.rel <= 3 && main.fin <= 3
    && |main.begun| <= main.size && (main.begun != {} ==> main.add == MAIN_ADDED)
    && main.readied <= main.begun && main.readyCount == |main.readied|
    && main.counted <= main.begun && main.completedCount == |main.counted|
    && (1 <= main.rel <==> main.readyCount == main.size)
    && (1 <= main.fin <==> main.completedCount == main.size)
    && (main.rel == 1 || main.rel == 2 ==>
          && main.releaser in main.begun && main.releaser in s.subs
          && s.subs[main.releaser].add == (if main.rel == 1 then RELEASING else HOLDING))
    && (main.fin == 1 || main.fin == 2 ==>
          && main.finisher in main.begun && main.finisher in s.subs
          && s.subs[main.finisher].rank == (if main.fin == 1 then COUNTED else UNLISTED))
  }

  ghost predicate Mains(s: State)
  {
    && (forall m {:trigger MainOk(s, m)} :: m in s.mains ==> MainOk(s, m))
    && s.mainSubs.Keys <= s.mains.Keys
  }

  /** What a main task knows of a subtask whose adding has begun. */
  ghost predicate MemberOk(s: State, m: Id, id: Id)
    requires m in s.mains
  {
    var main := s.mains[m];
    && id in s.subs && s.subs[id].mainName == main.name && !s.subs[id].threw
    && (id in main.readied <==> RELEASING <= s.subs[id].add)
    && (id in main.counted <==> COUNTED <= s.subs[id].rank)
    && (main.rel < 2 ==> s.subs[id].rank == UNTAKEN)
  }

  ghost predicate Members(s: State)
  {
    forall m, id {:trigger MemberOk(s, m, id)} :: m in s.mains && id in s.mains[m].begun ==> MemberOk(s, m, id)
  }

  /** The lists in main_to_subtasks are free of repetition and hold those that reached LISTED. */
  ghost predicate Lists(s: State)
  {
    && (forall m {:trigger Listed(s, m)} :: m in s.mains && s.mains[m].fin < 3 ==> Listed(s, m))
  }

  ghost predicate Listed(s: State, m: Id)
    requires m in s.mains
  {
    && NoDup(List(s, m))
    && (forall id :: id in List(s, m) <==> id in s.mains[m].begun && id in s.subs && LISTED <= s.subs[id].add)
  }

  /** What a subtask knows of its main task. */
  ghost predicate SubMain(s: State, id: Id)
    requires id in s.subs
  {
    var u := s.subs[id];
    && (u.mainName in s.mainNames ==>
          s.mainNames[u.mainName] in s.mains && id in s.mains[s.mainNames[u.mainName]].begun)
    && (HAS_MAIN <= u.add ==> u.mainName in s.mainNames && u.mainId == s.mainNames[u.mainName])
    && (u.add == RELEASING ==> s.mains[u.mainId].rel == 1 && s.mains[u.mainId].releaser == id)
    && (u.add == HOLDING ==> s.mains[u.mainId].rel == 2 && s.mains[u.mainId].releaser == id)
    && (u.rank == COUNTED ==>
          HAS_MAIN <= u.add && s.mains[u.mainId].fin == 1 && s.mains[u.mainId].finisher == id)
    && (u.rank == UNLISTED ==>
          HAS_MAIN <= u.add && s.mains[u.mainId].fin == 2 && s.mains[u.mainId].finisher == id)
  }

  ghost predicate SubMains(s: State)
  {
    forall id {:trigger SubMain(s, id)} :: id in s.subs ==> SubMain(s, id)
  }

  /** The dispatch order is free of repetition and holds exactly the released subtasks. */
  ghost predicate Ordered(c: Config, s: State)
  {
    && |s.ready| == PRIORITIES
    && NoDup(Order(s))
    && (forall id {:trigger Released(s, id)} :: id in Order(s) <==> Released(s, id))
    && (forall id {:trigger id in s.taken} :: id in s.taken <==> id in s.subs && TAKEN <= s.subs[id].rank)
    && |s.ring| <= c.poolSize
  }

  predicate Released(s: State, id: Id)
  {
    && id in s.subs && HAS_MAIN <= s.subs[id].add
    && s.subs[id].mainId in s.mains && 2 <= s.mains[s.subs[id].mainId].rel
  }

  /** A dispatched subtask knows all members of its main task; a started one has all its known
      dependencies ended before its start, and its arguments are what they produced. */
  ghost predicate Known(s: State, id: Id)
    requires id in s.subs
  {
    var u := s.subs[id];
    && (forall d :: d in u.known ==> d in s.subs && INSERTED <= s.subs[d].add)
    && (id in s.taken + s.ring ==> u.mainId in s.mains && s.mains[u.mainId].begun <= u.known)
    && (STARTED <= u.rank ==> forall d :: d in u.known && d in s.subs && s.subs[d].name in u.deps ==>
          ENDED <= s.subs[d].rank && s.subs[d].endAt < u.startAt)
    && (ENDED <= u.rank ==> |u.args| == |u.deps|)
    && (ENDED <= u.rank ==>
          forall j, d ::
            0 <= j < |u.deps| && j < |u.args| && d in u.known && d in s.subs && s.subs[d].name == u.deps[j] ==>
            u.args[j] == s.subs[d].out)
  }

  ghost predicate Knowns(c: Config, s: State)
  {
    && (forall id {:trigger Known(s, id)} :: id in s.subs ==> Known(s, id))
    && (forall id {:trigger Computed(c, s.subs[id])} :: id in s.subs ==> Computed(c, s.subs[id]))
  }

  /** A task function's outcome is what it makes of its arguments. */
  ghost predicate Computed(c: Config, u: Sub)
  {
    ENDED <= u.rank ==> u.out == Some(c.body(u.name, u.args))
  }

  function PcRank(pc: WorkerPc): nat
  {
    match pc
    case Idle => UNTAKEN
    case Fetch(_) => TAKEN
    case Dep(_, _) => TAKEN
    case DepNamed(_, _, _) => TAKEN
    case DepWait(_, _, _) => TAKEN
    case Running(_) => STARTED
    case Ran(_, _) => ENDED
    case Posted(_) => POSTED
    case Completed(_) => COMPLETED
    case Done(_) => DONE
    case AtMain(_) => AT_MAIN
    case LastOne(_) => COUNTED
    case Unlisting(_) => UNLISTED
  }

  /** A worker's program counter agrees with the subtask it holds. */
  ghost predicate WorkerOk(s: State, w: nat)
    requires w < |s.workers|
  {
    var pc := s.workers[w];
    pc.Idle? || (
      && pc.id in s.subs && s.subs[pc.id].owner == w && s.subs[pc.id].rank == PcRank(pc)
      && (pc.Dep? ==> pc.k <= |s.subs[pc.id].deps| && Passed(s, pc.id, pc.k))
      && (pc.DepNamed? || pc.DepWait? ==>
            && pc.k < |s.subs[pc.id].deps| && Passed(s, pc.id, pc.k)
            && pc.dep in s.subs && s.subs[pc.dep].name == s.subs[pc.id].deps[pc.k])
      && (pc.DepWait? ==> INSERTED <= s.subs[pc.dep].add)
      && (pc.Ran? ==> s.subs[pc.id].out == Some(pc.o)))
  }

  /** The first k dependencies that were known at dispatch have ended. */
  ghost predicate Passed(s: State, id: Id, k: nat)
  {
    id in s.subs && k <= |s.subs[id].deps| &&
    forall j, d :: 0 <= j < k && d in s.subs[id].known && d in s.subs && s.subs[d].name == s.subs[id].deps[j] ==>
      ENDED <= s.subs[d].rank
  }

  predicate HeldBy(s: State, id: Id)
    requires id in s.subs
  {
    s.subs[id].owner < |s.workers| && !s.workers[s.subs[id].owner].Idle? && s.workers[s.subs[id].owner].id == id
  }

  ghost predicate Workers(c: Config, s: State)
  {
    && 1 <= c.poolSize == |s.workers|
    && (forall w {:trigger WorkerOk(s, w)} :: 0 <= w < |s.workers| ==> WorkerOk(s, w))
    && (forall id {:trigger HeldBy(s, id)} :: id in s.subs && TAKEN <= s.subs[id].rank < FINISHED ==> HeldBy(s, id))
  }

  function Reaps(pc: GetPc): nat
  {
    match pc
    case Took(_, _) => 1
    case NameErased(_, _) => 2
    case Got(_, _) => 3
    case _ => 0
  }

  /** A getter works on the subtask of its name; only it reaps that subtask. */
  ghost predicate GetterOk(s: State, n: Name)
    requires n in s.getters
  {
    var pc := s.getters[n];
    && (HasTarget(pc) ==> pc.id in s.subs && s.subs[pc.id].name == n && s.subs[pc.id].reaped == Reaps(pc))
    && (pc.HasSlot? ==> SLOTTED <= s.subs[pc.id].add)
    && (pc.Woken? ==> POSTED <= s.subs[pc.id].rank)
    && (pc.Took? || pc.NameErased? || pc.Got? ==> POSTED <= s.subs[pc.id].rank && pc.o == s.subs[pc.id].out)
  }

  predicate ReapedBy(s: State, id: Id)
    requires id in s.subs
  {
    s.subs[id].name in s.getters && HasTarget(s.getters[s.subs[id].name])
  }

  ghost predicate Getters(s: State)
  {
    && (forall n {:trigger GetterOk(s, n)} :: n in s.getters ==> GetterOk(s, n))
    && (forall id {:trigger ReapedBy(s, id)} :: id in s.subs && 0 < s.subs[id].reaped ==> ReapedBy(s, id))
  }

  function Concat(qs: seq<seq<Id>>): seq<Id>
  {
    if qs == [] then [] else Concat(qs[..|qs| - 1]) + qs[|qs| - 1]
  }

  predicate Holding(s: State, id: Id)
  {
    id in s.subs && s.subs[id].add == HOLDING
  }

  predicate Added(s: State, m: Id)
  {
    m in s.mains && s.mains[m].add == MAIN_ADDED
  }

  predicate Unwaited(s: State, m: Id)
  {
    m in s.mains && s.mains[m].rel == 3
  }

  /** The lock on the ready queues has one holder, and what has been dispatched is the passes of the
      event loop, end to end. */
  ghost predicate LockOk(s: State)
  {
    && |s.ready| == PRIORITIES
    && (s.loop.Emit? <==> s.readyLock == ByLoop)
    && (s.loop.Emit? ==> s.loop.p < PRIORITIES && forall q :: s.loop.p < q < PRIORITIES ==> s.ready[q] == [])
    && (forall id {:trigger Holding(s, id)} :: Holding(s, id) <==> s.readyLock == ByAdder(id))
    && Order(s) == Concat(s.passes) + (if s.loop.Emit? then [] else Flat(s.ready))
  }

  /** What the scan of hasPendingWork has seen so far of the main tasks added before it began. */
  ghost predicate ScanOk(s: State)
  {
    && (Scanning(s) ==> !s.running && s.stopSnap.Some? && s.stopSnap.value <= s.snap)
    && (Scanning(s) ==> forall m {:trigger Added(s, m)} :: m in s.snap ==> Added(s, m))
    && (!s.running && s.loop != Off ==> s.stopSnap.Some?)
    && (s.stopSnap.Some? ==> forall m {:trigger Added(s, m)} :: m in s.stopSnap.value ==> Added(s, m))
    && (s.loop == Scan3 || s.loop == Exited ==> forall m {:trigger Unwaited(s, m)} :: m in s.snap ==> Unwaited(s, m))
    && (s.loop == Exited ==> forall id {:trigger Released(s, id)} ::
          Released(s, id) && s.subs[id].mainId in s.snap ==> POSTED <= s.subs[id].rank)
  }

  predicate Scanning(s: State)
  {
    s.loop == Scan1 || s.loop == Scan2 || s.loop == Scan3 || s.loop == Exited
  }

  ghost predicate Inv(c: Config, s: State)
  {
    && Names(s) && Locals(s) && Tables(s) && Mains(s) && Members(s) && Lists(s) && SubMains(s)
    && Ordered(c, s) && Knowns(c, s) && Workers(c, s) && Getters(s) && LockOk(s) && ScanOk(s)
  }

  lemma InvSound(c: Config, s: State)
    requires Inv(c, s)
    ensures Sound(c, s)
  {
    forall id | id in s.subs && 1 <= s.subs[id].add
      ensures s.subs[id].mainId in s.mains
    {
      assert SubMain(s, id) && NameOk(s, s.subs[id].mainName);
    }
    forall w | 0 <= w < |s.workers|
      ensures SoundWorker(s, s.workers[w])
    {
      SoundPc(c, s, w);
    }
    forall n | n in s.getters && HasTarget(s.getters[n])
      ensures s.getters[n].id in s.subs
    {
      assert GetterOk(s, n);
    }
    forall m | m in s.mains
      ensures s.mains[m].prio < PRIORITIES
    {
      assert MainOk(s, m);
    }
    forall id | id in s.ring
      ensures id in s.subs && 1 <= s.subs[id].add
    {
      assert id in Order(s) && Released(s, id);
    }
    forall p, id | 0 <= p < PRIORITIES && id in s.ready[p]
      ensures id in s.subs
    {
      InFlat(s.ready, p, id);
      assert id in Order(s) && Released(s, id);
    }
    forall n
      ensures n in s.mainNames ==> s.mainNames[n] in s.mains
      ensures n in s.names ==> s.names[n] in s.subs
      ensures n in s.subIds ==> s.subIds[n] in s.subs
    {
      assert NameOk(s, n);
    }
  }

  lemma SoundPc(c: Config, s: State, w: nat)
    requires Workers(c, s) && Locals(s) && Names(s) && SubMains(s) && w < |s.workers|
    ensures SoundWorker(s, s.workers[w])
  {
    assert WorkerOk(s, w);
    var pc := s.workers[w];
    if !pc.Idle? {
      assert Local(s.subs[pc.id], s.clock) && SubMain(s, pc.id);
      assert NameOk(s, s.subs[pc.id].mainName);
    }
  }

  lemma InFlat(queues: seq<seq<Id>>, p: nat, id: Id)
    requires p < |queues| && id in queues[p]
    ensures id in Flat(queues)
  {
    if p < |queues| - 1 {
      InFlat(queues[..|queues| - 1], p, id);
    }
  }

  lemma InvInit(c: Config)
    requires 1 <= c.poolSize
    ensures Inv(c, Init(c))
  {
    var s := Init(c);
    FlatEmpty(s.ready);
  }

  lemma FlatEmpty(queues: seq<seq<Id>>)
    requires forall p :: 0 <= p < |queues| ==> queues[p] == []
    ensures Flat(queues) == []
  {
    if queues != [] {
      FlatEmpty(queues[..|queues| - 1]);
    }
  }
}
