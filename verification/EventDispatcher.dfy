/** The dispatcher as an object: its tables, updated in place, one method for each region of code between
  acquiring and releasing a lock.

  The ghost field `s` is the state of the protocol. Every method that changes anything performs exactly
  one of its steps: it leaves the tables and the objects as that step says. A thread's local variables
  between two regions are the parameters of the second. */
module EventDispatcher {
  import opened Sequences
  import opened Protocol
  import EventLoop

  class MainTask {
    const id: Id
    const size: nat
    const prio: nat
    var readySubtasks: nat
    var completedSubtasks: nat

    constructor (id: Id, size: nat, prio: nat)
      ensures this.id == id && this.size == size && this.prio == prio
      ensures readySubtasks == 0 && completedSubtasks == 0
    {
      this.id, this.size, this.prio := id, size, prio;
      readySubtasks, completedSubtasks := 0, 0;
    }
  }

  class SubTask {
    const id: Id
    const name: Name
    const deps: seq<Name>
    const mainId: Id
    var completed: bool
    var done: bool

    constructor (id: Id, name: Name, deps: seq<Name>, mainId: Id)
      ensures this.id == id && this.name == name && this.deps == deps && this.mainId == mainId && !completed && !done
    {
      this.id, this.name, this.deps, this.mainId := id, name, deps, mainId;
      completed, done := false, false;
    }
  }

  class SubTaskResult {
    ghost const id: Id
    var semaphore: nat
    var outcome: Option<Outcome>

    constructor (ghost id: Id)
      ensures this.id == id && semaphore == 0 && outcome == None
    {
      this.id := id;
      semaphore, outcome := 0, None;
    }

    /** The outcome, and the post. */
    method Put(o: Outcome)
      modifies this
      ensures outcome == Some(o) && semaphore == old(semaphore) + 1
    {
      outcome := Some(o);
      semaphore := semaphore + 1;
    }
  }

  // ---- what the protocol says of the objects ----

  datatype MainShape = NoMain | AMain(size: nat, prio: nat, ready: nat, completed: nat)

  datatype SubShape = NoSub | ASub(name: Name, deps: seq<Name>, mainId: Id, completed: bool, done: bool)

  datatype SlotShape = NoSlot | ASlot(semaphore: nat, outcome: Option<Outcome>)

  /** a keeps only entries of b. */
  ghost predicate Within<T>(a: map<Id, T>, b: map<Id, T>)
  {
    forall x :: x in a ==> x in b && a[x] == b[x]
  }

  datatype TableView = TableView(
    mainIds: map<Name, Id>, subIds: map<Name, Id>, mainSubs: map<Id, seq<Id>>,
    waiting: seq<set<Id>>, ready: seq<seq<Id>>, ring: seq<Id>, running: bool, nextMain: Id, nextSub: Id,
    mainTasks: set<Id>, subTasks: set<Id>, results: set<Id>)

  function TablesOf(s: State): TableView
  {
    TableView(s.mainIds, s.subIds, s.mainSubs, s.waiting, s.ready, s.ring, s.running, s.nextMain, s.nextSub,
              s.mainTasks, s.subTasks, s.results)
  }

  function MainOf(s: State, m: Id): MainShape
  {
    if m in s.mains && s.mains[m].add == MAIN_ADDED
    then AMain(s.mains[m].size, s.mains[m].prio, s.mains[m].readyCount, s.mains[m].completedCount) else NoMain
  }

  function SubOf(s: State, id: Id): SubShape
  {
    if id in s.subs && INSERTED <= s.subs[id].add
    then ASub(s.subs[id].name, s.subs[id].deps, s.subs[id].mainId, s.subs[id].completed, s.subs[id].done) else NoSub
  }

  function SlotOf(s: State, id: Id): SlotShape
  {
    if id in s.subs && SLOTTED <= s.subs[id].add then ASlot(s.subs[id].slotSem, s.subs[id].slotOutcome) else NoSlot
  }

  /** No step of this kind touches an object: the main tasks', the subtasks' and the slots' contents stay. */
  ghost predicate SameMains(s: State, t: State)
  {
    forall m {:trigger MainOf(t, m)} :: MainOf(t, m) == MainOf(s, m)
  }

  ghost predicate SameSubs(s: State, t: State)
  {
    forall id {:trigger SubOf(t, id)} :: SubOf(t, id) == SubOf(s, id)
  }

  ghost predicate SameSlots(s: State, t: State)
  {
    forall id {:trigger SlotOf(t, id)} :: SlotOf(t, id) == SlotOf(s, id)
  }

  /** Only one object's contents change. */
  ghost predicate OneMain(s: State, t: State, m: Id)
  {
    forall x {:trigger MainOf(t, x)} :: x != m ==> MainOf(t, x) == MainOf(s, x)
  }

  ghost predicate OneSub(s: State, t: State, id: Id)
  {
    forall x {:trigger SubOf(t, x)} :: x != id ==> SubOf(t, x) == SubOf(s, x)
  }

  ghost predicate OneSlot(s: State, t: State, id: Id)
  {
    forall x {:trigger SlotOf(t, x)} :: x != id ==> SlotOf(t, x) == SlotOf(s, x)
  }

  lemma AddMainShapes(s: State, m: Id, t: State)
    requires |s.waiting| == PRIORITIES && m in s.mains && s.mains[m].prio < PRIORITIES && s.mains[m].add < MAIN_ADDED
    requires (forall m :: m in s.mains ==> s.mains[m].prio < PRIORITIES) && AddMainStep(s, m) == Some(t)
    ensures SameSubs(s, t) && SameSlots(s, t) && OneMain(s, t, m)
    ensures MainOf(s, m) == NoMain
    ensures MainOf(t, m) == if s.mains[m].add == MAIN_WAITING
      then AMain(s.mains[m].size, s.mains[m].prio, s.mains[m].readyCount, s.mains[m].completedCount) else NoMain
  {
  }

  lemma InsertMainShapes(s: State, m: Id, t: State)
    requires |s.waiting| == PRIORITIES && m in s.mains && s.mains[m].add == MAIN_WAITING
    requires (forall m :: m in s.mains ==> s.mains[m].prio < PRIORITIES) && AddMainStep(s, m) == Some(t)
    ensures SameSubs(s, t) && SameSlots(s, t) && OneMain(s, t, m) && MainOf(s, m) == NoMain
    ensures TablesOf(t) == TablesOf(s).(mainTasks := s.mainTasks + {m})
    ensures MainOf(t, m) == AMain(s.mains[m].size, s.mains[m].prio, s.mains[m].readyCount, s.mains[m].completedCount)
  {
    AddMainShapes(s, m, t);
  }

  /** The first step of addSubTask. */
  function LookedUp(s: State, id: Id): State
    requires id in s.subs
  {
    var u := s.subs[id];
    var found := u.mainName in s.mainIds;
    s.(subs := s.subs[id := u.(add := if found then HAS_MAIN else ALLOCATED, threw := !found,
                               mainId := if found then s.mainIds[u.mainName] else u.mainId)])
  }

  lemma LookUpShapes(s: State, id: Id)
    requires id in s.subs && s.subs[id].add == ALLOCATED
    ensures var t := LookedUp(s, id); SameMains(s, t) && SameSubs(s, t) && SameSlots(s, t) && TablesOf(t) == TablesOf(s)
  {
  }

  lemma RegisterShapes(s: State, id: Id)
    requires id in s.subs && HAS_MAIN <= s.subs[id].add
    ensures var t := RegisterStep(s, id);
      && SameMains(s, t) && OneSub(s, t, id) && OneSlot(s, t, id)
      && (s.subs[id].add != NAMED ==> SubOf(t, id) == SubOf(s, id))
      && (s.subs[id].add != LISTED ==> SlotOf(t, id) == SlotOf(s, id))
      && (s.subs[id].add == NAMED ==>
            SubOf(t, id) == ASub(s.subs[id].name, s.subs[id].deps, s.subs[id].mainId,
                                 s.subs[id].completed, s.subs[id].done))
      && (s.subs[id].add == LISTED ==> SlotOf(t, id) == ASlot(s.subs[id].slotSem, s.subs[id].slotOutcome))
  {
  }

  lemma SlottedShapes(s: State, id: Id)
    requires id in s.subs && s.subs[id].add == LISTED
    ensures var t := RegisterStep(s, id);
      && SameMains(s, t) && SameSubs(s, t) && OneSlot(s, t, id)
      && SlotOf(s, id) == NoSlot && SlotOf(t, id) == ASlot(s.subs[id].slotSem, s.subs[id].slotOutcome)
      && TablesOf(t) == TablesOf(s).(results := s.results + {id})
  {
    RegisterShapes(s, id);
  }

  lemma ReadyShapes(s: State, id: Id)
    requires id in s.subs && s.subs[id].mainId in s.mains && s.subs[id].add == FOUND
    requires s.mains[s.subs[id].mainId].add == MAIN_ADDED
    ensures var t, m := ReadyStep(s, id), s.subs[id].mainId;
      && SameSubs(s, t) && SameSlots(s, t) && OneMain(s, t, m)
      && MainOf(t, m) == AMain(s.mains[m].size, s.mains[m].prio, s.mains[m].readyCount + 1, s.mains[m].completedCount)
      && t.subs[id].add == (if s.mains[m].readyCount + 1 == s.mains[m].size then RELEASING else ADDED)
  {
  }

  lemma ReleaseShapes(s: State, id: Id)
    requires id in s.subs && s.subs[id].mainId in s.mains && SLOTTED <= s.subs[id].add
    requires |s.ready| == PRIORITIES == |s.waiting| && s.mains[s.subs[id].mainId].prio < PRIORITIES
    ensures var t := ReleaseStep(s, id); SameMains(s, t) && SameSubs(s, t) && SameSlots(s, t)
    ensures var t := UnwaitStep(s, id); SameMains(s, t) && SameSubs(s, t) && SameSlots(s, t)
  {
  }

  lemma TakeShapes(s: State, n: Name, id: Id)
    requires n in s.getters && id in s.subs && SLOTTED <= s.subs[id].add
    ensures var t := TakeStep(s, n, id);
      && SameMains(s, t) && SameSubs(s, t) && OneSlot(s, t, id)
      && SlotOf(t, id) == ASlot(t.subs[id].slotSem, t.subs[id].slotOutcome)
      && (!s.getters[n].HasSlot? && !s.getters[n].Woken? ==> SameSlots(s, t))
  {
  }

  lemma SetShapes(s: State, n: Name, pc: GetPc)
    ensures var t := SetGetter(s, n, pc);
      SameMains(s, t) && SameSubs(s, t) && SameSlots(s, t) && TablesOf(t) == TablesOf(s)
  {
  }

  lemma EmitShapes(s: State, p: nat)
    requires p < |s.ready| && s.ready[p] != [] && s.ready[p][0] in s.subs
    ensures var t := EmitStep(s, p); SameMains(s, t) && SameSubs(s, t) && SameSlots(s, t)
  {
  }

  lemma PopShapes(s: State, w: nat)
    requires w < |s.workers| && s.ring != [] && s.ring[0] in s.subs
    ensures var t := PopStep(s, w); SameMains(s, t) && SameSubs(s, t) && SameSlots(s, t)
  {
  }

  lemma BeginMainShapes(s: State, name: Name, size: nat, prio: nat)
    requires s.nextMain !in s.mains && BeginMainStep(s, name, size, prio).Some?
    ensures var t := BeginMainStep(s, name, size, prio).value; SameMains(s, t) && SameSubs(s, t) && SameSlots(s, t)
  {
  }

  lemma BeginSubShapes(s: State, name: Name, mainName: Name, deps: seq<Name>)
    requires s.nextSub !in s.subs && (forall n :: n in s.mainNames ==> s.mainNames[n] in s.mains)
    requires BeginSubStep(s, name, mainName, deps).Some?
    ensures var t := BeginSubStep(s, name, mainName, deps).value;
      SameMains(s, t) && SameSubs(s, t) && SameSlots(s, t)
  {
  }

  /** What a worker needs of its subtask. */
  ghost predicate AtWork(s: State, w: nat)
  {
    SoundAt(s, w) && w < |s.workers| && !s.workers[w].Idle? && SLOTTED <= s.subs[s.workers[w].id].add
  }

  lemma ActMains(c: Config, s: State, w: nat)
    requires AtWork(s, w)
    ensures var t, pc := ActStep(c, s, w), s.workers[w];
      (pc.AtMain? || SameMains(s, t)) && OneMain(s, t, s.subs[pc.id].mainId)
  {
  }

  lemma ActSubs(c: Config, s: State, w: nat)
    requires AtWork(s, w)
    ensures var t, pc := ActStep(c, s, w), s.workers[w];
      (pc.Posted? || pc.Completed? || SameSubs(s, t)) && OneSub(s, t, pc.id)
  {
  }

  lemma ActSlots(c: Config, s: State, w: nat)
    requires AtWork(s, w)
    ensures var t, pc := ActStep(c, s, w), s.workers[w]; (pc.Ran? || SameSlots(s, t)) && OneSlot(s, t, pc.id)
  {
  }

  lemma ActTables(c: Config, s: State, w: nat)
    requires AtWork(s, w) && !s.workers[w].LastOne? && !s.workers[w].Unlisting?
    ensures TablesOf(ActStep(c, s, w)) == TablesOf(s)
  {
  }

  lemma PostShape(c: Config, s: State, w: nat)
    requires AtWork(s, w) && s.workers[w].Ran?
    ensures var t, pc := ActStep(c, s, w), s.workers[w];
      SlotOf(t, pc.id) == if pc.id in s.results then ASlot(s.subs[pc.id].slotSem + 1, Some(pc.o)) else SlotOf(s, pc.id)
  {
  }

  lemma PostShapes(c: Config, s: State, w: nat)
    requires AtWork(s, w) && s.workers[w].Ran?
    ensures var t, pc := ActStep(c, s, w), s.workers[w];
      && SameMains(s, t) && SameSubs(s, t) && OneSlot(s, t, pc.id) && TablesOf(t) == TablesOf(s)
      && SlotOf(s, pc.id) == ASlot(s.subs[pc.id].slotSem, s.subs[pc.id].slotOutcome)
      && SlotOf(t, pc.id) ==
           if pc.id in s.results then ASlot(s.subs[pc.id].slotSem + 1, Some(pc.o)) else SlotOf(s, pc.id)
  {
    ActShapes(c, s, w);
    ActTables(c, s, w);
    PostShape(c, s, w);
  }

  lemma ActShapes(c: Config, s: State, w: nat)
    requires AtWork(s, w)
    ensures var t, pc := ActStep(c, s, w), s.workers[w];
      && (pc.AtMain? || SameMains(s, t)) && OneMain(s, t, s.subs[pc.id].mainId)
      && (pc.Posted? || pc.Completed? || SameSubs(s, t)) && OneSub(s, t, pc.id)
      && (pc.Ran? || SameSlots(s, t)) && OneSlot(s, t, pc.id)
  {
    ActMains(c, s, w);
    ActSubs(c, s, w);
    ActSlots(c, s, w);
  }

  class EventDispatcher {
    var mainTaskNameToId: map<Name, Id>
    var subTaskNameToId: map<Name, Id>
    var mainTasks: map<Id, MainTask>
    var subTasks: map<Id, SubTask>
    var mainToSubTasks: map<Id, seq<Id>>
    var subTaskResults: map<Id, SubTaskResult>
    const waitingMainTasks: array<set<Id>>
    const readySubTasks: array<seq<Id>>
    var isRunning: bool
    // the pool's queue, as an atomic one, and the allocators, as long as nothing is given back
    var ring: seq<Id>
    var nextMainId: Id
    var nextSubId: Id

    ghost const config: Config
    ghost var s: State
    // every object ever put into a table; threads keep them after they have left it
    ghost var mainObjects: map<Id, MainTask>
    ghost var subObjects: map<Id, SubTask>
    ghost var slotObjects: map<Id, SubTaskResult>

    constructor (ghost c: Config)
      ensures Valid() && s == Init(c) && config == c
    {
      mainTaskNameToId, subTaskNameToId, mainToSubTasks := map[], map[], map[];
      mainTasks, subTasks, subTaskResults := map[], map[], map[];
      waitingMainTasks := new set<Id>[PRIORITIES](_ => {});
      readySubTasks := new seq<Id>[PRIORITIES](_ => []);
      isRunning, ring := false, [];
      nextMainId, nextSubId := 1, 1;
      config, s := c, Init(c);
      mainObjects, subObjects, slotObjects := map[], map[], map[];
      new;
      assert waitingMainTasks[..] == s.waiting && readySubTasks[..] == s.ready;
    }

    ghost function View(): TableView
      reads this, waitingMainTasks, readySubTasks
    {
      TableView(mainTaskNameToId, subTaskNameToId, mainToSubTasks, waitingMainTasks[..], readySubTasks[..], ring,
                isRunning, nextMainId, nextSubId, mainTasks.Keys, subTasks.Keys, subTaskResults.Keys)
    }

    ghost predicate TablesAgree()
      reads this, waitingMainTasks, readySubTasks
    {
      View() == TablesOf(s) && waitingMainTasks.Length == PRIORITIES == readySubTasks.Length
    }

    ghost predicate MainAt(m: Id)
      reads this, mainObjects.Values
    {
      && (m in mainTasks ==> m in mainObjects && mainTasks[m] == mainObjects[m])
      && match MainOf(s, m)
      case NoMain => m !in mainObjects
      case AMain(size, prio, ready, completed) =>
        && m in mainObjects && mainObjects[m].id == m
        && mainObjects[m].size == size && mainObjects[m].prio == prio
        && mainObjects[m].readySubtasks == ready && mainObjects[m].completedSubtasks == completed
    }

    ghost predicate SubAt(id: Id)
      reads this, subObjects.Values
    {
      && (id in subTasks ==> id in subObjects && subTasks[id] == subObjects[id])
      && match SubOf(s, id)
      case NoSub => id !in subObjects
      case ASub(name, deps, mainId, completed, done) =>
        && id in subObjects && subObjects[id].id == id
        && subObjects[id].name == name && subObjects[id].deps == deps && subObjects[id].mainId == mainId
        && subObjects[id].completed == completed && subObjects[id].done == done
    }

    ghost predicate SlotAt(id: Id)
      reads this, slotObjects.Values
    {
      && (id in subTaskResults ==> id in slotObjects && subTaskResults[id] == slotObjects[id])
      && match SlotOf(s, id)
      case NoSlot => id !in slotObjects
      case ASlot(semaphore, outcome) =>
        && id in slotObjects && slotObjects[id].id == id
        && slotObjects[id].semaphore == semaphore && slotObjects[id].outcome == outcome
    }

    ghost predicate Mains()
      reads this, mainObjects.Values
    {
      forall m {:trigger MainAt(m)} :: MainAt(m)
    }

    ghost predicate Subs()
      reads this, subObjects.Values
    {
      forall id {:trigger SubAt(id)} :: SubAt(id)
    }

    ghost predicate Slots()
      reads this, slotObjects.Values
    {
      forall id {:trigger SlotAt(id)} :: SlotAt(id)
    }

    ghost predicate Valid()
      reads this, waitingMainTasks, readySubTasks, mainObjects.Values, subObjects.Values, slotObjects.Values
    {
      TablesAgree() && Mains() && Subs() && Slots()
    }

    twostate lemma MainsStay()
      requires old(Mains()) && mainObjects == old(mainObjects) && unchanged(old(mainObjects.Values))
      requires SameMains(old(s), s) && Within(mainTasks, old(mainTasks))
      ensures Mains()
    {
      forall m
        ensures MainAt(m)
      {
        assert old(MainAt(m)) && MainOf(s, m) == MainOf(old(s), m);
      }
    }

    twostate lemma SubsStay()
      requires old(Subs()) && subObjects == old(subObjects) && unchanged(old(subObjects.Values))
      requires SameSubs(old(s), s) && Within(subTasks, old(subTasks))
      ensures Subs()
    {
      forall id
        ensures SubAt(id)
      {
        assert old(SubAt(id)) && SubOf(s, id) == SubOf(old(s), id);
      }
    }

    twostate lemma SlotsStay()
      requires old(Slots()) && slotObjects == old(slotObjects) && unchanged(old(slotObjects.Values))
      requires SameSlots(old(s), s) && Within(subTaskResults, old(subTaskResults))
      ensures Slots()
    {
      forall id
        ensures SlotAt(id)
      {
        assert old(SlotAt(id)) && SlotOf(s, id) == SlotOf(old(s), id);
      }
    }

    twostate lemma ObjectsStay()
      requires old(Mains()) && mainObjects == old(mainObjects) && unchanged(old(mainObjects.Values))
      requires old(Subs()) && subObjects == old(subObjects) && unchanged(old(subObjects.Values))
      requires old(Slots()) && slotObjects == old(slotObjects) && unchanged(old(slotObjects.Values))
      requires SameMains(old(s), s) && SameSubs(old(s), s) && SameSlots(old(s), s)
      requires Within(mainTasks, old(mainTasks)) && Within(subTasks, old(subTasks))
      requires Within(subTaskResults, old(subTaskResults))
      ensures Mains() && Subs() && Slots()
    {
      MainsStay();
      SubsStay();
      SlotsStay();
    }

    twostate lemma MainSet(m: Id, new main: MainTask)
      requires old(Mains()) && OneMain(old(s), s, m) && unchanged(old(mainObjects.Values) - {main})
      requires Within(mainTasks, old(mainTasks)[m := main])
      requires mainObjects == old(mainObjects)[m := main] && main.id == m
      requires MainOf(s, m) == AMain(main.size, main.prio, main.readySubtasks, main.completedSubtasks)
      ensures Mains()
    {
      forall x
        ensures MainAt(x)
      {
        assert old(MainAt(x)) && (x != m ==> MainOf(s, x) == MainOf(old(s), x));
      }
    }

    twostate lemma SubSet(id: Id, new task: SubTask)
      requires old(Subs()) && OneSub(old(s), s, id) && unchanged(old(subObjects.Values) - {task})
      requires Within(subTasks, old(subTasks)[id := task])
      requires subObjects == old(subObjects)[id := task] && task.id == id
      requires SubOf(s, id) == ASub(task.name, task.deps, task.mainId, task.completed, task.done)
      ensures Subs()
    {
      forall x
        ensures SubAt(x)
      {
        assert old(SubAt(x)) && (x != id ==> SubOf(s, x) == SubOf(old(s), x));
      }
    }

    twostate lemma SlotSet(id: Id, new slot: SubTaskResult)
      requires old(Slots()) && OneSlot(old(s), s, id) && unchanged(old(slotObjects.Values) - {slot})
      requires Within(subTaskResults, old(subTaskResults)[id := slot])
      requires slotObjects == old(slotObjects)[id := slot] && slot.id == id
      requires SlotOf(s, id) == ASlot(slot.semaphore, slot.outcome)
      ensures Slots()
    {
      forall x
        ensures SlotAt(x)
      {
        assert old(SlotAt(x)) && (x != id ==> SlotOf(s, x) == SlotOf(old(s), x));
      }
    }

    /** An object, once it is in a table, stays known: what a thread holds it holds on to. */
    twostate predicate Kept()
      reads this
    {
      && (forall m :: m in old(mainObjects) ==> m in mainObjects && mainObjects[m] == old(mainObjects)[m])
      && (forall id :: id in old(subObjects) ==> id in subObjects && subObjects[id] == old(subObjects)[id])
      && (forall id :: id in old(slotObjects) ==> id in slotObjects && slotObjects[id] == old(slotObjects)[id])
    }

    // ---- what the regions of a thread rely on ----

    /** A call of addMainTask: its main task object is as it was made. */
    ghost predicate AddMainReady(m: Id)
      reads this
    {
      && m in s.mains && (forall x :: x in s.mains ==> s.mains[x].prio < PRIORITIES)
      && (s.mains[m].add == MAIN_WAITING ==> s.mains[m].readyCount == 0 && s.mains[m].completedCount == 0)
    }

    /** A call of addSubTask: its subtask and slot are as they were made, its main task is where it is looked
        up, and it holds that main task's object afterwards. */
    ghost predicate AddSubReady(id: Id)
      reads this
    {
      && id in s.subs && !s.subs[id].threw
      && (s.subs[id].add == NAMED ==> !s.subs[id].completed && !s.subs[id].done)
      && (s.subs[id].add == LISTED ==> s.subs[id].slotSem == 0 && s.subs[id].slotOutcome == None)
      && (s.subs[id].add == SLOTTED ==> s.subs[id].mainId in s.mainTasks)
      && (FOUND <= s.subs[id].add ==> OwnsMain(s.subs[id].mainId))
      && (s.subs[id].add == RELEASING ==> s.readyLock == Free)
    }

    ghost predicate OwnsMain(m: Id)
      reads this
    {
      m in s.mains && m in mainObjects && mainObjects[m].prio == s.mains[m].prio < PRIORITIES
    }

    /** A getter: once it has a slot, that is its subtask's. */
    ghost predicate GetReady(n: Name)
      reads this
    {
      && n in s.getters
      && (HasTarget(s.getters[n]) ==> s.getters[n].id in s.subs)
      && (HasTarget(s.getters[n]) && !s.getters[n].HasId? ==>
            s.getters[n].id in slotObjects && SLOTTED <= s.subs[s.getters[n].id].add)
    }

    /** A busy worker: the objects it holds are those of its subtask, its dependency and its main task. */
    ghost predicate WorkReady(w: nat)
      reads this
    {
      && AtWork(s, w) && s.workers[w].id in subObjects && s.workers[w].id in slotObjects
      && s.subs[s.workers[w].id].mainId in mainObjects
      && (s.workers[w].DepWait? ==> s.workers[w].dep in s.subs && s.workers[w].dep in subObjects)
    }

    // ---- lookups ----

    method FindSub(id: Id) returns (task: SubTask?)
      requires Valid()
      ensures if id in s.subTasks then id in subObjects && task == subObjects[id] else task == null
    {
      assert SubAt(id) && View().subTasks == s.subTasks;
      task := if id in subTasks then subTasks[id] else null;
    }

    method FindId(name: Name) returns (id: Option<Id>)
      requires Valid()
      ensures id == if name in s.subIds then Some(s.subIds[name]) else None
    {
      assert View().subIds == s.subIds;
      id := if name in subTaskNameToId then Some(subTaskNameToId[name]) else None;
    }

    method FindMainTask(m: Id) returns (main: MainTask?)
      requires Valid()
      ensures if m in s.mainTasks then m in mainObjects && main == mainObjects[m] else main == null
    {
      assert MainAt(m) && View().mainTasks == s.mainTasks;
      main := if m in mainTasks then mainTasks[m] else null;
    }

    method FindSlot(id: Id) returns (slot: SubTaskResult?)
      requires Valid()
      ensures if id in s.results then id in slotObjects && slot == slotObjects[id] else slot == null
    {
      assert SlotAt(id) && View().results == s.results;
      slot := if id in subTaskResults then subTaskResults[id] else null;
    }

    // ---- calls begin ----

    /** addMainTask takes an id from its allocator: one that no main task has had. */
    method AllocateMain(ghost name: Name, ghost size: nat, ghost prio: nat) returns (m: Id)
      requires Valid() && s.nextMain !in s.mains && BeginMainStep(s, name, size, prio).Some?
      modifies this
      ensures Valid() && Kept() && BeginMainStep(old(s), name, size, prio) == Some(s)
      ensures m in s.mains && m !in old(s).mains && s.mains[m].name == name
      ensures s.mains[m].size == size && s.mains[m].prio == prio
    {
      assert View().nextMain == s.nextMain;
      m, nextMainId := nextMainId, nextMainId + 1;
      BeginMainShapes(s, name, size, prio);
      s := BeginMainStep(s, name, size, prio).value;
      ObjectsStay();
    }

    /** addSubTask likewise. */
    method AllocateSub(ghost name: Name, ghost mainName: Name, ghost deps: seq<Name>) returns (id: Id)
      requires Valid() && s.nextSub !in s.subs && (forall n :: n in s.mainNames ==> s.mainNames[n] in s.mains)
      requires BeginSubStep(s, name, mainName, deps).Some?
      modifies this
      ensures Valid() && Kept() && BeginSubStep(old(s), name, mainName, deps) == Some(s)
      ensures id in s.subs && id !in old(s).subs && s.subs[id].name == name && s.subs[id].mainName == mainName
      ensures s.subs[id].deps == deps && s.subs[id].add == ALLOCATED
    {
      assert View().nextSub == s.nextSub;
      id, nextSubId := nextSubId, nextSubId + 1;
      BeginSubShapes(s, name, mainName, deps);
      s := BeginSubStep(s, name, mainName, deps).value;
      ObjectsStay();
    }

    /** A caller is about to ask for a result: nothing of the object takes part. */
    ghost method Ask(n: Name)
      requires Valid() && BeginGetStep(s, n).Some?
      modifies this`s
      ensures Valid() && Kept() && BeginGetStep(old(s), n) == Some(s)
    {
      s := BeginGetStep(s, n).value;
      ObjectsStay();
    }

    // ---- addMainTask ----

    method NameMain(m: Id, name: Name)
      requires Valid() && AddMainReady(m) && s.mains[m].add == MAIN_ALLOCATED && s.mains[m].name == name
      modifies this
      ensures Valid() && Kept() && AddMainStep(old(s), m) == Some(s)
    {
      mainTaskNameToId := mainTaskNameToId[name := m];
      s := AddMainStep(s, m).value;
      AddMainShapes(old(s), m, s);
      ObjectsStay();
    }

    method WaitMain(m: Id, prio: nat)
      requires Valid() && AddMainReady(m) && s.mains[m].add == MAIN_NAMED && s.mains[m].prio == prio
      modifies this, waitingMainTasks
      ensures Valid() && Kept() && AddMainStep(old(s), m) == Some(s)
    {
      waitingMainTasks[prio] := waitingMainTasks[prio] + {m};
      s := AddMainStep(s, m).value;
      AddMainShapes(old(s), m, s);
      ObjectsStay();
    }

    method InsertMain(m: Id, task: MainTask)
      requires Valid() && AddMainReady(m) && s.mains[m].add == MAIN_WAITING && task !in mainObjects.Values
      requires task.id == m && task.size == s.mains[m].size && task.prio == s.mains[m].prio
      requires task.readySubtasks == 0 && task.completedSubtasks == 0
      modifies this
      ensures Valid() && Kept() && AddMainStep(old(s), m) == Some(s) && m in mainTasks && mainTasks[m] == task
    {
      mainTasks, mainObjects := mainTasks[m := task], mainObjects[m := task];
      s := AddMainStep(s, m).value;
      InsertMainShapes(old(s), m, s);
      assert old(MainAt(m));
      MainSet(m, task);
      SubsStay();
      SlotsStay();
    }

    // ---- addSubTask ----

    /** The main task's id, or none, upon which addSubTask throws. */
    method LookUpMain(id: Id, mainName: Name) returns (mainId: Option<Id>)
      requires Valid() && AddSubReady(id) && s.subs[id].add == ALLOCATED && s.subs[id].mainName == mainName
      modifies this
      ensures Valid() && Kept() && s == LookedUp(old(s), id)
      ensures mainId == if mainName in s.mainIds then Some(s.mainIds[mainName]) else None
    {
      assert View().mainIds == s.mainIds;
      mainId := if mainName in mainTaskNameToId then Some(mainTaskNameToId[mainName]) else None;
      LookUpShapes(s, id);
      s := LookedUp(s, id);
      ObjectsStay();
    }

    method NameSub(id: Id, name: Name)
      requires Valid() && AddSubReady(id) && s.subs[id].add == HAS_MAIN && s.subs[id].name == name
      modifies this
      ensures Valid() && Kept() && s == RegisterStep(old(s), id)
    {
      subTaskNameToId := subTaskNameToId[name := id];
      RegisterShapes(s, id);
      s := RegisterStep(s, id);
      ObjectsStay();
    }

    method InsertSub(id: Id, task: SubTask)
      requires Valid() && AddSubReady(id) && s.subs[id].add == NAMED
      requires task !in subObjects.Values && !task.completed && !task.done
      requires var u := s.subs[id];
        task.id == id && task.name == u.name && task.deps == u.deps && task.mainId == u.mainId
      modifies this
      ensures Valid() && Kept() && s == RegisterStep(old(s), id) && id in subTasks && subTasks[id] == task
    {
      assert SubAt(id);
      subTasks, subObjects := subTasks[id := task], subObjects[id := task];
      RegisterShapes(s, id);
      s := RegisterStep(s, id);
      MainsStay();
      SubSet(id, task);
      SlotsStay();
    }

    method ListSub(id: Id, mainId: Id)
      requires Valid() && AddSubReady(id) && s.subs[id].add == INSERTED && s.subs[id].mainId == mainId
      modifies this
      ensures Valid() && Kept() && s == RegisterStep(old(s), id)
    {
      mainToSubTasks :=
        mainToSubTasks[mainId := (if mainId in mainToSubTasks then mainToSubTasks[mainId] else []) + [id]];
      RegisterShapes(s, id);
      s := RegisterStep(s, id);
      ObjectsStay();
    }

    method SlotSub(id: Id)
      requires Valid() && AddSubReady(id) && s.subs[id].add == LISTED
      modifies this
      ensures Valid() && Kept() && s == RegisterStep(old(s), id) && id in subTaskResults && fresh(subTaskResults[id])
    {
      assert SlotAt(id);
      var slot := new SubTaskResult(id);
      subTaskResults, slotObjects := subTaskResults[id := slot], slotObjects[id := slot];
      SlottedShapes(s, id);
      s := RegisterStep(s, id);
      MainsStay();
      SubsStay();
      SlotSet(id, slot);
    }

    /** find(main_id)->second, unchecked: the entry has to be there. */
    method FindMain(id: Id, mainId: Id) returns (main: MainTask)
      requires Valid() && AddSubReady(id) && s.subs[id].add == SLOTTED && s.subs[id].mainId == mainId
      modifies this
      ensures Valid() && Kept() && s == RegisterStep(old(s), id) && mainId in mainObjects && main == mainObjects[mainId]
    {
      assert MainAt(mainId) && mainId in View().mainTasks;
      main := mainTasks[mainId];
      RegisterShapes(s, id);
      s := RegisterStep(s, id);
      ObjectsStay();
    }

    method CountReady(id: Id, main: MainTask) returns (last: bool)
      requires Valid() && AddSubReady(id) && s.subs[id].add == FOUND && main == mainObjects[s.subs[id].mainId]
      modifies this, main
      ensures Valid() && Kept() && s == ReadyStep(old(s), id) && (last <==> s.subs[id].add == RELEASING)
    {
      assert MainAt(s.subs[id].mainId);
      main.readySubtasks := main.readySubtasks + 1;
      last := main.readySubtasks == main.size;
      ReadyShapes(s, id);
      s := ReadyStep(s, id);
      MainSet(main.id, main);
      SubsStay();
      SlotsStay();
    }

    /** The loop of the release: the whole list onto the queue of its priority, in its order. */
    method PushAll(id: Id, mainId: Id, main: MainTask)
      requires Valid() && AddSubReady(id) && s.subs[id].add == RELEASING
      requires s.subs[id].mainId == mainId && main == mainObjects[mainId]
      modifies this, readySubTasks
      ensures Valid() && Kept() && s == ReleaseStep(old(s), id)
    {
      var list := if mainId in mainToSubTasks then mainToSubTasks[mainId] else [];
      assert list == List(s, mainId);
      EventLoop.PushList(readySubTasks, list, main.prio);
      ReleaseShapes(s, id);
      s := ReleaseStep(s, id);
      ObjectsStay();
    }

    method Unwait(id: Id, mainId: Id, main: MainTask)
      requires Valid() && AddSubReady(id) && s.subs[id].add == HOLDING
      requires s.subs[id].mainId == mainId && main == mainObjects[mainId]
      modifies this, waitingMainTasks
      ensures Valid() && Kept() && s == UnwaitStep(old(s), id)
    {
      waitingMainTasks[main.prio] := waitingMainTasks[main.prio] - {mainId};
      ReleaseShapes(s, id);
      s := UnwaitStep(s, id);
      ObjectsStay();
    }

    // ---- getSubTaskResult ----

    /** The id of the name, or none, upon which the call throws. */
    method LookUpName(n: Name) returns (id: Option<Id>)
      requires Valid() && GetReady(n) && s.getters[n] == Asked
      modifies this
      ensures Valid() && Kept() && s == SetGetter(old(s), n, if id.Some? then HasId(id.value) else NotFound)
      ensures id == if n in s.subIds then Some(s.subIds[n]) else None
    {
      id := FindId(n);
      SetShapes(s, n, if id.Some? then HasId(id.value) else NotFound);
      s := SetGetter(s, n, if id.Some? then HasId(id.value) else NotFound);
      ObjectsStay();
    }

    method LookUpSlot(n: Name, id: Id) returns (slot: SubTaskResult?)
      requires Valid() && GetReady(n) && s.getters[n] == HasId(id)
      modifies this
      ensures Valid() && Kept() && s == SetGetter(old(s), n, if id in old(s).results then HasSlot(id) else NotFound)
      ensures if id in old(s).results then id in slotObjects && slot == slotObjects[id] else slot == null
    {
      slot := FindSlot(id);
      var pc := if slot != null then HasSlot(id) else NotFound;
      SetShapes(s, n, pc);
      s := SetGetter(s, n, pc);
      ObjectsStay();
    }

    /** sem_wait on the slot: passes once it has been posted. */
    method PassSlot(n: Name, id: Id, slot: SubTaskResult) returns (passed: bool)
      requires Valid() && GetReady(n) && s.getters[n] == HasSlot(id) && slot == slotObjects[id]
      modifies this, slot
      ensures Valid() && Kept() && (passed <==> 0 < old(s).subs[id].slotSem)
      ensures s == if passed then TakeStep(old(s), n, id) else old(s)
    {
      assert SlotAt(id);
      if slot.semaphore == 0 {
        return false;
      }
      slot.semaphore := slot.semaphore - 1;
      TakeShapes(s, n, id);
      s := TakeStep(s, n, id);
      MainsStay();
      SubsStay();
      SlotSet(id, slot);
      passed := true;
    }

    /** The result is moved out of the slot and the slot's entry erased. */
    method TakeResult(n: Name, id: Id, slot: SubTaskResult) returns (o: Option<Outcome>)
      requires Valid() && GetReady(n) && s.getters[n] == Woken(id) && slot == slotObjects[id]
      modifies this, slot
      ensures Valid() && Kept() && s == TakeStep(old(s), n, id) && o == old(s).subs[id].slotOutcome
    {
      assert SlotAt(id);
      o := slot.outcome;
      slot.outcome := None;
      subTaskResults := subTaskResults - {id};
      TakeShapes(s, n, id);
      s := TakeStep(s, n, id);
      MainsStay();
      SubsStay();
      SlotSet(id, slot);
    }

    method EraseName(n: Name, id: Id)
      requires Valid() && GetReady(n) && s.getters[n].Took? && s.getters[n].id == id
      modifies this
      ensures Valid() && Kept() && s == TakeStep(old(s), n, id)
    {
      assert SlotAt(id);
      subTaskNameToId := subTaskNameToId - {n};
      TakeShapes(s, n, id);
      s := TakeStep(s, n, id);
      ObjectsStay();
    }

    method EraseSub(n: Name, id: Id)
      requires Valid() && GetReady(n) && s.getters[n].NameErased? && s.getters[n].id == id
      modifies this
      ensures Valid() && Kept() && s == TakeStep(old(s), n, id)
    {
      assert SlotAt(id);
      subTasks := subTasks - {id};
      TakeShapes(s, n, id);
      s := TakeStep(s, n, id);
      ObjectsStay();
    }

    // ---- start, Stop and hasPendingWork ----

    method Start()
      requires Valid() && s.loop == Off
      modifies this
      ensures Valid() && Kept() && isRunning && s == old(s).(running := true, loop := Top)
    {
      isRunning := true;
      s := s.(running := true, loop := Top);
      ObjectsStay();
    }

    method Stop()
      requires Valid()
      modifies this
      ensures Valid() && Kept() && s == StopStep(old(s))
    {
      isRunning := false;
      s := StopStep(s);
      ObjectsStay();
    }

    /** The first scan: is any ready queue not empty? */
    method AnyReady() returns (found: bool)
      requires Valid()
      ensures found <==> exists p :: 0 <= p < PRIORITIES && s.ready[p] != []
    {
      for p := 0 to PRIORITIES
        invariant forall q :: 0 <= q < p ==> s.ready[q] == []
      {
        assert readySubTasks[p] == View().ready[p];
        if readySubTasks[p] != [] {
          return true;
        }
      }
      found := false;
    }

    /** The second: is any main task waiting? */
    method AnyWaiting() returns (found: bool)
      requires Valid()
      ensures found <==> exists p :: 0 <= p < PRIORITIES && s.waiting[p] != {}
    {
      for p := 0 to PRIORITIES
        invariant forall q :: 0 <= q < p ==> s.waiting[q] == {}
      {
        assert waitingMainTasks[p] == View().waiting[p];
        if waitingMainTasks[p] != {} {
          return true;
        }
      }
      found := false;
    }

    /** The third: is any subtask in sub_tasks not completed? */
    method AnyUncompleted() returns (found: bool)
      requires Valid()
      ensures found <==> exists id :: id in s.subTasks && id in s.subs && !s.subs[id].completed
    {
      var rest := subTasks.Keys;
      while rest != {}
        invariant rest <= subTasks.Keys
        invariant forall id :: id in subTasks && id !in rest ==> id in s.subs && s.subs[id].completed
      {
        var id :| id in rest;
        assert SubAt(id) && id in View().subTasks;
        if !subTasks[id].completed {
          return true;
        }
        rest := rest - {id};
      }
      assert View().subTasks == subTasks.Keys;
      found := false;
    }

    /** The three scans with nobody in between. */
    method HasPendingWork() returns (pending: bool)
      requires Valid()
      ensures !pending <==>
        && (forall p :: 0 <= p < PRIORITIES ==> s.ready[p] == [] && s.waiting[p] == {})
        && (forall id :: id in s.subTasks && id in s.subs ==> s.subs[id].completed)
    {
      assert View() == TablesOf(s);
      pending := AnyReady();
      if !pending {
        pending := AnyWaiting();
        if !pending {
          pending := AnyUncompleted();
        }
      }
    }

    // ---- the event loop ----

    /** Only the event loop's own position changes. */
    ghost method MoveLoop(loop: LoopPc)
      requires Valid()
      modifies this`s
      ensures Valid() && s == old(s).(loop := loop)
    {
      s := s.(loop := loop);
      ObjectsStay();
    }

    /** is_running at the head of the loop. */
    method Head() returns (on: bool)
      requires Valid() && s.loop == Top
      modifies this`s
      ensures Valid() && Kept() && on == old(s).running
      ensures s == if on then old(s).(loop := Want) else old(s).(loop := Scan1, snap := AddedMains(old(s)))
    {
      assert View().running == s.running;
      on := isRunning;
      s := if on then s.(loop := Want) else s.(loop := Scan1, snap := AddedMains(s));
      ObjectsStay();
    }

    /** The three regions of hasPendingWork; between them anybody may move. */
    method ScanReady() returns (found: bool)
      requires Valid() && s.loop == Scan1 && s.readyLock == Free
      modifies this`s
      ensures Valid() && Kept() && (found <==> exists p :: 0 <= p < PRIORITIES && old(s).ready[p] != [])
      ensures s == old(s).(loop := if found then Want else Scan2)
    {
      found := AnyReady();
      MoveLoop(if found then Want else Scan2);
    }

    method ScanWaiting() returns (found: bool)
      requires Valid() && s.loop == Scan2
      modifies this`s
      ensures Valid() && Kept() && (found <==> exists p :: 0 <= p < PRIORITIES && old(s).waiting[p] != {})
      ensures s == old(s).(loop := if found then Want else Scan3)
    {
      found := AnyWaiting();
      MoveLoop(if found then Want else Scan3);
    }

    method ScanSubTasks() returns (found: bool)
      requires Valid() && s.loop == Scan3
      modifies this`s
      ensures Valid() && Kept()
      ensures (found <==> exists id :: id in old(s).subTasks && id in old(s).subs && !old(s).subs[id].completed)
      ensures s == old(s).(loop := if found then Want else Exited)
    {
      found := AnyUncompleted();
      MoveLoop(if found then Want else Exited);
    }

    /** ready_mutex is taken for a pass. */
    ghost method BeginPass()
      requires Valid() && s.loop == Want && s.readyLock == Free
      modifies this`s
      ensures Valid() && Kept()
      ensures s == old(s).(loop := Emit(PRIORITIES - 1), readyLock := ByLoop,
                           passes := old(s).passes + [Flat(old(s).ready)])
    {
      s := s.(loop := Emit(PRIORITIES - 1), readyLock := ByLoop, passes := s.passes + [Flat(s.ready)]);
      ObjectsStay();
    }

    /** A queue found empty is left for the next, or the pass is over and the mutex free. */
    ghost method EndQueue(p: nat)
      requires Valid() && p < PRIORITIES && s.loop == Emit(p) && readySubTasks[p] == []
      modifies this`s
      ensures Valid() && Kept() && s == PassStep(old(s), p)
    {
      s := PassStep(s, p);
      ObjectsStay();
    }

    /** One turn of the inner loop: the front of the queue goes to the pool, whose ring has room. */
    method EmitFront(p: nat) returns (id: Id)
      requires Valid() && p < PRIORITIES && s.ready[p] != [] && s.ready[p][0] in s.subs
      modifies this, readySubTasks
      ensures Valid() && Kept() && s == EmitStep(old(s), p) && s.ring == old(s).ring + [id]
    {
      assert readySubTasks[..] == View().ready && readySubTasks[p] == readySubTasks[..][p];
      id := EventLoop.PopFront(readySubTasks, p);
      ring := ring + [id];
      EmitShapes(s, p);
      s := EmitStep(s, p);
      ObjectsStay();
    }

    // ---- a worker, at the regions that touch the tables or an object ----

    /** An idle worker pops the oldest item of the pool's queue, or waits. */
    method Take(ghost w: nat) returns (id: Option<Id>)
      requires Valid() && w < |s.workers| && s.workers[w].Idle? && (s.ring != [] ==> s.ring[0] in s.subs)
      modifies this
      ensures Valid() && Kept() && (id == None <==> old(s).ring == [])
      ensures id.Some? ==> old(s).ring == [id.value] + s.ring && s == PopStep(old(s), w)
      ensures id == None ==> s == old(s)
    {
      assert View().ring == s.ring;
      if ring == [] {
        return None;
      }
      id, ring := Some(ring[0]), ring[1..];
      PopShapes(s, w);
      s := PopStep(s, w);
      ObjectsStay();
    }

    method Fetch(ghost w: nat, id: Id) returns (task: SubTask?)
      requires Valid() && WorkReady(w) && s.workers[w] == WorkerPc.Fetch(id)
      modifies this
      ensures Valid() && Kept() && s == ActStep(config, old(s), w)
      ensures if id in old(s).subTasks then id in subObjects && task == subObjects[id] else task == null
    {
      task := FindSub(id);
      ActShapes(config, s, w);
      ActTables(config, s, w);
      s := ActStep(config, s, w);
      ObjectsStay();
    }

    method LookUpDep(ghost w: nat, id: Id, k: nat, task: SubTask) returns (dep: Option<Id>)
      requires Valid() && WorkReady(w) && s.workers[w] == Dep(id, k) && k < |s.subs[id].deps| && task == subObjects[id]
      modifies this
      ensures Valid() && Kept() && s == ActStep(config, old(s), w)
      ensures var u := old(s);
        dep == if u.subs[id].deps[k] in u.subIds then Some(u.subIds[u.subs[id].deps[k]]) else None
    {
      assert SubAt(id);
      dep := FindId(task.deps[k]);
      ActShapes(config, s, w);
      ActTables(config, s, w);
      s := ActStep(config, s, w);
      ObjectsStay();
    }

    method FetchDep(ghost w: nat, id: Id, k: nat, dep: Id) returns (task: SubTask?)
      requires Valid() && WorkReady(w) && s.workers[w] == DepNamed(id, k, dep)
      modifies this
      ensures Valid() && Kept() && s == ActStep(config, old(s), w)
      ensures if dep in old(s).subTasks then dep in subObjects && task == subObjects[dep] else task == null
    {
      task := FindSub(dep);
      ActShapes(config, s, w);
      ActTables(config, s, w);
      s := ActStep(config, s, w);
      ObjectsStay();
    }

    /** The test of the wait loop; while the dependency is not done the worker stays where it is. */
    method TestDone(ghost w: nat, id: Id, k: nat, dep: Id, task: SubTask) returns (done: bool)
      requires Valid() && WorkReady(w) && s.workers[w] == DepWait(id, k, dep) && task == subObjects[dep]
      modifies this
      ensures Valid() && Kept() && (done <==> old(s).subs[dep].done)
      ensures s == if done then ActStep(config, old(s), w) else old(s)
    {
      assert SubAt(dep);
      done := task.done;
      if done {
        ActShapes(config, s, w);
        ActTables(config, s, w);
        s := ActStep(config, s, w);
        ObjectsStay();
      }
    }

    /** The task function is called, or has ended: no table is touched. */
    method Call(ghost w: nat)
      requires Valid() && WorkReady(w) && (s.workers[w].Running? || Starts(s, s.workers[w]))
      modifies this`s
      ensures Valid() && Kept() && s == ActStep(config, old(s), w)
    {
      ActShapes(config, s, w);
      ActTables(config, s, w);
      s := ActStep(config, s, w);
      ObjectsStay();
    }

    /** The outcome into the slot, and the post; nothing if the slot were gone. */
    method Post(ghost w: nat, id: Id, o: Outcome)
      requires Valid() && WorkReady(w) && s.workers[w] == Ran(id, o)
      modifies this, slotObjects[id]
      ensures Valid() && Kept() && s == ActStep(config, old(s), w)
    {
      assert SlotAt(id);
      var slot := FindSlot(id);
      if slot != null {
        slot.Put(o);
      }
      PostShapes(config, s, w);
      s := ActStep(config, s, w);
      MainsStay();
      SubsStay();
      SlotSet(id, slotObjects[id]);
    }

    method MarkCompleted(ghost w: nat, id: Id, task: SubTask)
      requires Valid() && WorkReady(w) && s.workers[w] == Posted(id) && task == subObjects[id]
      modifies this, task
      ensures Valid() && Kept() && s == ActStep(config, old(s), w)
    {
      assert SubAt(id);
      task.completed := true;
      ActShapes(config, s, w);
      ActTables(config, s, w);
      s := ActStep(config, s, w);
      MainsStay();
      SubSet(id, task);
      SlotsStay();
    }

    /** done, with the notification of all registered waiters. */
    method MarkDone(ghost w: nat, id: Id, task: SubTask)
      requires Valid() && WorkReady(w) && s.workers[w] == Completed(id) && task == subObjects[id]
      modifies this, task
      ensures Valid() && Kept() && s == ActStep(config, old(s), w)
    {
      assert SubAt(id);
      task.done := true;
      ActShapes(config, s, w);
      ActTables(config, s, w);
      s := ActStep(config, s, w);
      MainsStay();
      SubSet(id, task);
      SlotsStay();
    }

    method FindOwner(ghost w: nat, id: Id, mainId: Id) returns (main: MainTask?)
      requires Valid() && WorkReady(w) && s.workers[w] == Done(id) && s.subs[id].mainId == mainId
      modifies this
      ensures Valid() && Kept() && s == ActStep(config, old(s), w)
      ensures if mainId in old(s).mainTasks then mainId in mainObjects && main == mainObjects[mainId] else main == null
    {
      main := FindMainTask(mainId);
      ActShapes(config, s, w);
      ActTables(config, s, w);
      s := ActStep(config, s, w);
      ObjectsStay();
    }

    method CountCompleted(ghost w: nat, id: Id, main: MainTask) returns (last: bool)
      requires Valid() && WorkReady(w) && s.workers[w] == AtMain(id) && main == mainObjects[s.subs[id].mainId]
      modifies this, main
      ensures Valid() && Kept() && s == ActStep(config, old(s), w) && (last <==> s.workers[w] == LastOne(id))
    {
      assert MainAt(s.subs[id].mainId);
      main.completedSubtasks := main.completedSubtasks + 1;
      last := main.completedSubtasks == main.size;
      ActShapes(config, s, w);
      ActTables(config, s, w);
      s := ActStep(config, s, w);
      MainSet(main.id, main);
      SubsStay();
      SlotsStay();
    }

    method EraseMain(ghost w: nat, ghost id: Id, main: MainTask)
      requires Valid() && WorkReady(w) && s.workers[w] == LastOne(id) && main == mainObjects[s.subs[id].mainId]
      modifies this
      ensures Valid() && Kept() && s == ActStep(config, old(s), w)
    {
      assert MainAt(s.subs[id].mainId);
      mainTasks := mainTasks - {main.id};
      ActShapes(config, s, w);
      s := ActStep(config, s, w);
      ObjectsStay();
    }

    method EraseList(ghost w: nat, ghost id: Id, main: MainTask)
      requires Valid() && WorkReady(w) && s.workers[w] == Unlisting(id) && main == mainObjects[s.subs[id].mainId]
      modifies this
      ensures Valid() && Kept() && s == ActStep(config, old(s), w)
    {
      assert MainAt(s.subs[id].mainId);
      mainToSubTasks := mainToSubTasks - {main.id};
      ActShapes(config, s, w);
      s := ActStep(config, s, w);
      ObjectsStay();
    }
  }
}
