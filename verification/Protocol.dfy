/** The dispatcher, its worker pool and its callers as one machine.

  A step is one locked region or one atomic access of EventDispatcher.hpp. Every call of
  `addSubTask` allocates an id of its own and every call of `addMainTask` likewise, so such a call is
  named by that id; a call of `getSubTaskResult` is named by the subtask name it asks for. The pool's
  ring is the atomic bounded queue that module `RingProperties` shows the real ring to be, and waiting for
  a completion event is the atomic test that module `Latch` shows it to be.

  Fields under "history" have no counterpart in the program: they record what has happened, and the
  theorems speak about them. What the environment does reads them: the guards of the calls that it begins,
  to keep to its assumptions, and `Inputs`, because the outcome a task function ends with depends on what
  the functions it depends on have produced. */
module Protocol {
  import opened Sequences

  type Id = nat

  /** Names are labels: the program only compares them. */
  type Name = nat

  /** What a task function does: return a value or throw. */
  datatype Outcome = Returned(any: int) | Threw(error: int)

  /** A task function, seen through what its dependencies have produced when it ends. */
  type Body = (Name, seq<Option<Outcome>>) -> Outcome

  datatype Config = Config(poolSize: nat, body: Body)

  const PRIORITIES := 7

  // How far a call of addSubTask has come.
  const ALLOCATED := 0   // has its id
  const HAS_MAIN := 1    // has looked its main task up
  const NAMED := 2       // is in sub_task_name_to_id
  const INSERTED := 3    // is in sub_tasks
  const LISTED := 4      // is in its main task's list
  const SLOTTED := 5     // has a result slot
  const FOUND := 6       // has found its main task object
  const RELEASING := 7   // has made ready_subtasks equal to subtask_size
  const HOLDING := 8     // has pushed the whole list, holds ready_mutex
  const ADDED := 9       // has returned

  // How far a call of addMainTask has come.
  const MAIN_ALLOCATED := 0
  const MAIN_NAMED := 1
  const MAIN_WAITING := 2
  const MAIN_ADDED := 3

  // How far a subtask has come in the hands of a worker.
  const UNTAKEN := 0
  const TAKEN := 1
  const STARTED := 2
  const ENDED := 3
  const POSTED := 4
  const COMPLETED := 5
  const DONE := 6
  const AT_MAIN := 7
  const COUNTED := 8
  const UNLISTED := 9
  const FINISHED := 10

  datatype Sub = Sub(
    name: Name, mainName: Name, deps: seq<Name>,
    add: nat, threw: bool, mainId: Id,
    slotSem: nat, slotOutcome: Option<Outcome>, completed: bool, done: bool,
    // history
    rank: nat, owner: nat, reaped: nat, starts: nat, posts: nat, startAt: nat, endAt: nat,
    known: set<Id>, args: seq<Option<Outcome>>, out: Option<Outcome>)

  datatype Main = Main(
    name: Name, size: nat, prio: nat,
    add: nat, readyCount: nat, completedCount: nat,
    // history: the calls begun for it, those that have incremented each counter, and how far its
    // release (claimed, pushed, no longer waiting) and its removal (claimed, erased, list erased) are
    begun: set<Id>, readied: set<Id>, counted: set<Id>,
    rel: nat, releaser: Id, fin: nat, finisher: Id, order: seq<Id>)

  datatype WorkerPc =
    | Idle
    | Fetch(id: Id)
    | Dep(id: Id, k: nat)
    | DepNamed(id: Id, k: nat, dep: Id)
    | DepWait(id: Id, k: nat, dep: Id)
    | Running(id: Id)
    | Ran(id: Id, o: Outcome)
    | Posted(id: Id)
    | Completed(id: Id)
    | Done(id: Id)
    | AtMain(id: Id)
    | LastOne(id: Id)
    | Unlisting(id: Id)

  datatype LoopPc = Off | Top | Scan1 | Scan2 | Scan3 | Want | Emit(p: nat) | Exited

  datatype GetPc =
    | Asked
    | HasId(id: Id)
    | HasSlot(id: Id)
    | Woken(id: Id)
    | Took(id: Id, o: Option<Outcome>)
    | NameErased(id: Id, o: Option<Outcome>)
    | Got(id: Id, o: Option<Outcome>)
    | NotFound

  datatype Holder = Free | ByLoop | ByAdder(id: Id)

  datatype State = State(
    // every MainTask and SubTask object ever made; a shared_ptr keeps it usable after it left a table
    mains: map<Id, Main>, subs: map<Id, Sub>,
    // the tables: name to id, and the key sets of main_tasks, sub_tasks and subtask_results
    mainIds: map<Name, Id>, subIds: map<Name, Id>,
    mainTasks: set<Id>, subTasks: set<Id>, results: set<Id>,
    mainSubs: map<Id, seq<Id>>, waiting: seq<set<Id>>,
    ready: seq<seq<Id>>, readyLock: Holder,
    ring: seq<Id>,
    running: bool, loop: LoopPc, workers: seq<WorkerPc>, getters: map<Name, GetPc>,
    nextMain: Id, nextSub: Id,
    // history
    mainNames: map<Name, Id>, names: map<Name, Id>,
    taken: seq<Id>, passes: seq<seq<Id>>, clock: nat, snap: set<Id>, stopSnap: Option<set<Id>>)

  datatype Action =
    | BeginMain(name: Name, size: nat, prio: nat)
    | BeginSub(name: Name, mainName: Name, deps: seq<Name>)
    | BeginGet(name: Name)
    | Start
    | Stop
    | AddMain(m: Id)
    | AddSub(id: Id)
    | Get(name: Name)
    | Loop
    | Work(w: nat)

  function Init(c: Config): State
  {
    State(map[], map[], map[], map[], {}, {}, {}, map[], seq(PRIORITIES, i => {}),
          seq(PRIORITIES, i => []), Free, [], false, Off, seq(c.poolSize, i => Idle), map[], 1, 1,
          map[], map[], [], [], 0, {}, None)
  }

  /** The list that main_to_subtasks[m] denotes; operator[] makes an absent list empty. */
  function List(s: State, m: Id): seq<Id>
  {
    if m in s.mainSubs then s.mainSubs[m] else []
  }

  /** The ready queues end to end, highest priority first. */
  function Flat(queues: seq<seq<Id>>): seq<Id>
  {
    if queues == [] then [] else queues[|queues| - 1] + Flat(queues[..|queues| - 1])
  }

  /** Every released subtask in the order of dispatch: taken by workers, in the ring, still ready. */
  function Order(s: State): seq<Id>
  {
    s.taken + s.ring + Flat(s.ready)
  }

  /** No pointer dangles: every object a thread refers to exists. */
  ghost predicate Sound(c: Config, s: State)
  {
    && 1 <= c.poolSize == |s.workers|
    && |s.ready| == PRIORITIES == |s.waiting|
    && (s.loop.Emit? ==> s.loop.p < PRIORITIES)
    && (forall w :: 0 <= w < |s.workers| ==> SoundWorker(s, s.workers[w]))
    && (forall id :: id in s.subs && 1 <= s.subs[id].add ==> s.subs[id].mainId in s.mains)
    && (forall n :: n in s.getters && HasTarget(s.getters[n]) ==> s.getters[n].id in s.subs)
    && (forall m :: m in s.mains ==> s.mains[m].prio < PRIORITIES)
    && (forall n :: n in s.mainNames ==> s.mainNames[n] in s.mains)
    && (forall n :: n in s.names ==> s.names[n] in s.subs)
    && (forall n :: n in s.subIds ==> s.subIds[n] in s.subs)
    && (forall id :: id in s.ring ==> id in s.subs && 1 <= s.subs[id].add)
    && (forall p, id :: 0 <= p < PRIORITIES && id in s.ready[p] ==> id in s.subs)
    && s.subTasks <= s.subs.Keys
  }

  predicate SoundWorker(s: State, pc: WorkerPc)
  {
    pc.Idle? || (
      && pc.id in s.subs && 1 <= s.subs[pc.id].add && s.subs[pc.id].mainId in s.mains
      && (pc.Dep? ==> pc.k <= |s.subs[pc.id].deps|)
      && (pc.DepNamed? || pc.DepWait? ==> pc.k < |s.subs[pc.id].deps| && pc.dep in s.subs))
  }

  predicate HasTarget(pc: GetPc)
  {
    !pc.Asked? && !pc.NotFound?
  }

  /** One step, or None when the action is not possible (its thread is blocked, has ended, or the
      environment does not make such a call). */
  ghost function Step(c: Config, s: State, a: Action): Option<State>
    requires Sound(c, s)
  {
    match a
    case BeginMain(name, size, prio) => BeginMainStep(s, name, size, prio)
    case BeginSub(name, mainName, deps) => BeginSubStep(s, name, mainName, deps)
    case BeginGet(name) => BeginGetStep(s, name)
    case Start => if s.loop == Off then Some(s.(running := true, loop := Top)) else None
    case Stop => Some(StopStep(s))
    case AddMain(m) => AddMainStep(s, m)
    case AddSub(id) => AddSubStep(s, id)
    case Get(name) => GetStep(s, name)
    case Loop => LoopStep(c, s)
    case Work(w) => WorkStep(c, s, w)
  }

  // ---- what the callers do ----

  /** addMainTask is called with a new name, before any addSubTask that names it. */
  function BeginMainStep(s: State, name: Name, size: nat, prio: nat): Option<State>
  {
    if name !in s.mainNames && 1 <= size && prio < PRIORITIES
       && (forall id :: id in s.subs ==> s.subs[id].mainName != name) then
      Some(s.(
        mains := s.mains[s.nextMain := Main(name, size, prio, MAIN_ALLOCATED, 0, 0, {}, {}, {}, 0, 0, 0, 0, [])],
        mainNames := s.mainNames[name := s.nextMain],
        nextMain := s.nextMain + 1))
    else None
  }

  /** addSubTask is called with a new name, for a main task already added and not yet full (or for a
      name nobody adds, which makes it throw). */
  function BeginSubStep(s: State, name: Name, mainName: Name, deps: seq<Name>): Option<State>
    requires forall n :: n in s.mainNames ==> s.mainNames[n] in s.mains
  {
    if name in s.names || (mainName in s.mainNames && !HasRoom(s.mains[s.mainNames[mainName]])) then None
    else
      var u := Sub(name, mainName, deps, ALLOCATED, false, 0, 0, None, false, false,
                   UNTAKEN, 0, 0, 0, 0, 0, 0, {}, [], None);
      Some(s.(
        subs := s.subs[s.nextSub := u], names := s.names[name := s.nextSub], nextSub := s.nextSub + 1,
        mains := if mainName !in s.mainNames then s.mains
          else
            var m := s.mainNames[mainName];
            s.mains[m := s.mains[m].(begun := s.mains[m].begun + {s.nextSub})]))
  }

  predicate HasRoom(main: Main)
  {
    main.add == MAIN_ADDED && |main.begun| < main.size
  }

  /** getSubTaskResult is called at most once per name, and again only after it found nothing. */
  function BeginGetStep(s: State, name: Name): Option<State>
  {
    if name !in s.getters || s.getters[name].NotFound? then
      Some(s.(getters := s.getters[name := Asked]))
    else None
  }

  function StopStep(s: State): State
  {
    s.(running := false, stopSnap := if s.stopSnap.Some? then s.stopSnap else Some(AddedMains(s)))
  }

  function AddedMains(s: State): set<Id>
  {
    set m | m in s.mains && s.mains[m].add == MAIN_ADDED
  }

  // ---- addMainTask ----

  function AddMainStep(s: State, m: Id): Option<State>
    requires |s.waiting| == PRIORITIES
    requires forall m :: m in s.mains ==> s.mains[m].prio < PRIORITIES
  {
    if m !in s.mains || MAIN_ADDED <= s.mains[m].add then None
    else
      var main := s.mains[m];
      Some(s.(
        mains := s.mains[m := main.(add := main.add + 1)],
        mainIds := if main.add == MAIN_ALLOCATED then s.mainIds[main.name := m] else s.mainIds,
        waiting := if main.add == MAIN_NAMED then s.waiting[main.prio := s.waiting[main.prio] + {m}] else s.waiting,
        mainTasks := if main.add == MAIN_WAITING then s.mainTasks + {m} else s.mainTasks))
  }

  // ---- addSubTask ----

  function AddSubStep(s: State, id: Id): Option<State>
    requires |s.ready| == PRIORITIES == |s.waiting|
    requires forall id :: id in s.subs && 1 <= s.subs[id].add ==> s.subs[id].mainId in s.mains
    requires forall m :: m in s.mains ==> s.mains[m].prio < PRIORITIES
  {
    if id !in s.subs || s.subs[id].threw then None
    else
      var u := s.subs[id];
      if u.add == ALLOCATED then
        if u.mainName in s.mainIds then
          Some(s.(subs := s.subs[id := u.(add := HAS_MAIN, mainId := s.mainIds[u.mainName])]))
        else Some(s.(subs := s.subs[id := u.(threw := true)]))
      else if u.add < SLOTTED then Some(RegisterStep(s, id))
      else if u.add == SLOTTED then
        // the code dereferences the iterator unchecked: there is no behaviour for a missing entry
        if u.mainId in s.mainTasks then Some(RegisterStep(s, id)) else None
      else if u.add == FOUND then Some(ReadyStep(s, id))
      else if u.add == RELEASING then
        if s.readyLock == Free then Some(ReleaseStep(s, id)) else None
      else if u.add == HOLDING then Some(UnwaitStep(s, id))
      else None
  }

  /** One table after the other; the lookup of the main task object touches none. */
  function RegisterStep(s: State, id: Id): State
    requires id in s.subs
  {
    var u := s.subs[id];
    s.(subs := s.subs[id := u.(add := u.add + 1)],
       subIds := if u.add == HAS_MAIN then s.subIds[u.name := id] else s.subIds,
       subTasks := if u.add == NAMED then s.subTasks + {id} else s.subTasks,
       mainSubs := if u.add == INSERTED then s.mainSubs[u.mainId := List(s, u.mainId) + [id]] else s.mainSubs,
       results := if u.add == LISTED then s.results + {id} else s.results)
  }

  function ReadyStep(s: State, id: Id): State
    requires id in s.subs && s.subs[id].mainId in s.mains
  {
    var u := s.subs[id];
    var main := s.mains[u.mainId];
    var last := main.readyCount + 1 == main.size;
    s.(subs := s.subs[id := u.(add := if last then RELEASING else ADDED)],
       mains := s.mains[u.mainId := main.(
         readyCount := main.readyCount + 1, readied := main.readied + {id},
         rel := if last then 1 else main.rel, releaser := if last then id else main.releaser)])
  }

  function ReleaseStep(s: State, id: Id): State
    requires id in s.subs && s.subs[id].mainId in s.mains
    requires |s.ready| == PRIORITIES && s.mains[s.subs[id].mainId].prio < PRIORITIES
  {
    var u := s.subs[id];
    var main := s.mains[u.mainId];
    s.(subs := s.subs[id := u.(add := HOLDING)], readyLock := ByAdder(id),
       mains := s.mains[u.mainId := main.(rel := 2, order := List(s, u.mainId))],
       ready := s.ready[main.prio := s.ready[main.prio] + List(s, u.mainId)])
  }

  function UnwaitStep(s: State, id: Id): State
    requires id in s.subs && s.subs[id].mainId in s.mains
    requires |s.waiting| == PRIORITIES && s.mains[s.subs[id].mainId].prio < PRIORITIES
  {
    var u := s.subs[id];
    var main := s.mains[u.mainId];
    s.(subs := s.subs[id := u.(add := ADDED)], readyLock := Free,
       mains := s.mains[u.mainId := main.(rel := 3)],
       waiting := s.waiting[main.prio := s.waiting[main.prio] - {u.mainId}])
  }

  // ---- getSubTaskResult ----

  function GetStep(s: State, n: Name): Option<State>
    requires forall n :: n in s.getters && HasTarget(s.getters[n]) ==> s.getters[n].id in s.subs
  {
    if n !in s.getters then None
    else
      assert HasTarget(s.getters[n]) ==> s.getters[n].id in s.subs;
      match s.getters[n]
      case Asked =>
        Some(SetGetter(s, n, if n in s.subIds then HasId(s.subIds[n]) else NotFound))
      case HasId(id) => Some(SetGetter(s, n, if id in s.results then HasSlot(id) else NotFound))
      case HasSlot(id) => if s.subs[id].slotSem == 0 then None else Some(TakeStep(s, n, id))
      case Woken(id) => Some(TakeStep(s, n, id))
      case Took(id, _) => Some(TakeStep(s, n, id))
      case NameErased(id, _) => Some(TakeStep(s, n, id))
      case Got(_, _) => None
      case NotFound => None
  }

  /** A getter that has its slot: it passes the semaphore, moves the result out and erases the slot,
      then erases the name, then the subtask. */
  function TakeStep(s: State, n: Name, id: Id): State
    requires id in s.subs && n in s.getters
  {
    var u, pc := s.subs[id], s.getters[n];
    s.(getters := s.getters[n := match pc
         case HasSlot(_) => Woken(id)
         case Woken(_) => Took(id, u.slotOutcome)
         case Took(_, o) => NameErased(id, o)
         case NameErased(_, o) => Got(id, o)
         case _ => pc],
       subs := s.subs[id := if pc.HasSlot? then u.(slotSem := if u.slotSem == 0 then 0 else u.slotSem - 1)
         else u.(slotOutcome := if pc.Woken? then None else u.slotOutcome, reaped := u.reaped + 1)],
       results := if pc.Woken? then s.results - {id} else s.results,
       subIds := if pc.Took? then s.subIds - {n} else s.subIds,
       subTasks := if pc.NameErased? then s.subTasks - {id} else s.subTasks)
  }

  function SetGetter(s: State, n: Name, pc: GetPc): State
  {
    s.(getters := s.getters[n := pc])
  }

  // ---- the event loop ----

  function LoopStep(c: Config, s: State): Option<State>
    requires |s.ready| == PRIORITIES == |s.waiting|
    requires s.loop.Emit? ==> s.loop.p < PRIORITIES
    requires s.subTasks <= s.subs.Keys
    requires forall p, id :: 0 <= p < PRIORITIES && id in s.ready[p] ==> id in s.subs
  {
    match s.loop
    case Off => None
    case Exited => None
    case Top =>
      if s.running then Some(s.(loop := Want)) else Some(s.(loop := Scan1, snap := AddedMains(s)))
    case Scan1 =>
      if s.readyLock != Free then None
      else Some(s.(loop := if exists p :: 0 <= p < PRIORITIES && s.ready[p] != [] then Want else Scan2))
    case Scan2 =>
      Some(s.(loop := if exists p :: 0 <= p < PRIORITIES && s.waiting[p] != {} then Want else Scan3))
    case Scan3 =>
      Some(s.(loop := if exists id :: id in s.subTasks && !s.subs[id].completed then Want else Exited))
    case Want =>
      if s.readyLock != Free then None
      else Some(s.(loop := Emit(PRIORITIES - 1), readyLock := ByLoop, passes := s.passes + [Flat(s.ready)]))
    case Emit(p) =>
      if s.ready[p] == [] then Some(PassStep(s, p))
      else if |s.ring| < c.poolSize then Some(EmitStep(s, p))
      else None
  }

  /** An empty queue is left for the next lower one; after the last the pass is over. */
  function PassStep(s: State, p: nat): State
  {
    s.(loop := if 0 < p then Emit(p - 1) else Top, readyLock := if 0 < p then s.readyLock else Free)
  }

  /** A subtask leaves its queue for the ring; history: it knows the subtasks then in sub_tasks' past. */
  function EmitStep(s: State, p: nat): State
    requires p < |s.ready| && s.ready[p] != [] && s.ready[p][0] in s.subs
  {
    var id := s.ready[p][0];
    s.(ready := s.ready[p := s.ready[p][1..]], ring := s.ring + [id],
       subs := s.subs[id := s.subs[id].(known := InsertedSubs(s))])
  }

  function InsertedSubs(s: State): set<Id>
  {
    set d | d in s.subs && INSERTED <= s.subs[d].add
  }

  // ---- a worker ----

  /** The part of soundness that a worker's next step needs. */
  ghost predicate SoundAt(s: State, w: nat)
  {
    && (w < |s.workers| ==> SoundWorker(s, s.workers[w]))
    && (s.ring != [] ==> s.ring[0] in s.subs)
    && (forall n :: n in s.names ==> s.names[n] in s.subs)
    && (forall n :: n in s.subIds ==> s.subIds[n] in s.subs)
  }

  ghost function WorkStep(c: Config, s: State, w: nat): Option<State>
    requires SoundAt(s, w)
  {
    if |s.workers| <= w then None
    else if s.workers[w].Idle? then
      if s.ring == [] then None else Some(PopStep(s, w))
    else if s.workers[w].DepWait? && !s.subs[s.workers[w].dep].done then None
    else Some(ActStep(c, s, w))
  }

  function PopStep(s: State, w: nat): State
    requires w < |s.workers| && s.ring != [] && s.ring[0] in s.subs
  {
    var id := s.ring[0];
    s.(workers := s.workers[w := Fetch(id)], subs := s.subs[id := s.subs[id].(rank := TAKEN, owner := w)],
       ring := s.ring[1..], taken := s.taken + [id])
  }

  /** The wrapped closure takes one step: its program counter, its subtask, and at the end its main task. */
  ghost function ActStep(c: Config, s: State, w: nat): State
    requires SoundAt(s, w) && w < |s.workers| && !s.workers[w].Idle?
  {
    var pc := s.workers[w];
    var m := s.subs[pc.id].mainId;
    s.(workers := s.workers[w := NextPc(c, s, pc)],
       subs := s.subs[pc.id := NextSub(c, s, pc)],
       clock := if Starts(s, pc) || pc.Running? then s.clock + 1 else s.clock,
       mains := if pc.AtMain? || pc.LastOne? || pc.Unlisting? then s.mains[m := NextMain(s, pc)] else s.mains,
       mainTasks := if pc.LastOne? then s.mainTasks - {m} else s.mainTasks,
       mainSubs := if pc.Unlisting? then s.mainSubs - {m} else s.mainSubs)
  }

  /** All dependencies are behind: the task function is called next. */
  predicate Starts(s: State, pc: WorkerPc)
    requires !pc.Idle? && pc.id in s.subs
  {
    pc.Dep? && pc.k == |s.subs[pc.id].deps|
  }

  ghost function NextPc(c: Config, s: State, pc: WorkerPc): WorkerPc
    requires SoundWorker(s, pc) && !pc.Idle?
    requires forall n :: n in s.names ==> s.names[n] in s.subs
  {
    match pc
    case Idle => Idle
    case Fetch(id) => if id in s.subTasks then Dep(id, 0) else Idle
    case Dep(id, k) =>
      if k == |s.subs[id].deps| then Running(id)
      else if s.subs[id].deps[k] in s.subIds then DepNamed(id, k, s.subIds[s.subs[id].deps[k]])
      else Dep(id, k + 1)
    case DepNamed(id, k, dep) => if dep in s.subTasks then DepWait(id, k, dep) else Dep(id, k + 1)
    case DepWait(id, k, _) => Dep(id, k + 1)
    case Running(id) => Ran(id, c.body(s.subs[id].name, Inputs(s, s.subs[id].deps)))
    case Ran(id, _) => Posted(id)
    case Posted(id) => Completed(id)
    case Completed(id) => Done(id)
    case Done(id) => if s.subs[id].mainId in s.mainTasks then AtMain(id) else Idle
    case AtMain(id) => if Last(s, id) then LastOne(id) else Idle
    case LastOne(id) => Unlisting(id)
    case Unlisting(_) => Idle
  }

  ghost function NextSub(c: Config, s: State, pc: WorkerPc): Sub
    requires SoundWorker(s, pc) && !pc.Idle?
    requires forall n :: n in s.names ==> s.names[n] in s.subs
  {
    var u := s.subs[pc.id];
    match pc
    case Dep(_, _) => if Starts(s, pc) then u.(rank := STARTED, starts := u.starts + 1, startAt := s.clock) else u
    case Running(_) =>
      var args := Inputs(s, u.deps);
      u.(rank := ENDED, args := args, out := Some(c.body(u.name, args)), endAt := s.clock)
    case Ran(id, o) =>
      if id in s.results then u.(rank := POSTED, posts := u.posts + 1, slotSem := u.slotSem + 1, slotOutcome := Some(o))
      else u.(rank := POSTED)
    case Posted(_) => u.(rank := COMPLETED, completed := true)
    case Completed(_) => u.(rank := DONE, done := true)
    case Done(_) => u.(rank := if u.mainId in s.mainTasks then AT_MAIN else FINISHED)
    case AtMain(id) => u.(rank := if Last(s, id) then COUNTED else FINISHED)
    case LastOne(_) => u.(rank := UNLISTED)
    case Unlisting(_) => u.(rank := FINISHED)
    case _ => u
  }

  /** What the dependencies of a subtask have produced so far. */
  function Inputs(s: State, deps: seq<Name>): seq<Option<Outcome>>
    requires forall n :: n in s.names ==> s.names[n] in s.subs
  {
    seq(|deps|, j requires 0 <= j < |deps| => if deps[j] in s.names then s.subs[s.names[deps[j]]].out else None)
  }

  /** Whether counting this subtask makes completed_subtasks equal to subtask_size. */
  predicate Last(s: State, id: Id)
    requires id in s.subs && s.subs[id].mainId in s.mains
  {
    var main := s.mains[s.subs[id].mainId];
    main.completedCount + 1 == main.size
  }

  function NextMain(s: State, pc: WorkerPc): Main
    requires SoundWorker(s, pc) && !pc.Idle?
  {
    var main := s.mains[s.subs[pc.id].mainId];
    match pc
    case AtMain(id) =>
      main.(completedCount := main.completedCount + 1, counted := main.counted + {id},
            fin := if Last(s, id) then 1 else main.fin, finisher := if Last(s, id) then id else main.finisher)
    case LastOne(_) => main.(fin := 2)
    case Unlisting(_) => main.(fin := 3)
    case _ => main
  }

  // ---- runs ----

  ghost predicate Next(c: Config, s: State, s': State)
  {
    Sound(c, s) && exists a :: Step(c, s, a) == Some(s')
  }

  /** The k-th step of r is a step of the machine. */
  ghost predicate NextAt(c: Config, r: seq<State>, k: nat)
  {
    k + 1 < |r| ==> Next(c, r[k], r[k + 1])
  }

  /** A finite piece of a run. */
  ghost predicate IsRun(c: Config, r: seq<State>)
  {
    0 < |r| && forall k {:trigger NextAt(c, r, k)} :: NextAt(c, r, k)
  }

  ghost predicate Reachable(c: Config, s: State)
  {
    exists t :: IsRun(c, t) && t[0] == Init(c) && t[|t| - 1] == s
  }
}
