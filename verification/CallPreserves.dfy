/** New calls, and the steps of getSubTaskResult, keep the invariant; so every reachable state has it. */
module CallPreserves {
  import opened Sequences
  import opened Protocol
  import opened Invariant
  import opened Frames
  import opened WorkerPreserves
  import opened CallerPreserves
  import opened ReleasePreserves
  import opened RestPreserves

  // ---- getSubTaskResult ----

  /** A getter's step: it moves, and may consume the slot or reap one more table entry. */
  ghost predicate Gets(s: State, t: State, n: Name, i: Id, m: Id)
  {
    && i in s.subs && m !in s.mains && Delta(s, t, i, m) && t.subs.Keys == s.subs.Keys && t.mains == s.mains
    && s.subs[i].name == n && n in s.getters
    && t == s.(subs := t.subs, getters := t.getters, results := t.results, subIds := t.subIds, subTasks := t.subTasks)
    && t.subs[i] == s.subs[i].(slotSem := t.subs[i].slotSem, slotOutcome := t.subs[i].slotOutcome,
                               reaped := t.subs[i].reaped)
    && t.subs[i].slotSem <= s.subs[i].slotSem && t.subs[i].reaped <= 3
    && (0 < t.subs[i].reaped ==> POSTED <= s.subs[i].rank)
    && (t.subs[i].reaped == 0 ==> t.subs[i].slotOutcome == s.subs[i].slotOutcome)
    && n in t.getters && t.getters == s.getters[n := t.getters[n]]
    && t.results == (if s.subs[i].reaped == 0 && t.subs[i].reaped == 1 then s.results - {i} else s.results)
    && t.subIds == (if s.subs[i].reaped == 1 && t.subs[i].reaped == 2 then s.subIds - {n} else s.subIds)
    && t.subTasks == (if s.subs[i].reaped == 2 && t.subs[i].reaped == 3 then s.subTasks - {i} else s.subTasks)
    && s.subs[i].reaped <= t.subs[i].reaped <= s.subs[i].reaped + 1
  }

  lemma GetsTables(s: State, t: State, n: Name, i: Id, m: Id)
    requires Names(s) && Locals(s) && Tables(s) && Gets(s, t, n, i, m)
    ensures Names(t) && Locals(t) && Tables(t)
  {
    assert Local(s.subs[i], s.clock) && SubTabled(s, i) && SubNamed(s, i);
    NamesSame(s, t, i, m);
    LocalsKept(s, t, i, m);
    forall id | id in s.subs && id != i
      ensures s.subs[id].name != n
    {
      assert SubNamed(s, id);
    }
    WaitingSame(s, t, i, m);
    TablesKept(s, t, i, m);
  }

  lemma GetsMains(s: State, t: State, n: Name, i: Id, m: Id)
    requires Names(s) && Names(t) && Locals(s) && Mains(s) && Members(s)
    requires Lists(s) && SubMains(s) && Gets(s, t, n, i, m)
    ensures Mains(t) && Members(t) && Lists(t) && SubMains(t)
  {
    MainsKept(s, t, i, m);
    forall x, id | x in t.mains && id in t.mains[x].begun
      ensures MemberOk(t, x, id)
    {
      assert MemberOk(s, x, id);
    }
    ListsKept(s, t, i, m);
    assert SubMain(s, i);
    SubMainsKept(s, t, i, m);
  }

  lemma GetsRest(c: Config, s: State, t: State, n: Name, i: Id, m: Id)
    requires Names(s) && SubMains(s) && Ordered(c, s) && Knowns(c, s) && Workers(c, s) && LockOk(s) && ScanOk(s)
    requires Gets(s, t, n, i, m)
    ensures Ordered(c, t) && Knowns(c, t) && Workers(c, t) && LockOk(t) && ScanOk(t)
  {
    MainIdsExist(s);
    assert Known(s, i) && Computed(c, s.subs[i]);
    OrderedKept(c, s, t, i, m);
    KnownKept(s, t, i, m);
    KnownsKept(c, s, t, i, m);
    forall id | id in s.subs
      ensures forall d :: d in s.subs[id].known ==> d in s.subs
    {
      assert Known(s, id);
    }
    WorkersKept(c, s, t, i, m);
    LockKept(s, t, i, m);
    ScanKept(s, t, i, m);
  }

  lemma GetsGetters(s: State, t: State, n: Name, i: Id, m: Id)
    requires Names(s) && Getters(s) && Gets(s, t, n, i, m) && GetterOk(t, n)
    requires 0 < t.subs[i].reaped ==> HasTarget(t.getters[n])
    ensures Getters(t)
  {
    forall x | x in t.getters
      ensures GetterOk(t, x)
    {
      if x != n {
        assert GetterOk(s, x);
      }
    }
    forall id | id in t.subs && 0 < t.subs[id].reaped
      ensures ReapedBy(t, id)
    {
      if id != i {
        assert ReapedBy(s, id) && SubNamed(s, id) && SubNamed(s, i);
      }
    }
  }

  lemma GetsPreserves(c: Config, s: State, t: State, n: Name, i: Id, m: Id)
    requires Inv(c, s) && Gets(s, t, n, i, m) && GetterOk(t, n)
    requires 0 < t.subs[i].reaped ==> HasTarget(t.getters[n])
    ensures Inv(c, t)
  {
    GetsTables(s, t, n, i, m);
    GetsMains(s, t, n, i, m);
    GetsRest(c, s, t, n, i, m);
    GetsGetters(s, t, n, i, m);
  }

  /** The lookups of a getter, which may find nothing. */
  lemma AskPreserves(c: Config, s: State, n: Name, t: State)
    requires Inv(c, s) && n in s.getters
    requires if s.getters[n].Asked? then t == SetGetter(s, n, if n in s.subIds then HasId(s.subIds[n]) else NotFound)
      else (
        && s.getters[n].HasId?
        && t == SetGetter(s, n, if s.getters[n].id in s.results then HasSlot(s.getters[n].id) else NotFound))
    ensures Inv(c, t)
  {
    AskGetters(s, n, t);
    ControlLock(s, t);
    ScanMoved(s, t);
    ControlPreserves(c, s, t);
  }

  lemma ControlLock(s: State, t: State)
    requires Names(s) && LockOk(s) && Control(s, t)
    requires t.readyLock == s.readyLock && t.passes == s.passes && t.loop == s.loop
    ensures LockOk(t)
  {
    ControlDelta(s, t);
    LockKept(s, t, s.nextSub, s.nextMain);
  }

  lemma AskGetters(s: State, n: Name, t: State)
    requires Names(s) && Locals(s) && Tables(s) && Getters(s) && n in s.getters
    requires if s.getters[n].Asked? then t == SetGetter(s, n, if n in s.subIds then HasId(s.subIds[n]) else NotFound)
      else (
        && s.getters[n].HasId?
        && t == SetGetter(s, n, if s.getters[n].id in s.results then HasSlot(s.getters[n].id) else NotFound))
    ensures Getters(t)
  {
    assert NameOk(s, n) && GetterOk(s, n);
    if n in s.subIds {
      var i := s.subIds[n];
      assert 0 < s.subs[i].reaped ==> ReapedBy(s, i);
    }
    if s.getters[n].HasId? {
      assert SubTabled(s, s.getters[n].id) && SubNamed(s, s.getters[n].id);
    }
    forall x | x in t.getters
      ensures GetterOk(t, x)
    {
      assert x in s.getters ==> GetterOk(s, x);
    }
    forall id | id in t.subs && 0 < t.subs[id].reaped
      ensures ReapedBy(t, id)
    {
      assert ReapedBy(s, id) && SubNamed(s, id);
    }
  }

  /** A getter past its lookups, not blocked and not done. */
  ghost predicate Getting(s: State, n: Name)
    requires n in s.getters
  {
    var pc := s.getters[n];
    HasTarget(pc) && !pc.HasId? && !pc.Got? && pc.id in s.subs && (pc.HasSlot? ==> 0 < s.subs[pc.id].slotSem)
  }

  lemma GetShape(s: State, n: Name, t: State, i: Id, m: Id)
    requires n in s.getters && GetterOk(s, n) && m !in s.mains
    requires Getting(s, n) && i == s.getters[n].id && Local(s.subs[i], s.clock) && t == TakeStep(s, n, i)
    ensures Gets(s, t, n, i, m)
  {
  }

  lemma GetShapeOk(s: State, n: Name, t: State, i: Id, m: Id)
    requires n in s.getters && GetterOk(s, n) && Gets(s, t, n, i, m)
    requires Getting(s, n) && i == s.getters[n].id && Local(s.subs[i], s.clock) && t == TakeStep(s, n, i)
    ensures GetterOk(t, n) && HasTarget(t.getters[n])
  {
  }

  lemma GetPreserves(c: Config, s: State, n: Name, t: State)
    requires Inv(c, s) && (forall n :: n in s.getters && HasTarget(s.getters[n]) ==> s.getters[n].id in s.subs)
    requires GetStep(s, n) == Some(t)
    ensures Inv(c, t)
  {
    assert GetterOk(s, n);
    if s.getters[n].Asked? || s.getters[n].HasId? {
      AskPreserves(c, s, n, t);
    } else {
      var i := s.getters[n].id;
      assert Local(s.subs[i], s.clock);
      FreshSub(s);
      GetShape(s, n, t, i, s.nextMain);
      GetShapeOk(s, n, t, i, s.nextMain);
      GetsPreserves(c, s, t, n, i, s.nextMain);
    }
  }

  lemma BeginGetPreserves(c: Config, s: State, n: Name, t: State)
    requires Inv(c, s) && BeginGetStep(s, n) == Some(t)
    ensures Inv(c, t)
  {
    forall x | x in t.getters
      ensures GetterOk(t, x)
    {
      assert x in s.getters ==> GetterOk(s, x);
    }
    forall id | id in t.subs && 0 < t.subs[id].reaped
      ensures ReapedBy(t, id)
    {
      assert ReapedBy(s, id);
    }
    ControlLock(s, t);
    ScanMoved(s, t);
    ControlPreserves(c, s, t);
  }

  // ---- new calls ----

  /** A submitter's call begins: at most one new subtask i or main task m. */
  ghost predicate Begins(s: State, t: State, i: Id, m: Id)
  {
    && Delta(s, t, i, m) && i !in s.subs
    && t == s.(subs := t.subs, mains := t.mains, names := t.names, mainNames := t.mainNames,
               nextSub := t.nextSub, nextMain := t.nextMain)
    && (i in t.subs ==>
          && t.subs[i].add == ALLOCATED && t.subs[i].rank == UNTAKEN && t.subs[i].known == {} && t.subs[i].reaped == 0
          && t.mainNames == s.mainNames)
    && (m in t.mains ==>
          if m in s.mains
          then t.mains[m] == s.mains[m].(begun := t.mains[m].begun) && s.mains[m].rel == 0
          else (
            && t.mains[m].rel == 0 && t.mains[m].add == MAIN_ALLOCATED
            && t.mains[m].begun == {} && t.mains[m].prio < PRIORITIES))
  }

  lemma BeginsRest(c: Config, s: State, t: State, i: Id, m: Id)
    requires Names(s) && Mains(s) && SubMains(s) && Ordered(c, s) && Knowns(c, s) && Begins(s, t, i, m)
    requires i in t.subs ==> Computed(c, t.subs[i])
    ensures Ordered(c, t) && Knowns(c, t)
  {
    assert m in s.mains ==> MainOk(s, m);
    MainIdsExist(s);
    forall id | id in s.taken + s.ring
      ensures id in s.subs && HAS_MAIN <= s.subs[id].add
      ensures s.subs[id].mainId in s.mains && s.mains[s.subs[id].mainId].rel != 0
    {
      assert id in Order(s) && Released(s, id);
    }
    OrderedKept(c, s, t, i, m);
    KnownsKept(c, s, t, i, m);
  }

  lemma BeginsThreads(c: Config, s: State, t: State, i: Id, m: Id)
    requires Names(s) && Locals(s) && SubMains(s) && Mains(s) && Knowns(c, s)
    requires Workers(c, s) && Getters(s) && LockOk(s) && ScanOk(s) && Begins(s, t, i, m)
    ensures Workers(c, t) && Getters(t) && LockOk(t) && ScanOk(t)
  {
    assert m in s.mains ==> MainOk(s, m);
    MainIdsExist(s);
    forall id | id in s.subs
      ensures forall d :: d in s.subs[id].known ==> d in s.subs
    {
      assert Known(s, id);
    }
    WorkersKept(c, s, t, i, m);
    GettersKept(s, t, i, m);
    LockKept(s, t, i, m);
    ScanKept(s, t, i, m);
  }

  /** A call of addMainTask begins. */
  ghost predicate BeginsMain(s: State, t: State, name: Name, i: Id, m: Id)
  {
    && Begins(s, t, i, m) && m == s.nextMain && m !in s.mains && name !in s.mainNames && m in t.mains
    && t.subs == s.subs && t.names == s.names && t.mainNames == s.mainNames[name := m] && t.nextMain == m + 1
    && t.mains == s.mains[m := t.mains[m]] && 1 <= t.mains[m].size
    && t.mains[m] == Main(name, t.mains[m].size, t.mains[m].prio, MAIN_ALLOCATED, 0, 0, {}, {}, {}, 0, 0, 0, 0, [])
    && (forall id :: id in s.subs ==> s.subs[id].mainName != name)
  }

  lemma BeginMainNames(s: State, t: State, name: Name, i: Id, m: Id)
    requires Names(s) && Locals(s) && Tables(s) && BeginsMain(s, t, name, i, m)
    ensures Names(t) && Locals(t) && Tables(t)
  {
    assert NameOk(s, name);
    forall n | NameOk(s, n)
      ensures NameOk(t, n)
    {
    }
    NamesKept(s, t, i, m);
    LocalsKept(s, t, i, m);
    TablesKept(s, t, i, m);
  }

  lemma BeginMainMains(s: State, t: State, name: Name, i: Id, m: Id)
    requires Names(s) && Names(t) && Locals(s) && Mains(s) && Members(s) && Lists(s) && SubMains(s)
    requires BeginsMain(s, t, name, i, m)
    ensures Mains(t) && Members(t) && Lists(t) && SubMains(t)
  {
    MainsKept(s, t, i, m);
    NoMember(s, i);
    MembersKept(s, t, i, m);
    assert Listed(t, m);
    ListsKept(s, t, i, m);
    SubMainsKept(s, t, i, m);
  }

  lemma BeginMainPreserves(c: Config, s: State, name: Name, size: nat, prio: nat, t: State)
    requires Inv(c, s) && BeginMainStep(s, name, size, prio) == Some(t)
    ensures Inv(c, t)
  {
    FreshSub(s);
    assert BeginsMain(s, t, name, s.nextSub, s.nextMain);
    BeginMainNames(s, t, name, s.nextSub, s.nextMain);
    BeginMainMains(s, t, name, s.nextSub, s.nextMain);
    BeginsRest(c, s, t, s.nextSub, s.nextMain);
    BeginsThreads(c, s, t, s.nextSub, s.nextMain);
  }

  /** A call of addSubTask begins for main task m, or for a name that is nobody's. */
  ghost predicate BeginsSub(s: State, t: State, name: Name, mainName: Name, i: Id, m: Id)
  {
    && Begins(s, t, i, m) && i == s.nextSub && name !in s.names && i in t.subs
    && t.subs == s.subs[i := t.subs[i]]
    && t.names == s.names[name := i] && t.nextSub == i + 1 && t.nextMain == s.nextMain
    && t.subs[i] == Sub(name, mainName, t.subs[i].deps, ALLOCATED, false, 0, 0, None, false, false,
                        UNTAKEN, 0, 0, 0, 0, 0, 0, {}, [], None)
    && if mainName in s.mainNames
       then m == s.mainNames[mainName] && m in s.mains
         && s.mains[m].add == MAIN_ADDED && |s.mains[m].begun| < s.mains[m].size
            && t.mains == s.mains[m := s.mains[m].(begun := s.mains[m].begun + {i})]
       else m !in s.mains && t.mains == s.mains
  }

  lemma BeginSubNames(s: State, t: State, name: Name, mainName: Name, i: Id, m: Id)
    requires Names(s) && Locals(s) && Tables(s) && BeginsSub(s, t, name, mainName, i, m)
    ensures Names(t) && Locals(t) && Tables(t)
  {
    assert NameOk(s, name);
    forall n | NameOk(s, n)
      ensures NameOk(t, n)
    {
    }
    NamesKept(s, t, i, m);
    LocalsKept(s, t, i, m);
    assert m in s.mains ==> MainTabled(s, m);
    WaitingSame(s, t, i, m);
    TablesKept(s, t, i, m);
  }

  lemma BeginSubMains(s: State, t: State, name: Name, mainName: Name, i: Id, m: Id)
    requires Names(s) && Names(t) && Locals(s) && Mains(s) && Members(s) && SubMains(s)
    requires BeginsSub(s, t, name, mainName, i, m)
    ensures Mains(t) && Members(t) && SubMains(t)
  {
    NoMember(s, i);
    assert NameOk(s, mainName);
    if m in s.mains {
      assert MainOk(s, m);
      assert MainOk(t, m);
    }
    MainsKept(s, t, i, m);
    forall x, id | x in t.mains && id in t.mains[x].begun
      ensures MemberOk(t, x, id)
    {
      assert id != i ==> MemberOk(s, x, id);
    }
    SubMainsKept(s, t, i, m);
  }

  lemma BeginSubLists(s: State, t: State, name: Name, mainName: Name, i: Id, m: Id)
    requires Members(s) && Lists(s) && BeginsSub(s, t, name, mainName, i, m)
    ensures Lists(t)
  {
    NoMember(s, i);
    if m in s.mains && s.mains[m].fin < 3 {
      assert Listed(s, m);
      forall id | id in s.mains[m].begun
        ensures id in s.subs
      {
        assert MemberOk(s, m, id);
      }
      assert Listed(t, m);
    }
    ListsKept(s, t, i, m);
  }

  lemma BeginSubBegins(s: State, name: Name, mainName: Name, deps: seq<Name>, t: State, m: Id)
    requires forall n :: n in s.mainNames ==> s.mainNames[n] in s.mains
    requires BeginSubStep(s, name, mainName, deps) == Some(t) && s.nextSub !in s.subs && s.nextMain !in s.mains
    requires m == if mainName in s.mainNames then s.mainNames[mainName] else s.nextMain
    requires m in s.mains ==> s.mains[m].rel == 0
    ensures Begins(s, t, s.nextSub, m)
  {
  }

  lemma BeginSubShape(s: State, name: Name, mainName: Name, deps: seq<Name>, t: State, m: Id)
    requires forall n :: n in s.mainNames ==> s.mainNames[n] in s.mains
    requires BeginSubStep(s, name, mainName, deps) == Some(t) && s.nextSub !in s.subs && s.nextMain !in s.mains
    requires m == if mainName in s.mainNames then s.mainNames[mainName] else s.nextMain
    requires Begins(s, t, s.nextSub, m)
    ensures BeginsSub(s, t, name, mainName, s.nextSub, m)
  {
  }

  lemma RoomUnreleased(s: State, m: Id)
    requires Mains(s) && Members(s) && m in s.mains && HasRoom(s.mains[m])
    ensures s.mains[m].rel == 0
  {
    assert MainOk(s, m);
    if 1 <= s.mains[m].rel {
      AllReadied(s, m);
    }
  }

  lemma BeginSubPreserves(c: Config, s: State, name: Name, mainName: Name, deps: seq<Name>, t: State)
    requires Inv(c, s) && (forall n :: n in s.mainNames ==> s.mainNames[n] in s.mains)
    requires BeginSubStep(s, name, mainName, deps) == Some(t)
    ensures Inv(c, t)
  {
    var i := s.nextSub;
    var m := if mainName in s.mainNames then s.mainNames[mainName] else s.nextMain;
    FreshSub(s);
    if mainName in s.mainNames {
      RoomUnreleased(s, m);
    }
    BeginSubBegins(s, name, mainName, deps, t, m);
    BeginSubShape(s, name, mainName, deps, t, m);
    BeginSubNames(s, t, name, mainName, i, m);
    BeginSubMains(s, t, name, mainName, i, m);
    BeginSubLists(s, t, name, mainName, i, m);
    BeginsRest(c, s, t, i, m);
    BeginsThreads(c, s, t, i, m);
  }

  // ---- every step, and every run ----

  lemma StepPreserves(c: Config, s: State, a: Action, t: State)
    requires Inv(c, s) && Sound(c, s) && Step(c, s, a) == Some(t)
    ensures Inv(c, t)
  {
    match a
    case BeginMain(name, size, prio) => BeginMainPreserves(c, s, name, size, prio, t);
    case BeginSub(name, mainName, deps) => BeginSubPreserves(c, s, name, mainName, deps, t);
    case BeginGet(name) => BeginGetPreserves(c, s, name, t);
    case Start => StartPreserves(c, s, t);
    case Stop => StopPreserves(c, s, t);
    case AddMain(m) => AddMainPreserves(c, s, m, t);
    case AddSub(id) => AddSubPreserves(c, s, id, t);
    case Get(name) => GetPreserves(c, s, name, t);
    case Loop => LoopPreserves(c, s, t);
    case Work(w) => WorkPreserves(c, s, w, t);
  }

  /** A run without its last step is a run. */
  lemma RunBefore(c: Config, r: seq<State>)
    requires IsRun(c, r) && 2 <= |r|
    ensures IsRun(c, r[..|r| - 1]) && Next(c, r[|r| - 2], r[|r| - 1])
  {
    var q := r[..|r| - 1];
    forall k: nat
      ensures NextAt(c, q, k)
    {
      assert NextAt(c, r, k);
    }
    assert NextAt(c, r, |r| - 2);
  }

  /** What every step keeps holds at the end of a run. */
  lemma {:induction false} RunInduction(c: Config, r: seq<State>, p: State -> bool)
    requires IsRun(c, r) && p(r[0]) && forall s, t {:trigger p(s), p(t)} :: p(s) && Next(c, s, t) ==> p(t)
    ensures p(r[|r| - 1])
  {
    if 2 <= |r| {
      RunBefore(c, r);
      RunInduction(c, r[..|r| - 1], p);
    }
  }

  /** A run followed by a step is a run. */
  lemma RunAfter(c: Config, r: seq<State>, t: State)
    requires IsRun(c, r) && Next(c, r[|r| - 1], t)
    ensures IsRun(c, r + [t])
  {
    forall k: nat
      ensures NextAt(c, r + [t], k)
    {
      assert NextAt(c, r, k);
    }
  }

  lemma NextPreserves(c: Config, s: State, t: State)
    requires Inv(c, s) && Next(c, s, t)
    ensures Inv(c, t)
  {
    var a :| Step(c, s, a) == Some(t);
    StepPreserves(c, s, a, t);
  }

  lemma {:induction false} RunPreserves(c: Config, r: seq<State>)
    requires IsRun(c, r) && Inv(c, r[0])
    ensures Inv(c, r[|r| - 1])
  {
    if 2 <= |r| {
      RunBefore(c, r);
      RunPreserves(c, r[..|r| - 1]);
      NextPreserves(c, r[|r| - 2], r[|r| - 1]);
    }
  }

  /** Every reachable state satisfies the invariant; in particular no pointer ever dangles. */
  lemma ReachableInv(c: Config, s: State)
    requires 1 <= c.poolSize && Reachable(c, s)
    ensures Inv(c, s) && Sound(c, s)
  {
    var r :| IsRun(c, r) && r[0] == Init(c) && r[|r| - 1] == s;
    InvInit(c);
    RunPreserves(c, r);
    InvSound(c, s);
  }

  /** What follows a reachable state is reachable. */
  lemma RunOn(c: Config, s: State, t: State)
    requires Reachable(c, s) && Next(c, s, t)
    ensures Reachable(c, t)
  {
    var r :| IsRun(c, r) && r[0] == Init(c) && r[|r| - 1] == s;
    RunAfter(c, r, t);
    assert (r + [t])[0] == Init(c) && (r + [t])[|r + [t]| - 1] == t;
  }

  /** So is what any run from there comes to. */
  lemma RunReachable(c: Config, r: seq<State>)
    requires IsRun(c, r) && Reachable(c, r[0])
    ensures Reachable(c, r[|r| - 1])
  {
    var p := (x: State) => Reachable(c, x);
    forall x, y | p(x) && Next(c, x, y)
      ensures p(y)
    {
      RunOn(c, x, y);
    }
    RunInduction(c, r, p);
  }
}
