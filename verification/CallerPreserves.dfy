/** The steps of addMainTask and addSubTask keep the invariant. */
module CallerPreserves {
  import opened Sequences
  import opened Protocol
  import opened Invariant
  import opened Frames
  import opened WorkerPreserves

  /** A submitter's step that releases nothing: queues, workers, getters and the event loop stay. */
  ghost predicate Calls(s: State, t: State, i: Id, m: Id)
  {
    && Delta(s, t, i, m)
    && t == s.(mains := t.mains, subs := t.subs, mainIds := t.mainIds, subIds := t.subIds, mainTasks := t.mainTasks,
               subTasks := t.subTasks, results := t.results, mainSubs := t.mainSubs, waiting := t.waiting)
    && t.subs.Keys == s.subs.Keys && t.mains.Keys == s.mains.Keys
    && (i in s.subs ==>
          && t.subs[i] == s.subs[i].(add := t.subs[i].add, threw := t.subs[i].threw, mainId := t.subs[i].mainId)
          && s.subs[i].rank == UNTAKEN && !Holding(t, i) && !Holding(s, i)
          && !Released(t, i) && !Released(s, i))
    && (m in s.mains ==>
          && t.mains[m].begun == s.mains[m].begun && t.mains[m].add <= MAIN_ADDED
          && s.mains[m].rel < 2 && t.mains[m].rel < 2)
  }

  lemma CallsQueues(c: Config, s: State, t: State, i: Id, m: Id)
    requires Ordered(c, s) && LockOk(s) && ScanOk(s) && Calls(s, t, i, m)
    requires forall id :: id in s.subs && HAS_MAIN <= s.subs[id].add ==> s.subs[id].mainId in s.mains
    ensures Ordered(c, t) && LockOk(t) && ScanOk(t)
  {
    OrderedKept(c, s, t, i, m);
    LockKept(s, t, i, m);
    ScanKept(s, t, i, m);
  }

  lemma CallsRest(c: Config, s: State, t: State, i: Id, m: Id)
    requires Locals(s) && Ordered(c, s) && Knowns(c, s) && Workers(c, s) && Getters(s) && Calls(s, t, i, m)
    ensures Knowns(c, t) && Workers(c, t) && Getters(t)
  {
    if i in s.subs {
      assert Known(s, i) && Computed(c, s.subs[i]);
      assert i !in s.taken + s.ring by {
        assert i in Order(s) <==> Released(s, i);
      }
      KnownKept(s, t, i, m);
    }
    KnownsKept(c, s, t, i, m);
    forall id | id in s.subs
      ensures forall d :: d in s.subs[id].known ==> d in s.subs
    {
      assert Known(s, id);
    }
    WorkersKept(c, s, t, i, m);
    GettersKept(s, t, i, m);
  }

  // ---- addMainTask ----

  lemma AddMainTables(s: State, t: State, i: Id, m: Id)
    requires Names(s) && Tables(s) && Calls(s, t, i, m) && i !in s.subs && m in s.mains && MainOk(s, m)
    requires t.mains[m] == s.mains[m].(add := s.mains[m].add + 1) && AddMainTablesStep(s, t, m)
    ensures Names(t) && Tables(t)
  {
    assert MainNamed(s, m) && MainTabled(s, m);
    forall n | NameOk(s, n)
      ensures NameOk(t, n)
    {
    }
    NamesKept(s, t, i, m);
    forall x | x in s.mains && x != m
      ensures s.mains[x].name != s.mains[m].name
    {
      assert MainNamed(s, x);
    }
    TablesKept(s, t, i, m);
  }

  ghost predicate AddMainTablesStep(s: State, t: State, m: Id)
    requires m in s.mains && |s.waiting| == PRIORITIES && s.mains[m].prio < PRIORITIES
  {
    var main := s.mains[m];
    && t.subIds == s.subIds && t.subTasks == s.subTasks && t.results == s.results && t.mainSubs == s.mainSubs
    && t.mainIds == (if main.add == MAIN_ALLOCATED then s.mainIds[main.name := m] else s.mainIds)
    && t.waiting == (if main.add == MAIN_NAMED then s.waiting[main.prio := s.waiting[main.prio] + {m}] else s.waiting)
    && t.mainTasks == (if main.add == MAIN_WAITING then s.mainTasks + {m} else s.mainTasks)
  }

  lemma AddMainMains(s: State, t: State, i: Id, m: Id)
    requires Names(s) && Names(t) && Locals(s) && Mains(s) && Members(s) && Lists(s) && SubMains(s)
    requires Calls(s, t, i, m) && i !in s.subs && m in s.mains && t.mainSubs == s.mainSubs
    requires t.mains[m] == s.mains[m].(add := s.mains[m].add + 1)
    requires s.mains[m].add < MAIN_ADDED
    ensures Locals(t) && Mains(t) && Members(t) && Lists(t) && SubMains(t)
  {
    LocalsKept(s, t, i, m);
    assert MainOk(s, m);
    MainsKept(s, t, i, m);
    NoMember(s, i);
    assert s.mains[m].begun == {};
    MembersKept(s, t, i, m);
    assert s.mains[m].fin < 3 ==> Listed(s, m);
    ListsKept(s, t, i, m);
    SubMainsKept(s, t, i, m);
  }

  lemma AddMainShape(s: State, m: Id, t: State, i: Id)
    requires |s.waiting| == PRIORITIES && (forall m :: m in s.mains ==> s.mains[m].prio < PRIORITIES)
    requires AddMainStep(s, m) == Some(t) && m in s.mains && MainOk(s, m) && i !in s.subs
    requires s.mains[m].add < MAIN_ADDED ==> s.mains[m].rel == 0
    ensures s.mains[m].add < MAIN_ADDED && Calls(s, t, i, m)
    ensures t.mains[m] == s.mains[m].(add := s.mains[m].add + 1) && AddMainTablesStep(s, t, m)
  {
  }

  /** A main task still being added has no subtasks, so its release has not begun. */
  lemma Unbegun(s: State, m: Id)
    requires m in s.mains && MainOk(s, m) && s.mains[m].add < MAIN_ADDED
    ensures s.mains[m].rel == 0 && s.mains[m].fin == 0
  {
    assert |s.mains[m].readied| == 0 && |s.mains[m].counted| == 0;
  }

  lemma AddMainPreserves(c: Config, s: State, m: Id, t: State)
    requires Inv(c, s) && |s.waiting| == PRIORITIES && (forall m :: m in s.mains ==> s.mains[m].prio < PRIORITIES)
    requires AddMainStep(s, m) == Some(t)
    ensures Inv(c, t)
  {
    var i := s.nextSub;
    FreshSub(s);
    assert MainOk(s, m);
    if s.mains[m].add < MAIN_ADDED {
      Unbegun(s, m);
    }
    AddMainShape(s, m, t, i);
    AddMainTables(s, t, i, m);
    AddMainMains(s, t, i, m);
    MainIdsExist(s);
    CallsQueues(c, s, t, i, m);
    CallsRest(c, s, t, i, m);
  }

  lemma NoMember(s: State, i: Id)
    requires Members(s) && i !in s.subs
    ensures forall x :: x in s.mains ==> i !in s.mains[x].begun
  {
    forall x | x in s.mains
      ensures i !in s.mains[x].begun
    {
      assert i in s.mains[x].begun ==> MemberOk(s, x, i);
    }
  }

  lemma FreshSub(s: State)
    requires Names(s)
    ensures s.nextSub !in s.subs && s.nextMain !in s.mains
  {
    assert s.nextSub in s.subs ==> SubNamed(s, s.nextSub);
    assert s.nextMain in s.mains ==> MainNamed(s, s.nextMain);
  }

  // ---- addSubTask, up to the counter ----

  /** What holds of a call that has found its main task and not yet made the counter equal. */
  ghost predicate Registering(s: State, i: Id, m: Id)
  {
    && i in s.subs && !s.subs[i].threw && HAS_MAIN <= s.subs[i].add < RELEASING && s.subs[i].mainId == m
    && m in s.mains && i in s.mains[m].begun && i !in s.mains[m].readied && s.mains[m].add == MAIN_ADDED
    && s.mains[m].rel == 0 && s.mains[m].fin == 0
    && s.subs[i].rank == UNTAKEN && s.subs[i].reaped == 0 && s.subs[i].mainName in s.mainNames
  }

  lemma RegisteringFacts(s: State, i: Id)
    requires Names(s) && Locals(s) && Mains(s) && Members(s) && SubMains(s)
    requires i in s.subs && HAS_MAIN <= s.subs[i].add < RELEASING
    ensures Registering(s, i, s.subs[i].mainId)
  {
    assert SubMain(s, i) && Local(s.subs[i], s.clock);
    var m := s.subs[i].mainId;
    assert MemberOk(s, m, i) && MainOk(s, m);
    if 1 <= s.mains[m].rel {
      AllReadied(s, m);
    }
    NoneCounted(s, m);
  }

  /** Before its release no subtask of a main task has been counted. */
  lemma NoneCounted(s: State, m: Id)
    requires Members(s) && m in s.mains && MainOk(s, m) && s.mains[m].rel < 2
    ensures s.mains[m].fin == 0 && s.mains[m].counted == {}
  {
    forall id
      ensures id !in s.mains[m].counted
    {
      assert id in s.mains[m].begun ==> MemberOk(s, m, id);
    }
    assert s.mains[m].counted == {};
  }

  lemma RegisterTables(s: State, t: State, i: Id, m: Id)
    requires Names(s) && Tables(s) && Registering(s, i, m) && s.subs[i].add <= SLOTTED && t == RegisterStep(s, i)
    requires Calls(s, t, i, m)
    ensures Names(t) && Tables(t)
  {
    assert SubNamed(s, i) && SubTabled(s, i) && MainTabled(s, m);
    forall n | NameOk(s, n)
      ensures NameOk(t, n)
    {
    }
    NamesKept(s, t, i, m);
    forall id | id in s.subs && id != i
      ensures s.subs[id].name != s.subs[i].name
    {
      assert SubNamed(s, id);
    }
    WaitingSame(s, t, i, m);
    TablesKept(s, t, i, m);
  }

  lemma RegisterMains(s: State, t: State, i: Id, m: Id)
    requires Names(s) && Names(t) && Locals(s) && Mains(s) && Members(s) && SubMains(s)
    requires Registering(s, i, m) && s.subs[i].add <= SLOTTED && t == RegisterStep(s, i) && Calls(s, t, i, m)
    ensures Locals(t) && Mains(t) && Members(t) && SubMains(t)
  {
    assert Local(s.subs[i], s.clock) && MainOk(s, m) && SubMain(s, i);
    LocalsKept(s, t, i, m);
    MainsKept(s, t, i, m);
    forall x, id | x in t.mains && id in t.mains[x].begun
      ensures MemberOk(t, x, id)
    {
      assert MemberOk(s, x, id);
    }
    SubMainsKept(s, t, i, m);
  }

  lemma RegisterLists(s: State, t: State, i: Id, m: Id)
    requires Names(s) && Members(s) && SubMains(s) && Lists(s)
    requires Registering(s, i, m) && s.subs[i].add <= SLOTTED && t == RegisterStep(s, i) && Calls(s, t, i, m)
    ensures Lists(t)
  {
    assert Listed(s, m);
    assert Listed(t, m);
    forall x | x in s.mains && x != m
      ensures i !in s.mains[x].begun
    {
      if i in s.mains[x].begun {
        MemberOf(s, x, i);
      }
    }
    ListsKept(s, t, i, m);
  }

  lemma RegisterPreserves(c: Config, s: State, i: Id, t: State)
    requires Inv(c, s) && i in s.subs && HAS_MAIN <= s.subs[i].add <= SLOTTED && t == RegisterStep(s, i)
    ensures Inv(c, t)
  {
    var m := s.subs[i].mainId;
    RegisteringFacts(s, i);
    assert Calls(s, t, i, m);
    RegisterTables(s, t, i, m);
    RegisterMains(s, t, i, m);
    RegisterLists(s, t, i, m);
    MainIdsExist(s);
    CallsQueues(c, s, t, i, m);
    CallsRest(c, s, t, i, m);
  }

  /** Looking the main task up by name: found exactly when addMainTask was called for that name. */
  lemma LookUpMain(s: State, i: Id)
    requires Names(s) && Locals(s) && Tables(s) && Mains(s) && Members(s) && SubMains(s)
    requires i in s.subs && s.subs[i].add == ALLOCATED && !s.subs[i].threw
    ensures s.subs[i].rank == UNTAKEN && s.subs[i].reaped == 0
    ensures s.subs[i].mainName in s.mainIds <==> s.subs[i].mainName in s.mainNames
    ensures s.subs[i].mainName in s.mainIds ==>
      var m := s.mainIds[s.subs[i].mainName];
      m in s.mains && i in s.mains[m].begun && s.mains[m].rel == 0 && m == s.mainNames[s.subs[i].mainName]
  {
    var n := s.subs[i].mainName;
    assert Local(s.subs[i], s.clock) && SubMain(s, i) && NameOk(s, n);
    if n in s.mainNames {
      var m := s.mainNames[n];
      assert MainOk(s, m) && MainTabled(s, m) && MemberOk(s, m, i);
      if 1 <= s.mains[m].rel {
        AllReadied(s, m);
      }
    }
  }

  lemma LookUpMainRecords(s: State, t: State, i: Id, m: Id)
    requires Names(s) && Locals(s) && Tables(s) && Mains(s) && Members(s) && Lists(s) && SubMains(s)
    requires i in s.subs && s.subs[i].add == ALLOCATED && !s.subs[i].threw && m !in s.mains
    requires var u := s.subs[i];
      t == s.(subs := s.subs[i := if u.mainName in s.mainIds then u.(add := HAS_MAIN, mainId := s.mainIds[u.mainName])
                                  else u.(threw := true)])
    requires Delta(s, t, i, m)
    ensures Names(t) && Locals(t) && Tables(t) && Mains(t) && Members(t) && Lists(t) && SubMains(t)
  {
    LookUpMain(s, i);
    assert Local(s.subs[i], s.clock) && SubTabled(s, i) && SubMain(s, i);
    NamesSame(s, t, i, m);
    LocalsKept(s, t, i, m);
    WaitingSame(s, t, i, m);
    TablesKept(s, t, i, m);
    MainsKept(s, t, i, m);
    forall x, id | x in t.mains && id in t.mains[x].begun
      ensures MemberOk(t, x, id)
    {
      assert MemberOk(s, x, id);
      if id == i {
        MemberOf(s, x, i);
      }
    }
    ListsKept(s, t, i, m);
    SubMainsKept(s, t, i, m);
  }

  lemma LookUpMainPreserves(c: Config, s: State, i: Id, t: State)
    requires Inv(c, s) && i in s.subs && s.subs[i].add == ALLOCATED && !s.subs[i].threw
    requires var u := s.subs[i];
      t == s.(subs := s.subs[i := if u.mainName in s.mainIds then u.(add := HAS_MAIN, mainId := s.mainIds[u.mainName])
                                  else u.(threw := true)])
    ensures Inv(c, t)
  {
    var m := s.nextMain;
    FreshSub(s);
    LookUpMain(s, i);
    assert Calls(s, t, i, m);
    LookUpMainRecords(s, t, i, m);
    MainIdsExist(s);
    CallsQueues(c, s, t, i, m);
    CallsRest(c, s, t, i, m);
  }

  // ---- the counter of ready subtasks ----

  lemma ReadyMain(s: State, t: State, i: Id, m: Id)
    requires Registering(s, i, m) && MainOk(s, m) && s.subs[i].add == FOUND && t == ReadyStep(s, i)
    ensures MainOk(t, m)
  {
    assert |s.mains[m].readied + {i}| == |s.mains[m].readied| + 1;
  }

  lemma ReadyCalls(s: State, t: State, i: Id, m: Id)
    requires Registering(s, i, m) && MainOk(s, m) && s.subs[i].add == FOUND && t == ReadyStep(s, i)
    ensures Calls(s, t, i, m)
  {
  }

  lemma ReadyRecords(s: State, t: State, i: Id, m: Id)
    requires Names(s) && Locals(s) && Tables(s) && Mains(s) && Members(s) && Lists(s) && SubMains(s)
    requires Registering(s, i, m) && s.subs[i].add == FOUND && t == ReadyStep(s, i) && Calls(s, t, i, m)
    requires MainOk(t, m)
    ensures Names(t) && Locals(t) && Tables(t) && Mains(t) && Members(t)
  {
    assert MainOk(s, m) && Local(s.subs[i], s.clock) && SubTabled(s, i) && MainTabled(s, m) && SubMain(s, i);
    ReadyMain(s, t, i, m);
    NamesSame(s, t, i, m);
    LocalsKept(s, t, i, m);
    WaitingSame(s, t, i, m);
    TablesKept(s, t, i, m);
    MainsKept(s, t, i, m);
    forall x, id | x in t.mains && id in t.mains[x].begun
      ensures MemberOk(t, x, id)
    {
      assert MemberOk(s, x, id);
      if id == i {
        MemberOf(s, x, i);
      }
    }
  }

  lemma ReadyLists(s: State, t: State, i: Id, m: Id)
    requires Names(s) && Names(t) && Mains(s) && Members(s) && Lists(s) && SubMains(s)
    requires Registering(s, i, m) && s.subs[i].add == FOUND && t == ReadyStep(s, i) && Calls(s, t, i, m)
    ensures Lists(t) && SubMains(t)
  {
    assert MainOk(s, m) && SubMain(s, i);
    ReadyMain(s, t, i, m);
    assert Listed(s, m);
    ListsKept(s, t, i, m);
    SubMainsKept(s, t, i, m);
  }

  lemma ReadyPreserves(c: Config, s: State, i: Id, t: State)
    requires Inv(c, s) && i in s.subs && s.subs[i].add == FOUND && s.subs[i].mainId in s.mains && t == ReadyStep(s, i)
    ensures Inv(c, t)
  {
    var m := s.subs[i].mainId;
    RegisteringFacts(s, i);
    assert MainOk(s, m);
    ReadyMain(s, t, i, m);
    ReadyCalls(s, t, i, m);
    ReadyRecords(s, t, i, m);
    ReadyLists(s, t, i, m);
    MainIdsExist(s);
    CallsQueues(c, s, t, i, m);
    CallsRest(c, s, t, i, m);
  }
}
