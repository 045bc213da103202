module Calls {
  /** Whole calls: addMainTask and addSubTask, begun in any reachable state, come to their end. */

  import opened Sequences
  import opened Protocol
  import opened Invariant
  import opened CallerPreserves
  import opened CallPreserves
  import opened Progress
  import opened CallerSteps
  import opened Moves

  // ---- runs from state to state ----

  /** t follows s by steps of whichever threads. */
  ghost predicate Goes(c: Config, s: State, t: State)
  {
    exists r :: IsRun(c, r) && r[0] == s && r[|r| - 1] == t
  }

  lemma GoesSelf(c: Config, s: State)
    ensures Goes(c, s, s)
  {
    assert IsRun(c, [s]);
  }

  lemma GoesStep(c: Config, s: State, u: State, t: State)
    requires Goes(c, s, u) && Next(c, u, t)
    ensures Goes(c, s, t)
  {
    var r :| IsRun(c, r) && r[0] == s && r[|r| - 1] == u;
    RunAfter(c, r, t);
    assert (r + [t])[0] == s && (r + [t])[|r + [t]| - 1] == t;
  }

  lemma {:induction false} GoesAlong(c: Config, s: State, r: seq<State>)
    requires IsRun(c, r) && Goes(c, s, r[0])
    ensures Goes(c, s, r[|r| - 1])
  {
    if 2 <= |r| {
      RunBefore(c, r);
      GoesAlong(c, s, r[..|r| - 1]);
      GoesStep(c, s, r[|r| - 2], r[|r| - 1]);
    }
  }

  lemma GoesOn(c: Config, s: State, u: State, t: State)
    requires Goes(c, s, u) && Goes(c, u, t)
    ensures Goes(c, s, t)
  {
    var r :| IsRun(c, r) && r[0] == u && r[|r| - 1] == t;
    GoesAlong(c, s, r);
  }

  lemma GoesReachable(c: Config, s: State, t: State)
    requires Reachable(c, s) && Goes(c, s, t)
    ensures Reachable(c, t)
  {
    assert Goes(c, Init(c), s);
    GoesOn(c, Init(c), s, t);
    var r :| IsRun(c, r) && r[0] == Init(c) && r[|r| - 1] == t;
  }

  lemma LeadsGoes(c: Config, s: State, t: State)
    requires Leads(c, s, t)
    ensures Goes(c, s, t)
  {
    var r :| QuietRun(c, r) && r[0] == s && r[|r| - 1] == t;
    QuietIsRun(c, r);
  }

  /** One step, which is known to be possible. */
  lemma Take(c: Config, s: State, a: Action) returns (t: State)
    requires 1 <= c.poolSize && Reachable(c, s) && CanMove(c, s, a)
    ensures Inv(c, s) && Sound(c, s) && Step(c, s, a) == Some(t)
    ensures Next(c, s, t) && Goes(c, s, t) && Reachable(c, t) && Inv(c, t) && Sound(c, t)
  {
    ReachableInv(c, s);
    WhoCanMove(c, s, a);
    t := Step(c, s, a).value;
    assert Next(c, s, t);
    GoesSelf(c, s);
    GoesStep(c, s, s, t);
    GoesReachable(c, s, t);
    ReachableInv(c, t);
  }

  // ---- addMainTask ----

  /** A main task as it is when its addMainTask has returned. */
  predicate MainIn(s: State, m: Id, name: Name, size: nat, prio: nat)
  {
    && m in s.mains && s.mains[m].add == MAIN_ADDED && s.mains[m].begun == {} && s.mains[m].readyCount == 0
    && s.mains[m].name == name && s.mains[m].size == size && s.mains[m].prio == prio
    && name in s.mainIds && s.mainIds[name] == m && m in s.mainTasks
    && prio < |s.waiting| && m in s.waiting[prio]
  }

  /** Only addMainTask moves: what there was stays as it was. */
  ghost predicate Besides(s: State, t: State, m: Id)
  {
    && t.subs == s.subs && t.readyLock == s.readyLock && t.ready == s.ready
    && Elsewhere(s, t) && s.mains.Keys <= t.mains.Keys
    && forall x :: x in s.mains && x != m ==> t.mains[x] == s.mains[x]
  }

  lemma AddMainEffect(s: State, m: Id, t: State)
    requires |s.waiting| == PRIORITIES && (forall m :: m in s.mains ==> s.mains[m].prio < PRIORITIES)
    requires AddMainStep(s, m) == Some(t)
    ensures Besides(s, t, m) && m in s.mains && m in t.mains && t.mains[m] == s.mains[m].(add := s.mains[m].add + 1)
  {
  }

  lemma BesidesOn(s: State, u: State, t: State, m: Id)
    requires Besides(s, u, m) && Besides(u, t, m)
    ensures Besides(s, t, m)
  {
  }

  lemma BesidesSelf(s: State, m: Id)
    ensures Besides(s, s, m)
  {
  }

  lemma MainTables(s: State, m: Id)
    requires Names(s) && Tables(s) && Mains(s) && m in s.mains
    requires s.mains[m].add == MAIN_ADDED && s.mains[m].begun == {}
    ensures MainIn(s, m, s.mains[m].name, s.mains[m].size, s.mains[m].prio)
  {
    assert MainOk(s, m) && MainNamed(s, m) && MainTabled(s, m) && NameOk(s, s.mains[m].name);
    assert Waits(s, m, s.mains[m].prio);
  }

  /** A call of addMainTask under way returns, wherever it is and whatever else is in the tables. */
  lemma {:induction false} AddMainReturns(c: Config, s: State, m: Id) returns (t: State)
    requires 1 <= c.poolSize && Reachable(c, s) && m in s.mains && s.mains[m].add <= MAIN_ADDED
    ensures Goes(c, s, t) && Reachable(c, t) && Besides(s, t, m)
    ensures m in t.mains && t.mains[m] == s.mains[m].(add := MAIN_ADDED)
    decreases MAIN_ADDED - s.mains[m].add
  {
    if s.mains[m].add == MAIN_ADDED {
      t := s;
      GoesSelf(c, s);
      BesidesSelf(s, m);
    } else {
      var u := Take(c, s, AddMain(m));
      AddMainEffect(s, m, u);
      t := AddMainReturns(c, u, m);
      GoesOn(c, s, u, t);
      BesidesOn(s, u, t, m);
    }
  }

  lemma BeginMainEffect(s: State, name: Name, size: nat, prio: nat, t: State)
    requires s.nextMain !in s.mains && BeginMainStep(s, name, size, prio) == Some(t)
    ensures Besides(s, t, s.nextMain) && s.nextMain in t.mains
    ensures var main := t.mains[s.nextMain];
      main.add == MAIN_ALLOCATED && main.begun == {} && main.name == name && main.size == size && main.prio == prio
  {
  }

  /** From every reachable state a main task with a new name can be added: it comes to be in all three tables,
      and what was there stays. */
  lemma MainCanBeAdded(c: Config, s: State, name: Name, size: nat, prio: nat) returns (m: Id, t: State)
    requires 1 <= c.poolSize && Reachable(c, s) && !MainKnown(s, name) && 1 <= size && prio < PRIORITIES
    requires forall id :: id in s.subs ==> s.subs[id].mainName != name
    ensures Goes(c, s, t) && Reachable(c, t) && m !in s.mains && MainIn(t, m, name, size, prio) && Besides(s, t, m)
  {
    var u := Take(c, s, BeginMain(name, size, prio));
    m := s.nextMain;
    FreshSub(s);
    BeginMainEffect(s, name, size, prio, u);
    t := AddMainReturns(c, u, m);
    GoesOn(c, s, u, t);
    BesidesOn(s, u, t, m);
    ReachableInv(c, t);
    MainTables(t, m);
  }

  // ---- addSubTask ----

  /** The call is the one that releases its main task: it has made the counter equal, or is the last to
      count. */
  predicate Releases(s: State, id: Id)
  {
    id in s.subs && if s.subs[id].add <= FOUND then LastToCount(s, s.subs[id].mainName) else s.subs[id].add < ADDED
  }

  predicate LastToCount(s: State, mainName: Name)
  {
    exists m :: m in s.mains && s.mains[m].name == mainName && s.mains[m].readyCount + 1 == s.mains[m].size
  }

  /** Nobody but calls of addSubTask has moved, and none has begun. */
  ghost predicate Aside(s: State, t: State)
  {
    && Elsewhere(s, t) && t.subs.Keys == s.subs.Keys && t.mains.Keys == s.mains.Keys
    && (forall x :: x in s.subs ==> Registers(s.subs[x], t.subs[x]))
    && (forall m :: m in s.mains ==> t.mains[m].name == s.mains[m].name && t.mains[m].size == s.mains[m].size)
  }

  lemma AsideOn(s: State, u: State, t: State)
    requires Aside(s, u) && Aside(u, t)
    ensures Aside(s, t)
  {
  }

  lemma AsideSelf(s: State)
    ensures Aside(s, s)
  {
  }

  /** Where a call stands after its next step, if it does not throw: the last to count goes on to release. */
  function NextAdd(s: State, id: Id): nat
    requires id in s.subs
  {
    var k := s.subs[id].add;
    if k == FOUND && !LastToCount(s, s.subs[id].mainName) then ADDED else k + 1
  }

  /** How far one step of a call gets that is past its lookup, or comes past it. */
  predicate Further(s: State, t: State, id: Id)
  {
    && id in s.subs && id in t.subs && !t.subs[id].threw && s.subs[id].add < t.subs[id].add <= ADDED
    && t.subs[id].add == NextAdd(s, id)
    && (t.subs[id].add <= FOUND ==> t.mains == s.mains)
    && (t.subs[id].add <= RELEASING ==> t.readyLock == s.readyLock)
    && (t.subs[id].add == RELEASING || t.subs[id].add == HOLDING ==> Releases(s, id))
  }

  lemma LookUpEffect(s: State, id: Id, t: State)
    requires id in s.subs && !s.subs[id].threw && s.subs[id].add == ALLOCATED && s.subs[id].mainName in s.mainIds
    requires t == s.(subs := s.subs[id := s.subs[id].(add := HAS_MAIN, mainId := s.mainIds[s.subs[id].mainName])])
    ensures Aside(s, t) && Further(s, t, id)
  {
  }

  lemma ThrowEffect(s: State, id: Id, t: State)
    requires id in s.subs && t == s.(subs := s.subs[id := s.subs[id].(threw := true)])
    ensures Aside(s, t)
  {
  }

  lemma RegisterEffect(s: State, id: Id, t: State)
    requires id in s.subs && !s.subs[id].threw && HAS_MAIN <= s.subs[id].add <= SLOTTED && t == RegisterStep(s, id)
    ensures Aside(s, t) && Further(s, t, id)
  {
  }

  lemma CountEffect(s: State, id: Id, t: State)
    requires id in s.subs && s.subs[id].mainId in s.mains && !s.subs[id].threw && s.subs[id].add == FOUND
    requires s.mains[s.subs[id].mainId].name == s.subs[id].mainName && t == ReadyStep(s, id)
    requires forall m :: m in s.mains && s.mains[m].name == s.subs[id].mainName ==> m == s.subs[id].mainId
    ensures Aside(s, t) && Further(s, t, id)
  {
    assert t.subs[id].add == RELEASING ==> LastToCount(s, s.subs[id].mainName);
  }

  lemma ReleaseEffect(s: State, id: Id, t: State)
    requires id in s.subs && s.subs[id].mainId in s.mains && !s.subs[id].threw && s.subs[id].add == RELEASING
    requires |s.ready| == PRIORITIES && s.mains[s.subs[id].mainId].prio < PRIORITIES && t == ReleaseStep(s, id)
    ensures Aside(s, t) && Further(s, t, id)
  {
  }

  lemma UnwaitEffect(s: State, id: Id, t: State)
    requires id in s.subs && s.subs[id].mainId in s.mains && !s.subs[id].threw && s.subs[id].add == HOLDING
    requires |s.waiting| == PRIORITIES && s.mains[s.subs[id].mainId].prio < PRIORITIES && t == UnwaitStep(s, id)
    ensures Aside(s, t) && Further(s, t, id) && t.readyLock == Free
  {
  }

  /** The name under which a subtask was added is that of its main task. */
  lemma OwnMain(s: State, id: Id)
    requires Names(s) && SubMains(s) && id in s.subs && HAS_MAIN <= s.subs[id].add
    ensures s.subs[id].mainId in s.mains && s.mains[s.subs[id].mainId].name == s.subs[id].mainName
  {
    assert SubMain(s, id) && NameOk(s, s.subs[id].mainName);
  }

  /** The main task that a call looks up by name is in the table, unless nobody adds it. */
  lemma LookedUpThere(s: State, id: Id)
    requires Names(s) && Tables(s) && Mains(s) && Members(s) && SubMains(s) && id in s.subs
    ensures s.subs[id].mainName in s.mainIds <==> MainKnown(s, s.subs[id].mainName)
  {
    var name := s.subs[id].mainName;
    MainNames(s, name);
    assert NameOk(s, name) && SubMain(s, id);
    if name in s.mainNames {
      var m := s.mainNames[name];
      assert MainOk(s, m) && MainTabled(s, m);
    }
  }

  lemma AddSubFurther(s: State, id: Id, t: State)
    requires |s.ready| == PRIORITIES == |s.waiting|
    requires forall id :: id in s.subs && 1 <= s.subs[id].add ==>
      s.subs[id].mainId in s.mains && s.mains[s.subs[id].mainId].name == s.subs[id].mainName
    requires forall m :: m in s.mains ==> s.mains[m].prio < PRIORITIES
    requires id in s.subs && 1 <= s.subs[id].add ==>
      forall m :: m in s.mains && s.mains[m].name == s.subs[id].mainName ==> m == s.subs[id].mainId
    requires AddSubStep(s, id) == Some(t) && (s.subs[id].add == ALLOCATED ==> s.subs[id].mainName in s.mainIds)
    ensures Aside(s, t) && Further(s, t, id)
    ensures s.subs[id].add == HOLDING ==> t.readyLock == Free
  {
    var k := s.subs[id].add;
    if k == ALLOCATED {
      LookUpEffect(s, id, t);
    } else if k <= SLOTTED {
      RegisterEffect(s, id, t);
    } else if k == FOUND {
      CountEffect(s, id, t);
    } else if k == RELEASING {
      ReleaseEffect(s, id, t);
    } else {
      UnwaitEffect(s, id, t);
    }
  }

  /** One step of the call. */
  lemma Advance(c: Config, s: State, id: Id) returns (t: State)
    requires 1 <= c.poolSize && Reachable(c, s) && CanMove(c, s, AddSub(id))
    requires s.subs[id].add == ALLOCATED ==> s.subs[id].mainName in s.mainIds
    ensures Goes(c, s, t) && Reachable(c, t) && Aside(s, t) && Further(s, t, id)
    ensures s.subs[id].add == HOLDING ==> t.readyLock == Free
  {
    t := Take(c, s, AddSub(id));
    forall x | x in s.subs && 1 <= s.subs[x].add
      ensures s.subs[x].mainId in s.mains && s.mains[s.subs[x].mainId].name == s.subs[x].mainName
    {
      OwnMain(s, x);
    }
    MainNames(s, s.subs[id].mainName);
    AddSubFurther(s, id, t);
  }

  /** The lock on the ready queues, if another call holds it, is given up by that call's one remaining step. */
  lemma FreeLock(c: Config, s: State, id: Id) returns (t: State)
    requires 1 <= c.poolSize && Reachable(c, s) && !s.loop.Emit? && id in s.subs && s.subs[id].add == RELEASING
    ensures Goes(c, s, t) && Reachable(c, t) && Aside(s, t) && t.readyLock == Free && t.subs[id].add == RELEASING
    ensures t.subs[id].threw == s.subs[id].threw
  {
    ReachableInv(c, s);
    if s.readyLock == Free {
      t := s;
      GoesSelf(c, s);
      AsideSelf(s);
    } else {
      var x := s.readyLock.id;
      assert Holding(s, x);
      t := FreeBy(c, s, x, id);
    }
  }

  lemma UnwaitIs(s: State, x: Id, t: State)
    requires |s.ready| == PRIORITIES == |s.waiting| && Holding(s, x) && !s.subs[x].threw
    requires forall id :: id in s.subs && 1 <= s.subs[id].add ==> s.subs[id].mainId in s.mains
    requires forall m :: m in s.mains ==> s.mains[m].prio < PRIORITIES
    requires AddSubStep(s, x) == Some(t)
    ensures Aside(s, t) && t.readyLock == Free && forall id :: id in s.subs && id != x ==> t.subs[id] == s.subs[id]
  {
    UnwaitEffect(s, x, t);
  }

  lemma FreeBy(c: Config, s: State, x: Id, id: Id) returns (t: State)
    requires 1 <= c.poolSize && Reachable(c, s) && Holding(s, x) && id in s.subs && id != x
    ensures Goes(c, s, t) && Reachable(c, t) && Aside(s, t) && t.readyLock == Free && t.subs[id] == s.subs[id]
  {
    ReachableInv(c, s);
    assert Local(s.subs[x], s.clock);
    t := Take(c, s, AddSub(x));
    UnwaitIs(s, x, t);
  }

  /** What a call of addSubTask comes to: it throws exactly when nobody has added its main task. */
  predicate Returned(s: State, id: Id)
  {
    && id in s.subs && (s.subs[id].threw <==> !MainKnown(s, s.subs[id].mainName))
    && (!s.subs[id].threw ==> s.subs[id].add == ADDED)
  }

  lemma SameMainNames(s: State, t: State, name: Name)
    requires Aside(s, t)
    ensures MainKnown(t, name) <==> MainKnown(s, name)
  {
  }

  /** The call that is the last to count comes to its release, whoever has the lock on the ready queues. */
  lemma {:induction false} ComesToRelease(c: Config, s: State, id: Id) returns (t: State)
    requires 1 <= c.poolSize && Reachable(c, s) && Releases(s, id) && !s.subs[id].threw
    requires HAS_MAIN <= s.subs[id].add <= RELEASING
    ensures Goes(c, s, t) && Reachable(c, t) && Aside(s, t) && !t.subs[id].threw && t.subs[id].add == RELEASING
    ensures t.readyLock == s.readyLock
    decreases ADDED - s.subs[id].add
  {
    if s.subs[id].add == RELEASING {
      t := s;
      GoesSelf(c, s);
      AsideSelf(s);
    } else {
      var u := Advance(c, s, id);
      t := ComesToRelease(c, u, id);
      GoesOn(c, s, u, t);
      AsideOn(s, u, t);
    }
  }

  /** A call past its lookup returns: every call, if the event loop is not in a pass, and else every one but
      that which releases its main task. */
  lemma {:induction false} AddingReturns(c: Config, s: State, id: Id) returns (t: State)
    requires 1 <= c.poolSize && Reachable(c, s) && id in s.subs && !s.subs[id].threw
    requires HAS_MAIN <= s.subs[id].add <= ADDED
    requires s.loop.Emit? ==> !Releases(s, id)
    ensures Goes(c, s, t) && Reachable(c, t) && Aside(s, t) && !t.subs[id].threw && t.subs[id].add == ADDED
    decreases ADDED - s.subs[id].add
  {
    if s.subs[id].add == ADDED {
      t := s;
      GoesSelf(c, s);
      AsideSelf(s);
    } else {
      var u := AdvanceOrFree(c, s, id);
      t := AddingReturns(c, u, id);
      GoesOn(c, s, u, t);
      AsideOn(s, u, t);
    }
  }

  lemma AdvanceOrFree(c: Config, s: State, id: Id) returns (t: State)
    requires 1 <= c.poolSize && Reachable(c, s) && id in s.subs && !s.subs[id].threw
    requires HAS_MAIN <= s.subs[id].add < ADDED
    requires s.loop.Emit? ==> !Releases(s, id)
    ensures Goes(c, s, t) && Reachable(c, t) && Aside(s, t) && s.subs[id].add < t.subs[id].add <= ADDED
    ensures !t.subs[id].threw && (t.loop.Emit? ==> !Releases(t, id))
  {
    var u := s;
    if s.subs[id].add == RELEASING {
      u := FreeLock(c, s, id);
    } else {
      GoesSelf(c, s);
      AsideSelf(s);
    }
    t := Advance(c, u, id);
    GoesOn(c, s, u, t);
    AsideOn(s, u, t);
  }

  lemma LookUpIs(s: State, id: Id, t: State)
    requires |s.ready| == PRIORITIES == |s.waiting|
    requires forall id :: id in s.subs && 1 <= s.subs[id].add ==> s.subs[id].mainId in s.mains
    requires forall m :: m in s.mains ==> s.mains[m].prio < PRIORITIES
    requires AddSubStep(s, id) == Some(t) && s.subs[id].add == ALLOCATED && s.subs[id].mainName !in s.mainIds
    ensures Aside(s, t) && t.subs[id].threw
  {
    ThrowEffect(s, id, t);
  }

  lemma LookUp(c: Config, s: State, id: Id) returns (t: State)
    requires 1 <= c.poolSize && Reachable(c, s) && id in s.subs && !s.subs[id].threw && s.subs[id].add == ALLOCATED
    requires s.loop.Emit? ==> !Releases(s, id)
    ensures Goes(c, s, t) && Reachable(c, t) && Aside(s, t)
    ensures if s.subs[id].mainName in s.mainIds
      then !t.subs[id].threw && HAS_MAIN <= t.subs[id].add <= ADDED && (t.loop.Emit? ==> !Releases(t, id))
      else t.subs[id].threw
  {
    if s.subs[id].mainName in s.mainIds {
      t := Advance(c, s, id);
    } else {
      t := Take(c, s, AddSub(id));
      LookUpIs(s, id, t);
    }
  }

  lemma LookUpReturns(c: Config, s: State, id: Id) returns (t: State)
    requires 1 <= c.poolSize && Reachable(c, s) && id in s.subs && !s.subs[id].threw && s.subs[id].add == ALLOCATED
    requires s.loop.Emit? ==> !Releases(s, id)
    ensures Goes(c, s, t) && Reachable(c, t) && Aside(s, t)
    ensures if s.subs[id].mainName in s.mainIds then !t.subs[id].threw && t.subs[id].add == ADDED else t.subs[id].threw
  {
    var u := LookUp(c, s, id);
    t := u;
    if !u.subs[id].threw {
      t := AddingReturns(c, u, id);
      GoesOn(c, s, u, t);
      AsideOn(s, u, t);
    }
  }

  /** A call of addSubTask under way returns, wherever it is and whatever else is in the tables: every call, if
      the event loop is not in a pass, and else every one but that which releases its main task. It throws
      exactly when its main task is not known. */
  lemma AddSubReturns(c: Config, s: State, id: Id) returns (t: State)
    requires 1 <= c.poolSize && Reachable(c, s) && id in s.subs && !s.subs[id].threw && s.subs[id].add <= ADDED
    requires s.loop.Emit? ==> !Releases(s, id)
    ensures Goes(c, s, t) && Reachable(c, t) && Aside(s, t) && Returned(t, id)
  {
    MainOrNot(c, s, id);
    if s.subs[id].add == ALLOCATED {
      t := LookUpReturns(c, s, id);
    } else {
      t := AddingReturns(c, s, id);
    }
    SameMainNames(s, t, s.subs[id].mainName);
  }

  lemma MainOrNot(c: Config, s: State, id: Id)
    requires 1 <= c.poolSize && Reachable(c, s) && id in s.subs
    ensures s.subs[id].mainName in s.mainIds <==> MainKnown(s, s.subs[id].mainName)
    ensures HAS_MAIN <= s.subs[id].add ==> MainKnown(s, s.subs[id].mainName)
  {
    ReachableInv(c, s);
    LookedUpThere(s, id);
    if HAS_MAIN <= s.subs[id].add {
      OwnMain(s, id);
    }
  }

  // ---- a call of addSubTask from its beginning ----

  /** A subtask as it is when its addSubTask has returned, in all its tables. */
  predicate SubIn(s: State, id: Id, name: Name, mainName: Name, deps: seq<Name>)
  {
    && id in s.subs && s.subs[id].add == ADDED && !s.subs[id].threw
    && s.subs[id].name == name && s.subs[id].mainName == mainName && s.subs[id].deps == deps
    && name in s.subIds && s.subIds[name] == id && id in s.subTasks && id in s.results
    && s.subs[id].mainId in s.mains && s.mains[s.subs[id].mainId].name == mainName
  }

  /** What there was stays, and of other calls only one may have given up the lock that it was about to. */
  ghost predicate WithSub(s: State, t: State, id: Id)
  {
    && Elsewhere(s, t) && t.mains.Keys == s.mains.Keys
    && t.subs.Keys == s.subs.Keys + {id} && forall x :: x in s.subs ==> Registers(s.subs[x], t.subs[x])
  }

  /** The call has just begun: it has its id, and the main tasks are as they were. */
  ghost predicate SubBegun(s: State, t: State, id: Id, name: Name, mainName: Name, deps: seq<Name>)
  {
    && id !in s.subs && WithSub(s, t, id)
    && (forall m :: m in s.mains ==> SameTask(s.mains[m], t.mains[m]))
    && t.subs[id].add == ALLOCATED && !t.subs[id].threw && t.subs[id].reaped == 0
    && t.subs[id].name == name && t.subs[id].mainName == mainName && t.subs[id].deps == deps
  }

  predicate SameTask(a: Main, b: Main)
  {
    b.name == a.name && b.size == a.size && b.readyCount == a.readyCount
  }

  lemma BeginSubEffect(s: State, name: Name, mainName: Name, deps: seq<Name>, t: State)
    requires s.nextSub !in s.subs && (forall n :: n in s.mainNames ==> s.mainNames[n] in s.mains)
    requires BeginSubStep(s, name, mainName, deps) == Some(t)
    ensures SubBegun(s, t, s.nextSub, name, mainName, deps)
  {
  }

  lemma BeginCall(c: Config, s: State, name: Name, mainName: Name, deps: seq<Name>) returns (id: Id, t: State)
    requires 1 <= c.poolSize && Reachable(c, s) && CanMove(c, s, BeginSub(name, mainName, deps))
    ensures Goes(c, s, t) && Reachable(c, t) && SubBegun(s, t, id, name, mainName, deps)
  {
    t := Take(c, s, BeginSub(name, mainName, deps));
    id := s.nextSub;
    FreshSub(s);
    BeginSubEffect(s, name, mainName, deps, t);
  }

  lemma WithSubAside(s: State, u: State, t: State, id: Id)
    requires WithSub(s, u, id) && Aside(u, t)
    ensures WithSub(s, t, id)
  {
  }

  lemma SubTables(s: State, id: Id)
    requires Names(s) && Tables(s) && SubMains(s) && id in s.subs
    requires s.subs[id].add == ADDED && !s.subs[id].threw && s.subs[id].reaped == 0
    ensures SubIn(s, id, s.subs[id].name, s.subs[id].mainName, s.subs[id].deps)
  {
    OwnMain(s, id);
    assert SubTabled(s, id) && SubNamed(s, id) && NameOk(s, s.subs[id].name);
  }

  /** From every reachable state in which a subtask may be added its call of addSubTask can be run to its end,
      with the event loop on or off and other main tasks in the tables: it throws if nobody has added its main
      task, and else it comes to be in all tables. Only the releasing call must not meet a pass. */
  lemma SubCanBeAdded(c: Config, s: State, name: Name, mainName: Name, deps: seq<Name>) returns (id: Id, t: State)
    requires 1 <= c.poolSize && Reachable(c, s) && CanMove(c, s, BeginSub(name, mainName, deps))
    requires s.loop.Emit? ==> !LastToCount(s, mainName)
    ensures Goes(c, s, t) && Reachable(c, t) && id !in s.subs && WithSub(s, t, id)
    ensures if MainKnown(s, mainName) then SubIn(t, id, name, mainName, deps) else t.subs[id].threw
  {
    var u: State;
    id, u := BeginCall(c, s, name, mainName, deps);
    assert Releases(u, id) ==> LastToCount(s, mainName);
    t := AddSubReturns(c, u, id);
    GoesOn(c, s, u, t);
    AddedSub(c, s, u, t, id, name, mainName, deps);
  }

  lemma AddedSub(c: Config, s: State, u: State, t: State, id: Id, name: Name, mainName: Name, deps: seq<Name>)
    requires 1 <= c.poolSize && Reachable(c, t) && SubBegun(s, u, id, name, mainName, deps)
    requires Aside(u, t) && Returned(t, id)
    ensures WithSub(s, t, id)
    ensures if MainKnown(s, mainName) then SubIn(t, id, name, mainName, deps) else t.subs[id].threw
  {
    WithSubAside(s, u, t, id);
    NamesStay(s, u, t, id, mainName);
    assert Registers(u.subs[id], t.subs[id]);
    ReachableInv(c, t);
    if MainKnown(s, mainName) {
      SubTables(t, id);
    }
  }

  lemma NamesStay(s: State, u: State, t: State, id: Id, name: Name)
    requires WithSub(s, u, id) && Aside(u, t)
    requires forall m :: m in s.mains ==> u.mains[m].name == s.mains[m].name
    ensures MainKnown(t, name) <==> MainKnown(s, name)
  {
    forall m | m in s.mains
      ensures t.mains[m].name == s.mains[m].name
    {
    }
  }
}
