/** What a step of addMainTask or addSubTask leaves alone: everything but registration. */
module CallerSteps {
  import opened Sequences
  import opened Protocol
  import opened Invariant
  import opened CallerPreserves
  import opened History

  /** Of a subtask only the adding advances. */
  predicate Registers(u: Sub, v: Sub)
  {
    v == u.(add := v.add, threw := v.threw, mainId := v.mainId) && u.add <= v.add
  }

  /** A subtask that has just got its id. */
  predicate Fresh(u: Sub)
  {
    u.slotSem == 0 && u.posts == 0 && u.rank == UNTAKEN && !u.done
  }

  predicate SameFinish(a: Main, b: Main)
  {
    b.fin == a.fin && b.finisher == a.finisher
  }

  /** Workers, ring, getters and event loop are where they were. */
  ghost predicate Elsewhere(s: State, t: State)
  {
    && t.workers == s.workers && t.taken == s.taken && t.ring == s.ring && t.getters == s.getters
    && t.loop == s.loop && t.running == s.running
  }

  /** A ready queue is only added to. */
  ghost predicate Grows(s: State, t: State, p: nat)
  {
    p < |s.ready| ==> p < |t.ready| && s.ready[p] <= t.ready[p]
  }

  predicate StillReleasing(s: State, t: State, id: Id)
  {
    id in s.subs && s.subs[id].add == RELEASING ==> id in t.subs && t.subs[id].add == RELEASING
  }

  /** While somebody has the lock on the ready queues nothing is added to them, and who waits to release its
      main task waits. */
  ghost predicate Locked(s: State, t: State)
  {
    || s.readyLock == Free
    || (t.ready == s.ready && forall id {:trigger StillReleasing(s, t, id)} :: StillReleasing(s, t, id))
  }

  ghost predicate CallerFrame(s: State, t: State)
  {
    && Elsewhere(s, t) && Locked(s, t) && (forall p {:trigger Grows(s, t, p)} :: Grows(s, t, p))
    && s.subs.Keys <= t.subs.Keys && s.mains.Keys <= t.mains.Keys
    && (forall id {:trigger Registers(s.subs[id], t.subs[id])} :: id in s.subs ==> Registers(s.subs[id], t.subs[id]))
    && (forall id {:trigger Fresh(t.subs[id])} :: id in t.subs && id !in s.subs ==>
          Fresh(t.subs[id]) && t.subs[id].name !in s.names)
    && (forall m {:trigger SameFinish(s.mains[m], t.mains[m])} :: m in s.mains ==> SameFinish(s.mains[m], t.mains[m]))
  }

  /** One subtask and one main task are touched, if any. */
  lemma TouchFrame(s: State, t: State, id: Id, m: Id)
    requires Elsewhere(s, t) && forall p {:trigger Grows(s, t, p)} :: Grows(s, t, p)
    requires s.readyLock == Free || (t.ready == s.ready && (id in s.subs ==> s.subs[id].add != RELEASING))
    requires id in s.subs && id in t.subs && t.subs == s.subs[id := t.subs[id]] && Registers(s.subs[id], t.subs[id])
    requires t.mains == s.mains
      || (m in s.mains && m in t.mains && t.mains == s.mains[m := t.mains[m]] && SameFinish(s.mains[m], t.mains[m]))
    ensures CallerFrame(s, t)
  {
    forall x | x in s.subs
      ensures x in t.subs && Registers(s.subs[x], t.subs[x])
    {
    }
    forall x | x in s.mains
      ensures x in t.mains && SameFinish(s.mains[x], t.mains[x])
    {
    }
  }

  lemma LookUpFrame(s: State, id: Id, t: State)
    requires id in s.subs && s.subs[id].add == ALLOCATED
    requires var u := s.subs[id];
      || t == s.(subs := s.subs[id := u.(threw := true)])
      || (u.mainName in s.mainIds
          && t == s.(subs := s.subs[id := u.(add := HAS_MAIN, mainId := s.mainIds[u.mainName])]))
    ensures CallerFrame(s, t)
  {
    TouchFrame(s, t, id, 0);
  }

  lemma RegisterFrame(s: State, id: Id, t: State)
    requires id in s.subs && s.subs[id].add <= SLOTTED && t == RegisterStep(s, id)
    ensures CallerFrame(s, t)
  {
    TouchFrame(s, t, id, 0);
  }

  lemma ReadyFrame(s: State, id: Id, t: State)
    requires id in s.subs && s.subs[id].mainId in s.mains && s.subs[id].add == FOUND && t == ReadyStep(s, id)
    ensures CallerFrame(s, t)
  {
    TouchFrame(s, t, id, s.subs[id].mainId);
  }

  lemma ReleaseFrame(s: State, id: Id, t: State)
    requires id in s.subs && s.subs[id].mainId in s.mains
    requires |s.ready| == PRIORITIES && s.mains[s.subs[id].mainId].prio < PRIORITIES && t == ReleaseStep(s, id)
    requires s.subs[id].add == RELEASING && s.readyLock == Free
    ensures CallerFrame(s, t)
  {
    TouchFrame(s, t, id, s.subs[id].mainId);
  }

  lemma UnwaitFrame(s: State, id: Id, t: State)
    requires id in s.subs && s.subs[id].mainId in s.mains
    requires |s.waiting| == PRIORITIES && s.mains[s.subs[id].mainId].prio < PRIORITIES && t == UnwaitStep(s, id)
    requires s.subs[id].add == HOLDING
    ensures CallerFrame(s, t)
  {
    TouchFrame(s, t, id, s.subs[id].mainId);
  }

  lemma AddSubFrame(s: State, id: Id, t: State)
    requires |s.ready| == PRIORITIES == |s.waiting|
    requires forall id :: id in s.subs && 1 <= s.subs[id].add ==> s.subs[id].mainId in s.mains
    requires forall m :: m in s.mains ==> s.mains[m].prio < PRIORITIES
    requires AddSubStep(s, id) == Some(t)
    ensures CallerFrame(s, t)
  {
    var k := s.subs[id].add;
    if k == ALLOCATED {
      LookUpFrame(s, id, t);
    } else if k <= SLOTTED {
      RegisterFrame(s, id, t);
    } else if k == FOUND {
      ReadyFrame(s, id, t);
    } else if k == RELEASING {
      ReleaseFrame(s, id, t);
    } else {
      UnwaitFrame(s, id, t);
    }
  }

  /** No subtask changes; of main tasks at most one, or a new one comes. */
  lemma MainFrame(s: State, t: State, m: Id)
    requires Elsewhere(s, t) && t.ready == s.ready
    requires t.subs == s.subs && m in t.mains && t.mains == s.mains[m := t.mains[m]]
    requires m in s.mains ==> SameFinish(s.mains[m], t.mains[m])
    ensures CallerFrame(s, t)
  {
    forall id | id in s.subs
      ensures id in t.subs && Registers(s.subs[id], t.subs[id])
    {
    }
  }

  lemma AddMainFrame(s: State, m: Id, t: State)
    requires |s.waiting| == PRIORITIES && (forall m :: m in s.mains ==> s.mains[m].prio < PRIORITIES)
    requires AddMainStep(s, m) == Some(t)
    ensures CallerFrame(s, t)
  {
    MainFrame(s, t, m);
  }

  lemma BeginMainFrame(s: State, name: Name, size: nat, prio: nat, t: State)
    requires Names(s) && BeginMainStep(s, name, size, prio) == Some(t)
    ensures CallerFrame(s, t)
  {
    FreshSub(s);
    MainFrame(s, t, s.nextMain);
  }

  lemma BeginSubFrame(s: State, name: Name, mainName: Name, deps: seq<Name>, t: State)
    requires Names(s) && (forall n :: n in s.mainNames ==> s.mainNames[n] in s.mains)
    requires BeginSubStep(s, name, mainName, deps) == Some(t)
    ensures CallerFrame(s, t)
  {
    FreshSub(s);
    forall id | id in s.subs
      ensures id in t.subs && Registers(s.subs[id], t.subs[id])
    {
    }
    forall m | m in s.mains
      ensures m in t.mains && SameFinish(s.mains[m], t.mains[m])
    {
    }
  }

  /** Every step of a submitter leaves workers, ring, getters, event loop and what has been computed alone. */
  lemma CallerStep(c: Config, s: State, a: Action, t: State)
    requires Inv(c, s) && Sound(c, s) && !Quiet(a) && Step(c, s, a) == Some(t)
    ensures CallerFrame(s, t)
  {
    match a
    case BeginMain(name, size, prio) => BeginMainFrame(s, name, size, prio, t);
    case BeginSub(name, mainName, deps) => BeginSubFrame(s, name, mainName, deps, t);
    case AddMain(m) => AddMainFrame(s, m, t);
    case AddSub(id) => AddSubFrame(s, id, t);
    case _ =>
  }
}
