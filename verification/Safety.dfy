module Safety {
  /** What holds in every reachable state, for any number of submitters, getters and workers and under
    any interleaving of their steps. */

  import opened Sequences
  import opened Protocol
  import opened Invariant
  import opened Frames
  import opened WorkerPreserves
  import opened CallerPreserves
  import opened ReleasePreserves
  import opened CallPreserves

  // ---- dependency order ----

  /** d is a dependency of id that was registered when id was dispatched. */
  ghost predicate KnownDep(s: State, id: Id, d: Id)
  {
    id in s.subs && d in s.subs && d in s.subs[id].known && s.subs[d].name in s.subs[id].deps
  }

  /** d is a dependency of id within the same main task. */
  predicate SameMainDep(s: State, id: Id, d: Id)
  {
    && id in s.subs && d in s.subs && s.subs[d].name in s.subs[id].deps
    && HAS_MAIN <= s.subs[id].add && HAS_MAIN <= s.subs[d].add && s.subs[id].mainId == s.subs[d].mainId
  }

  /** A started function has all its dependencies behind it: their functions ended before it started,
      whatever getters have reaped in between. */
  lemma DependencyOrder(c: Config, s: State, id: Id, d: Id)
    requires 1 <= c.poolSize && Reachable(c, s) && KnownDep(s, id, d) && 0 < s.subs[id].starts
    ensures 0 < s.subs[d].starts && s.subs[d].out.Some? && s.subs[d].startAt < s.subs[d].endAt < s.subs[id].startAt
  {
    ReachableInv(c, s);
    assert Known(s, id) && Local(s.subs[id], s.clock) && Local(s.subs[d], s.clock);
  }

  /** Within one main task every dependency is registered before its dependent is dispatched. */
  lemma SameMainKnown(c: Config, s: State, id: Id, d: Id)
    requires 1 <= c.poolSize && Reachable(c, s) && SameMainDep(s, id, d) && id in s.taken + s.ring
    ensures KnownDep(s, id, d)
  {
    ReachableInv(c, s);
    assert Known(s, id) && SubMain(s, d);
  }

  lemma StartedTaken(c: Config, s: State, id: Id)
    requires 1 <= c.poolSize && Reachable(c, s) && id in s.subs && 0 < s.subs[id].starts
    ensures id in s.taken && STARTED <= s.subs[id].rank
  {
    ReachableInv(c, s);
    assert Local(s.subs[id], s.clock);
    assert id in s.taken;
  }

  lemma SameMainOrder(c: Config, s: State, id: Id, d: Id)
    requires 1 <= c.poolSize && Reachable(c, s) && SameMainDep(s, id, d) && 0 < s.subs[id].starts
    ensures 0 < s.subs[d].starts && s.subs[d].out.Some? && s.subs[d].endAt < s.subs[id].startAt
  {
    StartedTaken(c, s, id);
    SameMainKnown(c, s, id, d);
    DependencyOrder(c, s, id, d);
  }

  /** Along a chain of known dependencies start times fall. */
  lemma {:induction false} ChainFalls(c: Config, s: State, p: seq<Id>, k: nat)
    requires 1 <= c.poolSize && Reachable(c, s) && k < |p|
    requires forall j :: 0 <= j < |p| - 1 ==> KnownDep(s, p[j], p[j + 1])
    requires p[0] in s.subs && 0 < s.subs[p[0]].starts
    ensures p[k] in s.subs && 0 < s.subs[p[k]].starts && s.subs[p[k]].startAt + k <= s.subs[p[0]].startAt
  {
    if 0 < k {
      ChainFalls(c, s, p, k - 1);
      assert KnownDep(s, p[k - 1], p[k - 1 + 1]);
      DependencyOrder(c, s, p[k - 1], p[k]);
    }
  }

  /** No subtask on a dependency cycle ever starts. */
  lemma NoCycleStarts(c: Config, s: State, p: seq<Id>)
    requires 1 <= c.poolSize && Reachable(c, s) && 2 <= |p| && p[0] == p[|p| - 1] && p[0] in s.subs
    requires forall j :: 0 <= j < |p| - 1 ==> KnownDep(s, p[j], p[j + 1])
    ensures s.subs[p[0]].starts == 0
  {
    if 0 < s.subs[p[0]].starts {
      ChainFalls(c, s, p, |p| - 1);
    }
  }

  /** The same within one main task, where the dependencies need not be known beforehand. */
  lemma NoMainCycleStarts(c: Config, s: State, p: seq<Id>)
    requires 1 <= c.poolSize && Reachable(c, s) && 2 <= |p| && p[0] == p[|p| - 1]
    requires forall j :: 0 <= j < |p| - 1 ==> SameMainDep(s, p[j], p[j + 1])
    ensures forall j :: 0 <= j < |p| ==> p[j] in s.subs && s.subs[p[j]].starts == 0
  {
    forall j | 0 <= j < |p|
      ensures p[j] in s.subs
    {
      assert SameMainDep(s, p[if j < |p| - 1 then j else j - 1], p[(if j < |p| - 1 then j else j - 1) + 1]);
    }
    if k :| 0 <= k < |p| && 0 < s.subs[p[k]].starts {
      MainChainFalls(c, s, p, k, |p| - 1);
      MainChainFalls(c, s, p, 0, k);
    }
  }

  lemma {:induction false} MainChainFalls(c: Config, s: State, p: seq<Id>, i: nat, k: nat)
    requires 1 <= c.poolSize && Reachable(c, s) && i <= k < |p| && p[i] in s.subs
    requires forall j :: 0 <= j < |p| - 1 ==> SameMainDep(s, p[j], p[j + 1])
    ensures 0 < s.subs[p[i]].starts ==>
      p[k] in s.subs && 0 < s.subs[p[k]].starts && s.subs[p[k]].startAt + (k - i) <= s.subs[p[i]].startAt
  {
    if i < k && 0 < s.subs[p[i]].starts {
      MainChainFalls(c, s, p, i, k - 1);
      assert SameMainDep(s, p[k - 1], p[k - 1 + 1]);
      SameMainOrder(c, s, p[k - 1], p[k]);
      assert Local(s.subs[p[k]], s.clock) by {
        ReachableInv(c, s);
      }
    }
  }

  // ---- exactly once ----

  ghost predicate Holds(s: State, w: nat, id: Id)
  {
    w < |s.workers| && !s.workers[w].Idle? && s.workers[w].id == id
  }

  /** Each function is called at most once and each slot posted at most once; an outcome is there
      exactly when the function has ended, and the slot is posted only after that. */
  lemma ExactlyOnce(c: Config, s: State, id: Id)
    requires 1 <= c.poolSize && Reachable(c, s) && id in s.subs
    ensures s.subs[id].starts <= 1 && s.subs[id].posts <= 1 && s.subs[id].slotSem <= s.subs[id].posts
    ensures s.subs[id].out.Some? ==> s.subs[id].starts == 1
    ensures s.subs[id].posts == 1 ==> s.subs[id].out.Some?
    ensures s.subs[id].completed ==> s.subs[id].posts == 1
    ensures s.subs[id].done ==> s.subs[id].completed
  {
    ReachableInv(c, s);
    assert Local(s.subs[id], s.clock);
  }

  /** Who holds a subtask, and that nobody else does. */
  lemma HolderIs(c: Config, s: State, id: Id, w: nat)
    requires Workers(c, s) && id in s.subs
    ensures Holds(s, w, id) <==> TAKEN <= s.subs[id].rank < FINISHED && w == s.subs[id].owner
  {
    assert w < |s.workers| ==> WorkerOk(s, w);
    assert TAKEN <= s.subs[id].rank < FINISHED ==> HeldBy(s, id);
  }

  /** Every subtask is in exactly one stage: not yet released, queued (ready or in the ring, at one
      place), in the hands of one worker, or finished. */
  lemma OneStage(c: Config, s: State, id: Id)
    requires 1 <= c.poolSize && Reachable(c, s) && id in s.subs
    ensures NoDup(s.ring + Flat(s.ready))
    ensures forall v, w :: Holds(s, v, id) && Holds(s, w, id) ==> v == w
    ensures var waiting := if Released(s, id) then 0 else 1;
      var queued := if id in s.ring + Flat(s.ready) then 1 else 0;
      var held := if exists w :: Holds(s, w, id) then 1 else 0;
      var finished := if s.subs[id].rank == FINISHED then 1 else 0;
      waiting + queued + held + finished == 1
    ensures s.subs[id].rank == FINISHED ==> s.subs[id].starts == 1 && s.subs[id].posts == 1 && s.subs[id].done
  {
    ReachableInv(c, s);
    StageOf(c, s, id);
  }

  lemma StageOf(c: Config, s: State, id: Id)
    requires Locals(s) && Ordered(c, s) && Workers(c, s) && id in s.subs
    ensures NoDup(s.ring + Flat(s.ready))
    ensures forall v, w :: Holds(s, v, id) && Holds(s, w, id) ==> v == w
    ensures var waiting := if Released(s, id) then 0 else 1;
      var queued := if id in s.ring + Flat(s.ready) then 1 else 0;
      var held := if exists w :: Holds(s, w, id) then 1 else 0;
      var finished := if s.subs[id].rank == FINISHED then 1 else 0;
      waiting + queued + held + finished == 1
    ensures s.subs[id].rank == FINISHED ==> s.subs[id].starts == 1 && s.subs[id].posts == 1 && s.subs[id].done
  {
    var u := s.subs[id];
    assert Local(u, s.clock) && Released(s, id) == (id in Order(s));
    QueueApart(s, id);
    forall w: nat
      ensures Holds(s, w, id) <==> TAKEN <= u.rank < FINISHED && w == u.owner
    {
      HolderIs(c, s, id, w);
    }
    assert (exists w :: Holds(s, w, id)) <==> Holds(s, u.owner, id);
    assert id in s.taken <==> TAKEN <= u.rank;
  }

  lemma QueueApart(s: State, id: Id)
    requires NoDup(Order(s))
    ensures NoDup(s.ring + Flat(s.ready))
    ensures id in Order(s) <==> id in s.taken || id in s.ring + Flat(s.ready)
    ensures !(id in s.taken && id in s.ring + Flat(s.ready))
  {
    var q := Order(s);
    var rest := s.ring + Flat(s.ready);
    assert q == s.taken + rest;
    forall i, j | 0 <= i < j < |rest|
      ensures rest[i] != rest[j]
    {
      assert q[|s.taken| + i] != q[|s.taken| + j];
    }
    forall i, j | 0 <= i < |s.taken| && 0 <= j < |rest|
      ensures s.taken[i] != rest[j]
    {
      assert q[i] != q[|s.taken| + j];
    }
  }

  // ---- results ----

  /** What a getter returns under a name is what the function registered under that name returned or
      threw, and that is what its body makes of its dependencies' outcomes. */
  lemma ResultRouting(c: Config, s: State, n: Name)
    requires 1 <= c.poolSize && Reachable(c, s) && n in s.getters && s.getters[n].Got?
    ensures n in s.names && s.getters[n].id == s.names[n] && s.names[n] in s.subs
    ensures var u := s.subs[s.names[n]];
      u.name == n && u.starts == 1 && u.out.Some? && s.getters[n].o == u.out && u.out == Some(c.body(n, u.args))
  {
    ReachableInv(c, s);
    var id := s.getters[n].id;
    assert GetterOk(s, n) && SubNamed(s, id) && NameOk(s, n) && Local(s.subs[id], s.clock) && Computed(c, s.subs[id]);
  }

  /** The branches for a missing entry are never taken: a worker finds its subtask, its slot and its
      main task, and a submitter finds the main task whose iterator it dereferences unchecked. */
  lemma NothingMissing(c: Config, s: State)
    requires 1 <= c.poolSize && Reachable(c, s)
    ensures forall w :: 0 <= w < |s.workers| ==>
      && (s.workers[w].Fetch? ==> s.workers[w].id in s.subTasks)
      && (s.workers[w].Ran? ==> s.workers[w].id in s.results)
      && (s.workers[w].Done? ==> s.workers[w].id in s.subs && s.subs[s.workers[w].id].mainId in s.mainTasks)
    ensures forall id :: id in s.subs && s.subs[id].add == SLOTTED ==> s.subs[id].mainId in s.mainTasks
  {
    ReachableInv(c, s);
    forall w | 0 <= w < |s.workers| && !s.workers[w].Idle?
      ensures s.workers[w].Fetch? ==> s.workers[w].id in s.subTasks
      ensures s.workers[w].Ran? ==> s.workers[w].id in s.results
      ensures s.workers[w].Done? ==> s.workers[w].id in s.subs && s.subs[s.workers[w].id].mainId in s.mainTasks
    {
      assert WorkerOk(s, w);
      HeldFacts(c, s, s.workers[w].id);
    }
    forall id | id in s.subs && s.subs[id].add == SLOTTED
      ensures s.subs[id].mainId in s.mainTasks
    {
      RegisteringFacts(s, id);
      assert MainTabled(s, s.subs[id].mainId);
    }
  }

  // ---- main tasks ----

  predicate MemberOfMain(s: State, m: Id, id: Id)
  {
    id in s.subs && HAS_MAIN <= s.subs[id].add && s.subs[id].mainId == m
  }

  /** The counters of a main task count its subtasks past each increment. */
  lemma MainCounters(c: Config, s: State, m: Id)
    requires 1 <= c.poolSize && Reachable(c, s) && m in s.mains
    ensures s.mains[m].readyCount == |set id | id in s.subs && MemberOfMain(s, m, id) && RELEASING <= s.subs[id].add|
    ensures s.mains[m].completedCount == |set id | id in s.subs && MemberOfMain(s, m, id) && COUNTED <= s.subs[id].rank|
    ensures s.mains[m].readyCount <= s.mains[m].size && s.mains[m].completedCount <= s.mains[m].size
  {
    ReachableInv(c, s);
    CountersAgree(s, m);
  }

  lemma CountersAgree(s: State, m: Id)
    requires Names(s) && Locals(s) && Mains(s) && Members(s) && SubMains(s) && m in s.mains
    ensures s.mains[m].readyCount == |set id | id in s.subs && MemberOfMain(s, m, id) && RELEASING <= s.subs[id].add|
    ensures s.mains[m].completedCount == |set id | id in s.subs && MemberOfMain(s, m, id) && COUNTED <= s.subs[id].rank|
    ensures s.mains[m].readyCount <= s.mains[m].size && s.mains[m].completedCount <= s.mains[m].size
  {
    assert MainOk(s, m);
    var main := s.mains[m];
    forall id
      ensures id in main.readied <==> MemberOfMain(s, m, id) && RELEASING <= s.subs[id].add
      ensures id in main.counted <==> MemberOfMain(s, m, id) && COUNTED <= s.subs[id].rank
    {
      MemberAgrees(s, m, id);
    }
    assert main.readied == set id | id in s.subs && MemberOfMain(s, m, id) && RELEASING <= s.subs[id].add;
    assert main.counted == set id | id in s.subs && MemberOfMain(s, m, id) && COUNTED <= s.subs[id].rank;
    SubsetSize(main.readied, main.begun);
    SubsetSize(main.counted, main.begun);
  }

  lemma SubsetSize<T>(a: set<T>, b: set<T>)
    requires a <= b
    ensures |a| <= |b|
  {
    assert b == a + (b - a);
  }

  /** A main task is gone from main_tasks only when all its subtasks have been counted; at most one
      worker is at its removal, and only then. That it is the same one over a whole run is `OneRemover` in
      module `Runs`. */
  lemma MainRemoval(c: Config, s: State, m: Id)
    requires 1 <= c.poolSize && Reachable(c, s) && m in s.mains
    ensures s.mains[m].add == MAIN_ADDED && m !in s.mainTasks ==> s.mains[m].completedCount == s.mains[m].size
    ensures forall v, w ::
      0 <= v < |s.workers| && 0 <= w < |s.workers| && Removing(s, m, v) && Removing(s, m, w) ==> v == w
    ensures forall w :: 0 <= w < |s.workers| && Removing(s, m, w) ==> s.mains[m].completedCount == s.mains[m].size
  {
    ReachableInv(c, s);
    assert MainOk(s, m) && MainTabled(s, m);
    forall w | 0 <= w < |s.workers| && Removing(s, m, w)
      ensures s.mains[m].finisher in s.subs && s.subs[s.mains[m].finisher].owner == w && 1 <= s.mains[m].fin
    {
      assert WorkerOk(s, w) && SubMain(s, s.workers[w].id);
    }
  }

  predicate Removing(s: State, m: Id, w: nat)
    requires w < |s.workers|
  {
    && (s.workers[w].LastOne? || s.workers[w].Unlisting?)
    && s.workers[w].id in s.subs && HAS_MAIN <= s.subs[s.workers[w].id].add && s.subs[s.workers[w].id].mainId == m
  }

  lemma MemberAgrees(s: State, m: Id, id: Id)
    requires Names(s) && Locals(s) && Mains(s) && Members(s) && SubMains(s) && m in s.mains
    ensures id in s.mains[m].readied <==> MemberOfMain(s, m, id) && RELEASING <= s.subs[id].add
    ensures id in s.mains[m].counted <==> MemberOfMain(s, m, id) && COUNTED <= s.subs[id].rank
  {
    assert MainOk(s, m);
    if id in s.mains[m].begun {
      MemberOf(s, m, id);
      assert MemberOk(s, m, id) && Local(s.subs[id], s.clock);
    } else {
      assert id in s.subs ==> SubMain(s, id);
    }
  }

  /** When a call is about to push its main task's list, the list is complete and in it nothing has been
      queued or taken: no subtask of that main task starts while the list is read. */
  lemma ReleaseReadsQuietly(c: Config, s: State, id: Id)
    requires 1 <= c.poolSize && Reachable(c, s) && id in s.subs && s.subs[id].add == RELEASING
    ensures s.subs[id].mainId in s.mains && |List(s, s.subs[id].mainId)| == s.mains[s.subs[id].mainId].size
    ensures NoDup(List(s, s.subs[id].mainId))
    ensures forall x :: x in List(s, s.subs[id].mainId) <==> MemberOfMain(s, s.subs[id].mainId, x)
    ensures forall x :: x in List(s, s.subs[id].mainId) ==> x in s.subs && x !in Order(s) && s.subs[x].starts == 0
  {
    ReachableInv(c, s);
    var m := s.subs[id].mainId;
    ReleasingFacts(s, id);
    ListIsFresh(c, s, id, m);
    AllReadied(s, m);
    assert MainOk(s, m);
    NoDupLength(List(s, m), s.mains[m].begun);
    forall x | x in List(s, m)
      ensures x in s.subs && s.subs[x].starts == 0
    {
      assert MemberOk(s, m, x) && Local(s.subs[x], s.clock);
    }
  }

  lemma {:induction false} NoDupLength<T>(q: seq<T>, b: set<T>)
    requires NoDup(q) && forall x :: x in q <==> x in b
    ensures |q| == |b|
  {
    if q == [] {
      assert b == {};
    } else {
      var rest, x := q[..|q| - 1], q[|q| - 1];
      forall y
        ensures y in rest <==> y in b - {x}
      {
        if y in rest {
          var k :| 0 <= k < |rest| && rest[k] == y;
          assert q[k] != q[|q| - 1];
        }
        if y in b - {x} {
          assert y in q;
        }
      }
      NoDupLength(rest, b - {x});
    }
  }

  // ---- the end of the event loop ----

  /** If hasPendingWork returns false, every subtask of every main task added before the scan began has
      run and posted its slot, although the scan looks at three tables one after the other. */
  lemma ScanIsSound(c: Config, s: State, m: Id)
    requires 1 <= c.poolSize && Reachable(c, s) && s.loop == Exited && m in s.snap
    ensures m in s.mains && |s.mains[m].begun| == s.mains[m].size
    ensures forall id :: id in s.mains[m].begun ==>
      id in s.subs && s.subs[id].starts == 1 && s.subs[id].out.Some? && s.subs[id].posts == 1
  {
    ReachableInv(c, s);
    assert Unwaited(s, m);
    AllReadied(s, m);
    forall id | id in s.mains[m].begun
      ensures s.subs[id].starts == 1 && s.subs[id].out.Some? && s.subs[id].posts == 1
    {
      MemberOf(s, m, id);
      assert Released(s, id) && Local(s.subs[id], s.clock);
    }
  }

  /** If every main task was added before Stop was called, nothing is left in the ready queues or in the
      ring when the event loop has exited: the pool is shut down with an empty ring. */
  lemma ShutdownIsClean(c: Config, s: State)
    requires 1 <= c.poolSize && Reachable(c, s) && s.loop == Exited
    requires s.stopSnap.Some? && s.stopSnap.value == s.mains.Keys
    ensures s.ring == [] && forall p :: 0 <= p < |s.ready| ==> s.ready[p] == []
    ensures forall id :: id in s.subs && HAS_MAIN <= s.subs[id].add ==> s.subs[id].posts == 1
  {
    ReachableInv(c, s);
    forall id | id in s.subs && HAS_MAIN <= s.subs[id].add
      ensures s.subs[id].posts == 1
    {
      assert SubMain(s, id);
      assert Unwaited(s, s.subs[id].mainId);
      assert Released(s, id) && Local(s.subs[id], s.clock);
    }
    forall id
      ensures id !in s.ring && id !in Flat(s.ready)
    {
      assert id in s.ring || id in Flat(s.ready) ==> id in s.ring + Flat(s.ready);
      QueueApart(s, id);
      assert id in Order(s) <==> Released(s, id);
      if Released(s, id) {
        assert Local(s.subs[id], s.clock);
        assert id in s.taken;
      }
    }
    NothingQueued(s);
  }

  lemma NothingQueued(s: State)
    requires forall id :: id !in s.ring && id !in Flat(s.ready)
    ensures s.ring == [] && forall p :: 0 <= p < |s.ready| ==> s.ready[p] == []
  {
    HasMember(s.ring);
    forall p | 0 <= p < |s.ready|
      ensures s.ready[p] == []
    {
      HasFlatMember(s.ready, p);
    }
  }

  lemma HasMember(q: seq<Id>)
    ensures q == [] || q[0] in q
  {
  }

  lemma HasFlatMember(queues: seq<seq<Id>>, p: nat)
    requires p < |queues|
    ensures queues[p] == [] || queues[p][0] in Flat(queues)
  {
    if queues[p] != [] {
      InFlat(queues, p, queues[p][0]);
    }
  }
}
