/** Releasing a main task, and the rest of addSubTask. */
module ReleasePreserves {
  import opened Sequences
  import opened Protocol
  import opened Invariant
  import opened Frames
  import opened WorkerPreserves
  import opened CallerPreserves

  /** Pushing onto one queue inserts into the dispatch order. */
  lemma FlatPush(queues: seq<seq<Id>>, p: nat, l: seq<Id>) returns (a: seq<Id>, b: seq<Id>)
    requires p < |queues|
    ensures Flat(queues) == a + b && Flat(queues[p := queues[p] + l]) == a + l + b
  {
    var n := |queues| - 1;
    var pushed := queues[p := queues[p] + l];
    if p == n {
      a, b := queues[n], Flat(queues[..n]);
      assert pushed[..n] == queues[..n];
    } else {
      var a1, b1 := FlatPush(queues[..n], p, l);
      a, b := queues[n] + a1, b1;
      assert pushed[..n] == queues[..n][p := queues[..n][p] + l];
      assert queues[n] + (a1 + b1) == a + b && queues[n] + (a1 + l + b1) == a + l + b;
    }
  }

  /** What holds when a call is about to release its main task. */
  ghost predicate Releasing(s: State, i: Id, m: Id)
  {
    && i in s.subs && s.subs[i].mainId == m && m in s.mains
    && i in s.mains[m].begun && s.mains[m].add == MAIN_ADDED
    && (s.subs[i].add == RELEASING ==> s.subs[i].rank == UNTAKEN && s.mains[m].fin == 0)
    && s.mains[m].readied == s.mains[m].begun && s.mains[m].releaser == i
    && s.mains[m].rel == (if s.subs[i].add == RELEASING then 1 else 2)
    && s.mains[m].prio < PRIORITIES
  }

  lemma ReleasingFacts(s: State, i: Id)
    requires Names(s) && Mains(s) && Members(s) && SubMains(s) && Locals(s)
    requires i in s.subs && (s.subs[i].add == RELEASING || s.subs[i].add == HOLDING)
    ensures Releasing(s, i, s.subs[i].mainId)
  {
    assert SubMain(s, i) && Local(s.subs[i], s.clock);
    var m := s.subs[i].mainId;
    assert MemberOk(s, m, i) && MainOk(s, m);
    AllReadied(s, m);
    if s.subs[i].add == RELEASING {
      NoneCounted(s, m);
    }
  }

  /** The list pushed is exactly the main task's subtasks, none of them released before. */
  lemma ListIsFresh(c: Config, s: State, i: Id, m: Id)
    requires Names(s) && Members(s) && Mains(s) && Lists(s) && SubMains(s)
    requires Ordered(c, s) && Releasing(s, i, m) && s.subs[i].add == RELEASING
    ensures NoDup(List(s, m))
    ensures forall id :: id in List(s, m) <==> id in s.subs && HAS_MAIN <= s.subs[id].add && s.subs[id].mainId == m
    ensures forall id :: id in List(s, m) ==> id !in Order(s)
    ensures forall id :: id in List(s, m) <==> id in s.mains[m].begun
  {
    assert Listed(s, m);
    AllReadied(s, m);
    forall id
      ensures id in List(s, m) <==> id in s.subs && HAS_MAIN <= s.subs[id].add && s.subs[id].mainId == m
      ensures id in List(s, m) ==> id !in Order(s)
    {
      if id in s.mains[m].begun {
        MemberOf(s, m, id);
      }
      if id in s.subs {
        assert SubMain(s, id);
      }
      assert id in Order(s) <==> Released(s, id);
    }
  }

  /** The list is inserted into the dispatch order behind everything of its priority or higher. */
  lemma ReleaseInserts(c: Config, s: State, i: Id, m: Id, t: State) returns (a: seq<Id>, b: seq<Id>)
    requires |s.ready| == PRIORITIES && Releasing(s, i, m) && t == ReleaseStep(s, i)
    ensures Order(s) == a + b && Order(t) == a + List(s, m) + b
    ensures t.taken == s.taken && t.ring == s.ring && |t.ready| == PRIORITIES
  {
    var a1, b1 := FlatPush(s.ready, s.mains[m].prio, List(s, m));
    a, b := s.taken + s.ring + a1, b1;
    assert s.taken + s.ring + (a1 + b1) == a + b;
    assert s.taken + s.ring + (a1 + List(s, m) + b1) == a + List(s, m) + b;
  }

  lemma ReleaseOrder(c: Config, s: State, i: Id, m: Id, t: State)
    requires Names(s) && Members(s) && Mains(s) && Lists(s) && SubMains(s) && Ordered(c, s)
    requires Releasing(s, i, m) && s.subs[i].add == RELEASING && t == ReleaseStep(s, i)
    ensures Ordered(c, t)
  {
    ListIsFresh(c, s, i, m);
    var a, b := ReleaseInserts(c, s, i, m, t);
    NoDupInsert(a, List(s, m), b);
    ReleasedAfter(s, i, m, t);
    forall id
      ensures id in Order(t) <==> Released(t, id)
    {
      assert id in Order(s) <==> Released(s, id);
      assert id in Order(t) <==> id in Order(s) || id in List(s, m);
    }
    forall id
      ensures id in t.taken <==> id in t.subs && TAKEN <= t.subs[id].rank
    {
      assert id in s.taken <==> id in s.subs && TAKEN <= s.subs[id].rank;
    }
  }

  lemma ReleasedAfter(s: State, i: Id, m: Id, t: State)
    requires |s.ready| == PRIORITIES && Releasing(s, i, m) && s.subs[i].add == RELEASING && t == ReleaseStep(s, i)
    ensures forall id :: Released(t, id) <==>
      Released(s, id) || (id in s.subs && HAS_MAIN <= s.subs[id].add && s.subs[id].mainId == m)
  {
  }

  lemma ReleasePasses(s: State, i: Id, m: Id, t: State)
    requires LockOk(s) && Releasing(s, i, m) && s.readyLock == Free && t == ReleaseStep(s, i)
    ensures Order(t) == Concat(t.passes) + Flat(t.ready)
  {
    DropSuffix(s.taken + s.ring, Concat(s.passes), Flat(s.ready));
  }

  lemma DropSuffix<T>(a: seq<T>, b: seq<T>, c: seq<T>)
    requires a + c == b + c
    ensures a == b
  {
    assert |a| == |b|;
    assert (a + c)[..|a|] == a && (b + c)[..|b|] == b;
  }

  /** A step of the releasing call: only its own progress and its main task's release advance. */
  ghost predicate Releases(s: State, t: State, i: Id, m: Id)
  {
    && Releasing(s, i, m) && Delta(s, t, i, m)
    && t == s.(subs := t.subs, mains := t.mains, ready := t.ready, readyLock := t.readyLock, waiting := t.waiting)
    && t.subs == s.subs[i := s.subs[i].(add := s.subs[i].add + 1)]
    && t.mains == s.mains[m := s.mains[m].(rel := s.mains[m].rel + 1, order := t.mains[m].order)]
    && (s.subs[i].add == RELEASING || s.subs[i].add == HOLDING)
    && |t.waiting| == PRIORITIES == |s.waiting|
    && t.waiting == (if s.subs[i].add == HOLDING
         then s.waiting[s.mains[m].prio := s.waiting[s.mains[m].prio] - {m}] else s.waiting)
  }

  lemma ReleasesTables(s: State, t: State, i: Id, m: Id)
    requires Names(s) && Locals(s) && Tables(s) && Releases(s, t, i, m)
    ensures Names(t) && Locals(t) && Tables(t)
  {
    assert Local(s.subs[i], s.clock) && SubTabled(s, i) && MainTabled(s, m);
    NamesSame(s, t, i, m);
    LocalsKept(s, t, i, m);
    TablesKept(s, t, i, m);
  }

  lemma ReleasesMains(s: State, t: State, i: Id, m: Id)
    requires Names(s) && Names(t) && Locals(s) && Mains(s) && Members(s)
    requires Lists(s) && SubMains(s) && Releases(s, t, i, m)
    ensures Mains(t) && Members(t)
  {
    assert MainOk(s, m) && SubMain(s, i);
    assert MainOk(t, m);
    MainsKept(s, t, i, m);
    forall x, id | x in t.mains && id in t.mains[x].begun
      ensures MemberOk(t, x, id)
    {
      assert MemberOk(s, x, id);
    }
  }

  lemma ReleasesLists(s: State, t: State, i: Id, m: Id)
    requires Names(s) && Names(t) && Members(s) && Lists(s) && SubMains(s) && Releases(s, t, i, m)
    ensures Lists(t) && SubMains(t)
  {
    assert SubMain(s, i);
    assert s.mains[m].fin < 3 ==> Listed(s, m);
    ListsKept(s, t, i, m);
    SubMainsKept(s, t, i, m);
  }

  lemma ReleasesRest(c: Config, s: State, t: State, i: Id, m: Id)
    requires Locals(s) && Knowns(c, s) && Workers(c, s) && Getters(s) && Releases(s, t, i, m)
    ensures Knowns(c, t) && Workers(c, t) && Getters(t)
  {
    assert Known(s, i) && Computed(c, s.subs[i]);
    KnownKept(s, t, i, m);
    KnownsKept(c, s, t, i, m);
    forall id | id in s.subs
      ensures forall d :: d in s.subs[id].known ==> d in s.subs
    {
      assert Known(s, id);
    }
    WorkersKept(c, s, t, i, m);
    GettersKept(s, t, i, m);
  }

  lemma ReleaseLock(c: Config, s: State, t: State, i: Id, m: Id)
    requires LockOk(s) && ScanOk(s) && Releases(s, t, i, m) && s.subs[i].add == RELEASING && s.readyLock == Free
    requires t.readyLock == ByAdder(i) && |t.ready| == PRIORITIES && Order(t) == Concat(t.passes) + Flat(t.ready)
    ensures LockOk(t) && ScanOk(t)
  {
    forall id
      ensures Holding(t, id) <==> t.readyLock == ByAdder(id)
    {
      assert Holding(s, id) <==> s.readyLock == ByAdder(id);
    }
    forall x | Added(s, x)
      ensures Added(t, x)
    {
    }
    forall x | Unwaited(s, x)
      ensures Unwaited(t, x)
    {
    }
    if s.loop == Exited {
      assert m in s.snap ==> Unwaited(s, m);
      forall id {:trigger Released(t, id)} | Released(t, id) && t.subs[id].mainId in t.snap
        ensures POSTED <= t.subs[id].rank
      {
        assert Released(s, id);
      }
    }
  }

  lemma ReleasePreserves(c: Config, s: State, i: Id, t: State)
    requires Inv(c, s) && i in s.subs && s.subs[i].add == RELEASING && s.readyLock == Free
    requires s.subs[i].mainId in s.mains && s.mains[s.subs[i].mainId].prio < PRIORITIES && t == ReleaseStep(s, i)
    ensures Inv(c, t)
  {
    var m := s.subs[i].mainId;
    ReleasingFacts(s, i);
    assert Releases(s, t, i, m);
    ReleasesTables(s, t, i, m);
    ReleasesMains(s, t, i, m);
    ReleasesLists(s, t, i, m);
    ReleasesRest(c, s, t, i, m);
    ReleaseOrder(c, s, i, m, t);
    ReleasePasses(s, i, m, t);
    ReleaseLock(c, s, t, i, m);
  }

  /** The main task leaves its waiting set and the lock is free again. */
  lemma UnwaitLock(c: Config, s: State, t: State, i: Id, m: Id)
    requires LockOk(s) && ScanOk(s) && Ordered(c, s) && Releases(s, t, i, m) && s.subs[i].add == HOLDING
    requires t.readyLock == Free && t.ready == s.ready
    ensures LockOk(t) && ScanOk(t) && Ordered(c, t)
  {
    assert Holding(s, i);
    forall id
      ensures Holding(t, id) <==> t.readyLock == ByAdder(id)
    {
      assert Holding(s, id) <==> s.readyLock == ByAdder(id);
    }
    forall x | Added(s, x)
      ensures Added(t, x)
    {
    }
    forall x | Unwaited(s, x)
      ensures Unwaited(t, x)
    {
    }
    forall id
      ensures Released(t, id) <==> Released(s, id)
    {
    }
    assert Order(t) == Order(s);
    forall id
      ensures id in t.taken <==> id in t.subs && TAKEN <= t.subs[id].rank
    {
      assert id in s.taken <==> id in s.subs && TAKEN <= s.subs[id].rank;
    }
  }

  lemma UnwaitPreserves(c: Config, s: State, i: Id, t: State)
    requires Inv(c, s) && i in s.subs && s.subs[i].add == HOLDING
    requires s.subs[i].mainId in s.mains && s.mains[s.subs[i].mainId].prio < PRIORITIES && t == UnwaitStep(s, i)
    ensures Inv(c, t)
  {
    var m := s.subs[i].mainId;
    ReleasingFacts(s, i);
    assert Releases(s, t, i, m);
    ReleasesTables(s, t, i, m);
    ReleasesMains(s, t, i, m);
    ReleasesLists(s, t, i, m);
    ReleasesRest(c, s, t, i, m);
    UnwaitLock(c, s, t, i, m);
  }

  lemma AddSubPreserves(c: Config, s: State, i: Id, t: State)
    requires Inv(c, s) && Sound(c, s) && AddSubStep(s, i) == Some(t)
    ensures Inv(c, t)
  {
    var add := s.subs[i].add;
    if add == ALLOCATED {
      LookUpMainPreserves(c, s, i, t);
    } else if add <= SLOTTED {
      RegisterPreserves(c, s, i, t);
    } else if add == FOUND {
      ReadyPreserves(c, s, i, t);
    } else if add == RELEASING {
      ReleasePreserves(c, s, i, t);
    } else {
      UnwaitPreserves(c, s, i, t);
    }
  }
}
