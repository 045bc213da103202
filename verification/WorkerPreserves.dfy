/** The steps of a worker keep the invariant. */
module WorkerPreserves {
  import opened Sequences
  import opened Protocol
  import opened Invariant
  import opened Frames

  /** Once a main task is being released, all its subtasks have incremented its counter. */
  lemma AllReadied(s: State, m: Id)
    requires Mains(s) && Members(s) && m in s.mains && 1 <= s.mains[m].rel
    ensures s.mains[m].readied == s.mains[m].begun && |s.mains[m].begun| == s.mains[m].size
    ensures forall id :: id in s.mains[m].begun ==> id in s.subs && RELEASING <= s.subs[id].add
  {
    assert MainOk(s, m);
    SubsetEqual(s.mains[m].readied, s.mains[m].begun);
    forall id | id in s.mains[m].begun
      ensures id in s.subs && RELEASING <= s.subs[id].add
    {
      assert MemberOk(s, m, id);
    }
  }

  lemma SubsetEqual<T>(a: set<T>, b: set<T>)
    requires a <= b && |b| <= |a|
    ensures a == b
  {
    assert |b - a| == |b| - |a|;
  }

  /** A released subtask is a member of its main task and fully registered. */
  lemma ReleasedFacts(s: State, id: Id)
    requires Names(s) && Mains(s) && Members(s) && SubMains(s) && Released(s, id)
    ensures id in s.mains[s.subs[id].mainId].begun && RELEASING <= s.subs[id].add && !s.subs[id].threw
    ensures s.mains[s.subs[id].mainId].add == MAIN_ADDED && s.subs[id].mainName in s.mainNames
  {
    assert SubMain(s, id);
    AllReadied(s, s.subs[id].mainId);
    assert MemberOk(s, s.subs[id].mainId, id);
    assert MainOk(s, s.subs[id].mainId);
  }

  /** What holds of the subtask in a worker's hands. */
  ghost predicate Held(s: State, i: Id)
  {
    && Released(s, i) && i in s.mains[s.subs[i].mainId].begun && i in s.taken
    && RELEASING <= s.subs[i].add && TAKEN <= s.subs[i].rank
    && (s.subs[i].rank < POSTED ==> i in s.subTasks && i in s.results && s.subs[i].reaped == 0)
    && (s.subs[i].rank < COUNTED ==>
          && s.subs[i].mainId in s.mainTasks && s.mains[s.subs[i].mainId].fin == 0
          && i !in s.mains[s.subs[i].mainId].counted)
  }

  /** Its tables entries are there, and its main task stays listed until it has been counted. */
  lemma HeldFacts(c: Config, s: State, i: Id)
    requires Names(s) && Mains(s) && Members(s) && SubMains(s) && Ordered(c, s) && Tables(s) && Locals(s)
    requires i in s.subs && TAKEN <= s.subs[i].rank
    ensures Held(s, i)
  {
    assert i in s.taken;
    assert i in Order(s) && Released(s, i);
    ReleasedFacts(s, i);
    var m := s.subs[i].mainId;
    assert MainOk(s, m) && MemberOk(s, m, i) && Local(s.subs[i], s.clock);
    assert SubTabled(s, i) && MainTabled(s, m);
    if s.subs[i].rank < COUNTED {
      if s.mains[m].completedCount == s.mains[m].size {
        SubsetEqual(s.mains[m].counted, s.mains[m].begun);
      }
    }
  }

  /** The head of the ring: released, untaken, registered. */
  lemma HeadFacts(c: Config, s: State)
    requires Names(s) && Mains(s) && Members(s) && SubMains(s) && Ordered(c, s) && Tables(s) && Locals(s)
    requires s.ring != []
    ensures var i := s.ring[0];
      && Released(s, i) && s.subs[i].rank == UNTAKEN && RELEASING <= s.subs[i].add
      && i in s.mains[s.subs[i].mainId].begun && i !in s.taken
  {
    var i := s.ring[0];
    var q := Order(s);
    assert q[|s.taken|] == i;
    forall k | 0 <= k < |s.taken|
      ensures s.taken[k] != i
    {
      assert q[k] != q[|s.taken|];
    }
    assert i in q && Released(s, i);
    assert i !in s.taken;
    ReleasedFacts(s, i);
    assert Local(s.subs[i], s.clock);
  }

  /** A worker step that lets one subtask's rank rise below COUNTED and changes no table. */
  ghost predicate Moves(s: State, t: State, i: Id, m: Id)
  {
    && Released(s, i) && m == s.subs[i].mainId && i in s.mains[m].begun && RELEASING <= s.subs[i].add
    && Delta(s, t, i, m) && t.subs.Keys == s.subs.Keys
    && t == s.(subs := t.subs, workers := t.workers, clock := t.clock, ring := t.ring, taken := t.taken)
    && t.subs[i].rank < COUNTED && t.subs[i].add == s.subs[i].add && t.subs[i].reaped == s.subs[i].reaped
    && t.subs[i].mainId == s.subs[i].mainId
  }

  lemma MovesTables(s: State, t: State, i: Id, m: Id)
    requires Names(s) && Locals(s) && Tables(s) && Moves(s, t, i, m) && Local(t.subs[i], t.clock)
    ensures Names(t) && Locals(t) && Tables(t)
  {
    NamesSame(s, t, i, m);
    LocalsKept(s, t, i, m);
    assert SubTabled(s, i) && MainTabled(s, m);
    WaitingSame(s, t, i, m);
    TablesKept(s, t, i, m);
  }

  lemma MovesMains(s: State, t: State, i: Id, m: Id)
    requires Names(s) && Locals(s) && Mains(s) && Members(s) && SubMains(s) && Moves(s, t, i, m)
    ensures Mains(t) && Members(t)
  {
    assert MainOk(s, m) && MemberOk(s, m, i);
    MainsKept(s, t, i, m);
    forall x, id | x in t.mains && id in t.mains[x].begun
      ensures MemberOk(t, x, id)
    {
      assert MemberOk(s, x, id);
      if id == i {
        MemberOf(s, x, i);
      }
    }
  }

  lemma MovesLists(s: State, t: State, i: Id, m: Id)
    requires Names(s) && Lists(s) && Members(s) && SubMains(s) && Moves(s, t, i, m)
    requires Names(t)
    ensures Lists(t) && SubMains(t)
  {
    assert s.mains[m].fin < 3 ==> Listed(s, m);
    ListsKept(s, t, i, m);
    assert SubMain(s, i);
    SubMainsKept(s, t, i, m);
  }

  lemma MovesRest(c: Config, s: State, t: State, i: Id, m: Id)
    requires Ordered(c, s) && Knowns(c, s) && Getters(s) && LockOk(s) && ScanOk(s) && Locals(s) && Mains(s)
    requires Moves(s, t, i, m) && TAKEN <= s.subs[i].rank && t.taken == s.taken && t.ring == s.ring
    requires Known(t, i) && Computed(c, t.subs[i])
    requires forall id :: id in s.subs && HAS_MAIN <= s.subs[id].add ==> s.subs[id].mainId in s.mains
    ensures Ordered(c, t) && Knowns(c, t) && Getters(t) && LockOk(t) && ScanOk(t)
  {
    assert Order(t) == Order(s);
    assert MainOk(s, m);
    OrderedKept(c, s, t, i, m);
    KnownsKept(c, s, t, i, m);
    GettersKept(s, t, i, m);
    LockKept(s, t, i, m);
    ScanKept(s, t, i, m);
  }

  /** The other workers do not notice. */
  lemma WorkersAlong(c: Config, s: State, t: State, w: nat, i: Id)
    requires Workers(c, s) && w < |s.workers| == |t.workers| && t.workers == s.workers[w := t.workers[w]]
    requires i in s.subs && t.subs.Keys == s.subs.Keys && Evolves(s.subs[i], t.subs[i])
    requires forall id :: id in s.subs && id != i ==> t.subs[id] == s.subs[id]
    requires t.subs[i].known == s.subs[i].known && t.subs[i].add == s.subs[i].add
    requires if s.workers[w].Idle? then s.subs[i].rank == UNTAKEN else s.workers[w].id == i
    requires WorkerOk(t, w)
    requires TAKEN <= t.subs[i].rank < FINISHED ==> HeldBy(t, i)
    ensures Workers(c, t)
  {
    assert WorkerOk(s, w);
    forall x | 0 <= x < |t.workers|
      ensures WorkerOk(t, x)
    {
      if x != w {
        assert WorkerOk(s, x);
        var pc := s.workers[x];
        if pc.Dep? || pc.DepNamed? || pc.DepWait? {
          assert Passed(s, pc.id, pc.k);
          assert Passed(t, pc.id, pc.k);
        }
      }
    }
    forall id | id in t.subs && TAKEN <= t.subs[id].rank < FINISHED
      ensures HeldBy(t, id)
    {
      if id != i {
        assert HeldBy(s, id);
      }
    }
  }

  /** What the proofs ask of a step along a subtask that does not reach the main task's counter. */
  ghost predicate Well(c: Config, s: State, w: nat, t: State, i: Id)
  {
    && w < |s.workers| == |t.workers| && !s.workers[w].Idle? && s.workers[w].id == i && i in s.subs && i in t.subs
    && t == s.(workers := s.workers[w := t.workers[w]], subs := s.subs[i := t.subs[i]], clock := t.clock)
    && s.clock <= t.clock
    && (var pc1, u, v := t.workers[w], s.subs[i], t.subs[i];
        && !pc1.Idle? && pc1.id == i && PcRank(pc1) == v.rank < COUNTED
        && Evolves(u, v) && Local(v, t.clock) && v.owner == w
        && v.add == u.add && v.mainId == u.mainId && v.reaped == u.reaped && TAKEN <= u.rank)
    && WorkerOk(t, w) && Known(t, i) && Computed(c, t.subs[i])
  }

  lemma Along(c: Config, s: State, w: nat, t: State, i: Id)
    requires Inv(c, s) && Well(c, s, w, t, i)
    ensures Inv(c, t)
  {
    HeldFacts(c, s, i);
    var m := s.subs[i].mainId;
    assert Moves(s, t, i, m);
    MovesTables(s, t, i, m);
    MovesMains(s, t, i, m);
    MovesLists(s, t, i, m);
    MainIdsExist(s);
    MovesRest(c, s, t, i, m);
    WorkersAlong(c, s, t, w, i);
  }

  lemma MainIdsExist(s: State)
    requires Names(s) && SubMains(s)
    ensures forall id :: id in s.subs && HAS_MAIN <= s.subs[id].add ==> s.subs[id].mainId in s.mains
  {
    forall id | id in s.subs && HAS_MAIN <= s.subs[id].add
      ensures s.subs[id].mainId in s.mains
    {
      assert SubMain(s, id);
    }
  }

  /** What is at hand when a worker takes a step along its subtask. */
  ghost predicate InHand(c: Config, s: State, w: nat, i: Id)
  {
    && SoundAt(s, w) && w < |s.workers| && !s.workers[w].Idle? && s.workers[w].id == i
    && WorkerOk(s, w) && Held(s, i) && Known(s, i) && Local(s.subs[i], s.clock) && Computed(c, s.subs[i])
  }

  /** A dependency known at dispatch that is no longer found by name or by id has ended. */
  lemma ReapedEnded(s: State, i: Id, d: Id)
    requires Names(s) && Locals(s) && Tables(s) && i in s.subs && Known(s, i) && d in s.subs[i].known
    ensures d in s.subs
    ensures s.subs[d].name !in s.subIds || d !in s.subTasks ==> ENDED <= s.subs[d].rank
  {
    assert SubTabled(s, d) && Local(s.subs[d], s.clock);
  }

  /** Looking its subtask up, or a dependency's name: a name that is gone was reaped, so it has ended. */
  lemma LookUp(c: Config, s: State, w: nat, t: State, i: Id)
    requires Names(s) && Locals(s) && Tables(s) && InHand(c, s, w, i) && t == ActStep(c, s, w)
    requires s.workers[w].Fetch? || (s.workers[w].Dep? && !Starts(s, s.workers[w]))
    ensures Well(c, s, w, t, i)
  {
    var pc := s.workers[w];
    if pc.Dep? {
      assert NameOk(s, s.subs[i].deps[pc.k]);
      forall d | d in s.subs[i].known
        ensures d in s.subs && (s.subs[d].name !in s.subIds ==> ENDED <= s.subs[d].rank)
      {
        ReapedEnded(s, i, d);
      }
    }
    assert t.subs == s.subs;
    assert t == s.(workers := t.workers);
  }

  /** Looking a dependency up by id, or passing one that is done. */
  lemma FindDep(c: Config, s: State, w: nat, t: State, i: Id)
    requires Names(s) && Locals(s) && Tables(s) && InHand(c, s, w, i) && t == ActStep(c, s, w)
    requires s.workers[w].DepNamed? || (s.workers[w].DepWait? && s.subs[s.workers[w].dep].done)
    ensures Well(c, s, w, t, i)
  {
    var pc := s.workers[w];
    assert SubTabled(s, pc.dep) && SubNamed(s, pc.dep) && Local(s.subs[pc.dep], s.clock);
    forall d | d in s.subs[i].known
      ensures d in s.subs && (d !in s.subTasks ==> ENDED <= s.subs[d].rank)
      ensures s.subs[d].name == s.subs[pc.dep].name ==> d == pc.dep
    {
      ReapedEnded(s, i, d);
      assert SubNamed(s, d);
    }
    assert t.subs == s.subs;
    assert t == s.(workers := t.workers);
  }

  /** The function starts: every dependency known at dispatch has ended. */
  lemma StartRun(c: Config, s: State, w: nat, t: State, i: Id)
    requires Names(s) && Locals(s) && InHand(c, s, w, i) && t == ActStep(c, s, w) && Starts(s, s.workers[w])
    ensures Well(c, s, w, t, i)
  {
    var v := t.subs[i];
    forall d | d in v.known && d in t.subs && t.subs[d].name in v.deps
      ensures ENDED <= t.subs[d].rank && t.subs[d].endAt < v.startAt
    {
      var j :| 0 <= j < |v.deps| && v.deps[j] == t.subs[d].name;
      assert Local(s.subs[d], s.clock);
    }
  }

  /** The function ends: its arguments are what the known dependencies produced. */
  lemma EndRun(c: Config, s: State, w: nat, t: State, i: Id)
    requires Names(s) && Locals(s) && InHand(c, s, w, i) && t == ActStep(c, s, w) && s.workers[w].Running?
    ensures Well(c, s, w, t, i)
  {
    var v := t.subs[i];
    forall j, d | 0 <= j < |v.deps| && j < |v.args| && d in v.known && d in t.subs && t.subs[d].name == v.deps[j]
      ensures v.args[j] == t.subs[d].out
    {
      assert SubNamed(s, d);
    }
  }

  /** Posting the slot, then setting `completed`, then `done`, then finding the main task. */
  lemma Announce(c: Config, s: State, w: nat, t: State, i: Id)
    requires InHand(c, s, w, i) && t == ActStep(c, s, w)
    requires var pc := s.workers[w]; pc.Ran? || pc.Posted? || pc.Completed? || pc.Done?
    ensures Well(c, s, w, t, i)
  {
  }

  lemma AlongPreserves(c: Config, s: State, w: nat, t: State)
    requires Inv(c, s) && SoundAt(s, w) && w < |s.workers| && WorkStep(c, s, w) == Some(t)
    requires TAKEN <= PcRank(s.workers[w]) <= DONE
    ensures Inv(c, t)
  {
    var pc := s.workers[w];
    var i := pc.id;
    assert WorkerOk(s, w);
    HeldFacts(c, s, i);
    assert Known(s, i) && Local(s.subs[i], s.clock) && Computed(c, s.subs[i]);
    AlongWell(c, s, w, t, i);
    Along(c, s, w, t, i);
  }

  lemma AlongWell(c: Config, s: State, w: nat, t: State, i: Id)
    requires Names(s) && Locals(s) && Tables(s) && InHand(c, s, w, i) && WorkStep(c, s, w) == Some(t)
    requires TAKEN <= PcRank(s.workers[w]) <= DONE
    ensures Well(c, s, w, t, i)
  {
    var pc := s.workers[w];
    if Starts(s, pc) {
      StartRun(c, s, w, t, i);
    } else if pc.Fetch? || pc.Dep? {
      LookUp(c, s, w, t, i);
    } else if pc.DepNamed? || pc.DepWait? {
      FindDep(c, s, w, t, i);
    } else if pc.Running? {
      EndRun(c, s, w, t, i);
    } else {
      Announce(c, s, w, t, i);
    }
  }

  // ---- taking a subtask from the ring ----

  lemma PopOrdered(c: Config, s: State, t: State, i: Id, m: Id)
    requires Ordered(c, s) && Moves(s, t, i, m) && s.subs[i].rank == UNTAKEN && t.subs[i].rank == TAKEN
    requires s.ring != [] && i == s.ring[0] && t.taken == s.taken + [i] && t.ring == s.ring[1..]
    ensures Order(t) == Order(s) && Ordered(c, t)
  {
    assert s.ring == [i] + s.ring[1..];
    assert Order(t) == Order(s);
    forall id
      ensures id in Order(t) <==> Released(t, id)
    {
      assert id in Order(s) <==> Released(s, id);
    }
    forall id
      ensures id in t.taken <==> id in t.subs && TAKEN <= t.subs[id].rank
    {
      assert id in s.taken <==> id in s.subs && TAKEN <= s.subs[id].rank;
    }
  }

  lemma PopRest(c: Config, s: State, t: State, i: Id, m: Id)
    requires Ordered(c, s) && Knowns(c, s) && Getters(s) && LockOk(s) && ScanOk(s) && Locals(s) && Mains(s)
    requires s.ring != [] && i == s.ring[0] && s.subs.Keys == t.subs.Keys
    requires t.taken == s.taken + [i] && t.ring == s.ring[1..]
    requires Moves(s, t, i, m) && s.subs[i].rank == UNTAKEN
    requires t.subs[i].rank == TAKEN && t.subs[i].known == s.subs[i].known
    requires forall id :: id in s.subs && HAS_MAIN <= s.subs[id].add ==> s.subs[id].mainId in s.mains
    ensures Ordered(c, t) && Knowns(c, t) && Getters(t) && LockOk(t) && ScanOk(t)
  {
    PopOrdered(c, s, t, i, m);
    assert MainOk(s, m) && Known(s, i);
    KnownKept(s, t, i, m);
    KnownsKept(c, s, t, i, m);
    GettersKept(s, t, i, m);
    LockKept(s, t, i, m);
    ScanKept(s, t, i, m);
  }

  lemma PopMoves(c: Config, s: State, w: nat)
    requires Names(s) && Mains(s) && Members(s) && SubMains(s) && Ordered(c, s) && Tables(s) && Locals(s)
    requires w < |s.workers| && s.ring != []
    ensures s.ring[0] in s.subs && s.subs[s.ring[0]].rank == UNTAKEN
    ensures Moves(s, PopStep(s, w), s.ring[0], s.subs[s.ring[0]].mainId)
  {
    HeadFacts(c, s);
    var i := s.ring[0];
    assert Local(s.subs[i], s.clock);
    assert Evolves(s.subs[i], PopStep(s, w).subs[i]);
  }

  lemma Pop(c: Config, s: State, w: nat, t: State)
    requires Inv(c, s) && SoundAt(s, w) && w < |s.workers| && WorkStep(c, s, w) == Some(t)
    requires s.workers[w].Idle?
    ensures Inv(c, t)
  {
    PopMoves(c, s, w);
    var i := s.ring[0];
    var m := s.subs[i].mainId;
    assert Local(s.subs[i], s.clock);
    MovesTables(s, t, i, m);
    MovesMains(s, t, i, m);
    MovesLists(s, t, i, m);
    MainIdsExist(s);
    PopRest(c, s, t, i, m);
    WorkersAlong(c, s, t, w, i);
  }

  // ---- counting, and removing the main task ----

  /** A worker step at the main task's counter or after it. */
  ghost predicate Closes(s: State, t: State, i: Id, m: Id)
  {
    && Held(s, i) && m == s.subs[i].mainId && Delta(s, t, i, m)
    && t == s.(subs := t.subs, workers := t.workers, mains := t.mains, mainTasks := t.mainTasks, mainSubs := t.mainSubs)
    && t.subs == s.subs[i := s.subs[i].(rank := t.subs[i].rank)]
    && AT_MAIN <= s.subs[i].rank < t.subs[i].rank <= FINISHED
    && t.mains == s.mains[m := s.mains[m].(completedCount := t.mains[m].completedCount, counted := t.mains[m].counted,
                                           fin := t.mains[m].fin, finisher := t.mains[m].finisher)]
    && s.mains[m].fin <= t.mains[m].fin <= 3
    && (m in t.mainTasks <==> t.mains[m].fin < 2)
    && (forall x :: x != m ==> (x in t.mainTasks <==> x in s.mainTasks) && List(t, x) == List(s, x))
    && (t.mains[m].fin < 3 ==> List(t, m) == List(s, m))
    && t.mainSubs.Keys <= s.mainSubs.Keys
  }

  lemma ClosesTables(s: State, t: State, i: Id, m: Id)
    requires Names(s) && Locals(s) && Tables(s) && Mains(s) && Closes(s, t, i, m) && s.mains[m].add == MAIN_ADDED
    ensures Names(t) && Locals(t) && Tables(t)
  {
    NamesSame(s, t, i, m);
    assert Local(s.subs[i], s.clock) && MainOk(s, m);
    LocalsKept(s, t, i, m);
    assert SubTabled(s, i) && MainTabled(s, m);
    WaitingSame(s, t, i, m);
    TablesKept(s, t, i, m);
  }

  lemma ClosesMains(s: State, t: State, i: Id, m: Id)
    requires Names(s) && Locals(s) && Mains(s) && Members(s) && SubMains(s) && Closes(s, t, i, m) && MainOk(t, m)
    requires t.mains[m].counted == s.mains[m].counted + (if s.subs[i].rank < COUNTED then {i} else {})
    ensures Mains(t) && Members(t)
  {
    assert MainOk(s, m) && MemberOk(s, m, i) && Local(s.subs[i], s.clock);
    MainsKept(s, t, i, m);
    forall x, id | x in t.mains && id in t.mains[x].begun
      ensures MemberOk(t, x, id)
    {
      assert MemberOk(s, x, id);
      if id == i {
        MemberOf(s, x, i);
      }
    }
  }

  lemma ClosesLists(s: State, t: State, i: Id, m: Id)
    requires Names(s) && Lists(s) && Members(s) && SubMains(s) && Closes(s, t, i, m)
    requires Names(t) && SubMain(t, i) && HandOver(s, t, i, m)
    ensures Lists(t) && SubMains(t)
  {
    assert t.mains[m].fin < 3 ==> Listed(s, m);
    ListsKept(s, t, i, m);
    SubMainsKept(s, t, i, m);
  }

  lemma ClosesRest(c: Config, s: State, t: State, i: Id, m: Id)
    requires Ordered(c, s) && Knowns(c, s) && Getters(s) && LockOk(s) && ScanOk(s) && Locals(s) && Mains(s)
    requires Closes(s, t, i, m)
    requires forall id :: id in s.subs && HAS_MAIN <= s.subs[id].add ==> s.subs[id].mainId in s.mains
    ensures Ordered(c, t) && Knowns(c, t) && Getters(t) && LockOk(t) && ScanOk(t)
  {
    assert MainOk(s, m) && Known(s, i) && Computed(c, s.subs[i]);
    OrderedKept(c, s, t, i, m);
    KnownKept(s, t, i, m);
    KnownsKept(c, s, t, i, m);
    GettersKept(s, t, i, m);
    LockKept(s, t, i, m);
    ScanKept(s, t, i, m);
  }

  lemma Closing(c: Config, s: State, w: nat, t: State, i: Id, m: Id)
    requires Inv(c, s) && w < |s.workers| && !s.workers[w].Idle? && s.workers[w].id == i
    requires ClosesWell(s, w, t, i, m)
    ensures Inv(c, t)
  {
    ReleasedFacts(s, i);
    ClosesTables(s, t, i, m);
    ClosesMains(s, t, i, m);
    ClosesLists(s, t, i, m);
    MainIdsExist(s);
    ClosesRest(c, s, t, i, m);
    WorkersAlong(c, s, t, w, i);
  }

  /** What Closing asks of such a step. */
  ghost predicate ClosesWell(s: State, w: nat, t: State, i: Id, m: Id)
  {
    && Closes(s, t, i, m) && MainOk(t, m) && SubMain(t, i) && HandOver(s, t, i, m)
    && t.mains[m].counted == s.mains[m].counted + (if s.subs[i].rank < COUNTED then {i} else {})
    && w < |s.workers| == |t.workers| && t.workers == s.workers[w := t.workers[w]] && WorkerOk(t, w)
    && (t.subs[i].rank < FINISHED ==> HeldBy(t, i))
  }

  /** What is at hand when a worker reaches its main task's counter or is past it. */
  ghost predicate AtCounter(s: State, w: nat, i: Id, m: Id)
  {
    && SoundAt(s, w) && w < |s.workers| && !s.workers[w].Idle?
    && s.workers[w].id == i && AT_MAIN <= PcRank(s.workers[w])
    && WorkerOk(s, w) && Held(s, i) && m == s.subs[i].mainId && MainOk(s, m) && SubMain(s, i)
    && MainTabled(s, m) && s.mains[m].add == MAIN_ADDED
  }

  /** The three steps at the counter, spelled out. */
  ghost predicate Counts(s: State, w: nat, t: State, i: Id, m: Id)
  {
    && w < |s.workers| == |t.workers| && i in s.subs && i in t.subs && m in s.mains && m in t.mains
    && t == s.(workers := s.workers[w := t.workers[w]], subs := s.subs[i := s.subs[i].(rank := t.subs[i].rank)],
               mains := s.mains[m := t.mains[m]], mainTasks := t.mainTasks, mainSubs := t.mainSubs)
    && t.mains[m] == s.mains[m].(completedCount := t.mains[m].completedCount, counted := t.mains[m].counted,
                                 fin := t.mains[m].fin, finisher := t.mains[m].finisher)
    && (t.mainTasks == if s.workers[w].LastOne? then s.mainTasks - {m} else s.mainTasks)
    && (t.mainSubs == if s.workers[w].Unlisting? then s.mainSubs - {m} else s.mainSubs)
    && var a, b, r := s.mains[m], t.mains[m], t.subs[i].rank;
       if s.workers[w] == AtMain(i) then
         && b.completedCount == a.completedCount + 1 && b.counted == a.counted + {i}
         && (if b.completedCount == a.size then b.fin == 1 && b.finisher == i && r == COUNTED
               && t.workers[w] == LastOne(i)
             else b.fin == a.fin && b.finisher == a.finisher && r == FINISHED && t.workers[w] == Idle)
       else
         && b.completedCount == a.completedCount && b.counted == a.counted && b.finisher == a.finisher
         && (if s.workers[w] == LastOne(i) then b.fin == 2 && r == UNLISTED && t.workers[w] == Unlisting(i)
             else s.workers[w] == Unlisting(i) && b.fin == 3 && r == FINISHED && t.workers[w] == Idle)
  }

  lemma CounterCounts(c: Config, s: State, w: nat, t: State, i: Id, m: Id)
    requires AtCounter(s, w, i, m) && t == ActStep(c, s, w)
    ensures Counts(s, w, t, i, m)
  {
  }

  lemma CounterDelta(s: State, w: nat, t: State, i: Id, m: Id)
    requires AtCounter(s, w, i, m) && Counts(s, w, t, i, m)
    ensures Delta(s, t, i, m)
  {
    assert Evolves(s.subs[i], t.subs[i]) && MainEvolves(s.mains[m], t.mains[m]);
  }

  lemma CounterTables(s: State, w: nat, t: State, i: Id, m: Id)
    requires AtCounter(s, w, i, m) && Counts(s, w, t, i, m)
    ensures m in t.mainTasks <==> t.mains[m].fin < 2
    ensures forall x :: x != m ==> (x in t.mainTasks <==> x in s.mainTasks) && List(t, x) == List(s, x)
    ensures t.mains[m].fin < 3 ==> List(t, m) == List(s, m)
  {
  }

  lemma CounterCloses(s: State, w: nat, t: State, i: Id, m: Id)
    requires AtCounter(s, w, i, m) && Counts(s, w, t, i, m) && Delta(s, t, i, m)
    ensures Closes(s, t, i, m)
  {
    CounterTables(s, w, t, i, m);
    assert s.mains[m].fin <= t.mains[m].fin <= 3;
  }

  /** The increment, by a worker whose subtask is not yet counted; then, by the last one, the erasures. */
  lemma CounterMain(s: State, w: nat, t: State, i: Id, m: Id)
    requires AtCounter(s, w, i, m) && Counts(s, w, t, i, m)
    ensures MainOk(t, m)
  {
    if s.workers[w].AtMain? {
      assert |s.mains[m].counted + {i}| == |s.mains[m].counted| + 1;
    }
  }

  lemma CounterHandOver(s: State, w: nat, t: State, i: Id, m: Id)
    requires AtCounter(s, w, i, m) && Counts(s, w, t, i, m)
    ensures HandOver(s, t, i, m)
  {
  }

  lemma CounterSubMain(s: State, w: nat, t: State, i: Id, m: Id)
    requires AtCounter(s, w, i, m) && Counts(s, w, t, i, m)
    ensures SubMain(t, i)
  {
  }

  lemma CounterWorker(s: State, w: nat, t: State, i: Id, m: Id)
    requires AtCounter(s, w, i, m) && Counts(s, w, t, i, m)
    ensures WorkerOk(t, w) && (t.subs[i].rank < FINISHED ==> HeldBy(t, i))
  {
  }

  lemma CounterWell(s: State, w: nat, t: State, i: Id, m: Id)
    requires AtCounter(s, w, i, m) && Counts(s, w, t, i, m) && Closes(s, t, i, m) && MainOk(t, m)
    ensures ClosesWell(s, w, t, i, m)
  {
    CounterHandOver(s, w, t, i, m);
    CounterSubMain(s, w, t, i, m);
    CounterWorker(s, w, t, i, m);
  }

  lemma CounterPreserves(c: Config, s: State, w: nat, t: State)
    requires Inv(c, s) && SoundAt(s, w) && w < |s.workers| && WorkStep(c, s, w) == Some(t)
    requires AT_MAIN <= PcRank(s.workers[w])
    ensures Inv(c, t)
  {
    var i := s.workers[w].id;
    var m := s.subs[i].mainId;
    assert WorkerOk(s, w);
    HeldFacts(c, s, i);
    ReleasedFacts(s, i);
    assert MainOk(s, m) && SubMain(s, i) && MainTabled(s, m);
    CounterCounts(c, s, w, t, i, m);
    CounterDelta(s, w, t, i, m);
    CounterCloses(s, w, t, i, m);
    CounterMain(s, w, t, i, m);
    CounterWell(s, w, t, i, m);
    Closing(c, s, w, t, i, m);
  }

  lemma WorkPreserves(c: Config, s: State, w: nat, t: State)
    requires Inv(c, s) && SoundAt(s, w) && w < |s.workers| && WorkStep(c, s, w) == Some(t)
    ensures Inv(c, t)
  {
    if s.workers[w].Idle? {
      Pop(c, s, w, t);
    } else if PcRank(s.workers[w]) <= DONE {
      AlongPreserves(c, s, w, t);
    } else {
      CounterPreserves(c, s, w, t);
    }
  }
}
