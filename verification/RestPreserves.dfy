/** The steps of the environment, of getSubTaskResult and of the event loop keep the invariant. */
module RestPreserves {
  import opened Sequences
  import opened Protocol
  import opened Invariant
  import opened Frames
  import opened WorkerPreserves
  import opened CallerPreserves

  // ---- steps that touch no subtask, no main task and no table ----

  ghost predicate Control(s: State, t: State)
  {
    t == s.(getters := t.getters, running := t.running, loop := t.loop, readyLock := t.readyLock,
            passes := t.passes, snap := t.snap, stopSnap := t.stopSnap)
  }

  lemma ControlDelta(s: State, t: State)
    requires Names(s) && Control(s, t)
    ensures Delta(s, t, s.nextSub, s.nextMain) && s.nextSub !in s.subs && s.nextMain !in s.mains
  {
    FreshSub(s);
  }

  lemma ControlRecords(s: State, t: State)
    requires Names(s) && Locals(s) && Tables(s) && Mains(s) && Members(s) && Lists(s) && SubMains(s)
    requires Control(s, t)
    ensures Names(t) && Locals(t) && Tables(t) && Mains(t) && Members(t)
  {
    var i, m := s.nextSub, s.nextMain;
    ControlDelta(s, t);
    NamesSame(s, t, i, m);
    LocalsKept(s, t, i, m);
    WaitingSame(s, t, i, m);
    TablesKept(s, t, i, m);
    MainsKept(s, t, i, m);
    NoMember(s, i);
    MembersKept(s, t, i, m);
  }

  lemma ControlRest(c: Config, s: State, t: State)
    requires Names(s) && Names(t) && Members(s) && Lists(s) && SubMains(s)
    requires Ordered(c, s) && Knowns(c, s) && Workers(c, s)
    requires Control(s, t)
    ensures Lists(t) && SubMains(t) && Ordered(c, t) && Knowns(c, t) && Workers(c, t)
  {
    var i, m := s.nextSub, s.nextMain;
    ControlDelta(s, t);
    NoMember(s, i);
    ListsKept(s, t, i, m);
    SubMainsKept(s, t, i, m);
    MainIdsExist(s);
    OrderedKept(c, s, t, i, m);
    KnownsKept(c, s, t, i, m);
    forall id | id in s.subs
      ensures forall d :: d in s.subs[id].known ==> d in s.subs
    {
      assert Known(s, id);
    }
    WorkersKept(c, s, t, i, m);
  }

  lemma ControlPreserves(c: Config, s: State, t: State)
    requires Inv(c, s) && Control(s, t) && Getters(t) && LockOk(t) && ScanOk(t)
    ensures Inv(c, t)
  {
    ControlRecords(s, t);
    ControlRest(c, s, t);
  }

  /** When only the program counter of the event loop moves outside its pass. */
  lemma LoopMoved(s: State, t: State)
    requires Names(s) && Locals(s) && Getters(s) && LockOk(s) && Control(s, t) && t.getters == s.getters
    requires t.readyLock == s.readyLock && t.passes == s.passes && !s.loop.Emit? && !t.loop.Emit?
    ensures Getters(t) && LockOk(t)
  {
    ControlDelta(s, t);
    GettersKept(s, t, s.nextSub, s.nextMain);
    forall id
      ensures Holding(t, id) <==> t.readyLock == ByAdder(id)
    {
      assert Holding(s, id) <==> s.readyLock == ByAdder(id);
    }
    assert Order(t) == Order(s);
  }

  /** What a scan has seen carries over when it goes on, or when a new one begins. */
  lemma ScanMoved(s: State, t: State)
    requires ScanOk(s) && Control(s, t)
    requires t.snap == s.snap || t.snap == AddedMains(s)
    requires t.stopSnap == s.stopSnap || (s.stopSnap.None? && t.stopSnap == Some(AddedMains(s)))
    requires Scanning(t) ==>
      !t.running && t.stopSnap.Some? && (t.snap == AddedMains(s) || (Scanning(s) && t.snap == s.snap))
    requires !t.running && t.loop != Off ==> t.stopSnap.Some?
    requires t.loop == Scan3 || t.loop == Exited ==>
      forall x {:trigger Unwaited(s, x)} :: x in t.snap ==> Unwaited(s, x)
    requires t.loop == Exited ==> forall id {:trigger Released(s, id)} ::
      Released(s, id) && s.subs[id].mainId in t.snap ==> POSTED <= s.subs[id].rank
    ensures ScanOk(t)
  {
    forall x
      ensures Added(t, x) <==> Added(s, x)
      ensures Unwaited(t, x) <==> Unwaited(s, x)
    {
    }
    forall id
      ensures Released(t, id) <==> Released(s, id)
    {
    }
    forall x
      ensures x in AddedMains(s) <==> Added(s, x)
    {
    }
  }

  lemma StartPreserves(c: Config, s: State, t: State)
    requires Inv(c, s) && s.loop == Off && t == s.(running := true, loop := Top)
    ensures Inv(c, t)
  {
    LoopMoved(s, t);
    ScanMoved(s, t);
    ControlPreserves(c, s, t);
  }

  lemma StopPreserves(c: Config, s: State, t: State)
    requires Inv(c, s) && t == StopStep(s)
    ensures Inv(c, t)
  {
    LockSame(s, t);
    ScanMoved(s, t);
    ControlPreserves(c, s, t);
  }

  /** When the event loop does not move at all. */
  lemma LockSame(s: State, t: State)
    requires Names(s) && Locals(s) && Getters(s) && LockOk(s) && Control(s, t) && t.getters == s.getters
    requires t.readyLock == s.readyLock && t.passes == s.passes && t.loop == s.loop
    ensures Getters(t) && LockOk(t)
  {
    ControlDelta(s, t);
    GettersKept(s, t, s.nextSub, s.nextMain);
    LockKept(s, t, s.nextSub, s.nextMain);
  }

  // ---- the event loop ----

  /** Finding no main task waiting, the scan knows that those added before it are all released. */
  lemma NoneWaiting(s: State)
    requires Tables(s) && Mains(s)
    requires forall p :: 0 <= p < PRIORITIES ==> s.waiting[p] == {}
    ensures forall x {:trigger Unwaited(s, x)} :: Added(s, x) ==> Unwaited(s, x)
  {
    forall x | Added(s, x)
      ensures Unwaited(s, x)
    {
      assert MainOk(s, x);
      assert Waits(s, x, s.mains[x].prio) <==> x in s.waiting[s.mains[x].prio];
    }
  }

  /** Finding every subtask in sub_tasks completed, the scan knows that every registered one is posted. */
  lemma AllCompleted(s: State)
    requires Names(s) && Locals(s) && Tables(s) && Mains(s) && Members(s) && SubMains(s)
    requires forall id :: id in s.subTasks ==> s.subs[id].completed
    ensures forall id {:trigger Released(s, id)} :: Released(s, id) ==> POSTED <= s.subs[id].rank
  {
    forall id {:trigger Released(s, id)} | Released(s, id)
      ensures POSTED <= s.subs[id].rank
    {
      ReleasedFacts(s, id);
      assert SubTabled(s, id) && Local(s.subs[id], s.clock);
    }
  }

  lemma PollPreserves(c: Config, s: State, t: State)
    requires Inv(c, s) && Sound(c, s) && LoopStep(c, s) == Some(t)
    requires s.loop == Top || Scanning(s)
    ensures Inv(c, t)
  {
    LoopMoved(s, t);
    if s.loop == Scan2 && t.loop == Scan3 {
      NoneWaiting(s);
      assert forall x {:trigger Unwaited(s, x)} :: x in s.snap ==> Added(s, x);
    }
    if s.loop == Scan3 && t.loop == Exited {
      AllCompleted(s);
    }
    ScanMoved(s, t);
    ControlPreserves(c, s, t);
  }

  /** A pass begins: its subtasks are those in the queues. */
  lemma PassBegins(c: Config, s: State, t: State)
    requires Inv(c, s) && s.loop == Want && s.readyLock == Free
    requires t == s.(loop := Emit(PRIORITIES - 1), readyLock := ByLoop, passes := s.passes + [Flat(s.ready)])
    ensures Inv(c, t)
  {
    ControlDelta(s, t);
    GettersKept(s, t, s.nextSub, s.nextMain);
    assert t.passes[..|t.passes| - 1] == s.passes;
    assert Order(t) == Order(s);
    assert Order(t) == Concat(t.passes) + [];
    forall id
      ensures Holding(t, id) <==> t.readyLock == ByAdder(id)
    {
      assert Holding(s, id) <==> s.readyLock == ByAdder(id);
    }
    ScanMoved(s, t);
    ControlPreserves(c, s, t);
  }

  /** An empty queue is left behind; after the last one the pass is over and all queues are empty. */
  lemma PassMoves(c: Config, s: State, t: State)
    requires Inv(c, s) && s.loop.Emit? && s.loop.p < |s.ready| && s.ready[s.loop.p] == []
    requires t == PassStep(s, s.loop.p)
    ensures Inv(c, t)
  {
    ControlDelta(s, t);
    GettersKept(s, t, s.nextSub, s.nextMain);
    assert Order(t) == Order(s);
    if s.loop.p == 0 {
      FlatEmpty(s.ready);
      assert Order(t) == Concat(t.passes) + Flat(t.ready);
    }
    forall id
      ensures Holding(t, id) <==> t.readyLock == ByAdder(id)
    {
      assert Holding(s, id) <==> s.readyLock == ByAdder(id);
    }
    ScanMoved(s, t);
    ControlPreserves(c, s, t);
  }

  /** Taking the front of the first non-empty queue takes the front of the queues end to end. */
  lemma FlatPop(queues: seq<seq<Id>>, p: nat)
    requires p < |queues| && queues[p] != []
    requires forall q :: p < q < |queues| ==> queues[q] == []
    ensures Flat(queues) == [queues[p][0]] + Flat(queues[p := queues[p][1..]])
  {
    var n := |queues| - 1;
    var popped := queues[p := queues[p][1..]];
    if p == n {
      assert popped[..n] == queues[..n];
      assert queues[n] == [queues[n][0]] + queues[n][1..];
    } else {
      FlatPop(queues[..n], p);
      assert popped[..n] == queues[..n][p := queues[..n][p][1..]];
    }
  }

  /** The subtask dispatched next: released, untaken, known to be fully registered. */
  lemma EmitFacts(c: Config, s: State, p: nat)
    requires Names(s) && Locals(s) && Mains(s) && Members(s) && SubMains(s) && Ordered(c, s)
    requires p < |s.ready| && s.ready[p] != [] && (forall q :: p < q < |s.ready| ==> s.ready[q] == [])
    ensures var i := s.ready[p][0];
      && Released(s, i) && s.subs[i].rank == UNTAKEN && i !in s.taken + s.ring
      && s.mains[s.subs[i].mainId].begun <= InsertedSubs(s) && i in s.mains[s.subs[i].mainId].begun
  {
    var i := s.ready[p][0];
    FlatPop(s.ready, p);
    var q, k := Order(s), |s.taken + s.ring|;
    assert q[k] == i && i in q;
    forall j | 0 <= j < k
      ensures (s.taken + s.ring)[j] != i
    {
      assert q[j] != q[k];
    }
    forall j | 0 <= j < |s.taken|
      ensures s.taken[j] != i
    {
      assert (s.taken + s.ring)[j] != i;
    }
    assert i !in s.taken;
    assert Released(s, i);
    ReleasedFacts(s, i);
    AllReadied(s, s.subs[i].mainId);
  }

  /** Dispatching one subtask: it moves from its queue to the ring and learns what is registered. */
  ghost predicate Emits(s: State, t: State, p: nat, i: Id, m: Id)
  {
    && p < |s.ready| && s.ready[p] != [] && s.ready[p][0] == i && i in s.subs && m == s.subs[i].mainId
    && Released(s, i) && s.subs[i].rank == UNTAKEN && i !in s.taken + s.ring && RELEASING <= s.subs[i].add
    && i in s.mains[m].begun && s.mains[m].begun <= InsertedSubs(s)
    && t == EmitStep(s, p) && Delta(s, t, i, m) && t.subs.Keys == s.subs.Keys && Order(t) == Order(s)
  }

  lemma EmitTables(s: State, t: State, p: nat, i: Id, m: Id)
    requires Names(s) && Locals(s) && Tables(s) && Mains(s) && Emits(s, t, p, i, m)
    ensures Names(t) && Locals(t) && Tables(t)
  {
    assert Local(s.subs[i], s.clock) && SubTabled(s, i) && MainTabled(s, m);
    NamesSame(s, t, i, m);
    LocalsKept(s, t, i, m);
    WaitingSame(s, t, i, m);
    TablesKept(s, t, i, m);
  }

  lemma EmitMains(s: State, t: State, p: nat, i: Id, m: Id)
    requires Names(s) && Locals(s) && Mains(s) && Members(s) && SubMains(s) && Emits(s, t, p, i, m)
    ensures Mains(t) && Members(t)
  {
    assert MainOk(s, m);
    MainsKept(s, t, i, m);
    forall x, id | x in t.mains && id in t.mains[x].begun
      ensures MemberOk(t, x, id)
    {
      assert MemberOk(s, x, id);
    }
  }

  lemma EmitLists(s: State, t: State, p: nat, i: Id, m: Id)
    requires Names(s) && Names(t) && Locals(s) && Members(s) && Lists(s) && SubMains(s) && Emits(s, t, p, i, m)
    ensures Lists(t) && SubMains(t)
  {
    assert SubMain(s, i) && (s.mains[m].fin < 3 ==> Listed(s, m));
    ListsKept(s, t, i, m);
    SubMainsKept(s, t, i, m);
  }

  lemma EmitRest(c: Config, s: State, t: State, p: nat, i: Id, m: Id)
    requires Names(s) && Names(t) && Locals(s) && Members(s) && Lists(s) && SubMains(s) && Workers(c, s) && Getters(s)
    requires Knowns(c, s) && Emits(s, t, p, i, m)
    ensures Lists(t) && SubMains(t) && Knowns(c, t) && Workers(c, t) && Getters(t)
  {
    EmitLists(s, t, p, i, m);
    assert Known(s, i) && Computed(c, s.subs[i]);
    KnownsKept(c, s, t, i, m);
    forall id | id in s.subs
      ensures forall d :: d in s.subs[id].known ==> d in s.subs
    {
      assert Known(s, id);
    }
    WorkersKept(c, s, t, i, m);
    GettersKept(s, t, i, m);
  }

  lemma EmitQueues(c: Config, s: State, t: State, p: nat, i: Id, m: Id)
    requires Names(s) && SubMains(s) && Ordered(c, s) && LockOk(s) && ScanOk(s) && Mains(s)
    requires Emits(s, t, p, i, m) && s.loop == Emit(p) && |s.ring| < c.poolSize
    ensures Ordered(c, t) && LockOk(t) && ScanOk(t)
  {
    assert MainOk(s, m);
    MainIdsExist(s);
    OrderedKept(c, s, t, i, m);
    ScanKept(s, t, i, m);
    forall id
      ensures Holding(t, id) <==> t.readyLock == ByAdder(id)
    {
      assert Holding(s, id) <==> s.readyLock == ByAdder(id);
    }
  }

  lemma EmitEmits(c: Config, s: State, p: nat)
    requires Names(s) && Locals(s) && Mains(s) && Members(s) && SubMains(s) && Ordered(c, s)
    requires p < |s.ready| && s.ready[p] != [] && (forall q :: p < q < |s.ready| ==> s.ready[q] == [])
    requires s.ready[p][0] in s.subs
    ensures Emits(s, EmitStep(s, p), p, s.ready[p][0], s.subs[s.ready[p][0]].mainId)
  {
    var i := s.ready[p][0];
    var t := EmitStep(s, p);
    EmitFacts(c, s, p);
    ReleasedFacts(s, i);
    FlatPop(s.ready, p);
    assert Order(t) == Order(s);
    assert Evolves(s.subs[i], t.subs[i]);
  }

  lemma EmitPreserves(c: Config, s: State, t: State)
    requires Inv(c, s) && s.loop.Emit? && s.loop.p < |s.ready| && s.ready[s.loop.p] != [] && |s.ring| < c.poolSize
    requires s.ready[s.loop.p][0] in s.subs && t == EmitStep(s, s.loop.p)
    ensures Inv(c, t)
  {
    var p := s.loop.p;
    var i := s.ready[p][0];
    var m := s.subs[i].mainId;
    EmitEmits(c, s, p);
    EmitTables(s, t, p, i, m);
    EmitMains(s, t, p, i, m);
    EmitRest(c, s, t, p, i, m);
    EmitQueues(c, s, t, p, i, m);
  }

  lemma LoopPreserves(c: Config, s: State, t: State)
    requires Inv(c, s) && Sound(c, s) && LoopStep(c, s) == Some(t)
    ensures Inv(c, t)
  {
    if s.loop == Top || Scanning(s) {
      PollPreserves(c, s, t);
    } else if s.loop == Want {
      PassBegins(c, s, t);
    } else if s.ready[s.loop.p] == [] {
      PassMoves(c, s, t);
    } else {
      EmitPreserves(c, s, t);
    }
  }
}
