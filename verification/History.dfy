/** What a step never takes back, and what a step that is no submitter's leaves unchanged. */
module History {
  import opened Sequences
  import opened Protocol
  import opened Invariant
  import opened Frames
  import opened WorkerPreserves
  import opened RestPreserves

  /** The steps of workers, getters and the event loop: no call of addMainTask or addSubTask moves. */
  predicate Quiet(a: Action)
  {
    !a.BeginMain? && !a.BeginSub? && !a.AddMain? && !a.AddSub?
  }

  /** What such a step leaves of a subtask: its registration stays and it only advances. */
  predicate Carries(u: Sub, v: Sub)
  {
    && Evolves(u, v) && v.add == u.add && v.threw == u.threw && v.mainId == u.mainId
    && (TAKEN <= u.rank ==> v.owner == u.owner)
  }

  predicate MainCarries(a: Main, b: Main)
  {
    && MainEvolves(a, b) && b.add == a.add && b.begun == a.begun && b.rel == a.rel && b.order == a.order
    && (1 <= a.fin ==> b.finisher == a.finisher)
  }

  ghost predicate Carried(s: State, t: State)
  {
    && t.subs.Keys == s.subs.Keys && t.mains.Keys == s.mains.Keys
    && (forall id {:trigger Carries(s.subs[id], t.subs[id])} :: id in s.subs ==> Carries(s.subs[id], t.subs[id]))
    && (forall m {:trigger MainCarries(s.mains[m], t.mains[m])} :: m in s.mains ==> MainCarries(s.mains[m], t.mains[m]))
    && Order(t) == Order(s) && s.taken <= t.taken && StopKept(s, t)
  }

  /** Only the first call of Stop records the main tasks added so far. */
  ghost predicate StopKept(s: State, t: State)
  {
    t.stopSnap == s.stopSnap || (s.stopSnap.None? && t.stopSnap == Some(AddedMains(s)))
  }

  /** The facts about a worker's subtask and its main task that its next step relies on. */
  ghost predicate AtHand(s: State, w: nat)
    requires w < |s.workers|
  {
    var pc := s.workers[w];
    if pc.Idle? then s.ring != [] ==> s.ring[0] in s.subs && s.subs[s.ring[0]].rank == UNTAKEN
    else
      && pc.id in s.subs && s.subs[pc.id].rank == PcRank(pc) && s.subs[pc.id].mainId in s.mains
      && s.mains[s.subs[pc.id].mainId].fin <= 3
      && (pc.AtMain? ==> s.mains[s.subs[pc.id].mainId].fin == 0)
      && (pc.LastOne? ==> s.mains[s.subs[pc.id].mainId].fin == 1)
  }

  lemma AtHandFacts(c: Config, s: State, w: nat)
    requires Names(s) && Mains(s) && Members(s) && SubMains(s)
    requires Ordered(c, s) && Tables(s) && Locals(s) && Workers(c, s)
    requires w < |s.workers|
    ensures AtHand(s, w)
  {
    assert WorkerOk(s, w);
    if s.workers[w].Idle? {
      if s.ring != [] {
        HeadFacts(c, s);
      }
    } else {
      var i := s.workers[w].id;
      HeldFacts(c, s, i);
      assert MainOk(s, s.subs[i].mainId) && SubMain(s, i);
    }
  }

  lemma WorkCarries(c: Config, s: State, w: nat, t: State)
    requires SoundAt(s, w) && w < |s.workers| && AtHand(s, w) && WorkStep(c, s, w) == Some(t)
    ensures Carried(s, t)
  {
    if s.workers[w].Idle? {
      assert s.ring == [s.ring[0]] + s.ring[1..];
      assert Order(t) == Order(s);
    } else {
      ActCarries(c, s, w, t);
    }
  }

  lemma ActCarries(c: Config, s: State, w: nat, t: State)
    requires SoundAt(s, w) && w < |s.workers| && !s.workers[w].Idle? && AtHand(s, w) && t == ActStep(c, s, w)
    ensures Carried(s, t)
  {
    var pc := s.workers[w];
    var i := pc.id;
    assert Carries(s.subs[i], NextSub(c, s, pc));
    assert MainCarries(s.mains[s.subs[i].mainId], NextMain(s, pc)) || !(pc.AtMain? || pc.LastOne? || pc.Unlisting?);
    forall id | id in s.subs
      ensures Carries(s.subs[id], t.subs[id])
    {
    }
    forall m | m in s.mains
      ensures MainCarries(s.mains[m], t.mains[m])
    {
    }
  }

  lemma ControlCarries(s: State, t: State)
    requires Control(s, t) && StopKept(s, t)
    ensures Carried(s, t)
  {
    assert Order(t) == Order(s);
  }

  lemma TakeCarries(s: State, n: Name, id: Id, t: State)
    requires n in s.getters && id in s.subs && t == TakeStep(s, n, id)
    ensures Carried(s, t)
  {
    assert Carries(s.subs[id], t.subs[id]);
    assert Order(t) == Order(s);
  }

  /** A getter's step moves only the getter, or takes something through its slot. */
  ghost predicate GetCase(s: State, n: Name, t: State)
  {
    || t == s.(getters := t.getters)
    || (n in s.getters && HasTarget(s.getters[n]) && s.getters[n].id in s.subs && t == TakeStep(s, n, s.getters[n].id))
  }

  lemma AskCases(s: State, n: Name, t: State)
    requires n in s.getters && (s.getters[n].Asked? || s.getters[n].HasId?)
    requires forall n :: n in s.getters && HasTarget(s.getters[n]) ==> s.getters[n].id in s.subs
    requires GetStep(s, n) == Some(t)
    ensures t == s.(getters := t.getters)
  {
  }

  lemma TakeCases(s: State, n: Name, t: State)
    requires n in s.getters && !s.getters[n].Asked? && !s.getters[n].HasId?
    requires forall n :: n in s.getters && HasTarget(s.getters[n]) ==> s.getters[n].id in s.subs
    requires GetStep(s, n) == Some(t)
    ensures HasTarget(s.getters[n]) && t == TakeStep(s, n, s.getters[n].id)
  {
  }

  lemma GetCases(s: State, n: Name, t: State)
    requires forall n :: n in s.getters && HasTarget(s.getters[n]) ==> s.getters[n].id in s.subs
    requires GetStep(s, n) == Some(t)
    ensures GetCase(s, n, t)
  {
    if s.getters[n].Asked? || s.getters[n].HasId? {
      AskCases(s, n, t);
    } else {
      TakeCases(s, n, t);
    }
  }

  lemma GetCarries(s: State, n: Name, t: State)
    requires GetCase(s, n, t)
    ensures Carried(s, t)
  {
    if t == s.(getters := t.getters) {
      ControlCarries(s, t);
    } else {
      TakeCarries(s, n, s.getters[n].id, t);
    }
  }

  lemma EmitCarries(s: State, p: nat, t: State)
    requires p < |s.ready| && s.ready[p] != [] && s.ready[p][0] in s.subs && t == EmitStep(s, p)
    requires s.subs[s.ready[p][0]].rank == UNTAKEN
    requires forall q :: p < q < |s.ready| ==> s.ready[q] == []
    ensures Carried(s, t)
  {
    FlatPop(s.ready, p);
    assert Order(t) == Order(s);
    assert Carries(s.subs[s.ready[p][0]], t.subs[s.ready[p][0]]);
  }

  predicate Dispatching(s: State)
  {
    s.loop.Emit? && s.loop.p < |s.ready| && s.ready[s.loop.p] != []
  }

  /** The part of soundness that the event loop's next step needs. */
  ghost predicate SoundLoop(s: State)
  {
    && |s.ready| == PRIORITIES == |s.waiting| && (s.loop.Emit? ==> s.loop.p < PRIORITIES)
    && s.subTasks <= s.subs.Keys && (forall p, id :: 0 <= p < PRIORITIES && id in s.ready[p] ==> id in s.subs)
  }

  /** The event loop's step moves only itself and its lock. */
  ghost predicate LoopMove(s: State, t: State)
  {
    t == s.(loop := t.loop, readyLock := t.readyLock, passes := t.passes, snap := t.snap)
  }

  lemma ScanControls(c: Config, s: State, t: State)
    requires SoundLoop(s) && (s.loop == Scan1 || s.loop == Scan2 || s.loop == Scan3) && LoopStep(c, s) == Some(t)
    ensures LoopMove(s, t) && t.passes == s.passes
  {
  }

  lemma TopControls(c: Config, s: State, t: State)
    requires SoundLoop(s) && (s.loop == Top || s.loop == Want) && LoopStep(c, s) == Some(t)
    ensures LoopMove(s, t) && t.passes == if s.loop == Want then s.passes + [Flat(s.ready)] else s.passes
  {
  }

  /** Outside a dispatch the event loop only moves itself and its lock. */
  lemma LoopControls(c: Config, s: State, t: State)
    requires SoundLoop(s) && !Dispatching(s) && LoopStep(c, s) == Some(t)
    ensures LoopMove(s, t) && t.passes == if s.loop == Want then s.passes + [Flat(s.ready)] else s.passes
  {
    if s.loop.Emit? {
      PassControls(s, s.loop.p, t);
    } else if s.loop == Top || s.loop == Want {
      TopControls(c, s, t);
    } else {
      ScanControls(c, s, t);
    }
  }

  lemma PassControls(s: State, p: nat, t: State)
    requires t == PassStep(s, p)
    ensures LoopMove(s, t) && t.passes == s.passes
  {
  }

  lemma LoopCarries(c: Config, s: State, t: State)
    requires Inv(c, s) && Sound(c, s) && LoopStep(c, s) == Some(t)
    ensures Carried(s, t)
  {
    if Dispatching(s) {
      EmitFacts(c, s, s.loop.p);
      EmitCarries(s, s.loop.p, t);
    } else {
      LoopControls(c, s, t);
      ControlCarries(s, t);
    }
  }

  /** A step that is no submitter's keeps the dispatch order and every registration. */
  lemma QuietCarries(c: Config, s: State, a: Action, t: State)
    requires Inv(c, s) && Sound(c, s) && Quiet(a) && Step(c, s, a) == Some(t)
    ensures Carried(s, t)
  {
    match a
    case BeginGet(_) => ControlCarries(s, t);
    case Start => ControlCarries(s, t);
    case Stop => ControlCarries(s, t);
    case Get(n) =>
      GetCases(s, n, t);
      GetCarries(s, n, t);
    case Loop => LoopCarries(c, s, t);
    case Work(w) =>
      AtHandFacts(c, s, w);
      WorkCarries(c, s, w, t);
  }
}
