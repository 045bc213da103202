module Passes {
  /** When a pass of the event loop ends. While it lasts the loop holds the lock on the ready queues, so that a
    pass that cannot end keeps every main task from being released and the loop from ending. */

  import opened Sequences
  import opened Protocol
  import opened Invariant
  import opened CallPreserves
  import opened History
  import opened CallerSteps
  import opened Safety
  import opened Dependencies
  import opened Progress
  import opened Deadlock
  import opened Standstill
  import opened Runs
  import opened Calls

  // ---- with room for all that is ready the loop ends its pass alone ----

  /** The ring has room for all that is ready. */
  ghost predicate Room(c: Config, s: State)
  {
    |Order(s)| <= |s.taken| + c.poolSize
  }

  lemma PassIs(c: Config, s: State, t: State)
    requires SoundLoop(s) && s.loop.Emit? && !Dispatching(s) && LoopStep(c, s) == Some(t)
    ensures t == PassStep(s, s.loop.p)
  {
  }

  /** A queue found empty: the next lower one is turned to, or the pass is over and the lock is free. */
  lemma QueueEnds(c: Config, s: State, t: State)
    requires Inv(c, s) && Sound(c, s) && s.loop.Emit? && !Dispatching(s) && LoopStep(c, s) == Some(t)
    ensures t.ready == s.ready && t.taken == s.taken && t.workers == s.workers
    ensures if 0 < s.loop.p then t.loop == Emit(s.loop.p - 1)
      else t.loop == Top && t.readyLock == Free && Flat(t.ready) == []
  {
    PassIs(c, s, t);
    if s.loop.p == 0 {
      FlatEmpty(s.ready);
    }
  }

  lemma EmitEnds(s: State, p: nat)
    requires p < |s.ready| && s.ready[p] != [] && s.ready[p][0] in s.subs
    requires Order(EmitStep(s, p)) == Order(s)
    ensures var t := EmitStep(s, p);
      t.loop == s.loop && t.taken == s.taken && t.workers == s.workers && |Flat(t.ready)| < |Flat(s.ready)|
  {
    var t := EmitStep(s, p);
    assert |t.ring| == |s.ring| + 1;
  }

  /** One step of the loop in its pass. */
  lemma PassOne(c: Config, s: State) returns (t: State)
    requires Inv(c, s) && s.loop.Emit? && Room(c, s)
    ensures QuietNext(c, s, t) && Inv(c, t) && Carried(s, t) && t.taken == s.taken && t.workers == s.workers
    ensures t.loop.Emit? ==> t.loop.p < s.loop.p || (t.loop == s.loop && |Flat(t.ready)| < |Flat(s.ready)|)
    ensures !t.loop.Emit? ==> t.loop == Top && t.readyLock == Free && Flat(t.ready) == []
  {
    InvSound(c, s);
    if Dispatching(s) {
      t := PassEmits(c, s);
    } else {
      LoopEnabled(c, s);
      t := LoopStep(c, s).value;
      QueueEnds(c, s, t);
    }
    assert Step(c, s, Loop) == Some(t) && Quiet(Loop);
    StepKept(c, s, t);
  }

  lemma PassEmits(c: Config, s: State) returns (t: State)
    requires Inv(c, s) && Sound(c, s) && Dispatching(s) && Room(c, s)
    ensures LoopStep(c, s) == Some(t) && t.taken == s.taken && t.workers == s.workers
    ensures t.loop == s.loop && |Flat(t.ready)| < |Flat(s.ready)|
  {
    FlatHas(s.ready, s.loop.p);
    LoopRoom(s, c.poolSize);
    t := EmitStep(s, s.loop.p);
    LoopCarries(c, s, t);
    EmitEnds(s, s.loop.p);
  }

  /** The pass empties the queues, gives up the lock and leads back to the loop's condition. */
  lemma {:induction false} PassAlone(c: Config, s: State) returns (t: State)
    requires Inv(c, s) && s.loop.Emit? && Room(c, s)
    ensures Leads(c, s, t) && Inv(c, t) && Carried(s, t) && t.loop == Top && t.readyLock == Free && Flat(t.ready) == []
    ensures t.taken == s.taken && t.workers == s.workers
    decreases s.loop.p, |Flat(s.ready)|
  {
    t := PassOne(c, s);
    LeadsSelf(c, t);
    LeadsStep(c, s, t, t);
    if t.loop.Emit? {
      var u := t;
      t := PassAlone(c, u);
      LeadsOn(c, s, u, t);
      CarriedOn(s, u, t);
    }
  }

  /** The loop under way, moving alone, comes back to its condition or has ended. */
  lemma {:induction false} LoopReturns(c: Config, s: State) returns (t: State)
    requires Inv(c, s) && s.loop != Off && !s.readyLock.ByAdder? && Room(c, s)
    ensures Leads(c, s, t) && Inv(c, t) && Carried(s, t) && (t.loop == Top || t.loop == Exited)
    ensures t.taken == s.taken && t.workers == s.workers && t.readyLock == Free
    decreases RankOf(s.loop)
  {
    if s.loop == Top || s.loop == Exited {
      t := s;
      LeadsSelf(c, s);
      CarriedSelf(s);
    } else if s.loop.Emit? {
      t := PassAlone(c, s);
    } else {
      var u := ScanOrWant(c, s);
      LeadsSelf(c, u);
      LeadsStep(c, s, u, u);
      t := LoopReturns(c, u);
      LeadsOn(c, s, u, t);
      CarriedOn(s, u, t);
    }
  }

  lemma ScanOrWant(c: Config, s: State) returns (t: State)
    requires Inv(c, s) && !s.readyLock.ByAdder?
    requires s.loop == Scan1 || s.loop == Scan2 || s.loop == Scan3 || s.loop == Want
    ensures QuietNext(c, s, t) && Inv(c, t) && Carried(s, t) && t.taken == s.taken && t.workers == s.workers
    ensures RankOf(t.loop) < RankOf(s.loop) && t.loop != Off && t.loop != Top && !t.readyLock.ByAdder?
  {
    InvSound(c, s);
    LoopEnabled(c, s);
    t := LoopStep(c, s).value;
    ScanFalls(c, s, t);
    assert Step(c, s, Loop) == Some(t) && Quiet(Loop);
    StepKept(c, s, t);
  }

  lemma ScanFalls(c: Config, s: State, t: State)
    requires SoundLoop(s) && LoopStep(c, s) == Some(t)
    requires s.loop == Scan1 || s.loop == Scan2 || s.loop == Scan3 || s.loop == Want
    ensures RankOf(t.loop) < RankOf(s.loop) && t.loop != Off && t.loop != Top
    ensures t.readyLock == s.readyLock || t.readyLock == ByLoop
    ensures t.taken == s.taken && t.workers == s.workers
  {
  }

  // ---- a jam ----

  /** The workers cannot get past position q of the dispatch order, because as many subtasks before it as there
      are workers depend on one at or behind it or on a cycle, and the ring cannot take all that comes after. */
  ghost predicate JamAt(c: Config, s: State, q: nat)
  {
    |s.taken| <= q && q + c.poolSize < |Order(s)| && c.poolSize <= |Open(s, q)|
  }

  ghost predicate Jam(c: Config, s: State)
  {
    exists q: nat :: JamAt(c, s, q)
  }

  lemma JamReady(c: Config, s: State, q: nat)
    requires Inv(c, s) && JamAt(c, s, q)
    ensures Flat(s.ready) != []
  {
  }

  /** With q taken every worker has one of the open subtasks. */
  lemma JamBusy(c: Config, s: State, w: nat)
    requires Inv(c, s) && KnownAll(s) && JamAt(c, s, |s.taken|) && w < |s.workers|
    ensures !s.workers[w].Idle?
  {
    OpenHeld(c, s);
    HeldSetFacts(c, s, |s.workers|);
    SubsetSize(Open(s, |s.taken|), HeldSet(s, |s.workers|));
  }

  /** Workers do not overrun q, and the loop does not leave the pass. */
  lemma JamWork(c: Config, s: State, w: nat, t: State, q: nat)
    requires Inv(c, s) && Sound(c, s) && KnownAll(s) && JamAt(c, s, q) && WorkStep(c, s, w) == Some(t)
    ensures |t.taken| <= q && t.loop == s.loop
  {
    WorkLoop(c, s, w, t);
    MovedTaken(c, s, w, t);
    if |s.taken| == q {
      JamBusy(c, s, w);
    }
  }

  lemma JamLoop(c: Config, s: State, t: State, q: nat)
    requires Inv(c, s) && Sound(c, s) && JamAt(c, s, q) && s.loop.Emit? && LoopStep(c, s) == Some(t)
    ensures t.taken == s.taken && t.loop.Emit?
  {
    JamReady(c, s, q);
    if !Dispatching(s) {
      QueueEnds(c, s, t);
    }
  }

  lemma GetTaken(s: State, n: Name, t: State)
    requires GetCase(s, n, t)
    ensures t.taken == s.taken
  {
    if t != s.(getters := t.getters) {
      TakeIdle(s, n, s.getters[n].id, t);
    }
  }

  lemma JamQuiet(c: Config, s: State, a: Action, t: State, q: nat)
    requires Inv(c, s) && Sound(c, s) && KnownAll(s) && JamAt(c, s, q) && s.loop.Emit?
    requires Quiet(a) && Step(c, s, a) == Some(t)
    ensures |t.taken| <= q && t.loop.Emit?
  {
    match a
    case Loop => JamLoop(c, s, t, q);
    case Get(n) =>
      GetCases(s, n, t);
      GetLoop(s, n, t);
      GetTaken(s, n, t);
    case Work(w) => JamWork(c, s, w, t, q);
    case _ =>
  }

  // ---- submitters in a jam ----

  lemma CallerEdges(c: Config, s: State, t: State)
    requires Ordered(c, s) && CallerFrame(s, t) && Order(t) == Order(s)
    ensures forall a, b :: Edge(t, a, b) <==> Edge(s, a, b)
  {
    forall a | a in Order(s)
      ensures a in s.subs && Registers(s.subs[a], t.subs[a])
    {
      assert Released(s, a);
    }
  }

  lemma CallerKnown(c: Config, s: State, t: State)
    requires Ordered(c, s) && CallerFrame(s, t) && KnownAll(s) && forall a, b :: Edge(t, a, b) <==> Edge(s, a, b)
    ensures KnownAll(t)
  {
    forall a, b | a in t.taken + t.ring && Edge(t, a, b)
      ensures b in t.subs[a].known
    {
      assert Edge(s, a, b) && Registers(s.subs[a], t.subs[a]);
    }
  }

  lemma JamCaller(c: Config, s: State, t: State, q: nat)
    requires Inv(c, s) && KnownAll(s) && JamAt(c, s, q) && s.loop.Emit? && CallerFrame(s, t)
    ensures JamAt(c, t, q) && t.loop.Emit? && KnownAll(t) && Order(t) == Order(s)
  {
    CallerEdges(c, s, t);
    CallerKnown(c, s, t);
    SamePaths(s, t);
    OpenSame(s, t);
  }

  lemma JamCarried(c: Config, s: State, a: Action, t: State, q: nat)
    requires Inv(c, s) && Sound(c, s) && KnownAll(s) && JamAt(c, s, q) && s.loop.Emit?
    requires Quiet(a) && Step(c, s, a) == Some(t)
    ensures JamAt(c, t, q) && t.loop.Emit? && KnownAll(t) && Order(t) == Order(s)
    ensures forall id {:trigger StillReleasing(s, t, id)} :: StillReleasing(s, t, id)
  {
    JamQuiet(c, s, a, t, q);
    QuietCarries(c, s, a, t);
    QuietKnown(c, s, a, t);
    KnownAllKept(c, s, t);
    OpenCarried(s, t);
    forall id
      ensures StillReleasing(s, t, id)
    {
      assert id in s.subs ==> Carries(s.subs[id], t.subs[id]);
    }
  }

  /** The loop is in a pass with a jam at q. */
  ghost predicate InJam(c: Config, s: State, q: nat)
  {
    s.loop.Emit? && KnownAll(s) && JamAt(c, s, q)
  }

  /** t is still in that jam: nothing has been released since s, and who was to release still is. */
  ghost predicate StillJammed(c: Config, s: State, t: State, q: nat)
  {
    InJam(c, t, q) && Order(t) == Order(s) && forall id {:trigger StillReleasing(s, t, id)} :: StillReleasing(s, t, id)
  }

  /** Whatever anybody does, a jam stays, and so does every call that is to release its main task. */
  lemma JamStays(c: Config, s: State, a: Action, t: State, q: nat)
    requires Inv(c, s) && Sound(c, s) && InJam(c, s, q) && Step(c, s, a) == Some(t)
    ensures StillJammed(c, s, t, q)
  {
    if Quiet(a) {
      JamCarried(c, s, a, t, q);
    } else {
      CallerStep(c, s, a, t);
      JamCaller(c, s, t, q);
    }
  }

  lemma JamOn(c: Config, s: State, u: State, t: State, q: nat)
    requires StillJammed(c, s, u, q) && StillJammed(c, u, t, q)
    ensures StillJammed(c, s, t, q)
  {
    forall id
      ensures StillReleasing(s, t, id)
    {
      assert StillReleasing(s, u, id) && StillReleasing(u, t, id);
    }
  }

  lemma JamSelf(c: Config, s: State, q: nat)
    requires InJam(c, s, q)
    ensures StillJammed(c, s, s, q)
  {
  }

  /** t is reached, and still in the jam. */
  ghost predicate Jammed(c: Config, s: State, t: State, q: nat)
  {
    Inv(c, t) && StillJammed(c, s, t, q)
  }

  lemma JamNext(c: Config, s: State, u: State, t: State, q: nat)
    requires Jammed(c, s, u, q) && Next(c, u, t)
    ensures Jammed(c, s, t, q)
  {
    var a :| Step(c, u, a) == Some(t);
    StepPreserves(c, u, a, t);
    JamStays(c, u, a, t, q);
    JamOn(c, s, u, t, q);
  }

  /** In a jam within a pass, whatever is submitted, asked for or run afterwards: the loop never leaves the
      pass, so that it never ends and Stop never returns, nothing more is ever released, and a call that is to
      release its main task never returns. */
  lemma JamForEver(c: Config, r: seq<State>, s: State, t: State, q: nat)
    requires IsRun(c, r) && r[0] == s && r[|r| - 1] == t && Inv(c, s) && InJam(c, s, q)
    ensures Inv(c, t) && StillJammed(c, s, t, q)
  {
    var p := (x: State) => Jammed(c, s, x, q);
    JamSelf(c, s, q);
    forall x, y | p(x) && Next(c, x, y)
      ensures p(y)
    {
      JamNext(c, s, x, y, q);
    }
    RunInduction(c, r, p);
  }

  // ---- exactly when a pass ends ----

  /** The position to which workers have to get for the ring to take the rest. */
  ghost function Needed(c: Config, s: State): nat
  {
    if |s.taken| + c.poolSize < |Order(s)| then |Order(s)| - c.poolSize else |s.taken|
  }

  /** Without a jam the workers get there and the loop ends its pass. */
  lemma PassGetsThrough(c: Config, s: State) returns (t: State)
    requires Inv(c, s) && SelfContained(s) && s.loop.Emit? && !Jam(c, s)
    ensures Leads(c, s, t) && Inv(c, t) && Carried(s, t) && !t.loop.Emit?
  {
    var p := Needed(c, s);
    forall q: nat | |s.taken| <= q < p
      ensures |Open(s, q)| < c.poolSize
    {
      assert !JamAt(c, s, q);
    }
    TakenWithin(s);
    assert Drivable(c, s, p);
    var u := Drive(c, s, p);
    LeadsKept(c, s, u);
    t := u;
    if u.loop.Emit? {
      t := PassAlone(c, u);
      LeadsOn(c, s, u, t);
      CarriedOn(s, u, t);
    }
  }

  /** A pass under way, with dependencies known before dispatch, can come to its end if and only if there is no
      jam. */
  lemma PassEndsIff(c: Config, s: State)
    requires 1 <= c.poolSize && Reachable(c, s) && SelfContained(s) && KnownAll(s) && s.loop.Emit?
    ensures (exists t :: Goes(c, s, t) && !t.loop.Emit?) <==> !Jam(c, s)
  {
    ReachableInv(c, s);
    if Jam(c, s) {
      var q: nat :| JamAt(c, s, q);
      forall t | Goes(c, s, t)
        ensures t.loop.Emit?
      {
        var r :| IsRun(c, r) && r[0] == s && r[|r| - 1] == t;
        JamForEver(c, r, s, t, q);
      }
    } else {
      var t := PassGetsThrough(c, s);
      LeadsGoes(c, s, t);
    }
  }

  /** With fewer late subtasks than workers there is no jam. */
  lemma FewLateNoJam(c: Config, s: State)
    requires Acyclic(s) && |Late(s)| < c.poolSize
    ensures !Jam(c, s)
  {
    if q: nat :| JamAt(c, s, q) {
      OpenAreLate(s, q);
      SubsetSize(Open(s, q), Late(s));
    }
  }

  // ---- exactly when a main task can be released ----

  lemma ReleaseGetsThrough(c: Config, s: State, id: Id) returns (t: State)
    requires 1 <= c.poolSize && Reachable(c, s) && id in s.subs && s.subs[id].add == RELEASING
    requires s.loop.Emit? ==> SelfContained(s) && !Jam(c, s)
    ensures Goes(c, s, t) && Reachable(c, t) && id in t.subs && t.subs[id].add == ADDED
  {
    ReachableInv(c, s);
    var u := s;
    GoesSelf(c, s);
    if s.loop.Emit? {
      u := PassGetsThrough(c, s);
      assert Carries(s.subs[id], u.subs[id]);
      LeadsGoes(c, s, u);
      GoesReachable(c, s, u);
    }
    t := ReleaseNow(c, u, id);
    GoesOn(c, s, u, t);
  }

  lemma ReleaseNow(c: Config, s: State, id: Id) returns (t: State)
    requires 1 <= c.poolSize && Reachable(c, s) && id in s.subs && s.subs[id].add == RELEASING && !s.loop.Emit?
    ensures Goes(c, s, t) && Reachable(c, t) && id in t.subs && t.subs[id].add == ADDED
  {
    ReachableInv(c, s);
    assert Local(s.subs[id], s.clock);
    t := AddingReturns(c, s, id);
  }

  /** A call that is to release its main task can return if and only if the event loop is not in a pass with a
      jam. */
  lemma ReleasesIff(c: Config, s: State, id: Id)
    requires 1 <= c.poolSize && Reachable(c, s) && id in s.subs && s.subs[id].add == RELEASING
    requires SelfContained(s) && KnownAll(s)
    ensures (exists t :: Goes(c, s, t) && id in t.subs && t.subs[id].add == ADDED) <==> !(s.loop.Emit? && Jam(c, s))
  {
    ReachableInv(c, s);
    if s.loop.Emit? && Jam(c, s) {
      var q: nat :| JamAt(c, s, q);
      forall t | Goes(c, s, t)
        ensures id in t.subs && t.subs[id].add == RELEASING
      {
        var r :| IsRun(c, r) && r[0] == s && r[|r| - 1] == t;
        JamForEver(c, r, s, t, q);
        assert StillReleasing(s, t, id);
      }
    } else {
      var t := ReleaseGetsThrough(c, s, id);
    }
  }
}
