module Shutdown {
  /** How the event loop ends: once everything is through and Stop has been called, every move of the loop
    brings it nearer to its end, and nothing keeps it from moving. */

  import opened Sequences
  import opened Protocol
  import opened Invariant
  import opened CallPreserves
  import opened History
  import opened Safety
  import opened Dependencies
  import opened Progress
  import opened Deadlock
  import opened Standstill
  import opened Completion
  import opened CallerSteps
  import opened Runs

  /** What hasPendingWork looks for is not there. */
  predicate NothingPending(s: State)
  {
    && |s.ready| == PRIORITIES == |s.waiting|
    && (forall p :: 0 <= p < PRIORITIES ==> s.ready[p] == [] && s.waiting[p] == {})
    && forall id :: id in s.subTasks ==> id in s.subs && s.subs[id].completed
  }

  /** Stop has been called, nothing is pending, and nobody is submitting. */
  ghost predicate Stopping(s: State)
  {
    !s.running && NothingPending(s) && !s.readyLock.ByAdder?
  }

  /** Moves of the loop that are left: the rest of a pass, the condition, the three scans. */
  function EndRank(l: LoopPc): nat
  {
    match l
    case Off => 0
    case Want => 12
    case Emit(p) => p + 5
    case Top => 4
    case Scan1 => 3
    case Scan2 => 2
    case Scan3 => 1
    case Exited => 0
  }

  // ---- when nothing is pending ----

  lemma ReadyEmpty(c: Config, s: State)
    requires Inv(c, s) && forall id :: !Unfinished(s, id)
    ensures forall p :: 0 <= p < PRIORITIES ==> s.ready[p] == []
    ensures s.ring == []
  {
    forall id
      ensures id !in s.ring && id !in Flat(s.ready)
    {
      assert id in s.ring || id in Flat(s.ready) ==> id in s.ring + Flat(s.ready);
      QueueApart(s, id);
      assert id in Order(s) <==> Released(s, id);
      assert Released(s, id) ==> !Unfinished(s, id) && Local(s.subs[id], s.clock);
    }
    NothingQueued(s);
  }

  lemma WaitingEmpty(s: State)
    requires Tables(s) && forall m {:trigger Unwaited(s, m)} :: m in s.mains ==> Unwaited(s, m)
    ensures forall p :: 0 <= p < PRIORITIES ==> s.waiting[p] == {}
  {
    forall p | 0 <= p < PRIORITIES
      ensures s.waiting[p] == {}
    {
      forall m
        ensures m !in s.waiting[p]
      {
        assert m in s.waiting[p] <==> Waits(s, m, p);
        assert m in s.mains ==> Unwaited(s, m);
      }
    }
  }

  lemma AllCompleted(c: Config, s: State)
    requires Inv(c, s) && AllThrough(s)
    ensures forall id :: id in s.subTasks ==> id in s.subs && s.subs[id].completed
  {
    forall id | id in s.subTasks
      ensures id in s.subs && s.subs[id].completed
    {
      assert SubTabled(s, id) && Local(s.subs[id], s.clock);
      assert Through(s, id);
    }
  }

  lemma ThroughNothingPending(c: Config, s: State)
    requires Inv(c, s) && Submitted(s) && AllThrough(s)
    ensures NothingPending(s) && s.ring == []
  {
    forall id
      ensures !Unfinished(s, id)
    {
      assert Released(s, id) ==> Local(s.subs[id], s.clock) && Through(s, id);
    }
    ReadyEmpty(c, s);
    WaitingEmpty(s);
    AllCompleted(c, s);
  }

  // ---- every move of the loop leads on ----

  lemma EndScan(c: Config, s: State, t: State)
    requires SoundLoop(s) && Stopping(s) && LoopStep(c, s) == Some(t)
    requires s.loop == Scan1 || s.loop == Scan2 || s.loop == Scan3
    ensures EndRank(t.loop) < EndRank(s.loop) && t.loop != Off && t.readyLock == s.readyLock
  {
  }

  lemma EndTop(c: Config, s: State, t: State)
    requires SoundLoop(s) && Stopping(s) && LoopStep(c, s) == Some(t) && (s.loop == Top || s.loop == Want)
    ensures EndRank(t.loop) < EndRank(s.loop) && t.loop != Off && !t.readyLock.ByAdder?
  {
  }

  lemma EndPass(s: State, p: nat, t: State)
    requires s.loop == Emit(p) && t == PassStep(s, p)
    ensures EndRank(t.loop) < EndRank(s.loop) && t.loop != Off && (s.readyLock.ByAdder? || !t.readyLock.ByAdder?)
  {
  }

  /** The loop is never kept from moving, and each move brings it nearer to its end. */
  lemma LoopNearsEnd(c: Config, s: State) returns (t: State)
    requires Inv(c, s) && Stopping(s) && s.loop != Off && s.loop != Exited
    ensures Sound(c, s) && Step(c, s, Loop) == Some(t)
    ensures EndRank(t.loop) < EndRank(s.loop) && t.loop != Off && Stopping(t) && t.ring == s.ring && Through0(s, t)
  {
    InvSound(c, s);
    LoopEnabled(c, s);
    t := LoopStep(c, s).value;
    LoopControls(c, s, t);
    if s.loop.Emit? {
      assert t == PassStep(s, s.loop.p);
      EndPass(s, s.loop.p, t);
    } else if s.loop == Top || s.loop == Want {
      EndTop(c, s, t);
    } else {
      EndScan(c, s, t);
    }
  }

  // ---- and nobody else moves it away ----

  /** What has been pending goes, nothing comes. */
  predicate OnlyGoes(s: State, t: State)
  {
    && t.running == s.running && t.readyLock == s.readyLock && t.loop == s.loop
    && t.ready == s.ready && t.waiting == s.waiting && t.subTasks <= s.subTasks
    && forall id :: id in s.subs && s.subs[id].completed ==> id in t.subs && t.subs[id].completed
  }

  lemma OnlyGoesStopping(s: State, t: State)
    requires Stopping(s) && OnlyGoes(s, t)
    ensures Stopping(t)
  {
  }

  lemma PopGoes(s: State, w: nat)
    requires w < |s.workers| && s.ring != [] && s.ring[0] in s.subs
    ensures OnlyGoes(s, PopStep(s, w))
  {
  }

  lemma NextCompleted(c: Config, s: State, w: nat)
    requires SoundAt(s, w) && w < |s.workers| && !s.workers[w].Idle?
    ensures s.subs[s.workers[w].id].completed ==> NextSub(c, s, s.workers[w]).completed
  {
  }

  lemma ActGoes(c: Config, s: State, w: nat)
    requires SoundAt(s, w) && w < |s.workers| && !s.workers[w].Idle?
    ensures OnlyGoes(s, ActStep(c, s, w))
  {
    NextCompleted(c, s, w);
  }

  lemma GetGoes(s: State, n: Name, t: State)
    requires GetCase(s, n, t)
    ensures OnlyGoes(s, t)
  {
    if t != s.(getters := t.getters) {
      TakeGoes(s, n, s.getters[n].id);
    }
  }

  lemma TakeGoes(s: State, n: Name, id: Id)
    requires n in s.getters && id in s.subs
    ensures OnlyGoes(s, TakeStep(s, n, id))
  {
  }

  lemma WorkGoes(c: Config, s: State, w: nat, t: State)
    requires SoundAt(s, w) && WorkStep(c, s, w) == Some(t)
    ensures OnlyGoes(s, t)
  {
    if s.workers[w].Idle? {
      PopGoes(s, w);
    } else {
      ActGoes(c, s, w);
    }
  }

  lemma AskGoes(s: State, n: Name, t: State)
    requires BeginGetStep(s, n) == Some(t)
    ensures OnlyGoes(s, t)
  {
  }

  /** All but the loop's own steps; another Stop changes nothing. */
  lemma OtherGoes(c: Config, s: State, a: Action, t: State)
    requires Sound(c, s) && !s.running && s.loop != Off && Quiet(a) && a != Loop && Step(c, s, a) == Some(t)
    ensures OnlyGoes(s, t)
  {
    match a
    case BeginGet(n) => AskGoes(s, n, t);
    case Get(n) =>
      GetCases(s, n, t);
      GetGoes(s, n, t);
    case Work(w) => WorkGoes(c, s, w, t);
    case _ =>
  }

  lemma StoppingStays(c: Config, s: State, a: Action, t: State)
    requires Inv(c, s) && Sound(c, s) && Stopping(s) && s.loop != Off && Quiet(a) && Step(c, s, a) == Some(t)
    ensures Stopping(t) && t.loop != Off && (t.loop == s.loop || EndRank(t.loop) < EndRank(s.loop))
  {
    if a == Loop {
      var u := LoopNearsEnd(c, s);
    } else {
      OtherGoes(c, s, a, t);
    }
  }

  lemma StoppingNext(c: Config, s: State, t: State)
    requires Inv(c, s) && Stopping(s) && s.loop != Off && QuietNext(c, s, t)
    ensures Inv(c, t) && Stopping(t) && t.loop != Off && (t.loop == s.loop || EndRank(t.loop) < EndRank(s.loop))
  {
    var a :| Quiet(a) && Step(c, s, a) == Some(t);
    StepPreserves(c, s, a, t);
    StoppingStays(c, s, a, t);
  }

  /** The loop has moved on so often, and is so much nearer to its end. */
  ghost predicate Ending(c: Config, turns: nat, s: State, t: State)
  {
    Inv(c, t) && Stopping(t) && t.loop != Off && turns + EndRank(t.loop) <= EndRank(s.loop)
  }

  lemma EndingNext(c: Config, turns: nat, s: State, u: State, t: State)
    requires Ending(c, turns, s, u) && QuietNext(c, u, t)
    ensures Ending(c, turns + (if u.loop != t.loop then 1 else 0), s, t)
  {
    StoppingNext(c, u, t);
  }

  lemma {:induction false} EndingRun(c: Config, r: seq<State>, s: State, t: State)
    requires QuietRun(c, r) && r[0] == s && r[|r| - 1] == t && Ending(c, 0, s, s)
    ensures Ending(c, Turns(r), s, t)
  {
    if 2 <= |r| {
      RunPrefix(c, r);
      EndingRun(c, r[..|r| - 1], s, r[|r| - 2]);
      EndingLast(c, r, s, r[|r| - 2], t);
    }
  }

  lemma EndingLast(c: Config, r: seq<State>, s: State, u: State, t: State)
    requires 2 <= |r| && r[|r| - 2] == u && r[|r| - 1] == t
    requires Ending(c, Turns(r[..|r| - 1]), s, u) && QuietNext(c, u, t)
    ensures Ending(c, Turns(r), s, t)
  {
    EndingNext(c, Turns(r[..|r| - 1]), s, u, t);
  }

  lemma EndingBegins(c: Config, s: State)
    requires 1 <= c.poolSize && Reachable(c, s) && Submitted(s) && AllThrough(s) && !s.running && s.loop != Off
    ensures Ending(c, 0, s, s) && EndRank(s.loop) <= 12
  {
    ReachableInv(c, s);
    ThroughNothingPending(c, s);
    SubmittedContained(c, s);
  }

  lemma EndingMoves(c: Config, turns: nat, s: State, t: State)
    requires Ending(c, turns, s, t)
    ensures Sound(c, t) && (t.loop == Exited <==> Step(c, t, Loop) == None)
  {
    InvSound(c, t);
    if t.loop != Exited {
      var u := LoopNearsEnd(c, t);
    }
  }

  /** Stop returns. After it, with submission over and everything through, whatever workers and getters still
      do: the loop moves on at most twelve times, can move whenever it has not ended, and so every run that is
      not cut short ends it. */
  lemma LoopEnds(c: Config, r: seq<State>, s: State, t: State)
    requires 1 <= c.poolSize && QuietRun(c, r) && r[0] == s && r[|r| - 1] == t
    requires Reachable(c, s) && Submitted(s) && AllThrough(s) && !s.running && s.loop != Off
    ensures Turns(r) + EndRank(t.loop) <= 12 && NothingPending(t)
    ensures Sound(c, t) && (t.loop == Exited <==> Step(c, t, Loop) == None)
  {
    EndingBegins(c, s);
    EndingRun(c, r, s, t);
    EndingMoves(c, Turns(r), s, t);
  }

  // ---- a run that ends it ----

  /** The loop alone comes to its end. */
  lemma {:induction false} LoopToEnd(c: Config, s: State) returns (t: State)
    requires Inv(c, s) && Stopping(s) && s.loop != Off
    ensures Leads(c, s, t) && t.loop == Exited && NothingPending(t) && t.ring == s.ring && Through0(s, t)
    decreases EndRank(s.loop)
  {
    if s.loop == Exited {
      t := s;
      LeadsSelf(c, s);
    } else {
      var u := LoopNearsEnd(c, s);
      assert Quiet(Loop) && QuietNext(c, s, u);
      StoppingNext(c, s, u);
      t := LoopToEnd(c, u);
      LeadsStep(c, s, u, t);
    }
  }

  /** Nothing changed of subtasks, main tasks and their table. */
  predicate Through0(s: State, t: State)
  {
    t.subs == s.subs && t.mains == s.mains && t.mainTasks == s.mainTasks
  }

  lemma ThroughSame(s: State, t: State)
    requires AllThrough(s) && Through0(s, t)
    ensures AllThrough(t)
  {
    forall id | id in t.subs && !t.subs[id].threw
      ensures Through(t, id)
    {
      assert Through(s, id);
    }
    forall m | m in t.mains
      ensures Removed(t, m)
    {
      assert Removed(s, m);
    }
  }

  /** Start, if that has not been, then Stop. */
  lemma StartStop(c: Config, s: State) returns (t: State)
    requires Inv(c, s) && NothingPending(s) && !s.readyLock.ByAdder?
    ensures Leads(c, s, t) && Inv(c, t) && Stopping(t) && t.loop != Off && t.ring == s.ring && Through0(s, t)
  {
    InvSound(c, s);
    var u := s;
    LeadsSelf(c, s);
    if s.loop == Off {
      u := s.(running := true, loop := Top);
      assert Step(c, s, Start) == Some(u) && Quiet(Start);
      StepPreserves(c, s, Start, u);
      LeadsSelf(c, u);
      LeadsStep(c, s, u, u);
      InvSound(c, u);
    }
    t := StopNow(c, u);
    LeadsOn(c, s, u, t);
  }

  lemma StopNow(c: Config, s: State) returns (t: State)
    requires Inv(c, s) && Sound(c, s) && NothingPending(s) && !s.readyLock.ByAdder? && s.loop != Off
    ensures Leads(c, s, t) && Inv(c, t) && Stopping(t) && t.loop == s.loop && t.ring == s.ring && Through0(s, t)
  {
    t := StopStep(s);
    assert Step(c, s, Stop) == Some(t) && Quiet(Stop);
    StepPreserves(c, s, Stop, t);
    LeadsSelf(c, t);
    LeadsStep(c, s, t, t);
  }

  /** From every reachable state in which submission is over, with acyclic dependencies and fewer late subtasks
      than workers, some run finishes everything, calls Stop and ends the event loop, with all queues and the
      ring empty. */
  lemma StopReturns(c: Config, s: State) returns (t: State)
    requires 1 <= c.poolSize && Reachable(c, s) && Submitted(s) && Acyclic(s) && |Late(s)| < c.poolSize
    ensures Leads(c, s, t) && t.loop == Exited && AllThrough(t) && NothingPending(t) && t.ring == []
  {
    ReachableInv(c, s);
    SubmittedContained(c, s);
    var u := SomeRunFinishes(c, s);
    LeadsKept(c, s, u);
    SubmittedCarried(s, u);
    t := StopThrough(c, u);
    LeadsOn(c, s, u, t);
  }

  lemma StopThrough(c: Config, s: State) returns (t: State)
    requires Inv(c, s) && Submitted(s) && AllThrough(s)
    ensures Leads(c, s, t) && t.loop == Exited && AllThrough(t) && NothingPending(t) && t.ring == []
  {
    ThroughNothingPending(c, s);
    SubmittedContained(c, s);
    var u := StartStop(c, s);
    t := LoopToEnd(c, u);
    LeadsOn(c, s, u, t);
    ThroughSame(s, t);
  }

  // ---- Stop is for good ----

  /** Stop has been called on a started loop. */
  ghost predicate Stopped(c: Config, s: State)
  {
    Inv(c, s) && !s.running && s.loop != Off
  }

  lemma StoppedNext(c: Config, s: State, t: State)
    requires Stopped(c, s) && Next(c, s, t)
    ensures Stopped(c, t)
  {
    var a :| Step(c, s, a) == Some(t);
    StepPreserves(c, s, a, t);
    if Quiet(a) {
      StoppedQuiet(c, s, a, t);
    } else {
      CallerStep(c, s, a, t);
    }
  }

  lemma ScanFlag(c: Config, s: State, t: State)
    requires SoundLoop(s) && (s.loop == Scan1 || s.loop == Scan2 || s.loop == Scan3) && LoopStep(c, s) == Some(t)
    ensures t.running == s.running && t.loop != Off
  {
  }

  lemma TopFlag(c: Config, s: State, t: State)
    requires SoundLoop(s) && (s.loop == Top || s.loop == Want) && LoopStep(c, s) == Some(t)
    ensures t.running == s.running && t.loop != Off
  {
  }

  lemma PassFlag(s: State, p: nat)
    ensures PassStep(s, p).running == s.running && PassStep(s, p).loop != Off
  {
  }

  lemma EmitFlag(s: State, p: nat)
    requires p < |s.ready| && s.ready[p] != [] && s.ready[p][0] in s.subs
    ensures EmitStep(s, p).running == s.running && EmitStep(s, p).loop == s.loop
  {
  }

  lemma LoopFlag(c: Config, s: State, t: State)
    requires SoundLoop(s) && LoopStep(c, s) == Some(t)
    ensures t.running == s.running && t.loop != Off
  {
    if Dispatching(s) {
      EmitFlag(s, s.loop.p);
    } else if s.loop.Emit? {
      PassFlag(s, s.loop.p);
    } else if s.loop == Top || s.loop == Want {
      TopFlag(c, s, t);
    } else {
      ScanFlag(c, s, t);
    }
  }

  lemma StoppedQuiet(c: Config, s: State, a: Action, t: State)
    requires Sound(c, s) && Quiet(a) && Step(c, s, a) == Some(t) && !s.running && s.loop != Off
    ensures !t.running && t.loop != Off
  {
    if a == Loop {
      LoopFlag(c, s, t);
    } else {
      OtherGoes(c, s, a, t);
    }
  }

  /** Once Stop has been called on a started loop its flag stays down, whatever anybody does. */
  lemma StoppedForGood(c: Config, r: seq<State>)
    requires 1 <= c.poolSize && IsRun(c, r) && Reachable(c, r[0]) && !r[0].running && r[0].loop != Off
    ensures !r[|r| - 1].running && r[|r| - 1].loop != Off
  {
    ReachableInv(c, r[0]);
    var p := (x: State) => Stopped(c, x);
    forall x, y | p(x) && Next(c, x, y)
      ensures p(y)
    {
      StoppedNext(c, x, y);
    }
    RunInduction(c, r, p);
  }
}
