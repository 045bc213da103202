module Results {
  /** Nobody waits for a result that is there: a slot's token is taken by its getter alone. */

  import opened Sequences
  import opened Protocol
  import opened Invariant
  import opened CallPreserves
  import opened History
  import opened Dependencies
  import opened Measure
  import opened Progress
  import opened Deadlock
  import opened Standstill
  import opened Completion
  import opened CallerSteps
  import opened Safety

  /** The getter of this name has passed its slot's semaphore. */
  predicate HasPassed(s: State, n: Name)
  {
    n in s.getters && (s.getters[n].Woken? || s.getters[n].Took? || s.getters[n].NameErased? || s.getters[n].Got?)
  }

  /** Every post is either still in the slot or with the getter. */
  predicate Token(s: State, id: Id)
    requires id in s.subs
  {
    s.subs[id].posts == s.subs[id].slotSem + (if HasPassed(s, s.subs[id].name) then 1 else 0)
  }

  ghost predicate AllTokens(s: State)
  {
    forall id {:trigger Token(s, id)} :: id in s.subs ==> Token(s, id)
  }

  predicate SameSlot(u: Sub, v: Sub)
  {
    v.name == u.name && v.slotSem == u.slotSem && v.posts == u.posts
  }

  /** No slot is touched and no getter passes. */
  ghost predicate SlotsKept(s: State, t: State)
  {
    && (forall id :: id in t.subs ==> id in s.subs && SameSlot(s.subs[id], t.subs[id]))
    && (forall n {:trigger HasPassed(t, n)} :: HasPassed(t, n) == HasPassed(s, n))
  }

  lemma TokensKept(s: State, t: State)
    requires AllTokens(s) && SlotsKept(s, t)
    ensures AllTokens(t)
  {
    forall id | id in t.subs
      ensures Token(t, id)
    {
      assert Token(s, id);
    }
  }

  // ---- callers ----

  lemma TargetNamed(s: State, n: Name)
    requires Names(s) && Getters(s) && n in s.getters && HasTarget(s.getters[n])
    ensures n in s.names
  {
    assert GetterOk(s, n) && SubNamed(s, s.getters[n].id);
  }

  /** A new subtask's name has no getter past the lookup. */
  lemma NewName(s: State, n: Name)
    requires Names(s) && Getters(s) && n !in s.names
    ensures !HasPassed(s, n)
  {
    if n in s.getters && HasTarget(s.getters[n]) {
      TargetNamed(s, n);
    }
  }

  lemma CallerTokens(c: Config, s: State, t: State)
    requires Names(s) && Getters(s) && AllTokens(s) && CallerFrame(s, t)
    ensures AllTokens(t)
  {
    forall id | id in t.subs
      ensures Token(t, id)
    {
      if id in s.subs {
        assert Token(s, id) && Registers(s.subs[id], t.subs[id]);
      } else {
        assert Fresh(t.subs[id]);
        NewName(s, t.subs[id].name);
      }
    }
  }

  // ---- getters ----

  lemma AskTokens(s: State, n: Name, t: State)
    requires t == s.(getters := t.getters) && n in t.getters && t.getters == s.getters[n := t.getters[n]]
    requires !HasPassed(s, n) && !HasPassed(t, n)
    ensures SlotsKept(s, t)
  {
  }

  lemma TakeTokens(s: State, n: Name, id: Id, t: State)
    requires Names(s) && AllTokens(s) && n in s.getters && id in s.subs
    requires s.subs[id].name == n && t == TakeStep(s, n, id)
    requires HasTarget(s.getters[n]) && (s.getters[n].HasSlot? ==> 0 < s.subs[id].slotSem) && !s.getters[n].HasId?
    ensures AllTokens(t)
  {
    forall x | x in t.subs
      ensures Token(t, x)
    {
      assert Token(s, x) && SubNamed(s, x) && SubNamed(s, id);
    }
  }

  lemma GetTokens(s: State, n: Name, t: State)
    requires forall n :: n in s.getters && HasTarget(s.getters[n]) ==> s.getters[n].id in s.subs
    requires Names(s) && Getters(s) && AllTokens(s) && GetStep(s, n) == Some(t)
    ensures AllTokens(t)
  {
    assert GetterOk(s, n);
    if s.getters[n].Asked? || s.getters[n].HasId? {
      AskMoves(s, n, t);
      AskTokens(s, n, t);
      TokensKept(s, t);
    } else {
      TakeCases(s, n, t);
      TakeEnabled(s, n, t);
      TakeTokens(s, n, s.getters[n].id, t);
    }
  }

  lemma AskMoves(s: State, n: Name, t: State)
    requires n in s.getters && (s.getters[n].Asked? || s.getters[n].HasId?)
    requires forall n :: n in s.getters && HasTarget(s.getters[n]) ==> s.getters[n].id in s.subs
    requires GetStep(s, n) == Some(t)
    ensures t == s.(getters := t.getters) && n in t.getters && t.getters == s.getters[n := t.getters[n]]
    ensures !HasPassed(s, n) && !HasPassed(t, n)
  {
  }

  lemma TakeEnabled(s: State, n: Name, t: State)
    requires n in s.getters && s.getters[n].HasSlot? ==> s.getters[n].id in s.subs
    requires forall n :: n in s.getters && HasTarget(s.getters[n]) ==> s.getters[n].id in s.subs
    requires GetStep(s, n) == Some(t)
    ensures s.getters[n].HasSlot? ==> 0 < s.subs[s.getters[n].id].slotSem
  {
  }

  // ---- workers and the event loop ----

  lemma PopTokens(s: State, w: nat)
    requires w < |s.workers| && s.ring != [] && s.ring[0] in s.subs
    ensures SlotsKept(s, PopStep(s, w))
  {
  }

  lemma EmitTokens(s: State, p: nat)
    requires p < |s.ready| && s.ready[p] != [] && s.ready[p][0] in s.subs
    ensures SlotsKept(s, EmitStep(s, p))
  {
  }

  /** A worker's step posts to its own slot, once, or touches none. */
  lemma ActSub(c: Config, s: State, w: nat)
    requires SoundAt(s, w) && w < |s.workers| && !s.workers[w].Idle?
    ensures var u, v := s.subs[s.workers[w].id], NextSub(c, s, s.workers[w]);
      && v.name == u.name && v.posts - v.slotSem == u.posts - u.slotSem
  {
  }

  lemma ActTokens(c: Config, s: State, w: nat)
    requires SoundAt(s, w) && w < |s.workers| && !s.workers[w].Idle? && AllTokens(s)
    ensures AllTokens(ActStep(c, s, w))
  {
    ActSub(c, s, w);
    var t := ActStep(c, s, w);
    ActGetters(c, s, w);
    forall id | id in t.subs
      ensures Token(t, id)
    {
      assert Token(s, id) && HasPassed(t, s.subs[id].name) == HasPassed(s, s.subs[id].name);
    }
  }

  lemma ActGetters(c: Config, s: State, w: nat)
    requires SoundAt(s, w) && w < |s.workers| && !s.workers[w].Idle?
    ensures var t := ActStep(c, s, w);
      t.getters == s.getters && t.subs == s.subs[s.workers[w].id := NextSub(c, s, s.workers[w])]
  {
  }

  lemma LoopTokens(c: Config, s: State, t: State)
    requires SoundLoop(s) && LoopStep(c, s) == Some(t)
    ensures SlotsKept(s, t)
  {
    if Dispatching(s) {
      EmitTokens(s, s.loop.p);
    } else {
      LoopControls(c, s, t);
    }
  }

  lemma WorkTokens(c: Config, s: State, w: nat, t: State)
    requires SoundAt(s, w) && AllTokens(s) && WorkStep(c, s, w) == Some(t)
    ensures AllTokens(t)
  {
    if s.workers[w].Idle? {
      PopTokens(s, w);
      TokensKept(s, t);
    } else {
      ActTokens(c, s, w);
    }
  }

  lemma QuietTokens(c: Config, s: State, a: Action, t: State)
    requires Inv(c, s) && Sound(c, s) && AllTokens(s) && Quiet(a) && Step(c, s, a) == Some(t)
    ensures AllTokens(t)
  {
    match a
    case BeginGet(n) =>
      AskTokens(s, n, t);
      TokensKept(s, t);
    case Start => TokensKept(s, t);
    case Stop => TokensKept(s, t);
    case Get(n) => GetTokens(s, n, t);
    case Loop =>
      LoopTokens(c, s, t);
      TokensKept(s, t);
    case Work(w) => WorkTokens(c, s, w, t);
  }

  lemma StepTokens(c: Config, s: State, a: Action, t: State)
    requires Inv(c, s) && Sound(c, s) && AllTokens(s) && Step(c, s, a) == Some(t)
    ensures AllTokens(t)
  {
    if Quiet(a) {
      QuietTokens(c, s, a, t);
    } else {
      CallerStep(c, s, a, t);
      CallerTokens(c, s, t);
    }
  }

  lemma {:induction false} RunTokens(c: Config, r: seq<State>)
    requires IsRun(c, r) && Inv(c, r[0]) && AllTokens(r[0])
    ensures Inv(c, r[|r| - 1]) && AllTokens(r[|r| - 1])
  {
    if 1 < |r| {
      var q, x, y := r[..|r| - 1], r[|r| - 2], r[|r| - 1];
      RunBefore(c, r);
      RunTokens(c, q);
      NextTokens(c, x, y);
    }
  }

  lemma NextTokens(c: Config, s: State, t: State)
    requires Inv(c, s) && AllTokens(s) && Next(c, s, t)
    ensures Inv(c, t) && AllTokens(t)
  {
    var a :| Step(c, s, a) == Some(t);
    StepTokens(c, s, a, t);
    StepPreserves(c, s, a, t);
  }

  /** A getter at the semaphore of a slot that has been posted is not blocked. */
  lemma PostedMeansAvailable(c: Config, s: State, n: Name)
    requires 1 <= c.poolSize && Reachable(c, s) && n in s.getters && s.getters[n].HasSlot?
    ensures s.getters[n].id in s.subs && s.subs[s.getters[n].id].slotSem == s.subs[s.getters[n].id].posts
    ensures s.subs[s.getters[n].id].posts == 1 ==> GetStepEnabled(s, n)
  {
    var r :| IsRun(c, r) && r[0] == Init(c) && r[|r| - 1] == s;
    InvInit(c);
    RunTokens(c, r);
    assert GetterOk(s, n);
    assert Token(s, s.getters[n].id);
  }

  /** The getter's next step is possible. */
  predicate GetStepEnabled(s: State, n: Name)
  {
    n in s.getters && !s.getters[n].Got? && !s.getters[n].NotFound?
    && (s.getters[n].HasSlot? ==> s.getters[n].id in s.subs && 0 < s.subs[s.getters[n].id].slotSem)
  }

  /** With every function through, a getter that cannot move is at its end. */
  lemma GetterAtEnd(c: Config, t: State, n: Name)
    requires 1 <= c.poolSize && Reachable(c, t) && n in t.getters && !GetStepEnabled(t, n)
    requires t.getters[n].HasSlot? ==> t.getters[n].id in t.subs && t.subs[t.getters[n].id].posts == 1
    ensures t.getters[n].Got? || t.getters[n].NotFound?
  {
    if t.getters[n].HasSlot? {
      PostedMeansAvailable(c, t, n);
    }
  }

  /** A getter whose subtask is through is not left at its slot. */
  lemma SlotOwnerThrough(c: Config, t: State, n: Name)
    requires Inv(c, t) && n in t.getters && t.getters[n].HasSlot? && ReleasedThrough(t)
    ensures t.getters[n].id in t.subs && (Released(t, t.getters[n].id) ==> t.subs[t.getters[n].id].posts == 1)
    ensures Submitted(t) ==> Released(t, t.getters[n].id)
  {
    var id := t.getters[n].id;
    assert GetterOk(t, n);
    assert Local(t.subs[id], t.clock);
    assert Released(t, id) ==> Through(t, id);
    if Submitted(t) {
      SubmittedReleased(c, t, id);
    }
  }

  /** The getter has its outcome, was told that there is none, or waits for a subtask not yet released. */
  ghost predicate Answered(t: State, n: Name)
  {
    n in t.getters &&
      (t.getters[n].Got? || t.getters[n].NotFound? || (t.getters[n].HasSlot? && !Released(t, t.getters[n].id)))
  }

  /** A complete run answers everybody: with fewer late subtasks than workers, when neither workers nor the
      event loop nor getters can move, every getter has its outcome or was told that there is none; only
      before submission is over it may still wait for a subtask that has not been released. */
  lemma EveryGetterAnswered(c: Config, s: State, t: State, n: Name)
    requires 1 <= c.poolSize && Reachable(c, s) && SelfContained(s) && Acyclic(s) && |Late(s)| < c.poolSize
    requires Leads(c, s, t) && !CanProgress(c, t) && Reachable(c, t) && n in t.getters && !GetStepEnabled(t, n)
    ensures Answered(t, n) && (Submitted(s) ==> t.getters[n].Got? || t.getters[n].NotFound?)
    ensures t.getters[n].Got? ==> n in t.names && t.names[n] in t.subs && t.getters[n].o == t.subs[t.names[n]].out
  {
    CompleteRunsFinish(c, s, t);
    ReachableInv(c, s);
    LeadsKept(c, s, t);
    if Submitted(s) {
      SubmittedCarried(s, t);
    }
    if t.getters[n].HasSlot? {
      SlotOwnerThrough(c, t, n);
    }
    if t.getters[n].HasSlot? && !Released(t, t.getters[n].id) {
      return;
    }
    GetterAtEnd(c, t, n);
    if t.getters[n].Got? {
      ResultRouting(c, t, n);
    }
  }

  // ---- running to the end, getters included ----

  function GetLeft(pc: GetPc): nat
  {
    match pc
    case Asked => 6
    case HasId(_) => 5
    case HasSlot(_) => 4
    case Woken(_) => 3
    case Took(_, _) => 2
    case NameErased(_, _) => 1
    case Got(_, _) => 0
    case NotFound => 0
  }

  /** One element for each step that some getter may still take. */
  ghost function GetSteps(s: State): set<(Name, nat)>
  {
    set n, k: nat | n in s.getters && 0 <= k < GetLeft(s.getters[n]) :: (n, k)
  }

  lemma GetEnabled(s: State, n: Name)
    requires GetStepEnabled(s, n)
    requires forall n :: n in s.getters && HasTarget(s.getters[n]) ==> s.getters[n].id in s.subs
    ensures GetStep(s, n).Some?
  {
  }

  lemma TakeFalls(s: State, n: Name, id: Id)
    requires n in s.getters && id in s.subs && HasTarget(s.getters[n]) && !s.getters[n].HasId? && !s.getters[n].Got?
    ensures var t := TakeStep(s, n, id);
      n in t.getters && t.getters == s.getters[n := t.getters[n]] && GetLeft(t.getters[n]) < GetLeft(s.getters[n])
  {
  }

  lemma AskFalls(s: State, n: Name, t: State)
    requires n in s.getters && (s.getters[n].Asked? || s.getters[n].HasId?)
    requires forall n :: n in s.getters && HasTarget(s.getters[n]) ==> s.getters[n].id in s.subs
    requires GetStep(s, n) == Some(t)
    ensures n in t.getters && t.getters == s.getters[n := t.getters[n]] && GetLeft(t.getters[n]) < GetLeft(s.getters[n])
  {
  }

  lemma GetMoves(s: State, n: Name, t: State)
    requires GetStepEnabled(s, n)
    requires forall n :: n in s.getters && HasTarget(s.getters[n]) ==> s.getters[n].id in s.subs
    requires GetStep(s, n) == Some(t)
    ensures n in t.getters && t.getters == s.getters[n := t.getters[n]] && GetLeft(t.getters[n]) < GetLeft(s.getters[n])
  {
    if s.getters[n].Asked? || s.getters[n].HasId? {
      AskFalls(s, n, t);
    } else {
      TakeCases(s, n, t);
      TakeFalls(s, n, s.getters[n].id);
    }
  }

  lemma GetFalls(c: Config, s: State, n: Name) returns (t: State)
    requires Inv(c, s) && GetStepEnabled(s, n)
    ensures QuietNext(c, s, t) && Step(c, s, Get(n)) == Some(t) && GetCase(s, n, t) && n in t.getters
    ensures t.getters == s.getters[n := t.getters[n]] && GetLeft(t.getters[n]) < GetLeft(s.getters[n])
  {
    InvSound(c, s);
    GetEnabled(s, n);
    t := GetStep(s, n).value;
    assert Step(c, s, Get(n)) == Some(t) && Quiet(Get(n));
    GetCases(s, n, t);
    GetMoves(s, n, t);
  }

  lemma GetStepsFall(s: State, n: Name, t: State)
    requires n in s.getters && n in t.getters && t.getters == s.getters[n := t.getters[n]]
    requires GetLeft(t.getters[n]) < GetLeft(s.getters[n])
    ensures |GetSteps(t)| < |GetSteps(s)|
  {
    assert (n, GetLeft(t.getters[n])) in GetSteps(s) - GetSteps(t);
    SmallerSet(GetSteps(t), GetSteps(s));
  }

  lemma GetOnward(c: Config, s: State, n: Name) returns (t: State)
    requires Inv(c, s) && GetStepEnabled(s, n)
    ensures QuietNext(c, s, t) && Inv(c, t) && Effort(t) == Effort(s) && |GetSteps(t)| < |GetSteps(s)|
  {
    t := GetFalls(c, s, n);
    StepKept(c, s, t);
    GetEffort(s, n, t);
    GetStepsFall(s, n, t);
  }

  /** From everywhere some run comes to a state in which neither workers nor the event loop nor getters can
      move. */
  lemma {:induction false} RunToRest(c: Config, s: State) returns (t: State)
    requires Inv(c, s)
    ensures Leads(c, s, t) && !CanProgress(c, t) && forall n :: !GetStepEnabled(t, n)
    decreases Effort(s), |GetSteps(s)|
  {
    if CanProgress(c, s) {
      var u := Onward(c, s);
      t := RunToRest(c, u);
      LeadsOn(c, s, u, t);
    } else if n :| GetStepEnabled(s, n) {
      var u := GetOnward(c, s, n);
      t := RunToRest(c, u);
      LeadsStep(c, s, u, t);
    } else {
      LeadsSelf(c, s);
      t := s;
    }
  }

  /** With fewer late subtasks than workers some run answers every getter. */
  lemma SomeRunAnswers(c: Config, s: State) returns (t: State)
    requires 1 <= c.poolSize && Reachable(c, s) && Submitted(s) && Acyclic(s) && |Late(s)| < c.poolSize
    ensures Leads(c, s, t) && AllThrough(t)
    ensures forall n :: n in t.getters ==> t.getters[n].Got? || t.getters[n].NotFound?
  {
    ReachableInv(c, s);
    SubmittedContained(c, s);
    t := RunToRest(c, s);
    LeadsReachable(c, s, t);
    CompleteRunsFinish(c, s, t);
    forall n | n in t.getters
      ensures t.getters[n].Got? || t.getters[n].NotFound?
    {
      EveryGetterAnswered(c, s, t, n);
    }
  }
}
