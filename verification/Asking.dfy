module Asking {
  /** Asking for a result: whoever may ask can begin, and is handed the outcome once the slot is posted. */

  import opened Sequences
  import opened Protocol
  import opened Invariant
  import opened CallPreserves
  import opened History
  import opened Dependencies
  import opened Progress
  import opened Deadlock
  import opened Standstill
  import opened Completion
  import opened CallerSteps
  import opened Results
  import opened Moves

  /** The function registered under this name has ended and its slot has been posted. */
  predicate PostedName(s: State, n: Name)
  {
    n in s.names && s.names[n] in s.subs && s.subs[s.names[n]].posts == 1
  }

  /** The getter has the outcome of the function registered under its name, and that subtask's entries are gone
      from the three tables. */
  predicate Handed(s: State, n: Name)
  {
    && n in s.getters && s.getters[n].Got? && n in s.names && s.getters[n].id == s.names[n]
    && s.names[n] in s.subs && s.subs[s.names[n]].out.Some? && s.getters[n].o == s.subs[s.names[n]].out
    && n !in s.subIds && s.names[n] !in s.subTasks && s.names[n] !in s.results
  }

  // ---- a name can be asked for ----

  /** In every reachable state a name can be asked for by whoever has not asked yet or was told that there is
      nothing, whether its subtask has been added or not. */
  lemma CanBeAsked(c: Config, s: State, n: Name)
    requires 1 <= c.poolSize && Reachable(c, s) && (n in s.getters ==> s.getters[n].NotFound?)
    ensures Sound(c, s) && Step(c, s, BeginGet(n)).Some?
    ensures var t := Step(c, s, BeginGet(n)).value;
      n in t.getters && t.getters[n] == Asked && t == s.(getters := t.getters)
  {
    WhoCanMove(c, s, BeginGet(n));
  }

  // ---- a posted slot is handed out ----

  lemma PostedRegistered(s: State, n: Name)
    requires Names(s) && Locals(s) && Tables(s) && Getters(s) && PostedName(s, n)
    requires n in s.getters && (s.getters[n].Asked? || s.getters[n].HasId?)
    ensures n in s.subIds && s.subIds[n] == s.names[n] && s.names[n] in s.results
    ensures s.getters[n].HasId? ==> s.getters[n].id == s.names[n]
  {
    var id := s.names[n];
    assert NameOk(s, n) && GetterOk(s, n);
    assert Local(s.subs[id], s.clock) && SubTabled(s, id);
    assert 0 < s.subs[id].reaped ==> ReapedBy(s, id);
    if s.getters[n].HasId? {
      assert SubNamed(s, s.getters[n].id);
    }
  }

  lemma FoundIs(s: State, n: Name, t: State)
    requires n in s.getters
    requires (s.getters[n].Asked? ==> n in s.subIds) && (s.getters[n].HasId? ==> s.getters[n].id in s.results)
    requires forall n :: n in s.getters && HasTarget(s.getters[n]) ==> s.getters[n].id in s.subs
    requires GetStep(s, n) == Some(t)
    ensures n in t.getters && !t.getters[n].NotFound?
  {
  }

  lemma PostedEnabled(c: Config, s: State, n: Name)
    requires 1 <= c.poolSize && Reachable(c, s) && PostedName(s, n) && n in s.getters
    requires !s.getters[n].Got? && !s.getters[n].NotFound?
    ensures GetStepEnabled(s, n)
  {
    ReachableInv(c, s);
    assert GetterOk(s, n);
    if s.getters[n].HasSlot? {
      assert SubNamed(s, s.getters[n].id);
      PostedMeansAvailable(c, s, n);
    }
  }

  /** One step of a getter whose slot is posted, towards its outcome. */
  lemma Nearer(c: Config, s: State, n: Name) returns (t: State)
    requires 1 <= c.poolSize && Reachable(c, s) && PostedName(s, n) && n in s.getters
    requires !s.getters[n].Got? && !s.getters[n].NotFound?
    ensures QuietNext(c, s, t) && Reachable(c, t) && n in t.getters && !t.getters[n].NotFound?
    ensures PostedName(t, n) && t.names == s.names && GetLeft(t.getters[n]) < GetLeft(s.getters[n])
  {
    PostedEnabled(c, s, n);
    t := NearerStep(c, s, n);
    QuietOn(c, s, t);
    GetNames(s, n, t);
  }

  lemma NearerStep(c: Config, s: State, n: Name) returns (t: State)
    requires 1 <= c.poolSize && Reachable(c, s) && PostedName(s, n) && GetStepEnabled(s, n)
    ensures QuietNext(c, s, t) && GetCase(s, n, t) && n in t.getters && !t.getters[n].NotFound?
    ensures GetLeft(t.getters[n]) < GetLeft(s.getters[n])
  {
    ReachableInv(c, s);
    t := GetFalls(c, s, n);
    StepFinds(c, s, n, t);
  }

  lemma StepFinds(c: Config, s: State, n: Name, t: State)
    requires Inv(c, s) && Sound(c, s) && PostedName(s, n) && Step(c, s, Get(n)) == Some(t) && n in s.getters
    ensures n in t.getters && !t.getters[n].NotFound?
  {
    NearerFinds(s, n, t);
  }

  lemma NearerFinds(s: State, n: Name, t: State)
    requires Names(s) && Locals(s) && Tables(s) && Getters(s) && PostedName(s, n) && n in s.getters
    requires forall n :: n in s.getters && HasTarget(s.getters[n]) ==> s.getters[n].id in s.subs
    requires GetStep(s, n) == Some(t)
    ensures n in t.getters && !t.getters[n].NotFound?
  {
    if s.getters[n].Asked? || s.getters[n].HasId? {
      PostedRegistered(s, n);
    }
    FoundIs(s, n, t);
  }

  lemma GetNames(s: State, n: Name, t: State)
    requires GetCase(s, n, t) && PostedName(s, n)
    ensures t.names == s.names && PostedName(t, n)
  {
  }

  lemma GotIsHanded(c: Config, s: State, n: Name)
    requires 1 <= c.poolSize && Reachable(c, s) && n in s.getters && s.getters[n].Got?
    ensures Handed(s, n)
  {
    ReachableInv(c, s);
    var id := s.getters[n].id;
    assert GetterOk(s, n) && SubNamed(s, id) && SubTabled(s, id) && Local(s.subs[id], s.clock);
  }

  /** A getter under way whose slot is posted comes to its outcome by its own steps. */
  lemma {:induction false} HandedOut(c: Config, s: State, n: Name) returns (t: State)
    requires 1 <= c.poolSize && Reachable(c, s) && PostedName(s, n) && n in s.getters && !s.getters[n].NotFound?
    ensures Leads(c, s, t) && Reachable(c, t) && Handed(t, n)
    decreases GetLeft(s.getters[n])
  {
    if s.getters[n].Got? {
      t := s;
      LeadsSelf(c, s);
      GotIsHanded(c, s, n);
    } else {
      var u := Nearer(c, s, n);
      t := HandedOut(c, u, n);
      LeadsStep(c, s, u, t);
    }
  }

  lemma AskNow(c: Config, s: State, n: Name) returns (t: State)
    requires 1 <= c.poolSize && Reachable(c, s) && (n in s.getters ==> s.getters[n].NotFound?)
    ensures QuietNext(c, s, t) && Reachable(c, t) && n in t.getters && t.getters[n] == Asked
    ensures t.names == s.names && t.subs == s.subs
  {
    CanBeAsked(c, s, n);
    t := Step(c, s, BeginGet(n)).value;
    assert Quiet(BeginGet(n));
    QuietOn(c, s, t);
  }

  /** From every reachable state in which a name's slot is posted, asked for or not, some run hands its
      function's outcome to a getter and takes slot, name and subtask out of their tables. */
  lemma ResultIsHanded(c: Config, s: State, n: Name) returns (t: State)
    requires 1 <= c.poolSize && Reachable(c, s) && PostedName(s, n)
    ensures Leads(c, s, t) && Reachable(c, t) && Handed(t, n)
  {
    if n in s.getters && !s.getters[n].NotFound? {
      t := HandedOut(c, s, n);
    } else {
      var u := AskNow(c, s, n);
      t := HandedOut(c, u, n);
      LeadsStep(c, s, u, t);
    }
  }

  /** So from every reachable state in which submission is over, with acyclic dependencies and fewer late
      subtasks than workers, for the name of every subtask that was added. */
  lemma EveryResultIsHanded(c: Config, s: State, n: Name) returns (t: State)
    requires 1 <= c.poolSize && Reachable(c, s) && Submitted(s) && Acyclic(s) && |Late(s)| < c.poolSize
    requires n in s.names && s.names[n] in s.subs && !s.subs[s.names[n]].threw
    ensures Leads(c, s, t) && Reachable(c, t) && Handed(t, n)
  {
    ReachableInv(c, s);
    SubmittedContained(c, s);
    var u := SomeRunFinishes(c, s);
    LeadsReachable(c, s, u);
    ThroughPosted(c, s, u, n);
    t := ResultIsHanded(c, u, n);
    LeadsOn(c, s, u, t);
  }

  lemma ThroughPosted(c: Config, s: State, t: State, n: Name)
    requires 1 <= c.poolSize && Reachable(c, s) && Leads(c, s, t) && AllThrough(t)
    requires n in s.names && s.names[n] in s.subs && !s.subs[s.names[n]].threw
    ensures PostedName(t, n)
  {
    ReachableInv(c, s);
    LeadsKept(c, s, t);
    var id := s.names[n];
    assert NameOk(s, n) && Carries(s.subs[id], t.subs[id]);
    assert SubNamed(t, id) && Through(t, id);
  }

  // ---- who is told that there is nothing ----

  /** A call of addSubTask with this name has come so far. */
  predicate Entered(s: State, n: Name, add: nat)
  {
    exists id :: id in s.subs && s.subs[id].name == n && add <= s.subs[id].add
  }

  /** At its first lookup a getter is told so exactly when no subtask of that name has been entered, at its
      second exactly when that subtask has no slot yet. */
  lemma ToldNothingIff(c: Config, s: State, n: Name)
    requires 1 <= c.poolSize && Reachable(c, s) && n in s.getters && (s.getters[n].Asked? || s.getters[n].HasId?)
    ensures Sound(c, s) && Step(c, s, Get(n)).Some? && n in Step(c, s, Get(n)).value.getters
    ensures Step(c, s, Get(n)).value.getters[n].NotFound? <==>
      !Entered(s, n, if s.getters[n].Asked? then NAMED else SLOTTED)
  {
    WhoCanMove(c, s, Get(n));
    ReachableInv(c, s);
    NothingIff(s, n, Step(c, s, Get(n)).value);
  }

  lemma NothingIff(s: State, n: Name, t: State)
    requires Names(s) && Tables(s) && Getters(s) && n in s.getters && (s.getters[n].Asked? || s.getters[n].HasId?)
    requires forall n :: n in s.getters && HasTarget(s.getters[n]) ==> s.getters[n].id in s.subs
    requires GetStep(s, n) == Some(t)
    ensures n in t.getters
    ensures t.getters[n].NotFound? <==> !Entered(s, n, if s.getters[n].Asked? then NAMED else SLOTTED)
  {
    NothingIf(s, n, t);
    forall id | id in s.subs && s.subs[id].name == n
      ensures n in s.names && s.names[n] == id && (n in s.subIds <==> NAMED <= s.subs[id].add)
      ensures id in s.results <==> SLOTTED <= s.subs[id].add
      ensures s.getters[n].HasId? ==> s.getters[n].id == id
    {
      TabledName(s, n, id);
    }
  }

  lemma TabledName(s: State, n: Name, id: Id)
    requires Names(s) && Tables(s) && Getters(s) && n in s.getters && (s.getters[n].Asked? || s.getters[n].HasId?)
    requires id in s.subs && s.subs[id].name == n
    ensures n in s.names && s.names[n] == id && (n in s.subIds <==> NAMED <= s.subs[id].add)
    ensures id in s.results <==> SLOTTED <= s.subs[id].add
    ensures s.getters[n].HasId? ==> s.getters[n].id == id
  {
    assert GetterOk(s, n) && SubNamed(s, id) && SubTabled(s, id);
    assert 0 < s.subs[id].reaped ==> ReapedBy(s, id);
    if s.getters[n].HasId? {
      assert SubNamed(s, s.getters[n].id);
    }
  }

  lemma NothingIf(s: State, n: Name, t: State)
    requires Names(s) && Getters(s) && n in s.getters && (s.getters[n].Asked? || s.getters[n].HasId?)
    requires forall n :: n in s.getters && HasTarget(s.getters[n]) ==> s.getters[n].id in s.subs
    requires GetStep(s, n) == Some(t)
    ensures n in t.getters
    ensures t.getters[n].NotFound? <==> if s.getters[n].Asked? then n !in s.subIds else s.getters[n].id !in s.results
    ensures s.getters[n].HasId? ==> s.subs[s.getters[n].id].name == n
    ensures n in s.subIds ==> s.subIds[n] in s.subs && s.subs[s.subIds[n]].name == n
  {
    assert GetterOk(s, n) && NameOk(s, n);
  }

  // ---- over whole runs ----

  /** Who has begun stays known, and who has an outcome keeps it. */
  predicate GetterStays(s: State, t: State, n: Name)
  {
    n in s.getters ==> n in t.getters && (s.getters[n].Got? ==> t.getters[n] == s.getters[n])
  }

  lemma GetStays(s: State, m: Name, t: State, n: Name)
    requires forall n :: n in s.getters && HasTarget(s.getters[n]) ==> s.getters[n].id in s.subs
    requires GetStep(s, m) == Some(t)
    ensures GetterStays(s, t, n)
  {
    if s.getters[m].Asked? || s.getters[m].HasId? {
      AskMoves(s, m, t);
    } else {
      TakeCases(s, m, t);
      TakeFalls(s, m, s.getters[m].id);
    }
  }

  lemma WorkStays(c: Config, s: State, w: nat, t: State)
    requires SoundAt(s, w) && WorkStep(c, s, w) == Some(t)
    ensures t.getters == s.getters
  {
    if !s.workers[w].Idle? {
      ActGetters(c, s, w);
    }
  }

  lemma LoopGetters(c: Config, s: State, t: State)
    requires SoundLoop(s) && LoopStep(c, s) == Some(t)
    ensures t.getters == s.getters
  {
    if !Dispatching(s) {
      LoopControls(c, s, t);
    }
  }

  lemma QuietStays(c: Config, s: State, a: Action, t: State, n: Name)
    requires Inv(c, s) && Sound(c, s) && Quiet(a) && Step(c, s, a) == Some(t)
    ensures GetterStays(s, t, n)
  {
    match a
    case Get(m) => GetStays(s, m, t, n);
    case Work(w) => WorkStays(c, s, w, t);
    case Loop => LoopGetters(c, s, t);
    case _ =>
  }

  ghost predicate Stayed(c: Config, s: State, t: State, n: Name)
  {
    Inv(c, t) && GetterStays(s, t, n)
  }

  lemma NextStays(c: Config, s: State, u: State, t: State, n: Name)
    requires Stayed(c, s, u, n) && Next(c, u, t)
    ensures Stayed(c, s, t, n)
  {
    var a :| Step(c, u, a) == Some(t);
    StepPreserves(c, u, a, t);
    if Quiet(a) {
      QuietStays(c, u, a, t, n);
    } else {
      CallerStep(c, u, a, t);
    }
  }

  /** Over every run a getter that has begun stays, and keeps what it has got. */
  lemma GetterStaysOver(c: Config, r: seq<State>, n: Name)
    requires 1 <= c.poolSize && IsRun(c, r) && Reachable(c, r[0])
    ensures GetterStays(r[0], r[|r| - 1], n)
  {
    ReachableInv(c, r[0]);
    var p := (x: State) => Stayed(c, r[0], x, n);
    forall x, y | p(x) && Next(c, x, y)
      ensures p(y)
    {
      NextStays(c, r[0], x, y, n);
    }
    RunInduction(c, r, p);
  }
}
