/** The dependency graph of the released subtasks, and the event loop's ability to dispatch. */
module Dependencies {
  import opened Sequences
  import opened Protocol
  import opened Invariant
  import opened CallPreserves
  import opened History
  import opened Safety

  /** a depends on b, and both have been released. */
  ghost predicate Edge(s: State, a: Id, b: Id)
  {
    a in s.subs && b in s.subs && a in Order(s) && b in Order(s) && s.subs[b].name in s.subs[a].deps
  }

  ghost predicate EdgeAt(s: State, p: seq<Id>, k: nat)
  {
    k + 1 < |p| ==> Edge(s, p[k], p[k + 1])
  }

  ghost predicate IsPath(s: State, p: seq<Id>)
  {
    2 <= |p| && forall k {:trigger EdgeAt(s, p, k)} :: EdgeAt(s, p, k)
  }

  /** a depends on b directly or through others. */
  ghost predicate Reaches(s: State, a: Id, b: Id)
  {
    exists p :: IsPath(s, p) && p[0] == a && p[|p| - 1] == b
  }

  ghost predicate Acyclic(s: State)
  {
    forall a :: !Reaches(s, a, a)
  }

  /** a is on a cycle of dependencies, or depends on one. */
  ghost predicate OnCycle(s: State, a: Id)
  {
    exists x :: Cycles(s, a, x)
  }

  ghost predicate Cycles(s: State, a: Id, x: Id)
  {
    (a == x || Reaches(s, a, x)) && Reaches(s, x, x)
  }

  /** The subtasks among the first p of the dispatch order that depend, directly or not, on one behind them or
      on a cycle. */
  ghost function Open(s: State, p: nat): set<Id>
    requires p <= |Order(s)|
  {
    set a | a in Order(s)[..p] && Escapes(s, a, p)
  }

  ghost predicate Escapes(s: State, a: Id, p: nat)
    requires p <= |Order(s)|
  {
    OnCycle(s, a) || exists b :: b in Order(s)[p..] && Reaches(s, a, b)
  }

  lemma EdgeReaches(s: State, a: Id, b: Id)
    requires Edge(s, a, b)
    ensures Reaches(s, a, b)
  {
    var p := [a, b];
    assert IsPath(s, p);
  }

  lemma ReachesFurther(s: State, a: Id, b: Id, d: Id)
    requires Reaches(s, a, b) && Edge(s, b, d)
    ensures Reaches(s, a, d)
  {
    var p :| IsPath(s, p) && p[0] == a && p[|p| - 1] == b;
    var q := p + [d];
    forall k: nat
      ensures EdgeAt(s, q, k)
    {
      assert EdgeAt(s, p, k);
    }
    assert IsPath(s, q);
  }

  // ---- submission is over ----

  predicate SubDone(s: State, id: Id)
    requires id in s.subs
  {
    s.subs[id].threw || s.subs[id].add == ADDED
  }

  /** Every call of addMainTask and addSubTask has returned or thrown, every main task has all its
      subtasks, and Stop, if called, was called after that. */
  ghost predicate Submitted(s: State)
  {
    && (forall id {:trigger SubDone(s, id)} :: id in s.subs ==> SubDone(s, id))
    && (forall m {:trigger Unwaited(s, m)} :: m in s.mains ==> Unwaited(s, m))
    && (s.stopSnap.Some? ==> s.stopSnap.value == s.mains.Keys)
  }

  /** Every dispatched subtask's dependencies were registered when it was dispatched. */
  ghost predicate KnownAll(s: State)
  {
    forall a, b {:trigger Edge(s, a, b)} :: a in s.taken + s.ring && Edge(s, a, b) ==> b in s.subs[a].known
  }

  lemma SubmittedReleased(c: Config, s: State, id: Id)
    requires Inv(c, s) && Submitted(s) && id in s.subs && !s.subs[id].threw
    ensures Released(s, id) && id in Order(s)
  {
    assert SubDone(s, id) && SubMain(s, id);
    var m := s.subs[id].mainId;
    assert Unwaited(s, m);
    assert Released(s, id);
  }

  lemma UnwaitedAdded(s: State, m: Id)
    requires Mains(s) && Unwaited(s, m)
    ensures Added(s, m)
  {
    assert MainOk(s, m);
    SubsetSize(s.mains[m].readied, s.mains[m].begun);
  }

  /** Submission stays over. */
  lemma SubmittedCarried(s: State, t: State)
    requires Mains(s) && Submitted(s) && Carried(s, t)
    ensures Submitted(t)
  {
    forall id | id in t.subs
      ensures SubDone(t, id)
    {
      assert SubDone(s, id) && Carries(s.subs[id], t.subs[id]);
    }
    forall m | m in t.mains
      ensures Unwaited(t, m)
    {
      assert Unwaited(s, m) && MainCarries(s.mains[m], t.mains[m]);
    }
    forall m | m in s.mains
      ensures m in AddedMains(s)
    {
      assert Unwaited(s, m);
      UnwaitedAdded(s, m);
    }
    assert AddedMains(s) == s.mains.Keys;
  }

  // ---- submission may go on ----

  predicate DependsOn(s: State, a: Id, b: Id)
  {
    a in s.subs && b in s.subs && s.subs[b].name in s.subs[a].deps
  }

  /** What a released subtask depends on and finds in sub_tasks has been released too: dependencies lie
      in fully submitted main tasks. */
  ghost predicate ReleasedClosed(s: State)
  {
    forall a, b {:trigger DependsOn(s, a, b)} ::
      Released(s, a) && DependsOn(s, a, b) && INSERTED <= s.subs[b].add ==> Released(s, b)
  }

  /** No main task that was added after Stop has been released. */
  ghost predicate StopCovers(s: State)
  {
    s.stopSnap.Some? ==>
      forall id {:trigger Released(s, id)} :: Released(s, id) ==> s.subs[id].mainId in s.stopSnap.value
  }

  /** Nothing released waits for a submitter: other main tasks may be in the course of submission, but no
      released subtask depends on them, and no call is between pushing its list and giving up the lock. */
  ghost predicate SelfContained(s: State)
  {
    !s.readyLock.ByAdder? && ReleasedClosed(s) && StopCovers(s)
  }

  lemma SubmittedContained(c: Config, s: State)
    requires Inv(c, s) && Submitted(s)
    ensures SelfContained(s)
  {
    var holder := match s.readyLock case ByAdder(id) => id case _ => 0;
    assert Holding(s, holder) <==> s.readyLock == ByAdder(holder);
    assert holder in s.subs ==> SubDone(s, holder) && Local(s.subs[holder], s.clock);
    forall a, b | Released(s, a) && DependsOn(s, a, b) && INSERTED <= s.subs[b].add
      ensures Released(s, b)
    {
      assert Local(s.subs[b], s.clock);
      SubmittedReleased(c, s, b);
    }
  }

  lemma ReleasedCarried(s: State, t: State)
    requires Carried(s, t)
    ensures forall id {:trigger Released(t, id)} :: Released(t, id) <==> Released(s, id)
    ensures forall id {:trigger Released(t, id)} :: Released(t, id) ==> t.subs[id].mainId == s.subs[id].mainId
  {
    forall id
      ensures Released(t, id) <==> Released(s, id)
      ensures Released(t, id) ==> t.subs[id].mainId == s.subs[id].mainId
    {
      if id in s.subs {
        assert Carries(s.subs[id], t.subs[id]);
        var m := s.subs[id].mainId;
        assert m in s.mains ==> MainCarries(s.mains[m], t.mains[m]);
      }
    }
  }

  lemma ReleasedMainAdded(s: State, id: Id)
    requires Mains(s) && Released(s, id)
    ensures s.subs[id].mainId in AddedMains(s)
  {
    var m := s.subs[id].mainId;
    assert MainOk(s, m);
    SubsetSize(s.mains[m].readied, s.mains[m].begun);
  }

  lemma ContainedCarried(s: State, t: State)
    requires Mains(s) && SelfContained(s) && LockOk(s) && Carried(s, t) && LockOk(t)
    ensures SelfContained(t)
  {
    ReleasedCarried(s, t);
    var holder := match t.readyLock case ByAdder(id) => id case _ => 0;
    assert Holding(t, holder) <==> t.readyLock == ByAdder(holder);
    assert Holding(s, holder) <==> s.readyLock == ByAdder(holder);
    assert holder in s.subs ==> Carries(s.subs[holder], t.subs[holder]);
    forall a, b | Released(t, a) && DependsOn(t, a, b) && INSERTED <= t.subs[b].add
      ensures Released(t, b)
    {
      assert Carries(s.subs[a], t.subs[a]) && Carries(s.subs[b], t.subs[b]);
      assert DependsOn(s, a, b);
    }
    forall id | Released(t, id)
      ensures t.stopSnap.Some? ==> t.subs[id].mainId in t.stopSnap.value
    {
      ReleasedMainAdded(s, id);
    }
  }

  lemma QuietKeeps(c: Config, s: State, a: Action, t: State)
    requires Inv(c, s) && Sound(c, s) && Quiet(a) && Step(c, s, a) == Some(t)
    ensures Inv(c, t) && Carried(s, t) && (SelfContained(s) ==> SelfContained(t))
  {
    StepPreserves(c, s, a, t);
    QuietCarries(c, s, a, t);
    if SelfContained(s) {
      ContainedCarried(s, t);
    }
  }
}
