/** Every step touches at most one subtask and one main task. Each lemma here carries one part of the
  invariant over such a step, asking only about the two objects touched. */
module Frames {
  import opened Protocol
  import opened Invariant

  /** A subtask only advances: its identity stays, and what it has produced stays. */
  predicate Evolves(u: Sub, v: Sub)
  {
    && v.name == u.name && v.mainName == u.mainName && v.deps == u.deps
    && u.add <= v.add && u.rank <= v.rank && u.reaped <= v.reaped
    && (HAS_MAIN <= u.add ==> v.mainId == u.mainId && v.threw == u.threw)
    && (TAKEN <= u.rank ==> v.known == u.known)
    && (STARTED <= u.rank ==> v.startAt == u.startAt)
    && (ENDED <= u.rank ==> v.endAt == u.endAt && v.args == u.args && v.out == u.out)
  }

  predicate MainEvolves(a: Main, b: Main)
  {
    && b.name == a.name && b.size == a.size && b.prio == a.prio && a.add <= b.add
    && a.rel <= b.rel && a.fin <= b.fin && a.begun <= b.begun
  }

  /** From s to t only subtask i and main task m change; either may be new or not exist at all. */
  ghost predicate Delta(s: State, t: State, i: Id, m: Id)
  {
    && (forall id :: id in t.subs && id != i ==> id in s.subs)
    && (forall id :: id in s.subs ==>
          id in t.subs && (if id == i then Evolves(s.subs[id], t.subs[id]) else t.subs[id] == s.subs[id]))
    && (forall x :: x in t.mains && x != m ==> x in s.mains)
    && (forall x :: x in s.mains ==>
          x in t.mains && (if x == m then MainEvolves(s.mains[x], t.mains[x]) else t.mains[x] == s.mains[x]))
    && s.clock <= t.clock && s.nextMain <= t.nextMain && s.nextSub <= t.nextSub
    && (forall n :: n in s.names ==> n in t.names && t.names[n] == s.names[n])
    && (forall n :: n in s.mainNames ==> n in t.mainNames && t.mainNames[n] == s.mainNames[n])
  }

  lemma NamesKept(s: State, t: State, i: Id, m: Id)
    requires Names(s) && Delta(s, t, i, m)
    requires i in t.subs && i !in s.subs ==> SubNamed(t, i)
    requires m in t.mains && m !in s.mains ==> MainNamed(t, m)
    requires forall n {:trigger NameOk(t, n)} :: NameOk(s, n) ==> NameOk(t, n)
    ensures Names(t)
  {
    forall x | x in t.mains
      ensures MainNamed(t, x)
    {
      assert x in s.mains ==> MainNamed(s, x);
    }
    forall id | id in t.subs
      ensures SubNamed(t, id)
    {
      assert id in s.subs ==> SubNamed(s, id);
    }
    forall n
      ensures NameOk(t, n)
    {
      assert NameOk(s, n);
    }
  }

  /** When no name is registered, names stay in order; a table may lose entries. */
  lemma NamesSame(s: State, t: State, i: Id, m: Id)
    requires Names(s) && Delta(s, t, i, m)
    requires t.names == s.names && t.mainNames == s.mainNames && t.mainIds == s.mainIds
    requires t.subs.Keys == s.subs.Keys && t.mains.Keys == s.mains.Keys
    requires forall n :: n in t.subIds ==> n in s.subIds && t.subIds[n] == s.subIds[n]
    ensures Names(t)
  {
    forall n | NameOk(s, n)
      ensures NameOk(t, n)
    {
    }
    NamesKept(s, t, i, m);
  }

  lemma LocalsKept(s: State, t: State, i: Id, m: Id)
    requires Locals(s) && Delta(s, t, i, m)
    requires i in t.subs ==> Local(t.subs[i], t.clock)
    ensures Locals(t)
  {
    forall id | id in t.subs
      ensures Local(t.subs[id], t.clock)
    {
      assert id != i ==> Local(s.subs[id], s.clock);
    }
  }

  /** The tables agree away from subtask i and main task m. */
  ghost predicate TablesDelta(s: State, t: State, i: Id, m: Id)
  {
    && |t.waiting| == PRIORITIES
    && (forall id :: id != i ==> (id in t.subTasks <==> id in s.subTasks) && (id in t.results <==> id in s.results))
    && (forall x :: x != m ==> (x in t.mainTasks <==> x in s.mainTasks))
    && (forall id :: id in s.subs && id != i ==> (s.subs[id].name in t.subIds <==> s.subs[id].name in s.subIds))
    && (forall x :: x in s.mains && x != m ==> (s.mains[x].name in t.mainIds <==> s.mains[x].name in s.mainIds))
  }

  lemma TablesKept(s: State, t: State, i: Id, m: Id)
    requires Tables(s) && Delta(s, t, i, m) && TablesDelta(s, t, i, m)
    requires if i in t.subs then SubTabled(t, i) else i !in t.subTasks && i !in t.results
    requires if m in t.mains then MainTabled(t, m) else m !in t.mainTasks
    requires forall p, x {:trigger Waits(t, x, p)} :: 0 <= p < PRIORITIES && Waits(s, x, p) == (x in s.waiting[p]) ==>
      (x in t.waiting[p] <==> Waits(t, x, p))
    ensures Tables(t)
  {
    forall id | id in t.subs
      ensures SubTabled(t, id)
    {
      assert id != i ==> SubTabled(s, id);
    }
    forall x | x in t.mains
      ensures MainTabled(t, x)
    {
      assert x != m ==> MainTabled(s, x);
    }
  }

  /** When no main task waits or stops waiting. */
  lemma WaitingSame(s: State, t: State, i: Id, m: Id)
    requires Delta(s, t, i, m) && t.waiting == s.waiting && |s.waiting| == PRIORITIES
    requires m in t.mains ==> m in s.mains
    requires m in t.mains ==>
      t.mains[m].add == s.mains[m].add || t.mains[m].add < MAIN_WAITING || MAIN_WAITING <= s.mains[m].add
    requires m in t.mains ==> (t.mains[m].rel < 3 <==> s.mains[m].rel < 3)
    ensures forall p, x {:trigger Waits(t, x, p)} :: 0 <= p < PRIORITIES && Waits(s, x, p) == (x in s.waiting[p]) ==>
      (x in t.waiting[p] <==> Waits(t, x, p))
  {
  }

  /** A subtask's position matters to no main task but m. */
  predicate Apart(s: State, t: State, i: Id, m: Id)
  {
    i in s.subs && i in t.subs ==>
      || s.subs[i].mainId == m
      || ((t.subs[i].add == s.subs[i].add || (s.subs[i].add != RELEASING && s.subs[i].add != HOLDING))
          && (t.subs[i].rank == s.subs[i].rank || (s.subs[i].rank != COUNTED && s.subs[i].rank != UNLISTED)))
  }

  lemma MainsKept(s: State, t: State, i: Id, m: Id)
    requires Mains(s) && Delta(s, t, i, m) && Names(s) && SubMains(s) && Members(s) && Locals(s)
    requires Apart(s, t, i, m)
    requires t.mainSubs.Keys <= s.mainSubs.Keys + {m} && (m in t.mainSubs ==> m in t.mains)
    requires m in t.mains ==> MainOk(t, m)
    ensures Mains(t)
  {
    forall x | x in t.mains
      ensures MainOk(t, x)
    {
      if x != m {
        assert MainOk(s, x);
        if i in s.mains[x].begun {
          MemberOf(s, x, i);
          assert Local(s.subs[i], s.clock);
        }
      }
    }
  }

  /** A member that has looked its main task up has found the one it is a member of. */
  lemma MemberOf(s: State, x: Id, i: Id)
    requires Names(s) && SubMains(s) && Members(s) && x in s.mains && i in s.mains[x].begun
    ensures i in s.subs && s.subs[i].mainName in s.mainNames && s.mainNames[s.subs[i].mainName] == x
    ensures HAS_MAIN <= s.subs[i].add ==> s.subs[i].mainId == x
  {
    assert MemberOk(s, x, i) && MainNamed(s, x);
    assert SubMain(s, i);
  }

  lemma MembersKept(s: State, t: State, i: Id, m: Id)
    requires Members(s) && Delta(s, t, i, m)
    requires m in t.mains ==>
      forall id {:trigger id in t.mains[m].begun} :: id in t.mains[m].begun ==> MemberOk(t, m, id)
    requires forall x :: x in s.mains && x != m && i in s.mains[x].begun ==> MemberOk(t, x, i)
    ensures Members(t)
  {
    forall x, id | x in t.mains && id in t.mains[x].begun
      ensures MemberOk(t, x, id)
    {
      assert x != m && id != i ==> MemberOk(s, x, id);
    }
  }

  lemma ListsKept(s: State, t: State, i: Id, m: Id)
    requires Lists(s) && Delta(s, t, i, m) && Members(s)
    requires forall x :: x != m && x in s.mains ==> List(t, x) == List(s, x)
    requires m in t.mains && t.mains[m].fin < 3 ==> Listed(t, m)
    requires forall x :: x in s.mains && x != m && i in s.mains[x].begun ==>
      i in s.subs && i in t.subs && (LISTED <= s.subs[i].add <==> LISTED <= t.subs[i].add)
    ensures Lists(t)
  {
    forall x | x in t.mains && t.mains[x].fin < 3
      ensures Listed(t, x)
    {
      if x != m {
        assert Listed(s, x);
        forall id
          ensures id in List(t, x) <==> id in t.mains[x].begun && id in t.subs && LISTED <= t.subs[id].add
        {
          if id in s.mains[x].begun {
            assert MemberOk(s, x, id);
          }
        }
      }
    }
  }

  /** Main task m's release and removal change only in the hands of i. */
  predicate HandOver(s: State, t: State, i: Id, m: Id)
  {
    m in s.mains && m in t.mains ==>
      && ((t.mains[m].rel == s.mains[m].rel && t.mains[m].releaser == s.mains[m].releaser)
          || s.mains[m].rel == 0 || s.mains[m].releaser == i)
      && ((t.mains[m].fin == s.mains[m].fin && t.mains[m].finisher == s.mains[m].finisher)
          || s.mains[m].fin == 0 || s.mains[m].finisher == i)
  }

  lemma SubMainsKept(s: State, t: State, i: Id, m: Id)
    requires SubMains(s) && Names(s) && Names(t) && Delta(s, t, i, m) && HandOver(s, t, i, m)
    requires forall n :: n in t.mainNames && n !in s.mainNames ==>
      forall id :: id in s.subs ==> s.subs[id].mainName != n
    requires i in t.subs ==> SubMain(t, i)
    ensures SubMains(t)
  {
    forall id | id in t.subs
      ensures SubMain(t, id)
    {
      if id != i {
        assert SubMain(s, id);
        var n := s.subs[id].mainName;
        assert NameOk(s, n) && NameOk(t, n);
      }
    }
  }

  lemma OrderedKept(c: Config, s: State, t: State, i: Id, m: Id)
    requires Ordered(c, s) && Delta(s, t, i, m) && Order(t) == Order(s)
    requires t.taken == s.taken && |t.ring| <= c.poolSize && |t.ready| == PRIORITIES
    requires Released(t, i) <==> Released(s, i)
    requires m in t.mains ==>
      if m in s.mains then (2 <= t.mains[m].rel <==> 2 <= s.mains[m].rel) else t.mains[m].rel < 2
    requires forall id :: id in s.subs && id != i && HAS_MAIN <= s.subs[id].add ==> s.subs[id].mainId in s.mains
    requires i in t.subs ==>
      if i in s.subs then (TAKEN <= t.subs[i].rank <==> TAKEN <= s.subs[i].rank) else t.subs[i].rank < TAKEN
    ensures Ordered(c, t)
  {
    forall id
      ensures id in Order(t) <==> Released(t, id)
    {
      assert id in Order(s) <==> Released(s, id);
    }
    forall id
      ensures id in t.taken <==> id in t.subs && TAKEN <= t.subs[id].rank
    {
      assert id in s.taken <==> id in s.subs && TAKEN <= s.subs[id].rank;
    }
  }

  lemma KnownsKept(c: Config, s: State, t: State, i: Id, m: Id)
    requires Knowns(c, s) && Delta(s, t, i, m)
    requires i in t.subs ==> Known(t, i) && Computed(c, t.subs[i])
    requires forall id :: id in t.taken + t.ring && id != i ==> id in s.taken + s.ring
    requires m in s.mains && m in t.mains && t.mains[m].begun != s.mains[m].begun ==>
      forall id :: id in t.taken + t.ring && id in s.subs ==> s.subs[id].mainId != m
    ensures Knowns(c, t)
  {
    forall id | id in t.subs
      ensures Known(t, id) && Computed(c, t.subs[id])
    {
      if id != i {
        assert Known(s, id) && Computed(c, s.subs[id]);
      }
    }
  }

  /** The subtask that changes keeps what it knows, when it neither starts nor ends. */
  lemma KnownKept(s: State, t: State, i: Id, m: Id)
    requires Delta(s, t, i, m) && i in s.subs && Known(s, i) && t.subs[i].known == s.subs[i].known
    requires (s.subs[i].rank < STARTED <==> t.subs[i].rank < STARTED)
    requires (s.subs[i].rank < ENDED <==> t.subs[i].rank < ENDED)
    requires i in t.taken + t.ring ==> i in s.taken + s.ring && t.subs[i].mainId == s.subs[i].mainId
    requires m in s.mains && m in t.mains && t.mains[m].begun != s.mains[m].begun ==> s.subs[i].mainId != m
    ensures Known(t, i)
  {
  }

  lemma WorkersKept(c: Config, s: State, t: State, i: Id, m: Id)
    requires Workers(c, s) && Delta(s, t, i, m) && t.workers == s.workers
    requires i in t.subs ==> if i in s.subs
      then t.subs[i].rank == s.subs[i].rank && t.subs[i].owner == s.subs[i].owner
      else t.subs[i].rank == UNTAKEN
    requires forall id :: id in s.subs && TAKEN <= s.subs[id].rank ==> forall d :: d in s.subs[id].known ==> d in s.subs
    ensures Workers(c, t)
  {
    forall x | 0 <= x < |t.workers|
      ensures WorkerOk(t, x)
    {
      assert WorkerOk(s, x);
      var pc := s.workers[x];
      if pc.Dep? || pc.DepNamed? || pc.DepWait? {
        assert Passed(s, pc.id, pc.k);
        assert Passed(t, pc.id, pc.k);
      }
    }
    forall id | id in t.subs && TAKEN <= t.subs[id].rank < FINISHED
      ensures HeldBy(t, id)
    {
      assert HeldBy(s, id);
    }
  }

  lemma GettersKept(s: State, t: State, i: Id, m: Id)
    requires Getters(s) && Delta(s, t, i, m) && t.getters == s.getters && Locals(s)
    requires i in t.subs ==> t.subs[i].reaped == (if i in s.subs then s.subs[i].reaped else 0)
    ensures Getters(t)
  {
    forall n | n in t.getters
      ensures GetterOk(t, n)
    {
      assert GetterOk(s, n);
    }
    forall id | id in t.subs && 0 < t.subs[id].reaped
      ensures ReapedBy(t, id)
    {
      assert ReapedBy(s, id);
    }
  }

  /** A step that is not the event loop's and leaves queues and lock alone. */
  lemma LockKept(s: State, t: State, i: Id, m: Id)
    requires LockOk(s) && Delta(s, t, i, m) && Order(t) == Order(s) && t.ready == s.ready
    requires t.readyLock == s.readyLock && t.loop == s.loop && t.passes == s.passes
    requires Holding(t, i) <==> Holding(s, i)
    ensures LockOk(t)
  {
    forall id
      ensures Holding(t, id) <==> t.readyLock == ByAdder(id)
    {
      assert Holding(s, id) <==> s.readyLock == ByAdder(id);
    }
  }

  lemma ScanKept(s: State, t: State, i: Id, m: Id)
    requires ScanOk(s) && Delta(s, t, i, m) && t.loop == s.loop && t.snap == s.snap
    requires t.running == s.running && t.stopSnap == s.stopSnap
    requires m in s.mains && m in t.mains ==> t.mains[m].add <= MAIN_ADDED && t.mains[m].rel <= 3
    requires s.loop == Exited && Released(t, i) && t.subs[i].mainId in s.snap ==>
      Released(s, i) && s.subs[i].mainId in s.snap
    requires m in s.mains && m in t.mains && 2 <= t.mains[m].rel ==> 2 <= s.mains[m].rel
    requires forall id :: id in s.subs && HAS_MAIN <= s.subs[id].add ==> s.subs[id].mainId in s.mains
    ensures ScanOk(t)
  {
    forall x | Added(s, x)
      ensures Added(t, x)
    {
    }
    forall x | Unwaited(s, x)
      ensures Unwaited(t, x)
    {
    }
    if s.loop == Exited {
      forall id {:trigger Released(t, id)} | Released(t, id) && t.subs[id].mainId in t.snap
        ensures POSTED <= t.subs[id].rank
      {
        assert id != i ==> Released(s, id);
      }
    }
  }
}
