/** Exactly when a fixed pool whose workers block on dependencies can come to a standstill. */
module Deadlock {
  import opened Sequences
  import opened Protocol
  import opened Invariant
  import opened WorkerPreserves
  import opened RestPreserves
  import opened History
  import opened Safety
  import opened Dependencies
  import opened Progress

  /** Worker w can take a step: pop, or move along its subtask. */
  predicate WorkerMoves(s: State, w: nat)
    requires w < |s.workers|
  {
    if s.workers[w].Idle? then s.ring != []
    else !s.workers[w].DepWait? || (s.workers[w].dep in s.subs && s.subs[s.workers[w].dep].done)
  }

  /** Some worker can move, or the event loop alone can dispatch one more subtask. */
  ghost predicate CanProgress(c: Config, s: State)
  {
    (exists w :: 0 <= w < |s.workers| && WorkerMoves(s, w)) || CanDispatch(c, s)
  }

  /** Released and not through. */
  predicate Unfinished(s: State, id: Id)
  {
    Released(s, id) && s.subs[id].rank < FINISHED
  }

  /** Something is left to do and nothing can be done. */
  ghost predicate Stuck(c: Config, s: State)
  {
    !CanProgress(c, s) && exists id :: Unfinished(s, id)
  }

  lemma MovesStep(c: Config, s: State, w: nat)
    requires SoundAt(s, w) && w < |s.workers|
    ensures WorkerMoves(s, w) <==> WorkStep(c, s, w).Some?
  {
  }

  // ---- a blocked worker waits for something behind it ----

  ghost predicate AllBlocked(s: State)
  {
    forall w {:trigger WorkerMoves(s, w)} :: 0 <= w < |s.workers| && !s.workers[w].Idle? ==> !WorkerMoves(s, w)
  }

  predicate HeldId(s: State, id: Id)
  {
    id in s.subs && TAKEN <= s.subs[id].rank < FINISHED
  }

  /** The dependency a blocked worker waits for: an edge of the graph, not done. */
  lemma WaitsFor(c: Config, s: State, x: Id) returns (d: Id)
    requires Inv(c, s) && SelfContained(s) && AllBlocked(s) && HeldId(s, x)
    ensures Edge(s, x, d) && (d !in s.taken || HeldId(s, d)) && s.subs[x].rank == TAKEN
  {
    assert HeldBy(s, x);
    var w := s.subs[x].owner;
    assert WorkerOk(s, w) && !WorkerMoves(s, w);
    d := s.workers[w].dep;
    assert Local(s.subs[d], s.clock);
    assert x in s.taken && Released(s, x) && DependsOn(s, x, d);
    assert Released(s, d);
    assert s.workers[w].DepWait? && s.subs[d].name == s.subs[x].deps[s.workers[w].k];
  }

  /** Following waits from a held subtask leads to one not yet taken, or round a cycle. */
  lemma {:induction false} BlockedEscapes(c: Config, s: State, a: Id, x: Id, visited: set<Id>)
    requires Inv(c, s) && SelfContained(s) && AllBlocked(s) && HeldId(s, x)
    requires a == x || Reaches(s, a, x)
    requires x !in visited && forall v :: v in visited ==> v in s.taken && Reaches(s, v, x)
    ensures OnCycle(s, a) || exists b :: b in Order(s) && b !in s.taken && Reaches(s, a, b)
    decreases |(set y | y in s.taken) - visited|
  {
    var d := WaitsFor(c, s, x);
    EdgeReaches(s, x, d);
    if a != x {
      ReachesFurther(s, a, x, d);
    }
    if d in visited + {x} {
      if d != x {
        ReachesFurther(s, d, x, d);
      }
      assert Cycles(s, a, d);
    } else if d in s.taken {
      forall v | v in visited + {x}
        ensures Reaches(s, v, d)
      {
        if v != x {
          ReachesFurther(s, v, x, d);
        }
      }
      assert x in s.taken;
      var all := set y | y in s.taken;
      assert all - (visited + {x}) < all - visited;
      SmallerSet(all - (visited + {x}), all - visited);
      BlockedEscapes(c, s, a, d, visited + {x});
    }
  }

  lemma SmallerSet<T>(a: set<T>, b: set<T>)
    requires a < b
    ensures |a| < |b|
  {
    assert |b - a| == |b| - |a|;
    var x :| x in b - a;
  }

  lemma TailOf(s: State, b: Id)
    requires NoDup(Order(s)) && b in Order(s)
    ensures |s.taken| <= |Order(s)|
    ensures b in Order(s)[|s.taken|..] <==> b !in s.taken
    ensures Order(s)[..|s.taken|] == s.taken
  {
    var q, n := Order(s), |s.taken|;
    assert q[..n] == s.taken && q[n..] == s.ring + Flat(s.ready);
    QueueApart(s, b);
  }

  /** Every held subtask is open: something it depends on has not been taken. */
  lemma HeldOpen(c: Config, s: State, a: Id)
    requires Inv(c, s) && SelfContained(s) && AllBlocked(s) && HeldId(s, a)
    ensures |s.taken| <= |Order(s)| && a in Open(s, |s.taken|)
  {
    TakenWithin(s);
    BlockedEscapes(c, s, a, a, {});
    if b :| b in Order(s) && b !in s.taken && Reaches(s, a, b) {
      TailOf(s, b);
    }
    assert Order(s)[..|s.taken|] == s.taken && a in s.taken;
    assert Escapes(s, a, |s.taken|);
  }

  // ---- counting workers ----

  function HeldSet(s: State, n: nat): set<Id>
    requires n <= |s.workers|
  {
    if n == 0 then {}
    else if s.workers[n - 1].Idle? then HeldSet(s, n - 1)
    else HeldSet(s, n - 1) + {s.workers[n - 1].id}
  }

  /** What worker n - 1 adds to the set. */
  lemma HeldLast(c: Config, s: State, n: nat, id: Id)
    requires Workers(c, s) && 0 < n <= |s.workers|
    ensures !s.workers[n - 1].Idle? && s.workers[n - 1].id == id <==> HeldId(s, id) && s.subs[id].owner == n - 1
  {
    assert WorkerOk(s, n - 1);
    assert HeldId(s, id) ==> HeldBy(s, id);
  }

  lemma {:induction false} HeldSetIs(c: Config, s: State, n: nat, id: Id)
    requires Workers(c, s) && n <= |s.workers|
    ensures id in HeldSet(s, n) <==> HeldId(s, id) && s.subs[id].owner < n
  {
    if 0 < n {
      HeldSetIs(c, s, n - 1, id);
      HeldLast(c, s, n, id);
    }
  }

  lemma {:induction false} HeldSetSize(c: Config, s: State, n: nat)
    requires Workers(c, s) && n <= |s.workers|
    ensures |HeldSet(s, n)| <= n
    ensures (forall w :: 0 <= w < n ==> !s.workers[w].Idle?) <==> |HeldSet(s, n)| == n
  {
    if 0 < n {
      HeldSetSize(c, s, n - 1);
      if !s.workers[n - 1].Idle? {
        HeldSetIs(c, s, n - 1, s.workers[n - 1].id);
        HeldLast(c, s, n, s.workers[n - 1].id);
      }
    }
  }

  lemma HeldSetFacts(c: Config, s: State, n: nat)
    requires Workers(c, s) && n <= |s.workers|
    ensures forall id :: id in HeldSet(s, n) <==> HeldId(s, id) && s.subs[id].owner < n
    ensures |HeldSet(s, n)| <= n
    ensures (forall w :: 0 <= w < n ==> !s.workers[w].Idle?) <==> |HeldSet(s, n)| == n
  {
    HeldSetSize(c, s, n);
    forall id
      ensures id in HeldSet(s, n) <==> HeldId(s, id) && s.subs[id].owner < n
    {
      HeldSetIs(c, s, n, id);
    }
  }

  /** With all busy workers blocked, the held subtasks are among the open ones. */
  lemma HeldWithinOpen(c: Config, s: State)
    requires Inv(c, s) && SelfContained(s) && AllBlocked(s)
    ensures |s.taken| <= |Order(s)| && HeldSet(s, |s.workers|) <= Open(s, |s.taken|)
  {
    HeldSetFacts(c, s, |s.workers|);
    forall id | id in HeldSet(s, |s.workers|)
      ensures id in Open(s, |s.taken|)
    {
      HeldOpen(c, s, id);
    }
  }

  /** If fewer subtasks are open than there are workers, some worker is idle. */
  lemma FewOpenIdle(c: Config, s: State)
    requires Inv(c, s) && SelfContained(s) && AllBlocked(s)
    requires |s.taken| <= |Order(s)| && |Open(s, |s.taken|)| < c.poolSize
    ensures exists w :: 0 <= w < |s.workers| && s.workers[w].Idle?
  {
    HeldWithinOpen(c, s);
    HeldSetFacts(c, s, |s.workers|);
    SubsetSize(HeldSet(s, |s.workers|), Open(s, |s.taken|));
  }

  lemma TakenWithin(s: State)
    ensures |s.taken| <= |Order(s)|
  {
  }

  /** No progress and something unfinished: as many subtasks are open as there are workers. */
  lemma StuckMeansOpen(c: Config, s: State)
    requires Inv(c, s) && SelfContained(s) && Acyclic(s) && Stuck(c, s)
    ensures |s.taken| <= |Order(s)| && c.poolSize <= |Open(s, |s.taken|)|
  {
    TakenWithin(s);
    forall w | 0 <= w < |s.workers|
      ensures !WorkerMoves(s, w)
    {
    }
    if |Open(s, |s.taken|)| < c.poolSize {
      FewOpenIdle(c, s);
      var w :| 0 <= w < |s.workers| && s.workers[w].Idle?;
      assert !WorkerMoves(s, w);
      IdleFinished(c, s);
    }
  }

  lemma NotOnCycle(s: State, a: Id)
    requires Acyclic(s)
    ensures !OnCycle(s, a)
  {
  }

  /** With an idle worker, an empty ring and no dispatch possible, everything is finished. */
  lemma IdleFinished(c: Config, s: State)
    requires Inv(c, s) && SelfContained(s) && Acyclic(s) && AllBlocked(s) && s.ring == [] && !CanDispatch(c, s)
    ensures forall id :: !Unfinished(s, id)
  {
    if Flat(s.ready) != [] {
      LoopDispatches(c, s, RankOf(s.loop));
    }
    assert Order(s) == s.taken;
    forall id
      ensures !Unfinished(s, id)
    {
      if Unfinished(s, id) {
        assert id in Order(s);
        assert id in s.taken;
        BlockedEscapes(c, s, id, id, {});
        NotOnCycle(s, id);
      }
    }
  }

  // ---- edges and what is known stay ----

  lemma EdgesCarried(s: State, t: State)
    requires Carried(s, t)
    ensures forall a, b :: Edge(t, a, b) <==> Edge(s, a, b)
  {
    forall a, b
      ensures Edge(t, a, b) <==> Edge(s, a, b)
    {
      assert a in s.subs ==> Carries(s.subs[a], t.subs[a]);
      assert b in s.subs ==> Carries(s.subs[b], t.subs[b]);
    }
  }

  lemma PathCarried(s: State, t: State, p: seq<Id>)
    requires forall a, b :: Edge(t, a, b) <==> Edge(s, a, b)
    ensures IsPath(t, p) <==> IsPath(s, p)
  {
    forall k: nat
      ensures EdgeAt(t, p, k) <==> EdgeAt(s, p, k)
    {
      if k + 1 < |p| {
        assert Edge(t, p[k], p[k + 1]) <==> Edge(s, p[k], p[k + 1]);
      }
    }
    assert IsPath(t, p) ==> forall k: nat :: EdgeAt(t, p, k);
  }

  lemma PathsCarried(s: State, t: State)
    requires Carried(s, t)
    ensures forall a, b :: Reaches(t, a, b) <==> Reaches(s, a, b)
    ensures Acyclic(t) <==> Acyclic(s)
  {
    EdgesCarried(s, t);
    SamePaths(s, t);
  }

  /** What depends on what is a matter of the edges alone. */
  lemma SamePaths(s: State, t: State)
    requires forall a, b :: Edge(t, a, b) <==> Edge(s, a, b)
    ensures forall a, b :: Reaches(t, a, b) <==> Reaches(s, a, b)
    ensures Acyclic(t) <==> Acyclic(s)
  {
    forall a, b
      ensures Reaches(t, a, b) <==> Reaches(s, a, b)
    {
      if Reaches(s, a, b) {
        var p :| IsPath(s, p) && p[0] == a && p[|p| - 1] == b;
        PathCarried(s, t, p);
      }
      if Reaches(t, a, b) {
        var p :| IsPath(t, p) && p[0] == a && p[|p| - 1] == b;
        PathCarried(s, t, p);
      }
    }
  }

  lemma OpenCarried(s: State, t: State)
    requires Carried(s, t)
    ensures forall p: nat :: p <= |Order(s)| ==> Open(t, p) == Open(s, p)
  {
    PathsCarried(s, t);
    OpenSame(s, t);
  }

  lemma SameCycles(s: State, t: State)
    requires forall a, b :: Reaches(t, a, b) <==> Reaches(s, a, b)
    ensures forall a :: OnCycle(t, a) <==> OnCycle(s, a)
  {
    forall a, x
      ensures Cycles(t, a, x) <==> Cycles(s, a, x)
    {
    }
  }

  lemma OpenSame(s: State, t: State)
    requires Order(t) == Order(s) && forall a, b :: Reaches(t, a, b) <==> Reaches(s, a, b)
    ensures forall p: nat :: p <= |Order(s)| ==> Open(t, p) == Open(s, p)
  {
    SameCycles(s, t);
    forall p: nat | p <= |Order(s)|
      ensures Open(t, p) == Open(s, p)
    {
      forall a
        ensures Escapes(t, a, p) <==> Escapes(s, a, p)
      {
      }
    }
  }

  /** What a dispatched subtask knows does not change; a new one knows all that is registered. */
  ghost predicate KnownStays(s: State, t: State)
  {
    forall id :: id in t.taken + t.ring && id in s.subs && id in t.subs ==>
      t.subs[id].known == (if id in s.taken + s.ring then s.subs[id].known else InsertedSubs(s))
  }

  lemma NextKnown(c: Config, s: State, w: nat)
    requires SoundAt(s, w) && w < |s.workers| && !s.workers[w].Idle?
    ensures NextSub(c, s, s.workers[w]).known == s.subs[s.workers[w].id].known
  {
  }

  lemma ActKnown(c: Config, s: State, w: nat, t: State)
    requires SoundAt(s, w) && w < |s.workers| && !s.workers[w].Idle? && t == ActStep(c, s, w)
    ensures KnownStays(s, t)
  {
    NextKnown(c, s, w);
  }

  lemma PopKnown(s: State, w: nat, t: State)
    requires w < |s.workers| && s.ring != [] && s.ring[0] in s.subs && t == PopStep(s, w)
    ensures KnownStays(s, t)
  {
    assert s.ring == [s.ring[0]] + s.ring[1..];
    assert t.taken + t.ring == s.taken + s.ring;
  }

  lemma ControlKnown(s: State, t: State)
    requires Control(s, t)
    ensures KnownStays(s, t)
  {
  }

  lemma EmitKnown(s: State, p: nat, t: State)
    requires p < |s.ready| && s.ready[p] != [] && s.ready[p][0] in s.subs && t == EmitStep(s, p)
    requires s.ready[p][0] !in s.taken + s.ring
    ensures KnownStays(s, t)
  {
  }

  lemma LoopKnown(c: Config, s: State, t: State)
    requires Inv(c, s) && Sound(c, s) && LoopStep(c, s) == Some(t)
    ensures KnownStays(s, t)
  {
    if Dispatching(s) {
      EmitFacts(c, s, s.loop.p);
      EmitKnown(s, s.loop.p, t);
    } else {
      LoopControls(c, s, t);
      ControlKnown(s, t);
    }
  }

  lemma GetKnown(s: State, n: Name, t: State)
    requires GetCase(s, n, t)
    ensures KnownStays(s, t)
  {
    if t == s.(getters := t.getters) {
      ControlKnown(s, t);
    } else {
      TakeKnown(s, n, s.getters[n].id, t);
    }
  }

  lemma QuietKnown(c: Config, s: State, a: Action, t: State)
    requires Inv(c, s) && Sound(c, s) && Quiet(a) && Step(c, s, a) == Some(t)
    ensures KnownStays(s, t)
  {
    match a
    case BeginGet(_) => ControlKnown(s, t);
    case Start => ControlKnown(s, t);
    case Stop => ControlKnown(s, t);
    case Get(n) =>
      GetCases(s, n, t);
      GetKnown(s, n, t);
    case Loop => LoopKnown(c, s, t);
    case Work(w) =>
      if s.workers[w].Idle? {
        PopKnown(s, w, t);
      } else {
        ActKnown(c, s, w, t);
      }
  }

  lemma TakeKnown(s: State, n: Name, id: Id, t: State)
    requires n in s.getters && id in s.subs && t == TakeStep(s, n, id)
    ensures KnownStays(s, t)
  {
  }

  lemma KnownAllKept(c: Config, s: State, t: State)
    requires Inv(c, s) && KnownAll(s) && Carried(s, t) && KnownStays(s, t)
    ensures KnownAll(t)
  {
    EdgesCarried(s, t);
    forall a, b | a in t.taken + t.ring && Edge(t, a, b)
      ensures b in t.subs[a].known
    {
      assert Edge(s, a, b);
      assert b in Order(s) && Released(s, b);
      ReleasedFacts(s, b);
    }
  }

  lemma NextKnownAll(c: Config, s: State, t: State)
    requires QuietNext(c, s, t) && Inv(c, s) && KnownAll(s)
    ensures KnownAll(t)
  {
    var a :| Quiet(a) && Step(c, s, a) == Some(t);
    QuietKeeps(c, s, a, t);
    QuietKnown(c, s, a, t);
    KnownAllKept(c, s, t);
  }

  ghost predicate KnowsAll(c: Config, s: State)
  {
    Inv(c, s) && KnownAll(s)
  }

  lemma NextKnowsAll(c: Config, s: State, t: State)
    requires QuietNext(c, s, t) && KnowsAll(c, s)
    ensures KnowsAll(c, t)
  {
    NextKnownAll(c, s, t);
    StepKept(c, s, t);
  }

  lemma RunKnown(c: Config, r: seq<State>)
    requires QuietRun(c, r) && KnowsAll(c, r[0])
    ensures KnownAll(r[|r| - 1])
  {
    var p := (x: State) => KnowsAll(c, x);
    forall x, y | p(x) && QuietNext(c, x, y)
      ensures p(y)
    {
      NextKnowsAll(c, x, y);
    }
    QuietInduction(c, r, p);
  }

  lemma LeadsKept(c: Config, s: State, t: State)
    requires Leads(c, s, t) && Inv(c, s)
    ensures Inv(c, t) && Carried(s, t)
    ensures (SelfContained(s) ==> SelfContained(t)) && (KnownAll(s) ==> KnownAll(t))
  {
    var r :| QuietRun(c, r) && r[0] == s && r[|r| - 1] == t;
    RunKept(c, r);
    if KnownAll(s) {
      RunKnown(c, r);
    }
  }

  // ---- an open subtask cannot start ----

  /** Along a chain of known dependencies from a started subtask, all have been taken and started, each
      before the one that depends on it. */
  lemma {:induction false} StartedChain(c: Config, s: State, p: seq<Id>, k: nat)
    requires Inv(c, s) && KnownAll(s) && IsPath(s, p) && k < |p|
    requires p[0] in s.subs && STARTED <= s.subs[p[0]].rank
    ensures p[k] in s.subs && STARTED <= s.subs[p[k]].rank && p[k] in s.taken
    ensures s.subs[p[k]].startAt + k <= s.subs[p[0]].startAt
  {
    if k == 0 {
      assert p[0] in s.taken;
    } else {
      StartedChain(c, s, p, k - 1);
      assert EdgeAt(s, p, k - 1);
      StartedEdge(c, s, p[k - 1], p[k]);
    }
  }

  lemma StartedEdge(c: Config, s: State, a: Id, b: Id)
    requires Inv(c, s) && KnownAll(s) && Edge(s, a, b) && STARTED <= s.subs[a].rank
    ensures STARTED <= s.subs[b].rank && b in s.taken && s.subs[b].startAt < s.subs[a].startAt
  {
    assert a in s.taken;
    assert Known(s, a) && Local(s.subs[b], s.clock);
    assert b in s.taken;
  }

  lemma OpenHeld(c: Config, s: State)
    requires Inv(c, s) && KnownAll(s) && |s.taken| <= |Order(s)|
    ensures Open(s, |s.taken|) <= HeldSet(s, |s.workers|)
  {
    HeldSetFacts(c, s, |s.workers|);
    forall a | a in Open(s, |s.taken|)
      ensures a in HeldSet(s, |s.workers|)
    {
      assert Order(s)[..|s.taken|] == s.taken && a in s.taken;
      if OnCycle(s, a) {
        CyclicUnstarted(c, s, a);
      } else {
        var b :| b in Order(s)[|s.taken|..] && Reaches(s, a, b);
        TailOf(s, b);
        OpenUnstarted(c, s, a, b);
      }
      assert HeldId(s, a) && HeldBy(s, a);
    }
  }

  /** Nothing that depends on a cycle of known dependencies has started. */
  lemma CyclicUnstarted(c: Config, s: State, a: Id)
    requires Inv(c, s) && KnownAll(s) && OnCycle(s, a)
    ensures a in s.subs && s.subs[a].rank < STARTED
  {
    var x :| Cycles(s, a, x);
    LoopUnstarted(c, s, x);
    if a != x {
      var p :| IsPath(s, p) && p[0] == a && p[|p| - 1] == x;
      assert EdgeAt(s, p, 0);
      if STARTED <= s.subs[a].rank {
        StartedChain(c, s, p, |p| - 1);
      }
    }
  }

  lemma LoopUnstarted(c: Config, s: State, x: Id)
    requires Inv(c, s) && KnownAll(s) && Reaches(s, x, x)
    ensures x in s.subs && s.subs[x].rank < STARTED
  {
    var p :| IsPath(s, p) && p[0] == x && p[|p| - 1] == x;
    assert EdgeAt(s, p, 0);
    if STARTED <= s.subs[x].rank {
      StartedChain(c, s, p, |p| - 1);
    }
  }

  lemma OpenUnstarted(c: Config, s: State, a: Id, b: Id)
    requires Inv(c, s) && KnownAll(s) && Reaches(s, a, b) && b !in s.taken
    ensures a in s.subs && s.subs[a].rank < STARTED
  {
    var p :| IsPath(s, p) && p[0] == a && p[|p| - 1] == b;
    assert EdgeAt(s, p, 0);
    if STARTED <= s.subs[a].rank {
      StartedChain(c, s, p, |p| - 1);
    }
  }
}
