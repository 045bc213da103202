module Jams {
  /** For every pool size one main task jams the event loop in its first pass: the loop waits for ever for room
    in the ring, with the lock on the ready queues in its hands. From then on no other main task, however
    independent, can be released, and Stop does not return. */

  import opened Protocol
  import opened CallPreserves
  import opened History
  import opened CallerSteps
  import opened Dependencies
  import opened Deadlock
  import opened Moves
  import opened Calls
  import opened Passes
  import opened Submission
  import opened Instances

  /** Twice as many subtasks as workers and one more: the first half depends on the last. */
  function HalfOnLast(n: nat): Deps
  {
    seq(2 * n + 1, j => if j < n then [2 * n] else [])
  }

  lemma {:induction false} FirstIds(k: nat) returns (b: set<Id>)
    ensures |b| == k && forall id: nat :: id in b <==> 1 <= id <= k
  {
    if k == 0 {
      b := {};
    } else {
      b := FirstIds(k - 1);
      b := b + {k};
    }
  }

  lemma EdgeListed(deps: Deps, a: Id, b: Id)
    requires ListEdge(deps, a, b)
    ensures ListReaches(deps, a, b)
  {
    assert ListPath(deps, [a, b]);
  }

  lemma HalfOpen(n: nat)
    ensures n <= |OpenLists(HalfOnLast(n), n)|
  {
    var b := FirstIds(n);
    forall a | a in b
      ensures a in OpenLists(HalfOnLast(n), n)
    {
      EdgeListed(HalfOnLast(n), a, 2 * n + 1);
      assert LeavesFirst(HalfOnLast(n), a, n);
    }
    SmallerOrSame(b, OpenLists(HalfOnLast(n), n));
  }

  lemma SmallerOrSame<T>(a: set<T>, b: set<T>)
    requires a <= b
    ensures |a| <= |b|
  {
    assert b == a + (b - a);
  }

  lemma StartLoop(c: Config, s: State) returns (t: State)
    requires 1 <= c.poolSize && Reachable(c, s) && s.loop == Off
    ensures Goes(c, s, t) && Reachable(c, t) && t == s.(running := true, loop := Top)
  {
    t := Calls.Take(c, s, Start);
  }

  lemma TopLoop(c: Config, s: State) returns (t: State)
    requires 1 <= c.poolSize && Reachable(c, s) && s.loop == Top && s.running
    ensures Goes(c, s, t) && Reachable(c, t) && t == s.(loop := Want)
  {
    t := Calls.Take(c, s, Loop);
  }

  lemma WantLoop(c: Config, s: State) returns (t: State)
    requires 1 <= c.poolSize && Reachable(c, s) && s.loop == Want && s.readyLock == Free
    ensures Goes(c, s, t) && Reachable(c, t) && t.loop == Emit(PRIORITIES - 1)
    ensures t == s.(loop := t.loop, readyLock := t.readyLock, passes := t.passes)
  {
    t := Calls.Take(c, s, Loop);
  }

  /** The loop is started and enters its first pass. */
  lemma EnterPass(c: Config, s: State) returns (t: State)
    requires 1 <= c.poolSize && Reachable(c, s) && s.loop == Off && s.readyLock == Free
    ensures Goes(c, s, t) && Reachable(c, t) && t.loop == Emit(PRIORITIES - 1)
    ensures t == s.(running := true, loop := t.loop, readyLock := t.readyLock, passes := t.passes)
  {
    var a := StartLoop(c, s);
    var b := TopLoop(c, a);
    t := WantLoop(c, b);
    GoesOn(c, s, a, b);
    GoesOn(c, s, b, t);
  }

  lemma PassCarried(s: State, t: State)
    requires t == s.(running := t.running, loop := t.loop, readyLock := t.readyLock, passes := t.passes)
    ensures Carried(s, t)
  {
    assert Order(t) == Order(s);
  }

  /** That is a jam. */
  lemma PassJams(c: Config, s: State, t: State)
    requires 1 <= c.poolSize && Ready0(s, HalfOnLast(c.poolSize)) && Carried(s, t) && t.taken == [] && t.ring == []
    requires t.loop.Emit?
    ensures InJam(c, t, c.poolSize)
  {
    HalfOpen(c.poolSize);
    OpenListed(s, HalfOnLast(c.poolSize), c.poolSize);
    OpenCarried(s, t);
  }

  lemma JamEntered(c: Config) returns (t: State)
    requires 1 <= c.poolSize
    ensures Reachable(c, t) && InJam(c, t, c.poolSize) && t.mains.Keys == {1} && t.mains[1].name == 0
    ensures forall id :: id in t.subs ==> t.subs[id].mainName == 0 && t.subs[id].name <= 2 * c.poolSize
  {
    var deps := HalfOnLast(c.poolSize);
    var s := Submit(c, deps);
    t := EnterPass(c, s);
    PassCarried(s, t);
    PassJams(c, s, t);
    forall id | id in t.subs
      ensures t.subs[id].mainName == 0 && t.subs[id].name <= 2 * c.poolSize
    {
      assert IsIn(s, deps, id);
    }
  }

  /** Before anything is taken the lists decide whether the pass jams. */
  lemma JamListed(c: Config, s: State, t: State, deps: Deps)
    requires Ready0(s, deps) && Carried(s, t) && t.taken == []
    ensures Jam(c, t) <==> exists q: nat :: q + c.poolSize < |deps| && c.poolSize <= |OpenLists(deps, q)|
  {
    OpenCarried(s, t);
    forall q: nat | q <= |deps|
      ensures q <= |Order(t)| && Open(t, q) == OpenLists(deps, q)
    {
      OpenListed(s, deps, q);
    }
    if q: nat :| q + c.poolSize < |deps| && c.poolSize <= |OpenLists(deps, q)| {
      assert JamAt(c, t, q);
    }
  }

  // ---- another main task ----

  /** Nothing that is in a table or queue depends on it, and it depends on nothing. */
  lemma OtherMain(c: Config, s: State, q: nat) returns (m: Id, t: State)
    requires 1 <= c.poolSize && Reachable(c, s) && InJam(c, s, q) && !MainKnown(s, 1)
    requires forall id :: id in s.subs ==> s.subs[id].mainName != 1
    ensures Reachable(c, t) && InJam(c, t, q) && m !in s.mains && MainIn(t, m, 1, 1, 0) && t.subs == s.subs
    ensures forall x :: x in t.mains && t.mains[x].name == 1 ==> x == m
  {
    m, t := MainCanBeAdded(c, s, 1, 1, 0);
    StaysInJam(c, s, t, q);
    ReachableInv(c, t);
    MainNames(t, 1);
  }

  lemma StaysInJam(c: Config, s: State, t: State, q: nat)
    requires 1 <= c.poolSize && Reachable(c, s) && InJam(c, s, q) && Goes(c, s, t)
    ensures InJam(c, t, q)
  {
    ReachableInv(c, s);
    var r :| IsRun(c, r) && r[0] == s && r[|r| - 1] == t;
    JamForEver(c, r, s, t, q);
  }

  /** Its only subtask is added, and the call comes to its release. */
  lemma OtherSub(c: Config, s: State, m: Id, n: Name, q: nat) returns (id: Id, t: State)
    requires 1 <= c.poolSize && Reachable(c, s) && InJam(c, s, q) && MainIn(s, m, 1, 1, 0) && !SubKnown(s, n)
    requires forall x :: x in s.mains && s.mains[x].name == 1 ==> x == m
    ensures Reachable(c, t) && InJam(c, t, q) && id in t.subs && t.subs[id].add == RELEASING
    ensures OtherThan(s, t, id) && t.subs[id].mainName == 1 && t.subs[id].deps == []
  {
    var u: State;
    id, u := BeginCall(c, s, n, 1, []);
    assert LastToCount(u, 1);
    t := GetsToRelease(c, u, id);
    GoesOn(c, s, u, t);
    StaysInJam(c, s, t, q);
    assert Registers(u.subs[id], t.subs[id]);
    OthersNamed(s, u, t, id);
  }

  predicate OtherThan(s: State, t: State, id: Id)
  {
    id !in s.subs && forall x :: x in t.subs && x != id ==> x in s.subs && t.subs[x].mainName == s.subs[x].mainName
  }

  lemma OthersNamed(s: State, u: State, t: State, id: Id)
    requires id !in s.subs && WithSub(s, u, id) && Aside(u, t)
    ensures OtherThan(s, t, id)
  {
    forall x | x in t.subs && x != id
      ensures x in s.subs && t.subs[x].mainName == s.subs[x].mainName
    {
      assert Registers(s.subs[x], u.subs[x]) && Registers(u.subs[x], t.subs[x]);
    }
  }

  lemma GetsToRelease(c: Config, s: State, id: Id) returns (t: State)
    requires 1 <= c.poolSize && Reachable(c, s) && id in s.subs && !s.subs[id].threw && s.subs[id].add == ALLOCATED
    requires LastToCount(s, s.subs[id].mainName)
    ensures Goes(c, s, t) && Reachable(c, t) && Aside(s, t) && t.subs[id].add == RELEASING
  {
    MainOrNot(c, s, id);
    var u := Advance(c, s, id);
    t := ComesToRelease(c, u, id);
    GoesOn(c, s, u, t);
    AsideOn(s, u, t);
  }

  /** A call of addSubTask for a main task of its own, at its release: no run from here on brings it further,
      and none brings the event loop out of its pass. */
  ghost predicate HangsForEver(c: Config, t: State, id: Id)
  {
    && id in t.subs && t.subs[id].add == RELEASING && t.subs[id].deps == []
    && (forall x :: x in t.subs && x != id ==> t.subs[x].mainName != t.subs[id].mainName)
    && forall z :: Goes(c, t, z) ==> id in z.subs && z.subs[id].add == RELEASING && z.loop.Emit?
  }

  /** For every pool size there is such a reachable state. */
  lemma JamHappens(c: Config) returns (t: State, id: Id)
    requires 1 <= c.poolSize
    ensures Reachable(c, t) && InJam(c, t, c.poolSize) && HangsForEver(c, t, id)
  {
    var n := c.poolSize;
    var s := JamEntered(c);
    var m: Id, u: State;
    m, u := OtherMain(c, s, n);
    id, t := OtherSub(c, u, m, 2 * n + 1, n);
    forall z | Goes(c, t, z)
      ensures id in z.subs && z.subs[id].add == RELEASING && z.loop.Emit?
    {
      Hangs(c, t, z, id, n);
    }
  }

  lemma Hangs(c: Config, t: State, z: State, id: Id, q: nat)
    requires 1 <= c.poolSize && Reachable(c, t) && InJam(c, t, q) && Goes(c, t, z)
    requires id in t.subs && t.subs[id].add == RELEASING
    ensures id in z.subs && z.subs[id].add == RELEASING && z.loop.Emit?
  {
    ReachableInv(c, t);
    var r :| IsRun(c, r) && r[0] == t && r[|r| - 1] == z;
    JamForEver(c, r, t, z, q);
    assert StillReleasing(t, z, id);
  }
}
