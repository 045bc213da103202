module Evaluate {
  /** Schedule independence: what a task function produces is the value of its dependency graph,
    whatever the interleaving, the number of workers and the reaping by getters. */

  import opened Sequences
  import opened Protocol
  import opened Invariant
  import opened CallPreserves
  import opened Safety

  /** Each name's dependencies. */
  type Program = map<Name, seq<Name>>

  /** The sequential evaluation of a name: its dependencies first, each by the same rule, then its
      function. Names in path are being evaluated further up; meeting one again gives nothing. */
  ghost function Eval(body: Body, p: Program, n: Name, path: set<Name>): Option<Outcome>
    decreases p.Keys - path, 0
  {
    if n !in p || n in path then None
    else
      Shrinks(p.Keys, path, n);
      Some(body(n, EvalAll(body, p, p[n], path + {n})))
  }

  ghost function EvalAll(body: Body, p: Program, deps: seq<Name>, path: set<Name>): (r: seq<Option<Outcome>>)
    ensures |r| == |deps|
    decreases p.Keys - path, |deps| + 1
  {
    if deps == [] then []
    else EvalAll(body, p, deps[..|deps| - 1], path) + [Eval(body, p, deps[|deps| - 1], path)]
  }

  lemma Shrinks(keys: set<Name>, path: set<Name>, n: Name)
    requires n in keys && n !in path
    ensures keys - (path + {n}) < keys - path
  {
    assert n in keys - path;
  }

  lemma {:induction false} EvalAllAt(body: Body, p: Program, deps: seq<Name>, path: set<Name>, j: nat)
    requires j < |deps|
    ensures EvalAll(body, p, deps, path)[j] == Eval(body, p, deps[j], path)
  {
    if j < |deps| - 1 {
      EvalAllAt(body, p, deps[..|deps| - 1], path, j);
    }
  }

  // ---- the machine computes it ----

  ghost predicate Ended(s: State, n: Name)
  {
    n in s.names && s.names[n] in s.subs && s.subs[s.names[n]].out.Some?
  }

  /** n is registered with the dependencies that p gives it, all in k, all registered by the time its
      subtask was dispatched. */
  ghost predicate Member(s: State, p: Program, k: set<Name>, n: Name)
  {
    && n in p && n in s.names && s.names[n] in s.subs && s.subs[s.names[n]].deps == p[n]
    && forall j {:trigger p[n][j]} :: 0 <= j < |p[n]| ==>
      p[n][j] in k && p[n][j] in s.names && (Ended(s, n) ==> s.names[p[n][j]] in s.subs[s.names[n]].known)
  }

  /** A set of names closed under dependencies, registered as the program says. */
  ghost predicate Closed(s: State, p: Program, k: set<Name>)
  {
    forall n {:trigger Member(s, p, k, n)} :: n in k ==> Member(s, p, k, n)
  }

  /** The names on the path ended after n did. */
  ghost predicate Later(s: State, path: set<Name>, n: Name)
    requires Ended(s, n)
  {
    forall x :: x in path ==> Ended(s, x) && s.subs[s.names[n]].endAt < s.subs[s.names[x]].endAt
  }

  /** A dependency of an ended subtask has ended earlier, and its outcome is the argument. */
  lemma Argument(c: Config, s: State, p: Program, k: set<Name>, n: Name, j: nat)
    requires Inv(c, s) && Closed(s, p, k) && n in k && Member(s, p, k, n) && Ended(s, n) && j < |p[n]|
    ensures var u := s.subs[s.names[n]];
      && p[n][j] in k && Ended(s, p[n][j]) && |u.args| == |p[n]|
      && s.subs[s.names[p[n][j]]].endAt < u.endAt && u.args[j] == s.subs[s.names[p[n][j]]].out
  {
    var id, e := s.names[n], p[n][j];
    assert Member(s, p, k, e);
    var d := s.names[e];
    assert NameOk(s, e) && NameOk(s, n);
    assert Known(s, id) && Local(s.subs[id], s.clock) && Local(s.subs[d], s.clock);
  }

  lemma {:induction false} Computes(c: Config, s: State, p: Program, k: set<Name>, n: Name, path: set<Name>)
    requires Inv(c, s) && Closed(s, p, k) && n in k && Ended(s, n) && Later(s, path, n)
    ensures s.subs[s.names[n]].out == Eval(c.body, p, n, path)
    decreases s.subs[s.names[n]].endAt
  {
    assert Member(s, p, k, n) && NameOk(s, n);
    var u := s.subs[s.names[n]];
    var args := EvalAll(c.body, p, p[n], path + {n});
    forall j | 0 <= j < |p[n]|
      ensures j < |u.args| && u.args[j] == args[j]
    {
      var e := p[n][j];
      Argument(c, s, p, k, n, j);
      assert Later(s, path + {n}, e);
      Computes(c, s, p, k, e, path + {n});
      EvalAllAt(c.body, p, p[n], path + {n}, j);
    }
    assert Local(u, s.clock) && Computed(c, u) && Known(s, s.names[n]);
    assert u.args == args;
  }

  /** In every reachable state an ended function's outcome is the sequential evaluation of its name. */
  lemma OutcomeIsEvaluation(c: Config, s: State, p: Program, k: set<Name>, n: Name)
    requires 1 <= c.poolSize && Reachable(c, s) && Closed(s, p, k) && n in k && Ended(s, n)
    ensures s.subs[s.names[n]].out == Eval(c.body, p, n, {})
  {
    ReachableInv(c, s);
    Computes(c, s, p, k, n, {});
  }

  /** So does every result handed out. */
  lemma ResultIsEvaluation(c: Config, s: State, p: Program, k: set<Name>, n: Name)
    requires 1 <= c.poolSize && Reachable(c, s) && Closed(s, p, k) && n in k && n in s.getters && s.getters[n].Got?
    ensures s.getters[n].o == Eval(c.body, p, n, {}) && s.getters[n].o.Some?
  {
    ResultRouting(c, s, n);
    OutcomeIsEvaluation(c, s, p, k, n);
  }

  /** Two runs of the same program, with pools of any sizes, agree on everything both have computed. */
  lemma SchedulesAgree(c: Config, d: Config, s: State, t: State, p: Program, k: set<Name>, n: Name)
    requires 1 <= c.poolSize && 1 <= d.poolSize && d.body == c.body
    requires Reachable(c, s) && Reachable(d, t) && Closed(s, p, k) && Closed(t, p, k)
    requires n in k && Ended(s, n) && Ended(t, n)
    ensures s.subs[s.names[n]].out == t.subs[t.names[n]].out
  {
    OutcomeIsEvaluation(c, s, p, k, n);
    OutcomeIsEvaluation(d, t, p, k, n);
  }

  /** A main task whose dependencies all lie within it is such a closed set of its own accord. */
  lemma WithinOneMain(c: Config, s: State, m: Id, p: Program, k: set<Name>)
    requires 1 <= c.poolSize && Reachable(c, s) && m in s.mains
    requires forall n :: n in k <==> n in s.names && s.names[n] in s.mains[m].begun
    requires forall n :: n in k ==> n in p && s.names[n] in s.subs && p[n] == s.subs[s.names[n]].deps
    requires forall n, j :: n in k && 0 <= j < |p[n]| ==> p[n][j] in k
    ensures Closed(s, p, k)
  {
    ReachableInv(c, s);
    forall n | n in k
      ensures Member(s, p, k, n)
    {
      var id := s.names[n];
      assert MemberOk(s, m, id) && Known(s, id) && Local(s.subs[id], s.clock) && SubMain(s, id);
      assert NameOk(s, s.subs[id].mainName) && MainNamed(s, m);
      if Ended(s, n) {
        assert id in s.taken;
      }
    }
  }
}
