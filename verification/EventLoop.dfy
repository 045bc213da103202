module EventLoop {
  /** One pass of the event loop over the ready queues: it emits, by falling priority and first in first out
    within a priority, everything that has been pushed. */

  import opened Protocol

  /** A subtask pushed onto the queue of its priority. */
  datatype Entry = Entry(id: Id, prio: nat)

  function Select(q: seq<Entry>, p: nat): seq<Entry>
  {
    if q == [] then []
    else Select(q[..|q| - 1], p) + (if q[|q| - 1].prio == p then [q[|q| - 1]] else [])
  }

  function Ids(q: seq<Entry>): seq<Id>
  {
    seq(|q|, i requires 0 <= i < |q| => q[i].id)
  }

  /** Descending in priority, and within each priority as pushed: nothing is lost, added or overtaken. */
  ghost predicate IsStableSort(q: seq<Entry>, r: seq<Entry>)
  {
    && Descending(r)
    && (forall p: nat :: Select(r, p) == Select(q, p))
  }

  // ---- facts about selection ----

  lemma {:induction false} SelectConcat(a: seq<Entry>, b: seq<Entry>, p: nat)
    ensures Select(a + b, p) == Select(a, p) + Select(b, p)
  {
    if b == [] {
      assert a + b == a;
    } else {
      var c := b[..|b| - 1];
      assert (a + b)[..|a + b| - 1] == a + c && (a + b)[|a + b| - 1] == b[|b| - 1];
      SelectConcat(a, c, p);
    }
  }

  lemma {:induction false} SelectOf(q: seq<Entry>, p: nat, k: nat)
    requires forall e :: e in q ==> e.prio == p
    ensures Select(q, k) == if k == p then q else []
  {
    if q != [] {
      SelectOf(q[..|q| - 1], p, k);
      assert q == q[..|q| - 1] + [q[|q| - 1]];
    }
  }

  lemma {:induction false} SelectMember(q: seq<Entry>, p: nat)
    ensures forall e :: e in Select(q, p) <==> e in q && e.prio == p
  {
    if q != [] {
      SelectMember(q[..|q| - 1], p);
      assert forall e :: e in q <==> e in q[..|q| - 1] || e == q[|q| - 1];
    }
  }

  // ---- the sort ----

  /** The selections of priorities below n, highest first. */
  function SortDown(q: seq<Entry>, n: nat): seq<Entry>
  {
    if n == 0 then [] else Select(q, n - 1) + SortDown(q, n - 1)
  }

  lemma InEither(a: seq<Entry>, b: seq<Entry>, e: Entry)
    ensures e in a + b <==> e in a || e in b
  {
  }

  lemma SelectHas(q: seq<Entry>, p: nat, e: Entry)
    ensures e in Select(q, p) <==> e in q && e.prio == p
  {
    SelectMember(q, p);
  }

  lemma {:induction false} SortMember(q: seq<Entry>, n: nat, e: Entry)
    ensures e in SortDown(q, n) <==> e in q && e.prio < n
  {
    if 0 < n {
      SortMember(q, n - 1, e);
      SelectHas(q, n - 1, e);
      InEither(Select(q, n - 1), SortDown(q, n - 1), e);
    }
  }

  lemma SortMembers(q: seq<Entry>, n: nat)
    ensures forall e :: e in SortDown(q, n) <==> e in q && e.prio < n
  {
    forall e
      ensures e in SortDown(q, n) <==> e in q && e.prio < n
    {
      SortMember(q, n, e);
    }
  }

  ghost predicate Descending(r: seq<Entry>)
  {
    forall i, j :: 0 <= i < j < |r| ==> r[j].prio <= r[i].prio
  }

  lemma HigherFirst(a: seq<Entry>, b: seq<Entry>, p: nat)
    requires Descending(b) && (forall e :: e in a ==> e.prio == p) && forall e :: e in b ==> e.prio <= p
    ensures Descending(a + b)
  {
    var r := a + b;
    forall i, j | 0 <= i < j < |r|
      ensures r[j].prio <= r[i].prio
    {
      if i < |a| {
        assert a[i] in a && (r[j] in a || r[j] in b);
      } else {
        assert b[j - |a|].prio <= b[i - |a|].prio;
      }
    }
  }

  lemma {:induction false} SortDescends(q: seq<Entry>, n: nat)
    ensures Descending(SortDown(q, n))
  {
    if 0 < n {
      SortDescends(q, n - 1);
      SortMembers(q, n - 1);
      SelectMember(q, n - 1);
      HigherFirst(Select(q, n - 1), SortDown(q, n - 1), n - 1);
    }
  }

  lemma SelectTwice(q: seq<Entry>, p: nat, k: nat)
    ensures Select(Select(q, p), k) == if k == p then Select(q, p) else []
  {
    SelectMember(q, p);
    SelectOf(Select(q, p), p, k);
  }

  lemma SortSelectsStep(q: seq<Entry>, n: nat, k: nat)
    requires Select(SortDown(q, n), k) == if k < n then Select(q, k) else []
    ensures Select(SortDown(q, n + 1), k) == if k < n + 1 then Select(q, k) else []
  {
    SelectTwice(q, n, k);
    SelectConcat(Select(q, n), SortDown(q, n), k);
  }

  lemma {:induction false} SortSelects(q: seq<Entry>, n: nat, k: nat)
    ensures Select(SortDown(q, n), k) == if k < n then Select(q, k) else []
  {
    if 0 < n {
      SortSelects(q, n - 1, k);
      SortSelectsStep(q, n - 1, k);
    }
  }

  lemma SortIsStable(q: seq<Entry>, n: nat)
    requires forall e :: e in q ==> e.prio < n
    ensures IsStableSort(q, SortDown(q, n))
  {
    SortDescends(q, n);
    forall p: nat
      ensures Select(SortDown(q, n), p) == Select(q, p)
    {
      SortSelects(q, n, p);
      if n <= p {
        SelectMember(q, p);
        NoMembers(Select(q, p));
      }
    }
  }

  // ---- there is only one stable sort ----

  lemma SelectSnoc(q: seq<Entry>, e: Entry, p: nat)
    ensures Select(q + [e], p) == Select(q, p) + (if e.prio == p then [e] else [])
  {
    assert (q + [e])[..|q|] == q;
  }

  lemma SortEmpty(q: seq<Entry>, n: nat)
    requires forall x :: x in q ==> n <= x.prio
    ensures SortDown(q, n) == []
  {
    SortMembers(q, n);
    NoMembers(SortDown(q, n));
  }

  lemma SortAppendTop(q: seq<Entry>, e: Entry)
    requires forall x :: x in q ==> e.prio <= x.prio
    ensures SortDown(q + [e], e.prio + 1) == SortDown(q, e.prio + 1) + [e]
  {
    forall x | x in q + [e]
      ensures e.prio <= x.prio
    {
    }
    SortEmpty(q, e.prio);
    SortEmpty(q + [e], e.prio);
    SelectSnoc(q, e, e.prio);
  }

  lemma AppendLow(top: seq<Entry>, low: seq<Entry>, e: Entry)
    ensures top + (low + [e]) == top + low + [e]
  {
  }

  lemma SortStep(q: seq<Entry>, n: nat)
    ensures SortDown(q, n + 1) == Select(q, n) + SortDown(q, n)
  {
  }

  lemma SortAppendStep(q: seq<Entry>, e: Entry, n: nat)
    requires e.prio < n && SortDown(q + [e], n) == SortDown(q, n) + [e]
    ensures SortDown(q + [e], n + 1) == SortDown(q, n + 1) + [e]
  {
    SelectSnoc(q, e, n);
    AppendLow(Select(q, n), SortDown(q, n), e);
  }

  /** Appending an entry of priority below all others appends it to the sort. */
  lemma {:induction false} SortAppend(q: seq<Entry>, e: Entry, n: nat)
    requires e.prio < n && forall x :: x in q ==> e.prio <= x.prio
    ensures SortDown(q + [e], n) == SortDown(q, n) + [e]
  {
    if n - 1 == e.prio {
      SortAppendTop(q, e);
    } else {
      SortAppend(q, e, n - 1);
      SortAppendStep(q, e, n - 1);
    }
  }

  lemma NoMembers(q: seq<Entry>)
    ensures q == [] || q[0] in q
  {
  }

  lemma {:induction false} SortedIsItsSort(r: seq<Entry>, n: nat)
    requires Descending(r) && forall e :: e in r ==> e.prio < n
    ensures SortDown(r, n) == r
  {
    if r == [] {
      NoMembers(SortDown(r, n));
      SortMembers(r, n);
    } else {
      var q, e := r[..|r| - 1], r[|r| - 1];
      assert r == q + [e];
      forall x | x in q
        ensures e.prio <= x.prio
      {
        var i :| 0 <= i < |q| && q[i] == x;
        assert r[i] == x;
      }
      SortedIsItsSort(q, n);
      SortAppend(q, e, n);
    }
  }

  lemma {:induction false} SameSelections(q: seq<Entry>, r: seq<Entry>, n: nat)
    requires forall p: nat :: Select(r, p) == Select(q, p)
    ensures SortDown(r, n) == SortDown(q, n)
  {
    if 0 < n {
      SameSelections(q, r, n - 1);
    }
  }

  lemma SortKeepsMembers(q: seq<Entry>, r: seq<Entry>, e: Entry)
    requires IsStableSort(q, r)
    ensures e in r <==> e in q
  {
    SelectMember(q, e.prio);
    SelectMember(r, e.prio);
    assert Select(r, e.prio) == Select(q, e.prio);
  }

  /** A stable sort of q is the one that the queues, emptied from the highest down, produce. */
  lemma StableSortUnique(q: seq<Entry>, r: seq<Entry>, n: nat)
    requires forall e :: e in q ==> e.prio < n
    ensures IsStableSort(q, r) <==> r == SortDown(q, n)
  {
    SortIsStable(q, n);
    if IsStableSort(q, r) {
      forall e | e in r
        ensures e.prio < n
      {
        SortKeepsMembers(q, r, e);
      }
      SortedIsItsSort(r, n);
      SameSelections(q, r, n);
    }
  }

  lemma IdsOfSort(q: seq<Entry>, n: nat)
    ensures Ids(SortDown(q, n + 1)) == Ids(Select(q, n)) + Ids(SortDown(q, n))
  {
    SortStep(q, n);
  }

  /** The queues end to end, as the protocol reads them off, are the sort. */
  lemma {:induction false} FlatIsSort(q: seq<Entry>, lanes: seq<seq<Id>>)
    requires forall p :: 0 <= p < |lanes| ==> lanes[p] == Ids(Select(q, p))
    ensures Flat(lanes) == Ids(SortDown(q, |lanes|))
  {
    if lanes != [] {
      var n := |lanes| - 1;
      FlatIsSort(q, lanes[..n]);
      IdsOfSort(q, n);
    }
  }

  lemma FlatStep(lanes: seq<seq<Id>>, n: nat)
    requires n < |lanes|
    ensures Flat(lanes[..n + 1]) == lanes[n] + Flat(lanes[..n])
  {
    assert lanes[..n + 1][..n] == lanes[..n];
  }

  // ---- the ready queues ----

  /** A list of ids with the priority at which they are pushed. */
  function Entries(list: seq<Id>, prio: nat): seq<Entry>
  {
    seq(|list|, i requires 0 <= i < |list| => Entry(list[i], prio))
  }

  lemma PushedSelect(q: seq<Entry>, list: seq<Id>, prio: nat, p: nat)
    ensures Ids(Select(q + Entries(list, prio), p)) == Ids(Select(q, p)) + (if p == prio then list else [])
  {
    SelectConcat(q, Entries(list, prio), p);
    SelectOf(Entries(list, prio), prio, p);
  }

  /** The loop of a release: the whole list onto the queue of one priority, in its order. */
  method PushList(queues: array<seq<Id>>, list: seq<Id>, prio: nat)
    requires prio < queues.Length
    modifies queues
    ensures queues[..] == old(queues[..])[prio := old(queues[prio]) + list]
  {
    for k := 0 to |list|
      invariant queues[prio] == old(queues[prio]) + list[..k]
      invariant forall q :: 0 <= q < queues.Length && q != prio ==> queues[q] == old(queues[q])
    {
      queues[prio] := queues[prio] + [list[k]];
    }
    assert list[..|list|] == list;
  }

  /** The front of a queue. */
  method PopFront(queues: array<seq<Id>>, prio: nat) returns (id: Id)
    requires prio < queues.Length && queues[prio] != []
    modifies queues
    ensures id == old(queues[prio])[0] && queues[..] == old(queues[..])[prio := old(queues[prio])[1..]]
  {
    id := queues[prio][0];
    queues[prio] := queues[prio][1..];
  }

  class ReadyQueues {
    var queues: array<seq<Id>>
    ghost var pushed: seq<Entry>   // since the last pass

    ghost predicate Valid()
      reads this, queues
    {
      && queues.Length == PRIORITIES
      && (forall p :: 0 <= p < PRIORITIES ==> queues[p] == Ids(Select(pushed, p)))
      && forall e :: e in pushed ==> e.prio < PRIORITIES
    }

    constructor ()
      ensures Valid() && pushed == [] && fresh(queues)
    {
      queues := new seq<Id>[PRIORITIES](_ => []);
      pushed := [];
    }

    /** A whole list onto the queue of one priority, in its order. */
    method PushAll(list: seq<Id>, prio: nat)
      requires Valid() && prio < PRIORITIES
      modifies this, queues
      ensures Valid() && queues == old(queues)
      ensures pushed == old(pushed) + Entries(list, prio)
    {
      PushList(queues, list, prio);
      forall p | 0 <= p < PRIORITIES
        ensures queues[p] == Ids(Select(pushed + Entries(list, prio), p))
      {
        PushedSelect(pushed, list, prio, p);
        assert queues[p] == queues[..][p];
      }
      pushed := pushed + Entries(list, prio);
    }

    /** The inner loop: one queue from its front until it is empty. */
    method Drain(pri: nat) returns (out: seq<Id>)
      requires queues.Length == PRIORITIES && pri < PRIORITIES
      modifies queues
      ensures out == old(queues[pri]) && queues[pri] == []
      ensures forall p :: 0 <= p < PRIORITIES && p != pri ==> queues[p] == old(queues[p])
    {
      out := [];
      while queues[pri] != []
        invariant out + queues[pri] == old(queues[pri])
        invariant forall p :: 0 <= p < PRIORITIES && p != pri ==> queues[p] == old(queues[p])
        decreases |queues[pri]|
      {
        ghost var before := queues[..];
        var id := PopFront(queues, pri);
        assert forall p :: 0 <= p < PRIORITIES ==> queues[p] == queues[..][p];
        out := out + [id];
      }
    }

    /** The pass: priorities from the highest down. */
    method EmitAll() returns (out: seq<Id>)
      requires queues.Length == PRIORITIES
      modifies queues
      ensures out == Flat(old(queues[..])) && forall p :: 0 <= p < PRIORITIES ==> queues[p] == []
    {
      ghost var lanes := queues[..];
      out := [];
      var pri := PRIORITIES;
      while pri != 0
        invariant 0 <= pri <= PRIORITIES
        invariant forall p :: 0 <= p < pri ==> queues[p] == lanes[p]
        invariant forall p :: pri <= p < PRIORITIES ==> queues[p] == []
        invariant out + Flat(lanes[..pri]) == Flat(lanes[..PRIORITIES])
      {
        pri := pri - 1;
        FlatStep(lanes, pri);
        var some := Drain(pri);
        out := out + some;
      }
      assert lanes[..PRIORITIES] == lanes;
    }

    /** A pass emits the stable sort of what was pushed since the last one, and leaves nothing. */
    method EventLooper() returns (out: seq<Id>)
      requires Valid()
      modifies this, queues
      ensures Valid() && queues == old(queues) && pushed == []
      ensures forall p :: 0 <= p < PRIORITIES ==> queues[p] == []
      ensures out == Flat(old(queues[..]))
      ensures exists r :: IsStableSort(old(pushed), r) && out == Ids(r)
    {
      FlatIsSort(pushed, queues[..]);
      SortIsStable(pushed, PRIORITIES);
      out := EmitAll();
      pushed := [];
    }
  }
}
