module Latch {
  /** A completion event: one completer, any number of waiters, and the condition variable between them.

    A waiter locks the event's mutex, tests `done`, and while it is false registers with the condition
    variable, unlocks, waits for a token of the semaphore and locks again. The completer, under the mutex,
    sets `done` and posts one token for each registered waiter. */

  import opened Sequences

  datatype WaiterPc =
    | WIdle         // has not come yet
    | WTest         // holds the mutex, about to test done
    | WRegister     // holds it, has seen done false, wants the counter's mutex
    | WRegistered   // holds it, is counted
    | WWait         // at the semaphore
    | WWoken        // has a token, wants the mutex
    | WPassing      // holds it, has seen done true
    | WPassed

  datatype CompleterPc =
    | CIdle
    | CLocked       // holds the mutex
    | CSet          // has set done
    | CNotify       // holds the counter's mutex too, at the head of the loop
    | CPosted       // has posted a token, not yet taken the waiter off the count
    | CNotified     // has left notify_all
    | CDone

  datatype Holder = Free | ByWaiter(w: nat) | ByCompleter

  datatype Event = Event(
    m: Holder, counterHeld: bool, sem: nat, waiting: nat, done: bool,
    waiters: seq<WaiterPc>, completer: CompleterPc)

  datatype Action = Wait(w: nat) | Complete

  function Init(n: nat): Event
  {
    Event(Free, false, 0, 0, false, seq(n, w => WIdle), CIdle)
  }

  function Step(e: Event, a: Action): Option<Event>
  {
    match a
    case Wait(w) => if w < |e.waiters| then WaitStep(e, w) else None
    case Complete => CompleteStep(e)
  }

  function WaitStep(e: Event, w: nat): Option<Event>
    requires w < |e.waiters|
  {
    match e.waiters[w]
    case WIdle => if e.m != Free then None else Some(e.(m := ByWaiter(w), waiters := e.waiters[w := WTest]))
    case WTest => Some(e.(waiters := e.waiters[w := if e.done then WPassing else WRegister]))
    case WRegister =>
      if e.counterHeld then None
      else Some(e.(waiting := e.waiting + 1, waiters := e.waiters[w := WRegistered]))
    case WRegistered => Some(e.(m := Free, waiters := e.waiters[w := WWait]))
    case WWait => if e.sem == 0 then None else Some(e.(sem := e.sem - 1, waiters := e.waiters[w := WWoken]))
    case WWoken => if e.m != Free then None else Some(e.(m := ByWaiter(w), waiters := e.waiters[w := WTest]))
    case WPassing => Some(e.(m := Free, waiters := e.waiters[w := WPassed]))
    case WPassed => None
  }

  function CompleteStep(e: Event): Option<Event>
  {
    match e.completer
    case CIdle => if e.m != Free then None else Some(e.(m := ByCompleter, completer := CLocked))
    case CLocked => Some(e.(done := true, completer := CSet))
    case CSet => if e.counterHeld then None else Some(e.(counterHeld := true, completer := CNotify))
    case CNotify =>
      if 0 < e.waiting then Some(e.(sem := e.sem + 1, completer := CPosted))
      else Some(e.(counterHeld := false, completer := CNotified))
    case CPosted => Some(e.(waiting := if 0 < e.waiting then e.waiting - 1 else 0, completer := CNotify))
    case CNotified => Some(e.(m := Free, completer := CDone))
    case CDone => None
  }

  // ---- the invariant ----

  predicate HoldsMutex(pc: WaiterPc)
  {
    pc.WTest? || pc.WRegister? || pc.WRegistered? || pc.WPassing?
  }

  predicate CompleterHolds(pc: CompleterPc)
  {
    !pc.CIdle? && !pc.CDone?
  }

  /** Registered and without a token. */
  function Pending(pc: WaiterPc): nat
  {
    if pc.WRegistered? || pc.WWait? then 1 else 0
  }

  function Pendings(pcs: seq<WaiterPc>): nat
  {
    if pcs == [] then 0 else Pendings(pcs[..|pcs| - 1]) + Pending(pcs[|pcs| - 1])
  }

  lemma {:induction false} PendingUpdate(pcs: seq<WaiterPc>, w: nat, pc: WaiterPc)
    requires w < |pcs|
    ensures Pendings(pcs[w := pc]) + Pending(pcs[w]) == Pendings(pcs) + Pending(pc)
    ensures Pending(pcs[w]) <= Pendings(pcs)
  {
    var n := |pcs| - 1;
    if w < n {
      assert pcs[w := pc][..n] == pcs[..n][w := pc];
      PendingUpdate(pcs[..n], w, pc);
    } else {
      assert pcs[w := pc][..n] == pcs[..n];
    }
  }

  lemma {:induction false} NonePending(pcs: seq<WaiterPc>)
    requires forall w :: 0 <= w < |pcs| ==> Pending(pcs[w]) == 0
    ensures Pendings(pcs) == 0
  {
    if pcs != [] {
      NonePending(pcs[..|pcs| - 1]);
    }
  }

  predicate WaiterOk(e: Event, w: nat)
    requires w < |e.waiters|
  {
    var pc := e.waiters[w];
    && (HoldsMutex(pc) <==> e.m == ByWaiter(w))
    && (pc.WRegister? || pc.WRegistered? ==> !e.done)
    && (pc.WWoken? || pc.WPassing? || pc.WPassed? ==> e.done)
  }

  ghost predicate Inv(e: Event)
  {
    && (forall w {:trigger WaiterOk(e, w)} :: 0 <= w < |e.waiters| ==> WaiterOk(e, w))
    && (e.m == ByCompleter <==> CompleterHolds(e.completer)) && (e.m.ByWaiter? ==> e.m.w < |e.waiters|)
    && (e.counterHeld <==> e.completer.CNotify? || e.completer.CPosted?)
    && (e.done <==> !e.completer.CIdle? && !e.completer.CLocked?)
    // tokens and registrations
    && e.sem + e.waiting == Pendings(e.waiters) + (if e.completer.CPosted? then 1 else 0)
    && (e.completer.CPosted? ==> 0 < e.waiting)
    && (!e.done || e.completer.CSet? ==> e.sem == 0)
    && (e.completer.CNotified? || e.completer.CDone? ==> e.waiting == 0)
  }

  lemma InitInv(n: nat)
    ensures Inv(Init(n)) && |Init(n).waiters| == n
  {
    NonePending(Init(n).waiters);
  }

  lemma WaitKeeps(e: Event, w: nat, f: Event)
    requires Inv(e) && w < |e.waiters| && WaitStep(e, w) == Some(f)
    ensures Inv(f)
  {
    assert WaiterOk(e, w);
    PendingUpdate(e.waiters, w, f.waiters[w]);
    forall v | 0 <= v < |f.waiters|
      ensures WaiterOk(f, v)
    {
      assert WaiterOk(e, v);
    }
  }

  lemma CompleteKeeps(e: Event, f: Event)
    requires Inv(e) && CompleteStep(e) == Some(f)
    ensures Inv(f)
  {
    forall v | 0 <= v < |f.waiters|
      ensures WaiterOk(f, v)
    {
      assert WaiterOk(e, v);
    }
  }

  lemma StepKeeps(e: Event, a: Action, f: Event)
    requires Inv(e) && Step(e, a) == Some(f)
    ensures Inv(f)
  {
    match a
    case Wait(w) => WaitKeeps(e, w, f);
    case Complete => CompleteKeeps(e, f);
  }

  // ---- runs ----

  ghost predicate Next(e: Event, f: Event)
  {
    exists a :: Step(e, a) == Some(f)
  }

  ghost predicate IsRun(q: seq<Event>)
  {
    0 < |q| && forall k :: 0 <= k < |q| - 1 ==> Next(q[k], q[k + 1])
  }

  ghost predicate Reachable(e: Event)
  {
    exists q, n: nat :: IsRun(q) && q[0] == Init(n) && q[|q| - 1] == e
  }

  lemma RunPrefix(q: seq<Event>)
    requires IsRun(q) && 2 <= |q|
    ensures IsRun(q[..|q| - 1]) && Next(q[|q| - 2], q[|q| - 1])
  {
    var p := q[..|q| - 1];
    forall k | 0 <= k < |p| - 1
      ensures Next(p[k], p[k + 1])
    {
      assert Next(q[k], q[k + 1]);
    }
    assert Next(q[|q| - 2], q[|q| - 2 + 1]);
  }

  lemma {:induction false} RunKeeps(q: seq<Event>)
    requires IsRun(q) && Inv(q[0])
    ensures Inv(q[|q| - 1])
  {
    if 2 <= |q| {
      RunPrefix(q);
      RunKeeps(q[..|q| - 1]);
      var a :| Step(q[|q| - 2], a) == Some(q[|q| - 1]);
      StepKeeps(q[|q| - 2], a, q[|q| - 1]);
    }
  }

  lemma ReachableInv(e: Event)
    requires Reachable(e)
    ensures Inv(e)
  {
    var q, n: nat :| IsRun(q) && q[0] == Init(n) && q[|q| - 1] == e;
    InitInv(n);
    RunKeeps(q);
  }

  // ---- what waiting guarantees ----

  /** Tokens and the count together are the registered waiters that have no token yet. */
  lemma TokensMatchWaiters(e: Event)
    requires Reachable(e) && !e.completer.CPosted?
    ensures e.sem + e.waiting == Pendings(e.waiters)
  {
    ReachableInv(e);
  }

  /** Nobody passes before the event is done, and nobody even wakes. */
  lemma PassedOnlyWhenDone(e: Event, w: nat)
    requires Reachable(e) && w < |e.waiters|
    ensures e.waiters[w].WPassed? || e.waiters[w].WPassing? || e.waiters[w].WWoken? ==> e.done
  {
    ReachableInv(e);
    assert WaiterOk(e, w);
  }

  /** Once notify_all has ended nobody registers again and there is exactly one token for each waiter at the
      semaphore. */
  lemma OneTokenEach(e: Event)
    requires Reachable(e) && (e.completer.CNotified? || e.completer.CDone?)
    ensures e.waiting == 0 && e.sem == Pendings(e.waiters)
    ensures forall w :: 0 <= w < |e.waiters| ==> !e.waiters[w].WRegister? && !e.waiters[w].WRegistered?
  {
    ReachableInv(e);
    forall w | 0 <= w < |e.waiters|
      ensures !e.waiters[w].WRegister? && !e.waiters[w].WRegistered?
    {
      assert WaiterOk(e, w);
    }
  }

  ghost predicate Quiescent(e: Event)
  {
    forall a :: Step(e, a) == None
  }

  /** Whoever holds the mutex can move, so nobody does when nothing moves; and the completer is through. */
  lemma Unlocked(e: Event)
    requires Inv(e) && Quiescent(e)
    ensures e.m == Free && e.completer == CDone
  {
    assert Step(e, Complete) == None;
    assert e.m.ByWaiter? ==> WaiterOk(e, e.m.w) && Step(e, Wait(e.m.w)) == None;
    assert !e.completer.CSet? && !e.completer.CNotify?;
  }

  /** No wakeup is lost or stolen: when nothing can move any more, the event is done and every waiter has
      passed. */
  lemma AllPass(e: Event)
    requires Reachable(e) && Quiescent(e)
    ensures e.done && forall w :: 0 <= w < |e.waiters| ==> e.waiters[w].WPassed?
  {
    ReachableInv(e);
    Unlocked(e);
    forall w | 0 <= w < |e.waiters|
      ensures Pending(e.waiters[w]) <= e.sem && e.waiters[w].WPassed?
    {
      assert WaiterOk(e, w) && Step(e, Wait(w)) == None;
      PendingUpdate(e.waiters, w, e.waiters[w]);
    }
  }

  // ---- and nothing moves for ever ----

  /** What is left for a waiter, which registers at most once: tokens exist only after done is set. */
  function WaiterLeft(pc: WaiterPc, done: bool): nat
  {
    match pc
    case WIdle => 10
    case WTest => if done then 2 else 9
    case WRegister => 8
    case WRegistered => 5
    case WWait => 4
    case WWoken => 3
    case WPassing => 1
    case WPassed => 0
  }

  function WaitersLeft(pcs: seq<WaiterPc>, done: bool): nat
  {
    if pcs == [] then 0 else WaitersLeft(pcs[..|pcs| - 1], done) + WaiterLeft(pcs[|pcs| - 1], done)
  }

  function CompleterLeft(pc: CompleterPc): nat
  {
    match pc
    case CIdle => 6
    case CLocked => 5
    case CSet => 4
    case CNotify => 3
    case CPosted => 2
    case CNotified => 1
    case CDone => 0
  }

  function Left(e: Event): nat
  {
    WaitersLeft(e.waiters, e.done) + CompleterLeft(e.completer) + 2 * e.waiting
  }

  lemma {:induction false} LeftUpdate(pcs: seq<WaiterPc>, w: nat, pc: WaiterPc, done: bool)
    requires w < |pcs|
    ensures WaitersLeft(pcs[w := pc], done) + WaiterLeft(pcs[w], done) == WaitersLeft(pcs, done) + WaiterLeft(pc, done)
  {
    var n := |pcs| - 1;
    if w < n {
      assert pcs[w := pc][..n] == pcs[..n][w := pc];
      LeftUpdate(pcs[..n], w, pc, done);
    } else {
      assert pcs[w := pc][..n] == pcs[..n];
    }
  }

  lemma {:induction false} DoneLowers(pcs: seq<WaiterPc>)
    ensures WaitersLeft(pcs, true) <= WaitersLeft(pcs, false) <= 10 * |pcs|
  {
    if pcs != [] {
      DoneLowers(pcs[..|pcs| - 1]);
    }
  }

  lemma WaitFalls(e: Event, w: nat, f: Event)
    requires w < |e.waiters| && WaiterOk(e, w) && WaitStep(e, w) == Some(f)
    ensures Left(f) < Left(e)
  {
    LeftUpdate(e.waiters, w, f.waiters[w], e.done);
  }

  lemma CompleteFalls(e: Event, f: Event)
    requires CompleteStep(e) == Some(f) && (e.completer.CPosted? ==> 0 < e.waiting)
    ensures Left(f) < Left(e)
  {
    DoneLowers(e.waiters);
  }

  /** Every step, of whoever, lowers what is left. */
  lemma StepFalls(e: Event, a: Action, f: Event)
    requires Inv(e) && Step(e, a) == Some(f)
    ensures Left(f) < Left(e)
  {
    match a
    case Wait(w) =>
      assert WaiterOk(e, w);
      WaitFalls(e, w, f);
    case Complete => CompleteFalls(e, f);
  }

  /** No run has more than ten steps for each waiter and six for the completer; with AllPass: every run
      that is not cut short ends with all waiters past. */
  lemma {:induction false} RunsAreShort(q: seq<Event>, n: nat)
    requires IsRun(q) && q[0] == Init(n)
    ensures |q| - 1 + Left(q[|q| - 1]) <= 10 * n + 6
  {
    InitInv(n);
    if |q| == 1 {
      DoneLowers(q[0].waiters);
    } else {
      RunPrefix(q);
      RunsAreShort(q[..|q| - 1], n);
      RunKeeps(q[..|q| - 1]);
      var a :| Step(q[|q| - 2], a) == Some(q[|q| - 1]);
      StepFalls(q[|q| - 2], a, q[|q| - 1]);
    }
  }

  // ---- the condition variable as an object ----

  /** The two regions of wait, and the notifications, each under the internal mutex. */
  class ConditionVariable {
    var semaphore: nat
    var waitingCount: nat
    ghost var pending: nat   // registered waiters that have not consumed a token

    ghost predicate Valid()
      reads this
    {
      semaphore + waitingCount == pending
    }

    constructor ()
      ensures Valid() && semaphore == 0 && waitingCount == 0
    {
      semaphore, waitingCount, pending := 0, 0, 0;
    }

    /** The first part of wait. */
    method Register()
      requires Valid()
      modifies this
      ensures Valid() && pending == old(pending) + 1 && semaphore == old(semaphore)
    {
      waitingCount := waitingCount + 1;
      pending := pending + 1;
    }

    /** sem_wait: passes only with a token. */
    method TryPass() returns (passed: bool)
      requires Valid()
      modifies this
      ensures Valid() && waitingCount == old(waitingCount)
      ensures passed <==> 0 < old(semaphore)
      ensures pending == old(pending) - (if passed then 1 else 0)
    {
      passed := 0 < semaphore;
      if passed {
        semaphore := semaphore - 1;
        pending := pending - 1;
      }
    }

    /** One token for one registered waiter; without a waiter nothing is remembered. */
    method NotifyOne()
      requires Valid()
      modifies this
      ensures Valid() && pending == old(pending)
      ensures semaphore == old(semaphore) + (if 0 < old(waitingCount) then 1 else 0)
    {
      if 0 < waitingCount {
        semaphore := semaphore + 1;
        waitingCount := waitingCount - 1;
      }
    }

    /** A token for every registered waiter. */
    method NotifyAll()
      requires Valid()
      modifies this
      ensures Valid() && pending == old(pending) && waitingCount == 0 && semaphore == pending
    {
      while 0 < waitingCount
        invariant Valid() && pending == old(pending)
      {
        semaphore := semaphore + 1;
        waitingCount := waitingCount - 1;
      }
    }
  }
}
