/**
  The admission gate and its drain, one atomic access for each step, sequentially consistent.

  Any number of threads call `try_admit` and drop permits while one thread runs `shutdown`:
  `close`, then `drained`. A `Notified` future is woken by every `notify_waiters` call made after
  the future was created, so it is modelled by the number of calls it has seen.
 */
module Drain {

  /** Where a thread is in `try_admit`, in holding its permit, or in `release_one`. */
  datatype Pc =
    | Idle
    | Checked       // the first load saw the gate open
    | Counted       // `active` incremented, gate not yet loaded again
    | Permit        // admitted
    | Releasing     // about to decrement: refused by the second load, or dropping its permit
    | Notifying     // decremented `active` from one, about to notify

  /** Where the shutdown thread is. */
  datatype Closer =
    | Serving                 // shutdown has not been called
    | Closed                  // `accepting` stored false, `active` not yet loaded
    | NotifyingAll            // `active` was zero at close
    | Starting                // about to create a `Notified` future
    | Armed(seen: nat)        // future created, `active` not yet loaded
    | Waiting(seen: nat)      // awaiting the future
    | Drained                 // `drained` returned
    | Expired                 // the grace deadline passed first, the token not yet cancelled
    | Cancelled               // the token was cancelled

  datatype Gate = Gate(accepting: bool, active: nat, notifications: nat, threads: seq<Pc>,
                       closer: Closer, cancelled: bool)

  datatype Event =
    | Admit(thread: nat)      // a thread calls `try_admit` and loads the gate
    | Advance(thread: nat)    // a thread takes its next atomic access
    | Drop(thread: nat)       // a permit is dropped
    | Close                   // shutdown stores false
    | AdvanceCloser           // the shutdown thread takes its next access
    | Deadline                // the grace period ends

  /** A fresh gate shared by `n` threads. */
  function Open(n: nat): Gate { Gate(true, 0, 0, seq(n, _ => Idle), Serving, false) }

  function StepThread(g: Gate, i: nat): Gate
    requires i < |g.threads|
  {
    match g.threads[i]
    case Idle => g
    case Checked => g.(active := g.active + 1, threads := g.threads[i := Counted])
    case Counted => g.(threads := g.threads[i := if g.accepting then Permit else Releasing])
    case Permit => g
    case Releasing =>
      if g.active == 0 then g
      else g.(active := g.active - 1, threads := g.threads[i := if g.active == 1 then Notifying else Idle])
    case Notifying => g.(notifications := g.notifications + 1, threads := g.threads[i := Idle])
  }

  function StepCloser(g: Gate): Gate {
    match g.closer
    case Serving => g
    case Closed => g.(closer := if g.active == 0 then NotifyingAll else Starting)
    case NotifyingAll => g.(notifications := g.notifications + 1, closer := Starting)
    case Starting => g.(closer := Armed(g.notifications))
    case Armed(seen) => g.(closer := if g.active == 0 then Drained else Waiting(seen))
    case Waiting(seen) => if seen < g.notifications then g.(closer := Starting) else g
    case Drained => g
    case Expired => g.(closer := Cancelled, cancelled := true)
    case Cancelled => g
  }

  /** Inside the `drained` future that the deadline may drop. */
  predicate AwaitsDrain(c: Closer) { c.Starting? || c.Armed? || c.Waiting? }

  function Step(g: Gate, e: Event): Gate {
    match e
    case Admit(i) => if g.accepting && i < |g.threads| && g.threads[i].Idle? then g.(threads := g.threads[i := Checked]) else g
    case Advance(i) => if i < |g.threads| then StepThread(g, i) else g
    case Drop(i) => if i < |g.threads| && g.threads[i].Permit? then g.(threads := g.threads[i := Releasing]) else g
    case Close => if g.closer.Serving? then g.(accepting := false, closer := Closed) else g
    case AdvanceCloser => StepCloser(g)
    case Deadline =>
      if AwaitsDrain(g.closer) then g.(closer := Expired) else g
  }

  function Execute(g: Gate, events: seq<Event>): Gate
    decreases |events|
  {
    if events == [] then g else Step(Execute(g, events[..|events| - 1]), events[|events| - 1])
  }

  // ----- the invariant

  predicate Holds(pc: Pc) { pc.Counted? || pc.Permit? || pc.Releasing? }

  /** How many threads have incremented `active` and not yet decremented it. */
  function Holders(threads: seq<Pc>): nat {
    if threads == [] then 0
    else Holders(threads[..|threads| - 1]) + if Holds(threads[|threads| - 1]) then 1 else 0
  }

  lemma {:induction false} HoldersUpdate(threads: seq<Pc>, i: nat, pc: Pc)
    requires i < |threads|
    ensures Holders(threads[i := pc])
            == Holders(threads) + (if Holds(pc) then 1 else 0) - (if Holds(threads[i]) then 1 else 0)
  {
    var n := |threads| - 1;
    if i < n {
      HoldersUpdate(threads[..n], i, pc);
      assert threads[i := pc][..n] == threads[..n][i := pc];
    } else {
      assert threads[i := pc][..n] == threads[..n];
    }
  }

  lemma {:induction false} HoldersZero(threads: seq<Pc>)
    ensures Holders(threads) == 0 <==> forall i :: 0 <= i < |threads| ==> !Holds(threads[i])
  {
    if threads != [] {
      HoldersZero(threads[..|threads| - 1]);
    }
  }

  ghost predicate SomeoneNotifies(g: Gate) {
    (exists i :: 0 <= i < |g.threads| && g.threads[i].Notifying?) || g.closer.NotifyingAll?
  }

  ghost predicate Inv(g: Gate) {
    && g.active == Holders(g.threads)
    && (g.accepting <==> g.closer.Serving?)
    && (g.closer.Armed? || g.closer.Waiting? ==> g.closer.seen <= g.notifications)
    && (g.closer.Waiting? && g.closer.seen == g.notifications ==> g.active > 0 || SomeoneNotifies(g))
    && (g.closer.Drained? ==> forall i :: 0 <= i < |g.threads| ==> !g.threads[i].Permit?)
    && (g.cancelled <==> g.closer.Cancelled?)
  }

  /** A thread that is not notifying leaves every notifying thread where it is. */
  lemma NotifierKept(g: Gate, g': Gate, i: nat)
    requires SomeoneNotifies(g) && g'.closer == g.closer
    requires i < |g.threads| && !g.threads[i].Notifying? && |g'.threads| == |g.threads|
    requires forall j :: 0 <= j < |g.threads| && j != i ==> g'.threads[j] == g.threads[j]
    ensures SomeoneNotifies(g')
  {
    if !g.closer.NotifyingAll? {
      var j :| 0 <= j < |g.threads| && g.threads[j].Notifying?;
      assert g'.threads[j].Notifying?;
    }
  }

  lemma ThreadStepKeeps(g: Gate, i: nat)
    requires Inv(g) && i < |g.threads|
    ensures Inv(StepThread(g, i))
  {
    var g' := StepThread(g, i);
    HoldersUpdate(g.threads, i, g'.threads[i]);
    HoldersZero(g.threads);
    if g.threads[i].Releasing? && g.active == 1 {
      assert g'.threads[i].Notifying?;
    } else if SomeoneNotifies(g) && !g.threads[i].Notifying? {
      NotifierKept(g, g', i);
    }
  }

  lemma CloserStepKeeps(g: Gate)
    requires Inv(g)
    ensures Inv(StepCloser(g))
  {
    HoldersZero(g.threads);
  }

  lemma StepKeeps(g: Gate, e: Event)
    requires Inv(g)
    ensures Inv(Step(g, e))
  {
    var g' := Step(g, e);
    match e {
      case Advance(i) =>
        if i < |g.threads| { ThreadStepKeeps(g, i); }
      case AdvanceCloser =>
        CloserStepKeeps(g);
      case Close =>
      case Deadline =>
      case _ =>
        if g' != g {
          HoldersUpdate(g.threads, e.thread, g'.threads[e.thread]);
          if SomeoneNotifies(g) { NotifierKept(g, g', e.thread); }
        }
    }
  }

  lemma {:induction false} ReachableInv(n: nat, events: seq<Event>)
    ensures Inv(Execute(Open(n), events))
    decreases |events|
  {
    if events == [] {
      HoldersZero(Open(n).threads);
    } else {
      ReachableInv(n, events[..|events| - 1]);
      StepKeeps(Execute(Open(n), events[..|events| - 1]), events[|events| - 1]);
    }
  }

  // ----- safety

  /** `active` counts the live permits and the threads between their increment and their decrement. */
  lemma ActiveCountsHolders(n: nat, events: seq<Event>)
    ensures var g := Execute(Open(n), events);
            && g.active == Holders(g.threads)
            && (g.active == 0 ==> forall i :: 0 <= i < |g.threads| ==> !g.threads[i].Permit?)
  {
    ReachableInv(n, events);
    HoldersZero(Execute(Open(n), events).threads);
  }

  /** No step after `close` grants a permit, and `Drained` is final. */
  lemma ClosedStepGrantsNothing(g: Gate, e: Event)
    requires Inv(g) && !g.accepting
    ensures var g' := Step(g, e);
            && !g'.accepting && |g'.threads| == |g.threads|
            && (g.closer.Drained? ==> g'.closer.Drained?)
            && (forall i :: 0 <= i < |g.threads| && g'.threads[i].Permit? ==> g.threads[i].Permit?)
  {
  }

  /** Once `drained` has returned, no permit is live, and none is at any later point of any execution. */
  lemma {:induction false} DrainedMeansNoPermitEver(n: nat, events: seq<Event>, later: seq<Event>)
    requires Execute(Open(n), events).closer.Drained?
    ensures var g := Execute(Open(n), events + later);
            g.closer.Drained? && !g.accepting && forall i :: 0 <= i < |g.threads| ==> !g.threads[i].Permit?
    decreases |later|
  {
    if later == [] {
      assert events + later == events;
    } else {
      var k := |later| - 1;
      assert (events + later)[..|events + later| - 1] == events + later[..k];
      DrainedMeansNoPermitEver(n, events, later[..k]);
      ReachableInv(n, events + later[..k]);
      ClosedStepGrantsNothing(Execute(Open(n), events + later[..k]), later[k]);
    }
    ReachableInv(n, events + later);
  }

  /** A waiter no notification has reached is waiting for a counted thread or a pending notification. */
  lemma NoLostWakeup(n: nat, events: seq<Event>)
    requires var g := Execute(Open(n), events); g.closer.Waiting? && g.closer.seen == g.notifications
    ensures var g := Execute(Open(n), events); g.active > 0 || SomeoneNotifies(g)
  {
    ReachableInv(n, events);
  }

  /** A shutdown whose drain returned never cancels, whatever happens later, deadline included. */
  lemma DrainedNeverCancels(n: nat, events: seq<Event>, later: seq<Event>)
    requires Execute(Open(n), events).closer.Drained?
    ensures !Execute(Open(n), events + later).cancelled
  {
    DrainedMeansNoPermitEver(n, events, later);
    ReachableInv(n, events + later);
  }

  /** The deadline fired at step `i` while the drain was awaited. */
  ghost predicate ExpiredAt(n: nat, events: seq<Event>, i: nat) {
    i < |events| && events[i].Deadline? && AwaitsDrain(Execute(Open(n), events[..i]).closer)
  }

  lemma {:induction false} ExpiryHappened(n: nat, events: seq<Event>) returns (i: nat)
    requires var c := Execute(Open(n), events).closer; c.Expired? || c.Cancelled?
    ensures ExpiredAt(n, events, i)
    decreases |events|
  {
    var k := |events| - 1;
    var before := Execute(Open(n), events[..k]).closer;
    if before.Expired? || before.Cancelled? {
      i := ExpiryHappened(n, events[..k]);
      assert events[..k][..i] == events[..i];
    } else {
      i := k;
    }
  }

  /** A cancellation follows a deadline that fired while the drain was awaited, and the drain never returned. */
  lemma CancelFollowsExpiry(n: nat, events: seq<Event>) returns (i: nat)
    requires Execute(Open(n), events).cancelled
    ensures ExpiredAt(n, events, i)
    ensures forall j :: 0 <= j <= |events| ==> !Execute(Open(n), events[..j]).closer.Drained?
  {
    ReachableInv(n, events);
    i := ExpiryHappened(n, events);
    forall j | 0 <= j <= |events| ensures !Execute(Open(n), events[..j]).closer.Drained? {
      assert events[..j] + events[j..] == events;
      if Execute(Open(n), events[..j]).closer.Drained? {
        DrainedNeverCancels(n, events[..j], events[j..]);
      }
    }
  }

  // ----- an open gate admits

  /** The event is one of thread `i`'s own accesses. */
  predicate OwnAccess(e: Event, i: nat) { (e.Admit? || e.Advance? || e.Drop?) && e.thread == i }

  predicate Others(events: seq<Event>, i: nat) { forall k :: 0 <= k < |events| ==> !OwnAccess(events[k], i) }

  lemma {:induction false} ExecuteConcat(g: Gate, a: seq<Event>, b: seq<Event>)
    ensures Execute(g, a + b) == Execute(Execute(g, a), b)
    decreases |b|
  {
    if b == [] {
      assert a + b == a;
    } else {
      assert (a + b)[..|a + b| - 1] == a + b[..|b| - 1];
      ExecuteConcat(g, a, b[..|b| - 1]);
    }
  }

  lemma OtherStep(g: Gate, i: nat, e: Event)
    requires Inv(g) && i < |g.threads| && !OwnAccess(e, i)
    ensures var g' := Step(g, e);
            |g'.threads| == |g.threads| && g'.threads[i] == g.threads[i] && (g'.accepting <==> g.accepting && !e.Close?)
  {
  }

  /** Whatever the others do, the thread stays where it is, and the gate stays open exactly until a `Close`. */
  lemma {:induction false} OthersLeaveThread(g: Gate, i: nat, events: seq<Event>)
    requires Inv(g) && i < |g.threads| && Others(events, i)
    ensures var g' := Execute(g, events);
            Inv(g') && |g'.threads| == |g.threads| && g'.threads[i] == g.threads[i] && (g'.accepting <==> g.accepting && Close !in events)
    decreases |events|
  {
    if events != [] {
      var init, last := events[..|events| - 1], events[|events| - 1];
      OthersLeaveThread(g, i, init);
      StepKeeps(Execute(g, init), last);
      OtherStep(Execute(g, init), i, last);
      assert events == init + [last];
    }
  }

  /**
    A thread that finds the gate open and is not interrupted by `close` gets its permit; one whose two
    loads have a `close` between them is refused and gives its count back; one that finds the gate
    closed is refused at once.
   */
  lemma AdmissionDecided(g: Gate, i: nat, x: seq<Event>, y: seq<Event>)
    requires Inv(g) && i < |g.threads| && g.threads[i].Idle? && Others(x, i) && Others(y, i)
    ensures var end := Execute(g, [Admit(i)] + x + [Advance(i)] + y + [Advance(i)]);
            && |end.threads| == |g.threads|
            && end.threads[i] == if !g.accepting then Idle else if Close in x || Close in y then Releasing else Permit
  {
    var g1 := Step(g, Admit(i));
    StepKeeps(g, Admit(i));
    OthersLeaveThread(g1, i, x);
    var g2 := Execute(g1, x);
    var g3 := Step(g2, Advance(i));
    StepKeeps(g2, Advance(i));
    OthersLeaveThread(g3, i, y);
    var g4 := Execute(g3, y);
    OneStep(g, Admit(i));
    OneStep(g2, Advance(i));
    OneStep(g4, Advance(i));
    ExecuteConcat(g, [Admit(i)], x);
    ExecuteConcat(g, [Admit(i)] + x, [Advance(i)]);
    ExecuteConcat(g, [Admit(i)] + x + [Advance(i)], y);
    ExecuteConcat(g, [Admit(i)] + x + [Advance(i)] + y, [Advance(i)]);
  }

  lemma OneStep(g: Gate, e: Event)
    ensures Execute(g, [e]) == Step(g, e)
  {
    assert [e][..0] == [];
  }

  // ----- the drain ends

  /** Accesses a thread may still make once the gate is closed. */
  function Remaining(pc: Pc): nat {
    match pc
    case Idle => 0
    case Checked => 5
    case Counted => 4
    case Permit => 3
    case Releasing => 2
    case Notifying => 1
  }

  function ThreadWork(threads: seq<Pc>): nat {
    if threads == [] then 0 else ThreadWork(threads[..|threads| - 1]) + Remaining(threads[|threads| - 1])
  }

  /** A notification that arrives sends the waiter round its loop once more. */
  function CloserWork(c: Closer, notifications: nat): nat {
    match c
    case Serving => 8
    case Closed => 7
    case NotifyingAll => 5
    case Starting => 4
    case Armed(seen) => if seen < notifications then 6 else 3
    case Waiting(seen) => if seen < notifications then 5 else 2
    case Drained => 0
    case Expired => 1
    case Cancelled => 0
  }

  function Work(g: Gate): nat { 4 * ThreadWork(g.threads) + CloserWork(g.closer, g.notifications) }

  lemma {:induction false} ThreadWorkUpdate(threads: seq<Pc>, i: nat, pc: Pc)
    requires i < |threads|
    ensures ThreadWork(threads[i := pc]) == ThreadWork(threads) + Remaining(pc) - Remaining(threads[i])
  {
    var n := |threads| - 1;
    if i < n {
      ThreadWorkUpdate(threads[..n], i, pc);
      assert threads[i := pc][..n] == threads[..n][i := pc];
    } else {
      assert threads[i := pc][..n] == threads[..n];
    }
  }

  /** After `close`, every step that changes anything brings the drain closer to its end. */
  lemma ClosedStepWorks(g: Gate, e: Event)
    requires Inv(g) && !g.accepting && Step(g, e) != g
    ensures Work(Step(g, e)) < Work(g)
  {
    if e.Advance? || e.Drop? {
      ThreadWorkUpdate(g.threads, e.thread, Step(g, e).threads[e.thread]);
    }
  }

  /** Until shutdown has finished, some thread or the waiter can move without the deadline's help. */
  lemma UnfinishedDrainCanMove(g: Gate)
    requires Inv(g) && !g.accepting && !g.closer.Drained? && !g.closer.Cancelled?
    ensures exists e: Event :: !e.Deadline? && Step(g, e) != g
  {
    HoldersZero(g.threads);
    if g.closer.Waiting? && g.closer.seen == g.notifications {
      if g.active > 0 {
        var i :| 0 <= i < |g.threads| && Holds(g.threads[i]);
        var e := if g.threads[i].Permit? then Drop(i) else Advance(i);
        assert Step(g, e).threads[i] != g.threads[i];
      } else {
        var i :| 0 <= i < |g.threads| && g.threads[i].Notifying?;
        assert Step(g, Advance(i)).threads[i] != g.threads[i];
      }
    } else {
      assert Step(g, AdvanceCloser).closer != g.closer;
    }
  }

  predicate PastDeadline(c: Closer) { c.Expired? || c.Cancelled? }

  predicate EveryStepMoves(g: Gate, events: seq<Event>) {
    forall k :: 0 <= k < |events| ==> Execute(g, events[..k + 1]) != Execute(g, events[..k])
  }

  /** An execution of a closed gate that keeps moving is at most `Work` steps long. */
  lemma {:induction false} DrainIsBounded(g: Gate, events: seq<Event>)
    requires Inv(g) && !g.accepting && EveryStepMoves(g, events)
    ensures Inv(Execute(g, events)) && !Execute(g, events).accepting
    ensures |events| + Work(Execute(g, events)) <= Work(g)
    decreases |events|
  {
    if events != [] {
      var k := |events| - 1;
      forall j | 0 <= j < k ensures Execute(g, events[..k][..j + 1]) != Execute(g, events[..k][..j]) {
        assert events[..k][..j + 1] == events[..j + 1] && events[..k][..j] == events[..j];
      }
      DrainIsBounded(g, events[..k]);
      assert events[..k + 1] == events;
      StepKeeps(Execute(g, events[..k]), events[k]);
      ClosedStepGrantsNothing(Execute(g, events[..k]), events[k]);
      ClosedStepWorks(Execute(g, events[..k]), events[k]);
    }
  }

  /** Left to run without a deadline, every maximal execution of a closed gate ends with `drained` returned. */
  lemma DrainCompletes(g: Gate, events: seq<Event>)
    requires Inv(g) && !g.accepting && !PastDeadline(g.closer) && EveryStepMoves(g, events)
    requires forall k :: 0 <= k < |events| ==> !events[k].Deadline?
    requires forall e: Event :: !e.Deadline? ==> Step(Execute(g, events), e) == Execute(g, events)
    ensures Execute(g, events).closer.Drained?
  {
    DrainIsBounded(g, events);
    NeverExpires(g, events);
    if !Execute(g, events).closer.Drained? {
      UnfinishedDrainCanMove(Execute(g, events));
    }
  }

  lemma {:induction false} NeverExpires(g: Gate, events: seq<Event>)
    requires !PastDeadline(g.closer) && forall k :: 0 <= k < |events| ==> !events[k].Deadline?
    ensures !PastDeadline(Execute(g, events).closer)
    decreases |events|
  {
    if events != [] {
      NeverExpires(g, events[..|events| - 1]);
    }
  }

  /** Deadline or not, every maximal execution of a closed gate ends drained or cancelled, and not both. */
  lemma ShutdownEnds(g: Gate, events: seq<Event>)
    requires Inv(g) && !g.accepting && EveryStepMoves(g, events)
    requires forall e: Event :: Step(Execute(g, events), e) == Execute(g, events)
    ensures var end := Execute(g, events); end.closer.Drained? <==> !end.cancelled
  {
    DrainIsBounded(g, events);
    var end := Execute(g, events);
    if !end.closer.Drained? && !end.closer.Cancelled? {
      UnfinishedDrainCanMove(end);
    }
  }
}
