/** What the telemetry pipeline guarantees over whole runs. */
module Delivery {
  import opened Types
  import opened DataBuffer
  import opened Telemetry

  // ---------- order and losses ----------

  /** Readings that left the buffer without ever being accepted by the hub. */
  ghost function Dropped(s: State): set<nat> {
    set i: nat | i < s.fifo.taken && i !in s.sent
  }

  /** Nothing is sent twice and nothing out of order. */
  lemma SentInOrder(l: Limits, s: State)
    requires l.Sane() && Reachable(l, s)
    ensures forall i, j :: 0 <= i < j < |s.sent| ==> s.sent[i] < s.sent[j] < |s.fifo.accepted|
  {
    ReachableInv(l, s);
  }

  ghost function Range(lo: nat, hi: nat): (r: set<nat>)
    requires lo <= hi
    ensures |r| == hi - lo
    ensures forall i :: i in r <==> lo <= i < hi
    decreases hi
  {
    if lo == hi then {} else Range(lo, hi - 1) + {hi - 1}
  }

  lemma {:induction false} ComplementSize(q: seq<nat>, b: nat)
    requires Increasing(q) && AllBelow(q, b)
    ensures |set i: nat | i < b && i !in q| == b - |q|
    decreases |q|
  {
    if q == [] {
      assert (set i: nat | i < b && i !in q) == Range(0, b);
    } else {
      var front, last := q[..|q| - 1], q[|q| - 1];
      ComplementSize(front, last);
      var early := set i: nat | i < last && i !in front;
      var late := Range(last + 1, b);
      assert q == front + [last];
      assert (set i: nat | i < b && i !in q) == early + late;
      assert early !! late;
    }
  }

  /** Conservation of readings. Losses are exactly the inserts that met a full buffer;
      while an accepted reading awaits its remove, one less if an insert has already
      pushed that very reading out. */
  lemma DroppedAreOverruns(l: Limits, s: State)
    requires l.Sane() && Reachable(l, s)
    ensures |Dropped(s)| + (if s.phase.Sent? && s.phase.reading < s.fifo.taken then 1 else 0) == s.overruns
    ensures !s.phase.Sent? ==> |Dropped(s)| == s.overruns
  {
    ReachableInv(l, s);
    if s.phase.Sent? && s.phase.reading == s.fifo.taken {
      var front := s.sent[..|s.sent| - 1];
      assert s.sent == front + [s.fifo.taken];
      assert AllBelow(front, s.fifo.taken) by {
        forall i | 0 <= i < |front|
          ensures front[i] < s.fifo.taken
        {
          assert s.sent[i] < s.sent[|s.sent| - 1];
        }
      }
      ComplementSize(front, s.fifo.taken);
      assert Dropped(s) == set i: nat | i < s.fifo.taken && i !in front;
    } else {
      assert AllBelow(s.sent, s.fifo.taken) by {
        forall i | 0 <= i < |s.sent|
          ensures s.sent[i] < s.fifo.taken
        {
          assert s.sent[i] <= s.sent[|s.sent| - 1];
        }
      }
      ComplementSize(s.sent, s.fifo.taken);
    }
  }

  /** Readings that are still buffered and have not been sent. */
  ghost function Unsent(s: State): set<nat> {
    set i: nat | s.fifo.taken <= i < |s.fifo.accepted| && i !in s.sent
  }

  /** In every phase: a buffered reading is unsent, unless it is the one that awaits its
      remove, and the sent, the dropped and the unsent readings add up to those inserted. */
  lemma EveryReadingAccounted(l: Limits, s: State)
    requires l.Sane() && Reachable(l, s)
    ensures forall i :: s.fifo.taken <= i < |s.fifo.accepted| ==>
              (i in s.sent <==> s.phase.Sent? && s.phase.reading == i)
    ensures |s.fifo.accepted| == |s.sent| + |Dropped(s)| + |Unsent(s)|
  {
    assert OrderInv(l, s) by {
      ReachableInv(l, s);
    }
    forall i | s.fifo.taken <= i < |s.fifo.accepted|
      ensures i in s.sent <==> s.phase.Sent? && s.phase.reading == i
    {
      if s.phase.Sent? {
        assert forall k :: 0 <= k < |s.sent| - 1 ==> s.sent[k] < s.phase.reading;
      }
    }
    var all := set i: nat | i < |s.fifo.accepted| && i !in s.sent;
    SentInOrder(l, s);
    ComplementSize(s.sent, |s.fifo.accepted|);
    assert all == Dropped(s) + Unsent(s);
    assert Dropped(s) !! Unsent(s);
  }

  // ---------- the window ----------

  /** Over the whole run, across resets and reconnects, every message slot used since the
      last reset is confirmed or unsettled, and at most one is unsettled. */
  lemma WindowConservation(l: Limits, s: State)
    requires l.Sane() && Reachable(l, s)
    ensures s.iter + s.Awaiting() == s.callbackCounter + |s.pending| + s.Failures() + |s.lost|
    ensures |s.pending| + s.Failures() + |s.lost| <= 1
    ensures 0 <= s.callbackCounter <= s.iter <= l.m
  {
    ReachableInv(l, s);
  }

  lemma {:induction false} CountIfIn(q: seq<nat>, h: nat)
    ensures Count(q, h) > 0 <==> h in q
  {
    if q != [] {
      var front := q[..|q| - 1];
      assert q == front + [q[|q| - 1]];
      CountIfIn(front, h);
    }
  }

  lemma {:induction false} OnceIsDistinct(q: seq<nat>, i: nat, j: nat)
    requires i < j < |q| && Count(q, q[i]) <= 1
    ensures q[i] != q[j]
  {
    var front := q[..|q| - 1];
    assert front[i] in front;
    CountIfIn(front, q[i]);
    if j < |q| - 1 {
      OnceIsDistinct(front, i, j);
    }
  }

  /** Every message handle created is destroyed once, or still pending, or lost, or is
      the one rejected handle that the code never destroys. */
  lemma HandleConservation(l: Limits, s: State)
    requires l.Sane() && Reachable(l, s)
    ensures s.created == |s.destroyed| + |s.pending| + |s.lost| + |s.rejected|
    ensures |s.rejected| <= 1
    ensures forall i, j :: 0 <= i < j < |s.destroyed| ==> s.destroyed[i] != s.destroyed[j]
    ensures forall h :: h in s.destroyed ==> h < s.created && h !in s.lost && h !in s.rejected
    ensures forall t :: t in s.pending ==> t.handle < s.created && t.handle !in s.destroyed
  {
    WindowConservation(l, s);
    assert HandleInv(s) by {
      ReachableInv(l, s);
    }
    forall i, j | 0 <= i < j < |s.destroyed|
      ensures s.destroyed[i] != s.destroyed[j]
    {
      OnePlace(s, s.destroyed[i]);
      OnceIsDistinct(s.destroyed, i, j);
    }
    forall h | h in s.destroyed
      ensures h < s.created && h !in s.lost && h !in s.rejected
    {
      OnePlace(s, h);
    }
    forall t | t in s.pending
      ensures t.handle < s.created && t.handle !in s.destroyed
    {
      assert s.pending == [t];
      CountOne(t, t.handle);
      OnePlace(s, t.handle);
    }
  }

  lemma OnePlace(s: State, h: nat)
    requires HandleInv(s)
    ensures Places(s.destroyed, s.pending, s.lost, s.rejected, h) == if h < s.created then 1 else 0
    ensures Count(s.destroyed, h) > 0 <==> h in s.destroyed
    ensures Count(s.lost, h) > 0 <==> h in s.lost
    ensures Count(s.rejected, h) > 0 <==> h in s.rejected
  {
    CountIfIn(s.destroyed, h);
    CountIfIn(s.lost, h);
    CountIfIn(s.rejected, h);
  }

  /** An attempt writes inside the array and overwrites no slot whose confirmation is
      still to come. */
  lemma AttemptUsesFreeSlot(l: Limits, s: State)
    requires l.Sane() && Reachable(l, s) && s.phase.Peeked?
    ensures InBounds(s.iter, s.slots)
    ensures forall t :: t in s.pending ==> t.slot != s.iter
  {
    ReachableInv(l, s);
  }

  // ---------- slots take turns ----------

  /** Attempts made so far, in whole turns of m slots and the rest. */
  ghost predicate Turn(l: Limits, s: State, k: nat) {
    |s.sent| + s.Failures() == k * l.m + s.iter + s.Awaiting()
  }

  lemma TurnStep(l: Limits, s: State, e: Event, k: nat)
    requires WindowInv(l, s) && Enabled(s, e) && Turn(l, s, k)
    ensures Turn(l, Step(l, s, e), k) || Turn(l, Step(l, s, e), k + 1)
  {
    assert (k + 1) * l.m == k * l.m + l.m;
  }

  lemma {:induction false} TurnRun(l: Limits, s: State, es: seq<Event>, k: nat) returns (k': nat)
    requires l.Sane() && Inv(l, s) && Feasible(l, s, es) && Turn(l, s, k)
    ensures Turn(l, After(l, s, es), k')
    decreases |es|
  {
    k' := k;
    if es != [] {
      TurnStep(l, s, es[0], k);
      StepKeepsInv(l, s, es[0]);
      k' := TurnRun(l, Step(l, s, es[0]), es[1..], if Turn(l, Step(l, s, es[0]), k) then k else k + 1);
    }
  }

  lemma TurnRemainder(k: nat, m: nat, r: nat)
    requires r < m
    ensures (k * m + r) % m == r
  {
    var q, x := (k * m + r) / m, (k * m + r) % m;
    var d := k - q;
    assert m * d == x - r;
    assert d >= 1 ==> m * d >= m;
    assert d <= -1 ==> m * d + m <= 0;
  }

  /** The slots take turns: over a whole run, through all reconnects, the j-th attempt
      uses slot j modulo m, failed attempts counted like the others. */
  lemma SlotsTakeTurns(l: Limits, s: State)
    requires l.Sane() && Reachable(l, s)
    ensures exists k: nat :: Turn(l, s, k)
    ensures s.phase.Peeked? ==> s.iter == (|s.sent| + s.Failures()) % l.m
  {
    var junk: seq<Slot>, es: seq<Event> :|
      |junk| == l.m && Feasible(l, Init(junk), es) && s == After(l, Init(junk), es);
    InitInv(l, junk);
    assert Turn(l, Init(junk), 0);
    var k := TurnRun(l, Init(junk), es, 0);
    if s.phase.Peeked? {
      WindowConservation(l, s);
      assert WindowInv(l, s) by {
        ReachableInv(l, s);
      }
      TurnRemainder(k, l.m, s.iter);
    }
  }

  /** The slots used since the last reset: each holds its own number and the handle that
      its attempt created, in the order of creation; a creation that failed leaves null. */
  ghost predicate Filled(s: State) {
    && s.iter + s.Awaiting() <= |s.slots|
    && forall j :: 0 <= j < s.iter + s.Awaiting() ==>
         if s.createFailures > 0 && j == s.iter - 1 then s.slots[j].handle == Null
         else
           && s.slots[j].handle.Handle? && s.slots[j].trackingId == j
           && s.slots[j].handle.id == s.created - (s.iter + s.Awaiting() - s.createFailures) + j
  }

  lemma FilledStep(l: Limits, s: State, e: Event)
    requires WindowInv(l, s) && |s.slots| == l.m && Enabled(s, e) && Filled(s)
    ensures Filled(Step(l, s, e))
  {
    if e.Attempt? {
      FilledAttempt(l, s, e.outcome);
    }
  }

  lemma FilledAttempt(l: Limits, s: State, outcome: Outcome)
    requires WindowInv(l, s) && |s.slots| == l.m && s.phase.Peeked? && Filled(s)
    ensures Filled(DoAttempt(s, outcome))
  {
  }

  lemma {:induction false} FilledRun(l: Limits, s: State, es: seq<Event>)
    requires l.Sane() && Inv(l, s) && Feasible(l, s, es) && Filled(s)
    ensures Filled(After(l, s, es))
    decreases |es|
  {
    if es != [] {
      assert |s.slots| == l.m;
      FilledStep(l, s, es[0]);
      StepKeepsInv(l, s, es[0]);
      FilledRun(l, Step(l, s, es[0]), es[1..]);
    }
  }

  /** In every reachable state the array holds what the attempts of this turn left there. */
  lemma SlotsHoldTurn(l: Limits, s: State)
    requires l.Sane() && Reachable(l, s)
    ensures Filled(s)
  {
    var junk: seq<Slot>, es: seq<Event> :|
      |junk| == l.m && Feasible(l, Init(junk), es) && s == After(l, Init(junk), es);
    InitInv(l, junk);
    FilledRun(l, Init(junk), es);
  }

  /** A confirmation finds in its slot the handle and tracking id it was sent with,
      destroys that handle and no other, and reports the batch's slots in order. */
  lemma ConfirmSeesItsMessage(l: Limits, s: State, k: nat)
    requires l.Sane() && Reachable(l, s) && Enabled(s, Confirm(k))
    ensures var t, s' := s.pending[k], Step(l, s, Confirm(k));
            && InBounds(t.slot, s.slots)
            && s.slots[t.slot] == Slot(Handle(t.handle), t.trackingId)
            && s'.destroyed == s.destroyed + [t.handle] && t.handle !in s.destroyed
            && s'.batch == s.batch + [t.trackingId] && t.trackingId == t.slot == s.callbackCounter
  {
    ReachableInv(l, s);
    HandleConservation(l, s);
    assert s.pending[k] in s.pending;
  }

  /** From the guard to the remove there is a reading to take and a slot to use. */
  ghost predicate Holding(s: State) {
    && (s.phase.Checked? || s.phase.Peeked? || s.phase.Sent? ==> Buffered(s.fifo) && InBounds(s.iter, s.slots))
    && (s.phase.Peeked? || s.phase.Sent? ==> s.phase.reading <= s.fifo.taken)
  }

  /** The sender's peek and remove never meet an empty buffer. */
  lemma OfferHasReadingAndSlot(l: Limits, s: State)
    requires l.Sane() && Reachable(l, s)
    ensures Holding(s)
  {
    ReachableInv(l, s);
  }

  lemma Advance(l: Limits, s: State, e: Event)
    requires l.Sane() && Reachable(l, s) && Enabled(s, e)
    ensures Reachable(l, Step(l, s, e)) && Holding(Step(l, s, e))
  {
    ReachableStep(l, s, e);
    OfferHasReadingAndSlot(l, Step(l, s, e));
  }

  // ---------- failures ----------

  /** Neither offering a reading nor about to. */
  ghost predicate Idle(s: State) {
    !s.phase.Checked? && !s.phase.Peeked? && !s.phase.Sent?
  }

  lemma GuardClosedStep(l: Limits, s: State, e: Event)
    requires WindowInv(l, s) && Idle(s) && s.Failures() + |s.lost| >= 1 && Enabled(s, e)
    ensures var s' := Step(l, s, e);
            && Idle(s') && s'.sent == s.sent && s'.created == s.created
            && s'.Failures() == s.Failures() && s'.lost == s.lost
  {
  }

  lemma {:induction false} GuardStaysClosed(l: Limits, s: State, es: seq<Event>)
    requires l.Sane() && Inv(l, s) && Idle(s) && s.Failures() + |s.lost| >= 1 && Feasible(l, s, es)
    ensures var s' := After(l, s, es);
            && Idle(s') && s'.sent == s.sent && s'.created == s.created
            && s'.Failures() == s.Failures() && s'.lost == s.lost
    decreases |es|
  {
    if es != [] {
      GuardClosedStep(l, s, es[0]);
      StepKeepsInv(l, s, es[0]);
      GuardStaysClosed(l, Step(l, s, es[0]), es[1..]);
    }
  }

  /** At most one attempt fails or loses its confirmation in a whole run; from then on,
      through every reconnect, the guard stays closed: no reading is offered, no handle
      created, nothing sent, and what was not evicted stays in the buffer. */
  lemma FailureIsFinal(l: Limits, s: State, es: seq<Event>)
    requires l.Sane() && Reachable(l, s) && s.Failures() + |s.lost| >= 1 && Feasible(l, s, es)
    ensures s.Failures() + |s.lost| == 1
    ensures var s' := After(l, s, es);
            && Idle(s') && s'.sent == s.sent && s'.created == s.created
            && s'.Failures() + |s'.lost| == 1
            && s'.fifo.taken - s.fifo.taken == s'.overruns - s.overruns
  {
    ReachableInv(l, s);
    GuardStaysClosed(l, s, es);
    RunKeepsInv(l, s, es);
  }

  /** A failed attempt costs its slot but not its reading; where no message was created the
      slot keeps its number. */
  lemma FailureKeepsReading(l: Limits, s: State, outcome: Outcome)
    requires l.Sane() && Reachable(l, s) && s.phase.Peeked? && !outcome.Accepted?
    ensures var s' := Step(l, s, Attempt(outcome));
            && s'.fifo == s.fifo && s'.sent == s.sent && Buffered(s'.fifo)
            && s'.iter == s.iter + 1 == s'.callbackCounter + 1
            && InBounds(s.iter, s'.slots)
            && (outcome.CreateFails? ==> s'.slots[s.iter] == Slot(Null, s.slots[s.iter].trackingId))
  {
    ReachableInv(l, s);
  }

  lemma FlagStep(l: Limits, s: State, e: Event, f: nat)
    requires WindowInv(l, s) && Enabled(s, e) && e != Connect(Connected)
    requires f <= s.Failures() && (s.connected <==> s.Failures() == f)
    ensures f <= Step(l, s, e).Failures() && (Step(l, s, e).connected <==> Step(l, s, e).Failures() == f)
  {
  }

  lemma {:induction false} FlagRun(l: Limits, s: State, es: seq<Event>, f: nat)
    requires l.Sane() && Inv(l, s) && Feasible(l, s, es) && Connect(Connected) !in es
    requires f <= s.Failures() && (s.connected <==> s.Failures() == f)
    ensures After(l, s, es).connected <==> After(l, s, es).Failures() == f
    decreases |es|
  {
    if es != [] {
      assert es[0] in es;
      assert forall e :: e in es[1..] ==> e in es;
      FlagStep(l, s, es[0], f);
      StepKeepsInv(l, s, es[0]);
      FlagRun(l, Step(l, s, es[0]), es[1..], f);
    }
  }

  /** From one connection until the next, and beyond its end, the flag that the LED task
      reads tells whether no attempt has failed since: refused or never created. */
  lemma ConnectionFlag(l: Limits, s: State, es: seq<Event>)
    requires l.Sane() && Reachable(l, s) && s.phase.Waiting?
    requires Feasible(l, s, [Connect(Connected)] + es) && Connect(Connected) !in es
    ensures var t := After(l, s, [Connect(Connected)] + es);
            t.connected <==> t.Failures() == s.Failures()
  {
    ReachableInv(l, s);
    StepKeepsInv(l, s, Connect(Connected));
    assert ([Connect(Connected)] + es)[1..] == es;
    FlagRun(l, Step(l, s, Connect(Connected)), es, s.Failures());
  }

  /** Until the first connection it is false. */
  lemma FlagAtFirst(l: Limits, junk: seq<Slot>, es: seq<Event>)
    requires Feasible(l, Init(junk), es) && Connect(Connected) !in es
    ensures !After(l, Init(junk), es).connected
  {
    QuietUntilConnected(l, Init(junk), es);
  }

  // ---------- leaving a connection ----------

  lemma QuietStep(l: Limits, s: State, e: Event)
    requires !Live(s.phase) && Enabled(s, e) && e != Connect(Connected)
    ensures var s' := Step(l, s, e);
            && !Live(s'.phase) && s'.sent == s.sent && s'.created == s.created && s'.iter == s.iter
            && s'.Failures() == s.Failures() && s'.connected == s.connected
            && s'.fifo.taken - s.fifo.taken == s'.overruns - s.overruns
  {
  }

  lemma {:induction false} QuietUntilConnected(l: Limits, s: State, es: seq<Event>)
    requires !Live(s.phase) && Feasible(l, s, es) && Connect(Connected) !in es
    ensures var s' := After(l, s, es);
            && !Live(s'.phase) && s'.sent == s.sent && s'.created == s.created && s'.iter == s.iter
            && s'.Failures() == s.Failures() && s'.connected == s.connected
            && s'.fifo.taken - s.fifo.taken == s'.overruns - s.overruns
    decreases |es|
  {
    if es != [] {
      assert es[0] in es;
      assert forall e :: e in es[1..] ==> e in es;
      QuietStep(l, s, es[0]);
      QuietUntilConnected(l, Step(l, s, es[0]), es[1..]);
    }
  }

  /** Once a connection is aborted, and until another one is up, the task neither creates
      nor sends a message nor uses a slot nor takes a reading. What it sent is settled
      before it retries: no confirmation is outstanding when it connects again. */
  lemma AbortStopsSending(l: Limits, s: State, es: seq<Event>)
    requires l.Sane() && Reachable(l, s) && s.phase.Working?
    requires Feasible(l, s, [EndWork(true)] + es) && Connect(Connected) !in es
    ensures var t := After(l, s, [EndWork(true)] + es);
            && !Live(t.phase) && t.sent == s.sent && t.created == s.created && t.iter == s.iter
            && t.fifo.taken - s.fifo.taken == t.overruns - s.overruns
            && (t.phase.Waiting? || t.phase.Finished? ==>
                  t.pending == [] && t.callbackCounter + |t.lost| == s.callbackCounter + |s.lost| + |s.pending|)
  {
    assert ([EndWork(true)] + es)[1..] == es;
    QuietUntilConnected(l, Step(l, s, EndWork(true)), es);
    ReachableRun(l, s, [EndWork(true)] + es);
    var t := After(l, s, [EndWork(true)] + es);
    WindowConservation(l, s);
    WindowConservation(l, t);
    assert t.phase.Waiting? || t.phase.Finished? ==> t.pending == [] by {
      ReachableInv(l, t);
    }
  }

  // ---------- the outer loop ----------

  /** When a connection attempt has ended, the task retries exactly when the counter is
      neither zero nor the number of slots, and the latter means a complete batch. */
  lemma ReconnectDecision(l: Limits, s: State)
    requires l.Sane() && Reachable(l, s) && Enabled(s, Close)
    ensures Step(l, s, Close).phase == if s.callbackCounter == 0 || s.callbackCounter == l.m then Finished else Waiting
    ensures s.callbackCounter == l.m ==> s.iter == l.m && s.Unsettled() == 0 && s.batch == seq(l.m, i => i)
  {
    ReachableInv(l, s);
  }

  lemma EndingStep(l: Limits, s: State, e: Event)
    requires 1 <= l.m && 0 <= s.callbackCounter <= l.m && Enabled(s, e) && !s.phase.Finished?
    ensures Step(l, s, e).phase.Finished? <==>
            || e == Connect(InitFails)
            || ((e == Connect(NoHandle) || e == Close) && (s.callbackCounter == 0 || s.callbackCounter == l.m))
  {
  }

  /** The only ways for the task to end. */
  lemma TaskEnds(l: Limits, s: State, e: Event)
    requires l.Sane() && Reachable(l, s) && Enabled(s, e) && !s.phase.Finished?
    ensures Step(l, s, e).phase.Finished? <==>
            || e == Connect(InitFails)
            || ((e == Connect(NoHandle) || e == Close) && (s.callbackCounter == 0 || s.callbackCounter == l.m))
  {
    WindowConservation(l, s);
    EndingStep(l, s, e);
  }

  lemma NoCallbackStep(l: Limits, s: State, e: Event)
    requires s.phase.Closing? && s.pending == [] && Enabled(s, e) && e != Close
    ensures var s' := Step(l, s, e);
            && s'.phase.Closing? && s'.pending == [] && s'.sent == s.sent
            && s'.iter == s.iter && s'.callbackCounter == s.callbackCounter && s'.connected == s.connected
  {
  }

  lemma {:induction false} NoCallbackRun(l: Limits, s: State, es: seq<Event>)
    requires s.phase.Closing? && s.pending == [] && Feasible(l, s, es) && Close !in es
    ensures var s' := After(l, s, es);
            && s'.phase.Closing? && s'.pending == [] && s'.sent == s.sent
            && s'.iter == s.iter && s'.callbackCounter == s.callbackCounter && s'.connected == s.connected
    decreases |es|
  {
    if es != [] {
      assert es[0] in es;
      assert forall e :: e in es[1..] ==> e in es;
      NoCallbackStep(l, s, es[0]);
      NoCallbackRun(l, Step(l, s, es[0]), es[1..]);
    }
  }

  /** A client whose message callback cannot be installed is closed without a message sent,
      a slot used or the flag touched; the task then retries or ends as the counter had it
      before. */
  lemma NoCallbackOnlyCloses(l: Limits, s: State, es: seq<Event>)
    requires l.Sane() && Reachable(l, s) && s.phase.Waiting?
    requires Feasible(l, s, [Connect(NoCallback)] + es) && Close !in es
    ensures var t := After(l, s, [Connect(NoCallback)] + es);
            && t.sent == s.sent && t.iter == s.iter && t.connected == s.connected
            && Enabled(t, Close)
            && (Step(l, t, Close).phase.Finished? <==> s.callbackCounter == 0 || s.callbackCounter == l.m)
            && (Step(l, t, Close).phase.Waiting? <==> !Step(l, t, Close).phase.Finished?)
  {
    assert ([Connect(NoCallback)] + es)[1..] == es;
    assert s.pending == [] by {
      ReachableInv(l, s);
    }
    WindowConservation(l, s);
    NoCallbackRun(l, Step(l, s, Connect(NoCallback)), es);
  }

  lemma AwayStep(l: Limits, s: State, e: Event)
    requires !s.phase.Polling? && Enabled(s, e) && e != EndWork(false) && e != Connect(Connected)
    ensures !Step(l, s, e).phase.Polling?
  {
  }

  lemma {:induction false} AwayRun(l: Limits, s: State, es: seq<Event>)
    requires !s.phase.Polling? && Feasible(l, s, es) && EndWork(false) !in es && Connect(Connected) !in es
    ensures !After(l, s, es).phase.Polling?
    decreases |es|
  {
    if es != [] {
      assert es[0] in es;
      assert forall e :: e in es[1..] ==> e in es;
      AwayStep(l, s, es[0]);
      AwayRun(l, Step(l, s, es[0]), es[1..]);
    }
  }

  /** Between two tests of the guard lies a DoWork, or a new connection: every message
      offered, failed ones too, is followed by DoWork before the next is considered. */
  lemma EveryRoundWorks(l: Limits, s: State, es: seq<Event>)
    requires s.phase.Polling? && Feasible(l, s, [Poll] + es) && After(l, s, [Poll] + es).phase.Polling?
    ensures EndWork(false) in es || Connect(Connected) in es
  {
    assert ([Poll] + es)[1..] == es;
    if EndWork(false) !in es && Connect(Connected) !in es {
      AwayRun(l, Step(l, s, Poll), es);
    }
  }

  lemma AtGuardStep(l: Limits, s: State, e: Event)
    requires s.phase.Polling? && Enabled(s, e) && e != Poll
    ensures Step(l, s, e).phase.Polling?
  {
  }

  lemma {:induction false} AtGuardRun(l: Limits, s: State, es: seq<Event>)
    requires s.phase.Polling? && Feasible(l, s, es) && Poll !in es
    ensures After(l, s, es).phase.Polling?
    decreases |es|
  {
    if es != [] {
      assert es[0] in es;
      assert forall e :: e in es[1..] ==> e in es;
      AtGuardStep(l, s, es[0]);
      AtGuardRun(l, Step(l, s, es[0]), es[1..]);
    }
  }

  /** And before every DoWork the guard is tested: a connection that comes up, and a round
      that has ended without an abort, stand at the guard until it is. */
  lemma GuardComesFirst(l: Limits, s: State, e: Event, es: seq<Event>)
    requires e == Connect(Connected) || e == EndWork(false)
    requires Feasible(l, s, [e] + es) && Poll !in es
    ensures After(l, s, [e] + es).phase.Polling?
  {
    assert ([e] + es)[1..] == es;
    AtGuardRun(l, Step(l, s, e), es);
  }

  // ---------- an eviction racing a send ----------

  /** A reading in hand stays in hand until its attempt fails or its remove. */
  lemma HeldStep(l: Limits, s: State, e: Event)
    requires (s.phase.Peeked? || s.phase.Sent?) && Enabled(s, e) && e != Commit
    ensures var s' := Step(l, s, e);
            || (Idle(s') && s'.Failures() >= 1)
            || ((s'.phase.Peeked? || s'.phase.Sent?) && s'.phase.reading == s.phase.reading
                && s'.fifo.taken - s.fifo.taken == s'.overruns - s.overruns)
  {
  }

  lemma {:induction false} HeldReading(l: Limits, s: State, es: seq<Event>)
    requires l.Sane() && Inv(l, s) && (s.phase.Peeked? || s.phase.Sent?)
    requires Feasible(l, s, es) && Commit !in es && After(l, s, es).phase.Sent?
    ensures var t := After(l, s, es);
            && t.phase.reading == s.phase.reading
            && t.fifo.taken - s.fifo.taken == t.overruns - s.overruns
    decreases |es|
  {
    if es != [] {
      assert es[0] in es;
      HeldStep(l, s, es[0]);
      StepKeepsInv(l, s, es[0]);
      if Idle(Step(l, s, es[0])) {
        GuardStaysClosed(l, Step(l, s, es[0]), es[1..]);
      } else {
        HeldReading(l, Step(l, s, es[0]), es[1..]);
      }
    }
  }

  /** The record removed after a send is the record that was sent, if and only if no
      insert between the peek and the remove found the buffer full. Either way the
      remove finds a record. */
  lemma RemovedIsSent(l: Limits, s: State, es: seq<Event>)
    requires l.Sane() && Reachable(l, s) && s.phase.Checked?
    requires Feasible(l, s, [Peek] + es) && Commit !in es && After(l, s, [Peek] + es).phase.Sent?
    ensures var t := After(l, s, [Peek] + es);
            && Buffered(t.fifo)
            && t.phase.reading == s.fifo.taken
            && (t.fifo.taken == t.phase.reading <==> t.overruns == s.overruns)
  {
    ReachableInv(l, s);
    StepKeepsInv(l, s, Peek);
    assert ([Peek] + es)[1..] == es;
    HeldReading(l, Step(l, s, Peek), es);
    RunKeepsInv(l, Step(l, s, Peek), es);
  }

  lemma RunThree(l: Limits, s: State, a: Event, b: Event, c: Event)
    requires Enabled(s, a) && Enabled(Step(l, s, a), b) && Enabled(Step(l, Step(l, s, a), b), c)
    ensures Feasible(l, s, [a, b, c])
    ensures After(l, s, [a, b, c]) == Step(l, Step(l, Step(l, s, a), b), c)
  {
    var s1 := Step(l, s, a);
    RunOne(l, s, a);
    RunOne(l, s1, b);
    RunAppend(l, s, [a], [b]);
    RunOne(l, Step(l, s1, b), c);
    RunAppend(l, s, [a] + [b], [c]);
    assert [a] + [b] + [c] == [a, b, c];
  }

  /** The race itself, on any full buffer: a reading is evicted, then sent, and its
      successor is removed without ever being sent. */
  lemma RaceDropsNext(l: Limits, s: State, x: Record)
    requires l.Sane() && Reachable(l, s) && s.phase.Peeked? && Full(l, s.fifo) && s.phase.reading == s.fifo.taken
    ensures var es := [Event.Insert(x), Attempt(Accepted), Commit];
            && Feasible(l, s, es)
            && var t := After(l, s, es);
            && t.sent == s.sent + [s.fifo.taken]
            && t.fifo.taken == s.fifo.taken + 2
            && s.fifo.taken + 1 in Dropped(t)
            && t.overruns == s.overruns + 1
  {
    ReachableInv(l, s);
    RunThree(l, s, Event.Insert(x), Attempt(Accepted), Commit);
    assert s.fifo.taken + 1 !in s.sent;
  }
}
