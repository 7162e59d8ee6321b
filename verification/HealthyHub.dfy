/** Delivery by a hub that accepts and confirms: what is sent while nothing overruns, and
    that every reading leaves the buffer in every fair endless run. */
module HealthyHub {
  import opened DataBuffer
  import opened Telemetry
  import opened Delivery

  // ---------- what is sent while nothing overruns ----------

  /** The k insertion indexes from lo onwards. */
  function Consecutive(lo: nat, k: nat): seq<nat>
    decreases k
  {
    if k == 0 then [] else [lo] + Consecutive(lo + 1, k - 1)
  }

  lemma {:induction false} ConsecutiveAppend(lo: nat, j: nat, k: nat)
    ensures Consecutive(lo, j) + Consecutive(lo + j, k) == Consecutive(lo, j + k)
    decreases j
  {
    if j > 0 {
      ConsecutiveAppend(lo + 1, j - 1, k);
    }
  }

  lemma {:induction false} ConsecutiveFacts(lo: nat, k: nat)
    ensures |Consecutive(lo, k)| == k
    ensures forall i :: lo <= i < lo + k ==> i in Consecutive(lo, k)
    decreases k
  {
    if k > 0 {
      ConsecutiveFacts(lo + 1, k - 1);
    }
  }

  lemma ConsecutiveNext(lo: nat, k: nat)
    ensures Consecutive(lo, k) + [lo + k] == Consecutive(lo, k + 1)
  {
    ConsecutiveAppend(lo, k, 1);
    assert Consecutive(lo + k, 1) == [lo + k];
  }

  /** The copy in hand, if there is one, is of the oldest reading buffered. */
  ghost predicate Current(s: State) {
    s.phase.Peeked? || s.phase.Sent? ==> s.phase.reading == s.fifo.taken
  }

  /** What has been sent after base are the readings from lo on, without a gap. */
  ghost predicate InStep(base: seq<nat>, lo: nat, u: State) {
    && lo <= u.fifo.taken
    && Current(u)
    && u.sent == base + Consecutive(lo, u.fifo.taken - lo + u.Awaiting())
  }

  lemma AttemptInStep(base: seq<nat>, lo: nat, u: State, outcome: Outcome)
    requires u.phase.Peeked? && InStep(base, lo, u)
    ensures InStep(base, lo, DoAttempt(u, outcome))
  {
    ConsecutiveNext(lo, u.fifo.taken - lo);
  }

  lemma InStepKept(l: Limits, base: seq<nat>, lo: nat, u: State, e: Event)
    requires OrderInv(l, u) && InStep(base, lo, u) && Enabled(u, e)
    requires Step(l, u, e).overruns == u.overruns
    ensures InStep(base, lo, Step(l, u, e))
  {
    if e.Attempt? {
      AttemptInStep(base, lo, u, e.outcome);
    }
  }

  lemma CountersGrow(l: Limits, s: State, e: Event)
    requires Enabled(s, e)
    ensures s.overruns <= Step(l, s, e).overruns && s.fifo.taken <= Step(l, s, e).fifo.taken
    ensures s.fifo.accepted <= Step(l, s, e).fifo.accepted
  {
  }

  lemma {:induction false} RunInStep(l: Limits, base: seq<nat>, lo: nat, u: State, es: seq<Event>)
    requires l.Sane() && Reachable(l, u) && Feasible(l, u, es)
    ensures u.overruns <= After(l, u, es).overruns && u.fifo.taken <= After(l, u, es).fifo.taken
    ensures InStep(base, lo, u) && After(l, u, es).overruns == u.overruns ==> InStep(base, lo, After(l, u, es))
    decreases |es|
  {
    if es != [] {
      var u1 := Step(l, u, es[0]);
      CountersGrow(l, u, es[0]);
      ReachableStep(l, u, es[0]);
      RunInStep(l, base, lo, u1, es[1..]);
      if InStep(base, lo, u) && After(l, u, es).overruns == u.overruns {
        assert OrderInv(l, u) by {
          ReachableInv(l, u);
        }
        InStepKept(l, base, lo, u, es[0]);
      }
    }
  }

  lemma TakenIsSum(l: Limits, s: State)
    requires l.Sane() && Reachable(l, s) && !s.phase.Sent?
    ensures s.fifo.taken == s.overruns + |s.sent|
  {
    ReachableInv(l, s);
  }

  /** Between any two moments without a send in hand, whatever happens in between, exactly
      the readings that left the buffer were sent, in order and without a gap, if and only
      if no insert met a full buffer. */
  lemma ExactDelivery(l: Limits, s: State, es: seq<Event>)
    requires l.Sane() && Reachable(l, s) && !s.phase.Sent? && Current(s)
    requires Feasible(l, s, es) && !After(l, s, es).phase.Sent?
    ensures var t := After(l, s, es);
            && s.fifo.taken <= t.fifo.taken
            && (t.sent == s.sent + Consecutive(s.fifo.taken, t.fifo.taken - s.fifo.taken)
                <==> t.overruns == s.overruns)
  {
    var t := After(l, s, es);
    TakenIsSum(l, s);
    ReachableRun(l, s, es);
    TakenIsSum(l, t);
    assert InStep(s.sent, s.fifo.taken, s);
    RunInStep(l, s.sent, s.fifo.taken, s, es);
    ConsecutiveFacts(s.fifo.taken, t.fifo.taken - s.fifo.taken);
  }

  // ---------- endless runs ----------

  /** An endless run: event n leads from the n-th state to the next. */
  datatype Endless = Endless(at: nat -> State, event: nat -> Event)

  /** The hub refuses nothing, forgets nothing, and the connection holds. */
  predicate Kind(e: Event) {
    e != Attempt(CreateFails) && e != Attempt(Rejected) && !e.Lose? && e != EndWork(true)
  }

  ghost predicate StepAt(l: Limits, r: Endless, n: nat) {
    && Enabled(r.at(n), r.event(n)) && Kind(r.event(n))
    && r.at(n + 1) == Step(l, r.at(n), r.event(n))
  }

  /** From a state with a connection in which nothing has failed, any steps but unkind ones. */
  ghost predicate Healthy(l: Limits, r: Endless) {
    && Reachable(l, r.at(0)) && Well(r.at(0))
    && forall n: nat :: StepAt(l, r, n)
  }

  ghost predicate SenderMoves(r: Endless, n: nat) {
    exists k: nat :: n <= k && !r.event(k).Insert?
  }

  ghost predicate Confirms(r: Endless, n: nat) {
    exists k: nat :: n <= k && r.event(k).Confirm?
  }

  /** The sender always gets to run again, and what is pending is some day confirmed.
      Producers may insert at any time, as often as they like. */
  ghost predicate Fair(r: Endless) {
    && (forall n: nat :: SenderMoves(r, n))
    && (forall n: nat :: r.at(n).pending != [] ==> Confirms(r, n))
  }

  /** Connected, and nothing has ever failed. */
  ghost predicate Well(s: State) {
    Live(s.phase) && s.Failures() == 0 && s.lost == []
  }

  lemma WellKept(l: Limits, s: State, e: Event)
    requires Well(s) && Enabled(s, e) && Kind(e)
    ensures Well(Step(l, s, e))
  {
  }

  lemma {:induction false} AtWell(l: Limits, r: Endless, n: nat)
    requires Healthy(l, r)
    ensures Reachable(l, r.at(n)) && Well(r.at(n))
  {
    if n > 0 {
      AtWell(l, r, n - 1);
      assert StepAt(l, r, n - 1);
      ReachableStep(l, r.at(n - 1), r.event(n - 1));
      WellKept(l, r.at(n - 1), r.event(n - 1));
    }
  }

  /** How far the sender is from taking the next reading. */
  function Rank(s: State): nat {
    if s.phase.Sent? then 1
    else if s.phase.Peeked? then 2
    else if s.phase.Checked? then 3
    else if s.pending != [] then 6
    else if s.phase.Polling? then 4
    else 5
  }

  /** The events that bring it closer. */
  predicate Helps(s: State, e: Event) {
    if Rank(s) == 6 then e.Confirm? else !e.Insert?
  }

  /** Either a reading leaves the buffer, or the rank does not rise, and falls with every
      event that helps. */
  lemma RankFalls(l: Limits, s: State, e: Event)
    requires 1 <= l.m && WindowInv(l, s) && Well(s) && Buffered(s.fifo) && Enabled(s, e) && Kind(e)
    ensures var t := Step(l, s, e);
            || t.fifo.taken > s.fifo.taken
            || (t.fifo.taken == s.fifo.taken && Rank(t) <= Rank(s) && (Helps(s, e) ==> Rank(t) < Rank(s)))
  {
  }

  /** Seen from x, a reading has left or the sender is no farther from it. */
  ghost predicate NoFarther(x: State, y: State) {
    || y.fifo.taken > x.fifo.taken
    || (y.fifo.taken == x.fifo.taken && Buffered(y.fifo) && Rank(y) <= Rank(x))
  }

  lemma {:induction false} NoFartherAt(l: Limits, r: Endless, n: nat, k: nat)
    requires l.Sane() && Healthy(l, r)
    requires n <= k && Buffered(r.at(n).fifo)
    ensures NoFarther(r.at(n), r.at(k))
    decreases k
  {
    if n < k {
      NoFartherAt(l, r, n, k - 1);
      NoFartherNext(l, r, k - 1);
    }
  }

  lemma NoFartherNext(l: Limits, r: Endless, k: nat)
    requires l.Sane() && Healthy(l, r)
    ensures var x, y := r.at(k), r.at(k + 1);
            && x.fifo.taken <= y.fifo.taken && x.fifo.accepted <= y.fifo.accepted
            && (Buffered(x.fifo) ==>
                  NoFarther(x, y) && (Helps(x, r.event(k)) ==> y.fifo.taken > x.fifo.taken || Rank(y) < Rank(x)))
  {
    var x := r.at(k);
    assert StepAt(l, r, k);
    CountersGrow(l, x, r.event(k));
    if Buffered(x.fifo) {
      AtWell(l, r, k);
      assert WindowInv(l, x) by {
        ReachableInv(l, x);
      }
      RankFalls(l, x, r.event(k));
    }
  }

  lemma HelpComes(l: Limits, r: Endless, n: nat) returns (k: nat)
    requires Fair(r)
    ensures n <= k
    ensures if Rank(r.at(n)) == 6 then r.event(k).Confirm? else !r.event(k).Insert?
  {
    if Rank(r.at(n)) == 6 {
      assert Confirms(r, n);
      k :| n <= k && r.event(k).Confirm?;
    } else {
      assert SenderMoves(r, n);
      k :| n <= k && !r.event(k).Insert?;
    }
  }

  lemma {:induction false} TakenGrows(l: Limits, r: Endless, n: nat) returns (k: nat)
    requires l.Sane() && Healthy(l, r) && Fair(r)
    requires Buffered(r.at(n).fifo)
    ensures n <= k && r.at(k).fifo.taken > r.at(n).fifo.taken
    decreases Rank(r.at(n))
  {
    var j := HelpComes(l, r, n);
    NoFartherAt(l, r, n, j);
    NoFartherNext(l, r, j);
    if r.at(j + 1).fifo.taken > r.at(n).fifo.taken {
      k := j + 1;
    } else {
      assert Buffered(r.at(j + 1).fifo);
      k := TakenGrows(l, r, j + 1);
    }
  }

  lemma {:induction false} AcceptedStays(l: Limits, r: Endless, n: nat, k: nat)
    requires l.Sane() && Healthy(l, r) && n <= k
    ensures r.at(n).fifo.accepted <= r.at(k).fifo.accepted
    decreases k
  {
    if n < k {
      AcceptedStays(l, r, n, k - 1);
      NoFartherNext(l, r, k - 1);
    }
  }

  lemma {:induction false} ReadingLeaves(l: Limits, r: Endless, n: nat, i: nat) returns (k: nat)
    requires l.Sane() && Healthy(l, r) && Fair(r)
    requires i < |r.at(n).fifo.accepted|
    ensures n <= k && i < r.at(k).fifo.taken
    decreases i + 1 - r.at(n).fifo.taken
  {
    k := n;
    if r.at(n).fifo.taken <= i {
      var j := TakenGrows(l, r, n);
      AcceptedStays(l, r, n, j);
      k := ReadingLeaves(l, r, j, i);
    }
  }

  /** Reading i has left the buffer by the k-th event. */
  ghost predicate GoneBy(l: Limits, r: Endless, i: nat, k: nat) {
    i < r.at(k).fifo.taken
  }

  ghost predicate SentBy(l: Limits, r: Endless, i: nat, k: nat) {
    i in r.at(k).sent
  }

  /** In every fair endless run on a healthy hub every reading ever inserted some day leaves
      the buffer, to be counted as sent or dropped, however inserts fall and however often
      the window wraps. */
  lemma EveryReadingLeaves(l: Limits, r: Endless, n: nat, i: nat)
    requires l.Sane() && Healthy(l, r) && Fair(r)
    requires i < |r.at(n).fifo.accepted|
    ensures exists k: nat :: n <= k && GoneBy(l, r, i, k)
  {
    var k := ReadingLeaves(l, r, n, i);
    assert GoneBy(l, r, i, k);
  }

  lemma {:induction false} AtInStep(l: Limits, r: Endless, k: nat)
    requires l.Sane() && Healthy(l, r)
    requires !r.at(0).phase.Sent? && Current(r.at(0))
    requires forall j: nat :: r.at(j).overruns == r.at(0).overruns
    ensures InStep(r.at(0).sent, r.at(0).fifo.taken, r.at(k))
  {
    if k > 0 {
      var u := r.at(k - 1);
      AtInStep(l, r, k - 1);
      assert StepAt(l, r, k - 1);
      AtWell(l, r, k - 1);
      assert OrderInv(l, u) by {
        ReachableInv(l, u);
      }
      assert r.at(k).overruns == u.overruns;
      InStepKept(l, r.at(0).sent, r.at(0).fifo.taken, u, r.event(k - 1));
    }
  }

  /** If besides no insert ever meets a full buffer, every reading buffered at the start or
      inserted later is some day sent, and what has been sent is at all times a run of
      consecutive readings. */
  lemma EveryReadingIsSent(l: Limits, r: Endless, n: nat, i: nat)
    requires l.Sane() && Healthy(l, r) && Fair(r)
    requires !r.at(0).phase.Sent? && Current(r.at(0))
    requires forall j: nat :: r.at(j).overruns == r.at(0).overruns
    ensures InStep(r.at(0).sent, r.at(0).fifo.taken, r.at(n))
    ensures r.at(0).fifo.taken <= i < |r.at(n).fifo.accepted| ==>
            exists k: nat :: n <= k && SentBy(l, r, i, k)
  {
    AtInStep(l, r, n);
    if r.at(0).fifo.taken <= i < |r.at(n).fifo.accepted| {
      var k := ReadingLeaves(l, r, n, i);
      AtInStep(l, r, k);
      var u := r.at(k);
      ConsecutiveFacts(r.at(0).fifo.taken, u.fifo.taken - r.at(0).fifo.taken + u.Awaiting());
      assert SentBy(l, r, i, k);
    }
  }

  // ---------- one run that drains the buffer ----------

  const OFFER := [Poll, Peek, Attempt(Accepted)]
  const SETTLE := [Commit, Confirm(0), EndWork(false)]
  const CYCLE := OFFER + SETTLE

  function Cycles(k: nat): seq<Event> {
    if k == 0 then [] else CYCLE + Cycles(k - 1)
  }

  /** Connected, at the loop head, nothing outstanding and nothing ever failed. */
  ghost predicate Ready(s: State) {
    s.phase.Polling? && s.Unsettled() == 0
  }

  /** Between s and t the k oldest readings were delivered, and nothing else happened. */
  ghost predicate Delivered(s: State, t: State, k: nat) {
    && Ready(t)
    && t.sent == s.sent + Consecutive(s.fifo.taken, k)
    && t.fifo == Fifo(s.fifo.accepted, s.fifo.taken + k)
    && t.overruns == s.overruns
  }

  lemma DeliveredTwice(s: State, t: State, u: State, j: nat, k: nat)
    requires Delivered(s, t, j) && Delivered(t, u, k)
    ensures Delivered(s, u, j + k)
  {
    ConsecutiveAppend(s.fifo.taken, j, k);
  }

  ghost predicate Delivers(l: Limits, s: State, es: seq<Event>, k: nat) {
    Feasible(l, s, es) && Delivered(s, After(l, s, es), k)
  }

  lemma OfferAccepted(l: Limits, s: State)
    requires l.Sane() && WindowInv(l, s) && Ready(s) && Buffered(s.fifo)
    ensures Feasible(l, s, OFFER)
    ensures var t := After(l, s, OFFER);
            && t.phase == Sent(s.fifo.taken) && t.Failures() + |t.lost| == 0 && |t.pending| == 1
            && t.sent == s.sent + [s.fifo.taken] && t.fifo == s.fifo && t.overruns == s.overruns
  {
    assert s.iter == s.callbackCounter;
    RunThree(l, s, Poll, Peek, Attempt(Accepted));
  }

  lemma OfferSettled(l: Limits, s: State)
    requires s.phase.Sent? && Buffered(s.fifo) && s.Failures() + |s.lost| == 0 && |s.pending| == 1
    ensures Feasible(l, s, SETTLE)
    ensures var t := After(l, s, SETTLE);
            && Ready(t) && t.sent == s.sent && t.overruns == s.overruns
            && t.fifo == Fifo(s.fifo.accepted, s.fifo.taken + 1)
  {
    RunThree(l, s, Commit, Confirm(0), EndWork(false));
  }

  lemma CycleDelivers(l: Limits, s: State)
    requires l.Sane() && Reachable(l, s) && Ready(s) && Buffered(s.fifo)
    ensures Delivers(l, s, CYCLE, 1)
  {
    WindowConservation(l, s);
    ReachableInv(l, s);
    OfferAccepted(l, s);
    OfferSettled(l, After(l, s, OFFER));
    RunAppend(l, s, OFFER, SETTLE);
    assert Consecutive(s.fifo.taken, 1) == [s.fifo.taken];
  }

  lemma DeliversAppend(l: Limits, s: State, a: seq<Event>, j: nat, b: seq<Event>, k: nat)
    requires Delivers(l, s, a, j) && Delivers(l, After(l, s, a), b, k)
    ensures Delivers(l, s, a + b, j + k)
  {
    RunAppend(l, s, a, b);
    DeliveredTwice(s, After(l, s, a), After(l, After(l, s, a), b), j, k);
  }

  lemma {:induction false} CyclesDeliver(l: Limits, s: State, k: nat)
    requires l.Sane() && Reachable(l, s) && Ready(s) && s.fifo.taken + k <= |s.fifo.accepted|
    ensures Delivers(l, s, Cycles(k), k)
    decreases k
  {
    if k > 0 {
      CycleDelivers(l, s);
      ReachableRun(l, s, CYCLE);
      CyclesDeliver(l, After(l, s, CYCLE), k - 1);
      DeliversAppend(l, s, CYCLE, 1, Cycles(k - 1), k - 1);
    }
  }

  /** There is such a run: when the hub accepts and confirms each message at once, and
      nothing is inserted meanwhile, the sender empties the buffer in order. */
  lemma DrainingRun(l: Limits, s: State)
    requires l.Sane() && Reachable(l, s) && Ready(s)
    ensures s.fifo.taken <= |s.fifo.accepted|
    ensures var k := |s.fifo.accepted| - s.fifo.taken;
            && Delivers(l, s, Cycles(k), k)
            && !Buffered(After(l, s, Cycles(k)).fifo)
  {
    ReachableInv(l, s);
    CyclesDeliver(l, s, |s.fifo.accepted| - s.fifo.taken);
  }

  /** Turning the loop with nothing to send. */
  function Idling(s: State): Endless {
    Endless(n => if n % 2 == 0 then s else s.(phase := Working), n => if n % 2 == 0 then Poll else EndWork(false))
  }

  lemma IdlingSteps(l: Limits, s: State)
    requires s.phase.Polling? && !Buffered(s.fifo)
    ensures Step(l, s, Poll) == s.(phase := Working) && Step(l, s.(phase := Working), EndWork(false)) == s
  {
  }

  lemma IdlingStep(l: Limits, s: State, n: nat)
    requires s.phase.Polling? && !Buffered(s.fifo)
    ensures StepAt(l, Idling(s), n) && SenderMoves(Idling(s), n) && Idling(s).at(n).pending == s.pending
  {
    IdlingSteps(l, s);
    assert n <= n && !Idling(s).event(n).Insert?;
  }

  /** From there a fair endless run goes on. */
  lemma FairRunExists(l: Limits, s: State)
    requires Reachable(l, s) && Ready(s) && !Buffered(s.fifo)
    ensures exists r: Endless :: r.at(0) == s && Healthy(l, r) && Fair(r)
  {
    var r := Idling(s);
    forall n: nat
      ensures StepAt(l, r, n) && SenderMoves(r, n) && r.at(n).pending == []
    {
      IdlingStep(l, s, n);
    }
    assert r.at(0) == s && Well(s);
  }
}
