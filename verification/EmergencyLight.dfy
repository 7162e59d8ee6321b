/** The emergency-light test as a state machine: hub commands, the hardware timer with its
    latched counter, the interrupt and its bounded queue, the event task, the manager. */
module EmergencyLight {

  /** Timer ticks per second and length of the event queue, both symbolic. */
  datatype Board = Board(scale: nat, depth: nat) {
    predicate Sane() {
      1 <= scale && 1 <= depth
    }

    /** The test time-out of 60 s, in ticks. */
    function Timeout(): nat {
      60 * scale
    }

    /** The first alarm, 3.4179 s, truncated to whole ticks. */
    function Interval(): nat {
      34179 * scale / 10000
    }
  }

  const TIMER_0 := 0
  const TEST_WITHOUT_RELOAD := 0

  /** An interrupt's report: which timer, and its counter when it was taken. */
  datatype TimerEvent = TimerEvent(kind: int, idx: int, counter: nat)

  datatype State = State(
    counter: nat,             // the running hardware counter
    latched: nat,             // cnt_high and cnt_low: the last value copied out of it
    alarm: nat,               // alarm_high and alarm_low
    running: bool,            // timer started, not paused
    queue: seq<TimerEvent>,   // timer_queue
    endOfTest: bool,          // end_of_test
    lamp: bool,               // level of the test output
    status: nat               // status_el_gi
  )

  datatype Event =
    | TestOn    // hub command
    | TestOff   // hub command
    | Tick      // one timer tick, with the interrupt if the alarm is reached
    | Handle    // the event task gets to run
    | Manage    // the periodic manager gets to run

  function Init(b: Board): State {
    State(0, 0, b.Interval(), true, [], true, false, 0)
  }

  /** The interrupt: latch, queue the event unless the queue is full, move the alarm,
      pause. */
  function Interrupt(b: Board, s: State): State {
    s.(latched := s.counter,
       alarm := s.counter + b.Interval(),
       running := false,
       queue := if |s.queue| < b.depth
                then s.queue + [TimerEvent(TEST_WITHOUT_RELOAD, TIMER_0, s.counter)]
                else s.queue)
  }

  function Step(b: Board, s: State, e: Event): State {
    match e
    case TestOn =>
      s.(lamp := true, status := 1,
         alarm := s.latched + b.Timeout(), running := true, endOfTest := false)
    case TestOff =>
      s.(lamp := false, status := 0)
    case Tick =>
      if !s.running then s
      else if s.counter + 1 == s.alarm then Interrupt(b, s.(counter := s.counter + 1))
      else s.(counter := s.counter + 1)
    case Handle =>
      if s.queue == [] then s
      else if s.queue[0].idx == TIMER_0 then s.(queue := s.queue[1..], latched := s.counter, endOfTest := true)
      else s.(queue := s.queue[1..])
    case Manage =>
      if s.endOfTest then s.(lamp := false, status := 0) else s
  }

  function After(b: Board, s: State, es: seq<Event>): State
    decreases |es|
  {
    if es == [] then s else After(b, Step(b, s, es[0]), es[1..])
  }

  ghost predicate Reachable(b: Board, s: State) {
    exists es :: s == After(b, Init(b), es)
  }

  // ---------- what every step keeps ----------

  /** The lamp is never on without something that will lead to its being switched off. */
  predicate OffIsPending(s: State) {
    s.lamp ==> s.running || s.queue != [] || s.endOfTest
  }

  ghost predicate Inv(b: Board, s: State) {
    && OffIsPending(s)
    && s.status == (if s.lamp then 1 else 0)
    && |s.queue| <= b.depth
    && (forall i :: 0 <= i < |s.queue| ==> s.queue[i].idx == TIMER_0)
    && s.latched <= s.counter
    && (s.running ==> s.counter < s.alarm <= s.latched + b.Timeout())
    && (!s.running ==> s.latched == s.counter && s.alarm == s.counter + b.Interval())
    && (!s.endOfTest ==> s.running || s.queue != [])
  }

  lemma StepKeepsInv(b: Board, s: State, e: Event)
    requires b.Sane() && Inv(b, s)
    ensures Inv(b, Step(b, s, e))
  {
  }

  lemma {:induction false} RunKeepsInv(b: Board, s: State, es: seq<Event>)
    requires b.Sane() && Inv(b, s)
    ensures Inv(b, After(b, s, es))
    decreases |es|
  {
    if es != [] {
      StepKeepsInv(b, s, es[0]);
      RunKeepsInv(b, Step(b, s, es[0]), es[1..]);
    }
  }

  lemma ReachableInv(b: Board, s: State)
    requires b.Sane() && Reachable(b, s)
    ensures Inv(b, s)
  {
    var es :| s == After(b, Init(b), es);
    RunKeepsInv(b, Init(b), es);
  }

  lemma {:induction false} AfterAppend(b: Board, s: State, es: seq<Event>, e: Event)
    ensures After(b, s, es + [e]) == Step(b, After(b, s, es), e)
    decreases |es|
  {
    if es == [] {
      assert [e][1..] == [];
      assert [] + [e] == [e];
    } else {
      assert (es + [e])[1..] == es[1..] + [e];
      AfterAppend(b, Step(b, s, es[0]), es[1..], e);
    }
  }

  lemma ReachableStep(b: Board, s: State, e: Event)
    requires Reachable(b, s)
    ensures Reachable(b, Step(b, s, e))
  {
    var es :| s == After(b, Init(b), es);
    AfterAppend(b, Init(b), es, e);
  }

  /** Light safety, although the interrupt drops its event when the queue is full. */
  lemma LampOffIsPending(b: Board, s: State)
    requires b.Sane() && Reachable(b, s)
    ensures s.lamp ==> s.running || s.queue != [] || s.endOfTest
    ensures s.status == if s.lamp then 1 else 0
    ensures |s.queue| <= b.depth
  {
    ReachableInv(b, s);
  }

  lemma {:induction false} StaysDark(b: Board, s: State, es: seq<Event>)
    requires TestOn !in es && !s.lamp && s.status == 0
    ensures !After(b, s, es).lamp && After(b, s, es).status == 0
    ensures s.endOfTest ==> After(b, s, es).endOfTest
    decreases |es|
  {
    if es != [] {
      assert es[0] in es;
      assert forall e :: e in es[1..] ==> e in es;
      StaysDark(b, Step(b, s, es[0]), es[1..]);
    }
  }

  /** TEST OFF is obeyed at once, in any state, and until the next TEST ON nothing lights
      the lamp again. Timer, latch, queue and end of test go on as if it had not come. */
  lemma TestOffDarkens(b: Board, s: State, es: seq<Event>)
    requires TestOn !in es
    ensures var t := After(b, Step(b, s, TestOff), es);
            !t.lamp && t.status == 0
    ensures Step(b, s, TestOff).(lamp := s.lamp, status := s.status) == s
  {
    StaysDark(b, Step(b, s, TestOff), es);
  }

  /** The timer is paused by nothing but a tick that brings the counter to the alarm. That
      tick reports the alarm's value to the event task, unless the queue is full. */
  lemma InterruptAtAlarm(b: Board, s: State, e: Event)
    requires b.Sane() && Reachable(b, s) && s.running
    ensures var t := Step(b, s, e);
            && (t.running <==> !(e == Tick && s.counter + 1 == s.alarm))
            && (!t.running ==>
                  && t.counter == t.latched == s.alarm
                  && t.queue == if |s.queue| < b.depth
                                then s.queue + [TimerEvent(TEST_WITHOUT_RELOAD, TIMER_0, s.alarm)] else s.queue)
  {
    ReachableInv(b, s);
  }

  /** What a step reports: an interrupt that meets a queue with room, one event. */
  function Report(b: Board, s: State, e: Event): seq<TimerEvent> {
    if s.running && e == Tick && s.counter + 1 == s.alarm && |s.queue| < b.depth
    then [TimerEvent(TEST_WITHOUT_RELOAD, TIMER_0, s.alarm)] else []
  }

  /** How many events a step receives: one, if the event task runs and finds one. */
  function Receipt(s: State, e: Event): (k: nat)
    ensures k <= |s.queue|
  {
    if e == Handle && s.queue != [] then 1 else 0
  }

  function Reports(b: Board, s: State, es: seq<Event>): seq<TimerEvent>
    decreases |es|
  {
    if es == [] then [] else Report(b, s, es[0]) + Reports(b, Step(b, s, es[0]), es[1..])
  }

  function Receipts(b: Board, s: State, es: seq<Event>): nat
    decreases |es|
  {
    if es == [] then 0 else Receipt(s, es[0]) + Receipts(b, Step(b, s, es[0]), es[1..])
  }

  lemma QueueStep(b: Board, s: State, e: Event)
    ensures Step(b, s, e).queue == (s.queue + Report(b, s, e))[Receipt(s, e)..]
  {
  }

  lemma Requeued<T>(q: seq<T>, now: seq<T>, later: seq<T>, k: nat)
    requires k <= |q|
    ensures (q + (now + later))[k..] == (q + now)[k..] + later
  {
  }

  /** Between the interrupt and the event task nothing is lost but what met a full queue, and
      nothing overtakes: the queue is always what was reported less what was received. */
  lemma {:induction false} QueueIsFifo(b: Board, s: State, es: seq<Event>)
    ensures Receipts(b, s, es) <= |s.queue| + |Reports(b, s, es)|
    ensures After(b, s, es).queue == (s.queue + Reports(b, s, es))[Receipts(b, s, es)..]
    decreases |es|
  {
    if es != [] {
      var s1, k := Step(b, s, es[0]), Receipt(s, es[0]);
      var now, later := Report(b, s, es[0]), Reports(b, s1, es[1..]);
      QueueStep(b, s, es[0]);
      QueueIsFifo(b, s1, es[1..]);
      Requeued(s.queue, now, later, k);
      var all := s.queue + (now + later);
      assert all[k..][Receipts(b, s1, es[1..])..] == all[k + Receipts(b, s1, es[1..])..];
    }
  }

  // ---------- termination ----------

  /** How far the lamp is from being off. */
  function Rank(s: State): int {
    if !s.lamp then 0
    else if s.endOfTest then 1
    else if s.queue != [] then 2
    else 2 + s.alarm - s.counter
  }

  /** The one event that brings it closer. */
  function Helpful(s: State): Event {
    if s.endOfTest then Manage
    else if s.queue != [] then Handle
    else Tick
  }

  /** Only TEST ON raises the rank, and the helpful event lowers it. */
  lemma RankFalls(b: Board, s: State, e: Event)
    requires b.Sane() && Inv(b, s) && e != TestOn
    ensures 0 <= Rank(Step(b, s, e)) <= Rank(s) <= 2 + b.Timeout()
    ensures s.lamp && e == Helpful(s) ==> Rank(Step(b, s, e)) < Rank(s)
  {
  }

  /** Until its event comes, the need for it stays. */
  lemma HelpfulStays(b: Board, s: State, e: Event)
    requires b.Sane() && Inv(b, s) && e != TestOn && s.lamp
    ensures Rank(Step(b, s, e)) == Rank(s) ==> Step(b, s, e).lamp && Helpful(Step(b, s, e)) == Helpful(s)
  {
  }

  /** The state after the first n events of an endless run. */
  ghost function At(b: Board, s: State, run: nat -> Event, n: nat): State {
    if n == 0 then s else Step(b, At(b, s, run, n - 1), run(n - 1))
  }

  lemma {:induction false} AtInv(b: Board, s: State, run: nat -> Event, n: nat)
    requires b.Sane() && Inv(b, s)
    ensures Inv(b, At(b, s, run, n))
  {
    if n > 0 {
      AtInv(b, s, run, n - 1);
      StepKeepsInv(b, At(b, s, run, n - 1), run(n - 1));
    }
  }

  /** Time passes, and both tasks keep getting their turn. */
  ghost predicate Fair(run: nat -> Event) {
    forall e, n: nat :: e == Tick || e == Handle || e == Manage ==> Recurs(run, e, n)
  }

  ghost predicate Recurs(run: nat -> Event, e: Event, n: nat) {
    exists k: nat :: n <= k && run(k) == e
  }

  ghost predicate NoTestOn(run: nat -> Event) {
    forall k: nat :: run(k) != TestOn
  }

  /** Compared with a state x the rank has fallen, or the same help is still needed. */
  ghost predicate NoFarther(x: State, y: State) {
    && Rank(y) <= Rank(x)
    && (Rank(y) == Rank(x) ==> y.lamp && Helpful(y) == Helpful(x))
  }

  lemma NoFartherStep(b: Board, x: State, y: State, e: Event)
    requires b.Sane() && Inv(b, x) && Inv(b, y) && x.lamp && e != TestOn && NoFarther(x, y)
    ensures NoFarther(x, Step(b, y, e))
  {
    RankFalls(b, y, e);
    if y.lamp {
      HelpfulStays(b, y, e);
    }
  }

  lemma {:induction false} WaitForHelp(b: Board, s: State, run: nat -> Event, n: nat, k: nat)
    requires b.Sane() && Inv(b, s) && NoTestOn(run) && n <= k
    requires At(b, s, run, n).lamp
    ensures NoFarther(At(b, s, run, n), At(b, s, run, k))
    decreases k
  {
    if n < k {
      var x, y := At(b, s, run, n), At(b, s, run, k - 1);
      assert At(b, s, run, k) == Step(b, y, run(k - 1));
      assert NoFarther(x, Step(b, y, run(k - 1))) by {
        WaitForHelp(b, s, run, n, k - 1);
        AtInv(b, s, run, n);
        AtInv(b, s, run, k - 1);
        NoFartherStep(b, x, y, run(k - 1));
      }
    }
  }

  lemma {:induction false} LampGoesOff(b: Board, s: State, run: nat -> Event, n: nat) returns (off: nat)
    requires b.Sane() && Inv(b, s) && Fair(run) && NoTestOn(run)
    ensures n <= off && !At(b, s, run, off).lamp
    decreases Rank(At(b, s, run, n))
  {
    var x := At(b, s, run, n);
    AtInv(b, s, run, n);
    if !x.lamp {
      off := n;
    } else {
      assert Recurs(run, Helpful(x), n);
      var k: nat :| n <= k && run(k) == Helpful(x);
      WaitForHelp(b, s, run, n, k);
      AtInv(b, s, run, k);
      RankFalls(b, At(b, s, run, k), run(k));
      AtInv(b, s, run, k + 1);
      off := LampGoesOff(b, s, run, k + 1);
    }
  }

  lemma {:induction false} LampStaysOff(b: Board, s: State, run: nat -> Event, n: nat, k: nat)
    requires NoTestOn(run) && n <= k && !At(b, s, run, n).lamp
    ensures !At(b, s, run, k).lamp
    decreases k
  {
    if n < k {
      LampStaysOff(b, s, run, n, k - 1);
    }
  }

  ghost predicate DarkFrom(b: Board, s: State, run: nat -> Event, n: nat) {
    forall k: nat :: n <= k ==> !At(b, s, run, k).lamp
  }

  /** Every fair run without a further TEST ON turns the lamp off for good. */
  lemma FairRunTurnsLampOff(b: Board, s: State, run: nat -> Event)
    requires b.Sane() && Reachable(b, s) && Fair(run) && NoTestOn(run)
    ensures exists n: nat :: DarkFrom(b, s, run, n)
  {
    ReachableInv(b, s);
    var n := LampGoesOff(b, s, run, 0);
    forall k: nat | n <= k
      ensures !At(b, s, run, k).lamp
    {
      LampStaysOff(b, s, run, n, k);
    }
    assert DarkFrom(b, s, run, n);
  }

  // ---------- the deadline ----------

  function Ticks(es: seq<Event>): nat
    decreases |es|
  {
    if es == [] then 0 else (if es[0].Tick? then 1 else 0) + Ticks(es[1..])
  }

  predicate NoCommand(es: seq<Event>) {
    TestOn !in es && TestOff !in es
  }

  /** Ticks from now to the end-of-test interrupt, once TEST ON is given. */
  function Window(b: Board, s: State): int {
    b.Timeout() - (s.counter - s.latched)
  }

  /** TEST ON never moves a pending deadline earlier, nor beyond 60 s of ticks from now. */
  lemma DeadlineOnlyMovesLater(b: Board, s: State)
    requires b.Sane() && Reachable(b, s)
    ensures var t := Step(b, s, TestOn);
            && t.counter < t.alarm <= t.counter + b.Timeout()
            && t.alarm - t.counter == Window(b, s)
            && (s.running ==> s.alarm <= t.alarm)
  {
    ReachableInv(b, s);
  }

  /** The timer is running before and after every event: no interrupt has come. */
  ghost predicate RunsThroughout(b: Board, s: State, es: seq<Event>) {
    forall k :: 0 <= k <= |es| ==> After(b, s, es[..k]).running
  }

  /** No event is handled: the event task does not run, or finds its queue empty. */
  predicate NothingHandled(s: State, es: seq<Event>) {
    s.queue == [] || Handle !in es
  }

  /** Whatever commands come, the latch stays as it is until an interrupt or a handled
      event, and so does the deadline of a test. */
  lemma {:induction false} LatchHeld(b: Board, s: State, es: seq<Event>)
    requires NothingHandled(s, es) && RunsThroughout(b, s, es)
    ensures After(b, s, es).latched == s.latched && After(b, s, es).counter == s.counter + Ticks(es)
    ensures s.alarm == s.latched + b.Timeout() ==> After(b, s, es).alarm == s.alarm
    decreases |es|
  {
    if es != [] {
      assert es[0] in es;
      assert forall e :: e in es[1..] ==> e in es;
      var s1 := Step(b, s, es[0]);
      assert es[..0] == [] && es[..1][1..] == [];
      assert After(b, s, es[..0]) == s && After(b, s, es[..1]) == After(b, s1, es[..1][1..]) == s1;
      assert s.running && s1.running;
      forall k | 0 <= k <= |es[1..]|
        ensures After(b, s1, es[1..][..k]).running
      {
        assert es[..k + 1][1..] == es[1..][..k];
        assert After(b, s, es[..k + 1]).running;
      }
      LatchHeld(b, s1, es[1..]);
    }
  }

  lemma {:induction false} StaysPaused(b: Board, s: State, es: seq<Event>)
    requires !s.running && NoCommand(es)
    ensures !After(b, s, es).running && After(b, s, es).counter == s.counter
    decreases |es|
  {
    if es != [] {
      assert es[0] in es;
      assert forall e :: e in es[1..] ==> e in es;
      StaysPaused(b, Step(b, s, es[0]), es[1..]);
    }
  }

  /** A handled event renews the latch: a TEST ON later, with no interrupt or other handled
      event in between, runs for the time-out less the ticks since the event. */
  lemma HandledRenewsLatch(b: Board, s: State, es: seq<Event>)
    requires s.queue != [] && s.queue[0].idx == TIMER_0
    requires NothingHandled(Step(b, s, Handle), es) && RunsThroughout(b, Step(b, s, Handle), es)
    ensures Window(b, After(b, Step(b, s, Handle), es)) == b.Timeout() - Ticks(es)
  {
    LatchHeld(b, Step(b, s, Handle), es);
  }

  /** TEST ON repeats a pending deadline unchanged if no event was handled since, whatever
      commands came in between, TEST OFF included: the new test is the shorter by the ticks
      since the first. */
  lemma RepeatKeepsDeadline(b: Board, s: State, es: seq<Event>)
    requires b.Sane() && Reachable(b, s)
    requires NothingHandled(s, es) && RunsThroughout(b, Step(b, s, TestOn), es)
    ensures var t := After(b, Step(b, s, TestOn), es);
            && t.alarm == Step(b, s, TestOn).alarm
            && Step(b, t, TestOn).alarm == t.alarm
  {
    LatchHeld(b, Step(b, s, TestOn), es);
  }

  /** A running timer interrupts after exactly alarm - counter ticks; a test with nothing
      queued keeps the lamp on until then. */
  lemma {:induction false} TestLasts(b: Board, s: State, es: seq<Event>)
    requires b.Sane() && Inv(b, s) && NoCommand(es) && s.running
    ensures var t := After(b, s, es);
            && (t.running <==> Ticks(es) < s.alarm - s.counter)
            && (t.running && s.lamp && s.queue == [] && !s.endOfTest ==> t.lamp && !t.endOfTest && t.queue == [])
            && (!t.running ==> t.counter == s.alarm)
    decreases |es|
  {
    if es != [] {
      assert es[0] in es;
      assert forall e :: e in es[1..] ==> e in es;
      var s1 := Step(b, s, es[0]);
      StepKeepsInv(b, s, es[0]);
      if s1.running {
        TestLasts(b, s1, es[1..]);
      } else {
        StaysPaused(b, s1, es[1..]);
      }
    }
  }

  /** From start-up the first interrupt comes after 3.4179 s of ticks; the lamp is dark, and no
      test counts as running. */
  lemma FirstInterrupt(b: Board, es: seq<Event>)
    requires b.Sane() && NoCommand(es)
    ensures After(b, Init(b), es).running <==> 10000 * (Ticks(es) + 1) <= 34179 * b.scale
    ensures !After(b, Init(b), es).lamp && After(b, Init(b), es).endOfTest
  {
    TestLasts(b, Init(b), es);
    StaysDark(b, Init(b), es);
  }

  /** A TEST ON with no stale event queued and no later command runs for exactly the
      window: the lamp stays on until that many ticks have passed, at which point the
      interrupt stops the timer, and its turns of the two tasks switch the lamp off. */
  lemma TestRunsForWindow(b: Board, s: State, es: seq<Event>)
    requires b.Sane() && Reachable(b, s) && s.queue == [] && NoCommand(es)
    ensures var t := After(b, Step(b, s, TestOn), es);
            && (t.running <==> Ticks(es) < Window(b, s))
            && (Ticks(es) < Window(b, s) ==> t.lamp && !t.endOfTest)
            && (Ticks(es) >= Window(b, s) ==> !After(b, t, [Handle, Manage]).lamp)
  {
    ReachableInv(b, s);
    var s1 := Step(b, s, TestOn);
    StepKeepsInv(b, s, TestOn);
    TestLasts(b, s1, es);
    var t := After(b, s1, es);
    RunKeepsInv(b, s1, es);
    var t1 := Step(b, t, Handle);
    assert [Handle, Manage][1..] == [Manage];
    assert [Manage][1..] == [];
    assert After(b, t1, [Manage]) == Step(b, t1, Manage);
  }

  /** With a stale event still queued the test can be over at once. */
  lemma StaleEventEndsTest(b: Board, s: State)
    requires b.Sane() && Reachable(b, s) && s.queue != []
    ensures !After(b, Step(b, s, TestOn), [Handle, Manage]).lamp
    ensures NoCommand([Handle, Manage]) && Ticks([Handle, Manage]) == 0
  {
    ReachableInv(b, s);
    var s1 := Step(b, s, TestOn);
    assert [Handle, Manage][1..] == [Manage];
    assert [Manage][1..] == [];
    assert After(b, Step(b, s1, Handle), [Manage]) == Step(b, Step(b, s1, Handle), Manage);
    assert Ticks([Manage]) == 0;
  }

  /** Whatever happens short of a command, the lamp burns for the given number of ticks. */
  ghost predicate BurnsFor(b: Board, s: State, ticks: int) {
    forall es :: NoCommand(es) && Ticks(es) < ticks ==> After(b, s, es).lamp
  }

  function Ticking(n: nat): (es: seq<Event>)
    ensures NoCommand(es)
  {
    if n == 0 then [Handle, Manage] else [Tick] + Ticking(n - 1)
  }

  lemma {:induction false} TickingFacts(b: Board, s: State, n: nat)
    requires b.Sane() && Inv(b, s)
    requires s.lamp && s.running && s.queue == [] && !s.endOfTest && n == s.alarm - s.counter
    ensures Ticks(Ticking(n)) == n && !After(b, s, Ticking(n)).lamp
    decreases n
  {
    var rest := Ticking(n - 1);
    assert Ticking(n)[1..] == rest;
    var s1 := Step(b, s, Tick);
    StepKeepsInv(b, s, Tick);
    if n == 1 {
      assert [Handle, Manage][1..] == [Manage];
      assert [Manage][1..] == [];
      assert Ticks([Manage]) == 0;
      assert After(b, Step(b, s1, Handle), [Manage]) == Step(b, Step(b, s1, Handle), Manage);
    } else {
      TickingFacts(b, s1, n - 1);
    }
  }

  /** The full 60 s of ticks are guaranteed exactly when, as TEST ON arrives, no event is
      queued and the latch is up to date; the latter always holds while the timer is
      paused. */
  lemma FullTestGuaranteed(b: Board, s: State)
    requires b.Sane() && Reachable(b, s)
    ensures BurnsFor(b, Step(b, s, TestOn), 60 * b.scale) <==> s.queue == [] && s.latched == s.counter
    ensures !s.running ==> s.latched == s.counter
  {
    ReachableInv(b, s);
    var s1 := Step(b, s, TestOn);
    StepKeepsInv(b, s, TestOn);
    if s.queue != [] {
      StaleEventEndsTest(b, s);
    } else if s.latched < s.counter {
      TickingFacts(b, s1, Window(b, s));
    } else {
      forall es | NoCommand(es) && Ticks(es) < b.Timeout()
        ensures After(b, s1, es).lamp
      {
        TestRunsForWindow(b, s, es);
      }
    }
  }
}
