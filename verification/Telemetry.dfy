/** The telemetry pipeline as a state machine: producers insert readings, one sender
    peeks, sends and only then removes, and the hub SDK confirms from inside its calls.
    Every producer insert may fall between any two steps of the sender. */
module Telemetry {
  import opened Types
  import opened DataBuffer

  /** Ring size and number of message slots, both symbolic. */
  datatype Limits = Limits(n: nat, m: nat) {
    predicate Sane() {
      2 <= n <= 0x100 && 1 <= m
    }
  }

  /** Where the sender task stands. A reading is named by its insertion index. */
  datatype Phase =
    | Waiting                 // outer loop, no client handle
    | Polling                 // head of the inner loop
    | Checked                 // guard passed, counters reset if due
    | Peeked(reading: nat)    // copy taken, nothing sent yet
    | Sent(reading: nat)      // accepted by the SDK, not yet removed from the buffer
    | Working                 // inside DoWork
    | Closing                 // inner loop left, client being destroyed
    | Finished                // task ended

  datatype Handle = Null | Handle(id: nat)

  /** One element of the array messages. */
  datatype Slot = Slot(handle: Handle, trackingId: int)

  /** What the SDK remembers of an accepted message: the context pointer (a slot
      number), and the handle and tracking id that slot held when it was sent. */
  datatype Ticket = Ticket(slot: nat, handle: nat, trackingId: int)

  datatype Outcome = CreateFails | Rejected | Accepted

  datatype Connection = InitFails | NoHandle | NoCallback | Connected

  datatype Event =
    | Insert(x: Record)
    | Connect(result: Connection)
    | Poll
    | Peek
    | Attempt(outcome: Outcome)
    | Commit
    | Confirm(k: nat)
    | Lose(k: nat)
    | EndWork(aborted: bool)
    | Close

  datatype State = State(
    phase: Phase,
    iter: int,
    callbackCounter: int,
    connected: bool,            // iothub_connection
    slots: seq<Slot>,           // messages
    fifo: Fifo,                 // the ring buffer
    pending: seq<Ticket>,       // accepted, neither confirmed nor lost
    created: nat,               // message handles created so far, named 0 .. created - 1
    // history
    destroyed: seq<nat>,        // handles given to Destroy
    lost: seq<nat>,             // handles whose confirmation will never come
    rejected: seq<nat>,         // handles the SDK refused
    createFailures: nat,
    batch: seq<int>,            // tracking ids confirmed since the counters were last reset
    sent: seq<nat>,             // readings accepted by the SDK, in order
    overruns: nat               // inserts that found the buffer full
  ) {
    function Failures(): nat {
      createFailures + |rejected|
    }

    /** Attempts that the window still counts as open. */
    function Unsettled(): nat {
      |pending| + Failures() + |lost|
    }

    function Awaiting(): nat {
      if phase.Sent? then 1 else 0
    }
  }

  function Init(slots: seq<Slot>): State {
    State(Waiting, 0, 0, false, slots, EMPTY, [], 0, [], [], [], 0, [], [], 0)
  }

  predicate Full(l: Limits, q: Fifo) {
    q.taken + l.n <= |q.accepted| + 1
  }

  predicate Buffered(q: Fifo) {
    q.taken < |q.accepted|
  }

  predicate Enabled(s: State, e: Event) {
    match e
    case Insert(_) => true
    case Connect(_) => s.phase.Waiting?
    case Poll => s.phase.Polling?
    case Peek => s.phase.Checked?
    case Attempt(_) => s.phase.Peeked?
    case Commit => s.phase.Sent?
    case Confirm(k) => (s.phase.Working? || s.phase.Closing?) && k < |s.pending|
    case Lose(k) => (s.phase.Working? || s.phase.Closing?) && k < |s.pending|
    case EndWork(_) => s.phase.Working?
    case Close => s.phase.Closing? && s.pending == []
  }

  predicate InBounds(i: int, slots: seq<Slot>) {
    0 <= i < |slots|
  }

  /** A write outside the array has no meaning; AttemptUsesFreeSlot shows that none
      happens. */
  function Put(slots: seq<Slot>, i: int, v: Slot): seq<Slot> {
    if InBounds(i, slots) then slots[i := v] else slots
  }

  function Get(slots: seq<Slot>, i: int): Slot {
    if InBounds(i, slots) then slots[i] else Slot(Null, 0)
  }

  function Without<T>(s: seq<T>, k: nat): seq<T>
    requires k < |s|
  {
    s[..k] + s[k + 1..]
  }

  /** After a connection attempt has ended: retry or end the task. */
  function Decide(l: Limits, s: State): State {
    s.(phase := if 0 < s.callbackCounter < l.m then Waiting else Finished)
  }

  function DoConnect(l: Limits, s: State, result: Connection): State {
    match result
    case InitFails => s.(phase := Finished)
    case NoHandle => Decide(l, s)
    case NoCallback => s.(phase := Closing)
    case Connected => s.(phase := Polling, connected := true)
  }

  function DoPoll(l: Limits, s: State): State {
    if Buffered(s.fifo) && s.iter <= s.callbackCounter then
      if s.iter >= l.m then
        s.(phase := Checked, callbackCounter := s.callbackCounter - s.iter, iter := 0, batch := [])
      else
        s.(phase := Checked)
    else
      s.(phase := Working)
  }

  function DoAttempt(s: State, outcome: Outcome): State
    requires s.phase.Peeked?
  {
    var filled := Put(s.slots, s.iter, Slot(Handle(s.created), s.iter));
    match outcome
    case CreateFails =>
      s.(phase := Working, iter := s.iter + 1, connected := false,
         slots := Put(s.slots, s.iter, Slot(Null, Get(s.slots, s.iter).trackingId)),
         createFailures := s.createFailures + 1)
    case Rejected =>
      s.(phase := Working, iter := s.iter + 1, connected := false, slots := filled,
         created := s.created + 1, rejected := s.rejected + [s.created])
    case Accepted =>
      s.(phase := Sent(s.phase.reading), connected := true, slots := filled, created := s.created + 1,
         pending := s.pending + [Ticket(if s.iter < 0 then 0 else s.iter, s.created, s.iter)],
         sent := s.sent + [s.phase.reading])
  }

  /** The callback follows its context pointer: it sees what the slot holds now. */
  function DoConfirm(s: State, k: nat): State
    requires k < |s.pending|
  {
    var instance := Get(s.slots, s.pending[k].slot);
    s.(callbackCounter := s.callbackCounter + 1,
       pending := Without(s.pending, k),
       batch := s.batch + [instance.trackingId],
       destroyed := if instance.handle.Handle? then s.destroyed + [instance.handle.id] else s.destroyed)
  }

  function Step(l: Limits, s: State, e: Event): State
    requires Enabled(s, e)
  {
    match e
    case Insert(x) =>
      s.(fifo := Inserted(l.n, s.fifo, x, true),
         overruns := if Full(l, s.fifo) then s.overruns + 1 else s.overruns)
    case Connect(result) => DoConnect(l, s, result)
    case Poll => DoPoll(l, s)
    case Peek => s.(phase := Peeked(s.fifo.taken))
    case Attempt(outcome) => DoAttempt(s, outcome)
    case Commit => s.(phase := Working, fifo := Removed(s.fifo), iter := s.iter + 1)
    case Confirm(k) => DoConfirm(s, k)
    case Lose(k) =>
      s.(pending := Without(s.pending, k), lost := s.lost + [s.pending[k].handle])
    case EndWork(aborted) => s.(phase := if aborted then Closing else Polling)
    case Close => Decide(l, s)
  }

  predicate Feasible(l: Limits, s: State, es: seq<Event>)
    decreases |es|
  {
    es == [] || (Enabled(s, es[0]) && Feasible(l, Step(l, s, es[0]), es[1..]))
  }

  function After(l: Limits, s: State, es: seq<Event>): State
    requires Feasible(l, s, es)
    decreases |es|
  {
    if es == [] then s else After(l, Step(l, s, es[0]), es[1..])
  }

  /** Reached by some run from start-up, whatever the slots held then. */
  ghost predicate Reachable(l: Limits, s: State) {
    exists junk: seq<Slot>, es: seq<Event> ::
      && |junk| == l.m
      && Feasible(l, Init(junk), es)
      && s == After(l, Init(junk), es)
  }

  // ---------- what every step keeps ----------

  /** Stop-and-wait: the window counts every attempt as confirmed or unsettled, and
      at most one is unsettled. */
  ghost predicate WindowInv(l: Limits, s: State) {
    && 0 <= s.callbackCounter <= s.iter <= l.m
    && s.iter + s.Awaiting() == s.callbackCounter + s.Unsettled()
    && s.Unsettled() <= 1
    && (s.phase.Checked? || s.phase.Peeked? ==> s.iter == s.callbackCounter < l.m)
    && (s.phase.Sent? ==> s.iter == s.callbackCounter < l.m && |s.pending| == 1)
    && (s.phase.Waiting? || s.phase.Finished? ==> s.pending == [])
  }

  /** Confirmed tracking ids are those of the batch's slots, in slot order. */
  ghost predicate BatchInv(s: State) {
    && |s.batch| == s.callbackCounter
    && forall i :: 0 <= i < |s.batch| ==> s.batch[i] == i
  }

  /** A pending message's slot still holds what it was sent with. */
  ghost predicate SlotInv(l: Limits, s: State) {
    && |s.slots| == l.m
    && forall t :: t in s.pending ==>
         && t.slot == t.trackingId == s.iter + s.Awaiting() - 1
         && t.slot < l.m
         && s.slots[t.slot] == Slot(Handle(t.handle), t.trackingId)
  }

  function Count(q: seq<nat>, h: nat): nat {
    if q == [] then 0 else Count(q[..|q| - 1], h) + if q[|q| - 1] == h then 1 else 0
  }

  function CountPending(p: seq<Ticket>, h: nat): nat {
    if p == [] then 0 else CountPending(p[..|p| - 1], h) + if p[|p| - 1].handle == h then 1 else 0
  }

  /** In how many places a handle is to be found. */
  function Places(destroyed: seq<nat>, pending: seq<Ticket>, lost: seq<nat>, rejected: seq<nat>, h: nat): nat {
    Count(destroyed, h) + CountPending(pending, h) + Count(lost, h) + Count(rejected, h)
  }

  /** The first c handles are in exactly one place, once, and no others are anywhere. */
  ghost predicate Placed(destroyed: seq<nat>, pending: seq<Ticket>, lost: seq<nat>, rejected: seq<nat>, c: nat) {
    && c == |destroyed| + |pending| + |lost| + |rejected|
    && forall h: nat :: Places(destroyed, pending, lost, rejected, h) == if h < c then 1 else 0
  }

  ghost predicate HandleInv(s: State) {
    Placed(s.destroyed, s.pending, s.lost, s.rejected, s.created)
  }

  ghost predicate Increasing(q: seq<nat>) {
    forall i, j :: 0 <= i < j < |q| ==> q[i] < q[j]
  }

  ghost predicate AllBelow(q: seq<nat>, b: nat) {
    forall i :: 0 <= i < |q| ==> q[i] < b
  }

  /** The sender never goes back: what it holds is newer than all it has sent. */
  ghost predicate OrderInv(l: Limits, s: State) {
    && WellFormed(l.n, s.fifo)
    && Increasing(s.sent)
    && s.fifo.taken + s.Awaiting() == s.overruns + |s.sent|
    && (s.phase.Checked? || s.phase.Peeked? || s.phase.Sent? ==> Buffered(s.fifo))
    && (s.phase.Peeked? ==> s.phase.reading <= s.fifo.taken && AllBelow(s.sent, s.phase.reading))
    && (s.phase.Sent? ==>
          && |s.sent| > 0 && s.sent[|s.sent| - 1] == s.phase.reading <= s.fifo.taken)
    && (!s.phase.Sent? ==> AllBelow(s.sent, s.fifo.taken))
  }

  ghost predicate Live(p: Phase) {
    p.Polling? || p.Checked? || p.Peeked? || p.Sent? || p.Working?
  }

  ghost predicate Inv(l: Limits, s: State) {
    WindowInv(l, s) && BatchInv(s) && SlotInv(l, s) && HandleInv(s) && OrderInv(l, s)
  }

  lemma InitInv(l: Limits, junk: seq<Slot>)
    requires l.Sane() && |junk| == l.m
    ensures Inv(l, Init(junk))
  {
  }

  lemma CountMore(q: seq<nat>, x: nat, h: nat)
    ensures Count(q + [x], h) == Count(q, h) + if x == h then 1 else 0
  {
    assert (q + [x])[..|q|] == q;
  }

  lemma CountOne(t: Ticket, h: nat)
    ensures CountPending([t], h) == if t.handle == h then 1 else 0
  {
  }

  lemma AttemptKeepsWindow(l: Limits, s: State, outcome: Outcome)
    requires WindowInv(l, s) && s.phase.Peeked?
    ensures WindowInv(l, DoAttempt(s, outcome))
  {
  }

  lemma SettleKeepsWindow(l: Limits, s: State, e: Event)
    requires WindowInv(l, s) && Enabled(s, e) && (e.Confirm? || e.Lose?)
    ensures WindowInv(l, Step(l, s, e))
  {
  }

  lemma WindowKept(l: Limits, s: State, e: Event)
    requires 1 <= l.m && WindowInv(l, s) && Enabled(s, e)
    ensures WindowInv(l, Step(l, s, e))
  {
    if e.Attempt? {
      AttemptKeepsWindow(l, s, e.outcome);
    } else if e.Confirm? || e.Lose? {
      SettleKeepsWindow(l, s, e);
    }
  }

  lemma BatchKept(l: Limits, s: State, e: Event)
    requires 1 <= l.m && WindowInv(l, s) && SlotInv(l, s) && BatchInv(s) && Enabled(s, e)
    ensures BatchInv(Step(l, s, e))
  {
    if e.Confirm? {
      assert s.pending[e.k] in s.pending;
    }
  }

  lemma AttemptKeepsSlots(l: Limits, s: State, outcome: Outcome)
    requires WindowInv(l, s) && SlotInv(l, s) && s.phase.Peeked?
    ensures SlotInv(l, DoAttempt(s, outcome))
  {
  }

  lemma SettleKeepsSlots(l: Limits, s: State, e: Event)
    requires WindowInv(l, s) && SlotInv(l, s) && Enabled(s, e) && (e.Confirm? || e.Lose?)
    ensures SlotInv(l, Step(l, s, e))
  {
    assert Without(s.pending, e.k) == [];
  }

  lemma SlotKept(l: Limits, s: State, e: Event)
    requires 1 <= l.m && WindowInv(l, s) && SlotInv(l, s) && Enabled(s, e)
    ensures SlotInv(l, Step(l, s, e))
  {
    if e.Attempt? {
      AttemptKeepsSlots(l, s, e.outcome);
    } else if e.Confirm? || e.Lose? {
      SettleKeepsSlots(l, s, e);
    }
  }

  lemma PlaceNew(d: seq<nat>, l: seq<nat>, r: seq<nat>, c: nat, t: Ticket)
    requires Placed(d, [], l, r, c) && t.handle == c
    ensures Placed(d, [t], l, r, c + 1)
    ensures Placed(d, [], l, r + [c], c + 1)
  {
    forall h: nat
      ensures Places(d, [t], l, r, h) == if h < c + 1 then 1 else 0
      ensures Places(d, [], l, r + [c], h) == if h < c + 1 then 1 else 0
    {
      assert Places(d, [], l, r, h) == if h < c then 1 else 0;
      CountOne(t, h);
      CountMore(r, c, h);
    }
  }

  lemma PlaceSettled(d: seq<nat>, l: seq<nat>, r: seq<nat>, c: nat, t: Ticket)
    requires Placed(d, [t], l, r, c)
    ensures Placed(d + [t.handle], [], l, r, c)
    ensures Placed(d, [], l + [t.handle], r, c)
  {
    forall h: nat
      ensures Places(d + [t.handle], [], l, r, h) == if h < c then 1 else 0
      ensures Places(d, [], l + [t.handle], r, h) == if h < c then 1 else 0
    {
      assert Places(d, [t], l, r, h) == if h < c then 1 else 0;
      CountOne(t, h);
      CountMore(d, t.handle, h);
      CountMore(l, t.handle, h);
    }
  }

  lemma AttemptKeepsHandles(l: Limits, s: State, outcome: Outcome)
    requires WindowInv(l, s) && HandleInv(s) && s.phase.Peeked?
    ensures HandleInv(DoAttempt(s, outcome))
  {
    var t := Ticket(s.iter, s.created, s.iter);
    assert s.pending == [] && s.pending + [t] == [t];
    PlaceNew(s.destroyed, s.lost, s.rejected, s.created, t);
  }

  lemma SettleKeepsHandles(l: Limits, s: State, e: Event)
    requires WindowInv(l, s) && SlotInv(l, s) && HandleInv(s) && Enabled(s, e) && (e.Confirm? || e.Lose?)
    ensures HandleInv(Step(l, s, e))
  {
    var t := s.pending[e.k];
    assert t in s.pending && s.pending == [t] && Without(s.pending, e.k) == [];
    PlaceSettled(s.destroyed, s.lost, s.rejected, s.created, t);
  }

  lemma HandleKept(l: Limits, s: State, e: Event)
    requires WindowInv(l, s) && SlotInv(l, s) && HandleInv(s) && Enabled(s, e)
    ensures HandleInv(Step(l, s, e))
  {
    if e.Attempt? {
      AttemptKeepsHandles(l, s, e.outcome);
    } else if e.Confirm? || e.Lose? {
      SettleKeepsHandles(l, s, e);
    }
  }

  lemma InsertKeepsOrder(l: Limits, s: State, x: Record)
    requires l.Sane() && OrderInv(l, s)
    ensures OrderInv(l, Step(l, s, Event.Insert(x)))
  {
  }

  lemma AttemptKeepsOrder(l: Limits, s: State, outcome: Outcome)
    requires OrderInv(l, s) && s.phase.Peeked?
    ensures OrderInv(l, DoAttempt(s, outcome))
  {
  }

  lemma CommitKeepsOrder(l: Limits, s: State)
    requires OrderInv(l, s) && s.phase.Sent?
    ensures OrderInv(l, Step(l, s, Commit))
  {
    assert forall i :: 0 <= i < |s.sent| ==> s.sent[i] <= s.sent[|s.sent| - 1];
  }

  lemma OrderKept(l: Limits, s: State, e: Event)
    requires l.Sane() && OrderInv(l, s) && Enabled(s, e)
    ensures OrderInv(l, Step(l, s, e))
  {
    if e.Insert? {
      InsertKeepsOrder(l, s, e.x);
    } else if e.Attempt? {
      AttemptKeepsOrder(l, s, e.outcome);
    } else if e.Commit? {
      CommitKeepsOrder(l, s);
    }
  }

  lemma StepKeepsInv(l: Limits, s: State, e: Event)
    requires l.Sane() && Inv(l, s) && Enabled(s, e)
    ensures Inv(l, Step(l, s, e))
  {
    WindowKept(l, s, e);
    BatchKept(l, s, e);
    SlotKept(l, s, e);
    HandleKept(l, s, e);
    OrderKept(l, s, e);
  }

  lemma {:induction false} RunKeepsInv(l: Limits, s: State, es: seq<Event>)
    requires l.Sane() && Inv(l, s) && Feasible(l, s, es)
    ensures Inv(l, After(l, s, es))
    decreases |es|
  {
    if es != [] {
      StepKeepsInv(l, s, es[0]);
      RunKeepsInv(l, Step(l, s, es[0]), es[1..]);
    }
  }

  lemma ReachableInv(l: Limits, s: State)
    requires l.Sane() && Reachable(l, s)
    ensures Inv(l, s)
  {
    var junk: seq<Slot>, es: seq<Event> :|
      |junk| == l.m && Feasible(l, Init(junk), es) && s == After(l, Init(junk), es);
    InitInv(l, junk);
    RunKeepsInv(l, Init(junk), es);
  }

  lemma {:induction false} RunAppend(l: Limits, s: State, a: seq<Event>, b: seq<Event>)
    requires Feasible(l, s, a) && Feasible(l, After(l, s, a), b)
    ensures Feasible(l, s, a + b) && After(l, s, a + b) == After(l, After(l, s, a), b)
    decreases |a|
  {
    if a == [] {
      assert a + b == b;
    } else {
      assert (a + b)[1..] == a[1..] + b;
      RunAppend(l, Step(l, s, a[0]), a[1..], b);
    }
  }

  lemma RunOne(l: Limits, s: State, e: Event)
    requires Enabled(s, e)
    ensures Feasible(l, s, [e]) && After(l, s, [e]) == Step(l, s, e)
  {
    assert After(l, Step(l, s, e), [e][1..]) == Step(l, s, e);
  }

  lemma ReachableStep(l: Limits, s: State, e: Event)
    requires Reachable(l, s) && Enabled(s, e)
    ensures Reachable(l, Step(l, s, e))
  {
    var junk: seq<Slot>, es: seq<Event> :|
      |junk| == l.m && Feasible(l, Init(junk), es) && s == After(l, Init(junk), es);
    RunOne(l, s, e);
    RunAppend(l, Init(junk), es, [e]);
    assert Feasible(l, Init(junk), es + [e]);
  }

  lemma ReachableRun(l: Limits, s: State, es: seq<Event>)
    requires Reachable(l, s) && Feasible(l, s, es)
    ensures Reachable(l, After(l, s, es))
  {
    var junk: seq<Slot>, before: seq<Event> :|
      |junk| == l.m && Feasible(l, Init(junk), before) && s == After(l, Init(junk), before);
    RunAppend(l, Init(junk), before, es);
    assert Feasible(l, Init(junk), before + es);
  }
}
