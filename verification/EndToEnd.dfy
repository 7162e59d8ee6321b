/** From sample to hub: the sampling task as the only producer, composed with the ring buffer
    and the hub client. */
module EndToEnd {
  import opened Types
  import opened DataBuffer
  import opened Telemetry
  import opened Delivery
  import opened HealthyHub
  import opened Adc

  /** The sampling task's two variables, and the hub client with the ring. */
  datatype Node = Node(tmp: Record, cnt: uint16, hub: State)

  datatype Move = Sampled(x: Input) | Sender(e: Event)

  predicate Possible(g: Node, m: Move) {
    m.Sender? ==> !m.e.Insert? && Enabled(g.hub, m.e)
  }

  /** A pass of the sampling task, as AdcTask.Pass has it, or a step of the hub client. */
  function Moved(l: Limits, g: Node, m: Move): Node
    requires Possible(g, m)
  {
    match m
    case Sender(e) => g.(hub := Step(l, g.hub, e))
    case Sampled(x) =>
      var y := Converted(x);
      var r := Entry(g.tmp, y);
      if CodeReports(g.tmp, g.cnt, y) then Node(r, 1, Step(l, g.hub, Event.Insert(r)))
      else g.(cnt := (g.cnt + 1) % 0x1_0000)
  }

  predicate Schedule(l: Limits, g: Node, ms: seq<Move>)
    decreases |ms|
  {
    ms == [] || (Possible(g, ms[0]) && Schedule(l, Moved(l, g, ms[0]), ms[1..]))
  }

  function Moves(l: Limits, g: Node, ms: seq<Move>): Node
    requires Schedule(l, g, ms)
    decreases |ms|
  {
    if ms == [] then g else Moves(l, Moved(l, g, ms[0]), ms[1..])
  }

  /** What the task sampled, in order. */
  function Stream(ms: seq<Move>): seq<Sample> {
    if ms == [] then []
    else (if ms[0].Sampled? then [Converted(ms[0].x)] else []) + Stream(ms[1..])
  }

  /** After the first k samples: everything inserted so far is what the reference reports. */
  ghost predicate Following(l: Limits, base: Record, xs: seq<Sample>, k: nat, g: Node)
    requires k <= |xs|
  {
    && Reachable(l, g.hub)
    && Tracking(base, xs, k, g.tmp, g.cnt)
    && g.hub.fifo.accepted == Reports(Wrapping, base, xs, k)
  }

  lemma OnlyInsertAccepts(l: Limits, s: State, e: Event)
    requires Enabled(s, e)
    ensures Step(l, s, e).fifo.accepted == if e.Insert? then s.fifo.accepted + [e.x] else s.fifo.accepted
  {
  }

  lemma SenderFollows(l: Limits, base: Record, xs: seq<Sample>, k: nat, g: Node, e: Event)
    requires k <= |xs| && Following(l, base, xs, k, g) && Possible(g, Sender(e))
    ensures Following(l, base, xs, k, Moved(l, g, Sender(e)))
  {
    ReachableStep(l, g.hub, e);
    OnlyInsertAccepts(l, g.hub, e);
  }

  lemma SampledFollows(l: Limits, base: Record, xs: seq<Sample>, k: nat, g: Node, x: Input)
    requires k < |xs| && xs[k] == Converted(x) && Following(l, base, xs, k, g)
    ensures Following(l, base, xs, k + 1, Moved(l, g, Sampled(x)))
  {
    DecisionIsReference(base, xs, k, g.tmp, g.cnt);
    TrackingStep(base, xs, k, g.tmp, g.cnt);
    var r := Event.Insert(Entry(g.tmp, xs[k]));
    ReachableStep(l, g.hub, r);
    OnlyInsertAccepts(l, g.hub, r);
  }

  lemma {:induction false} MovesFollow(l: Limits, base: Record, xs: seq<Sample>, k: nat, g: Node, ms: seq<Move>)
    requires k <= |xs| && xs[k..] == Stream(ms)
    requires Following(l, base, xs, k, g) && Schedule(l, g, ms)
    ensures Following(l, base, xs, |xs|, Moves(l, g, ms))
    decreases |ms|
  {
    if ms != [] {
      if ms[0].Sampled? {
        assert xs[k] == xs[k..][0] == Converted(ms[0].x);
        assert xs[k + 1..] == xs[k..][1..] == Stream(ms[1..]);
        SampledFollows(l, base, xs, k, g, ms[0].x);
        MovesFollow(l, base, xs, k + 1, Moved(l, g, ms[0]), ms[1..]);
      } else {
        SenderFollows(l, base, xs, k, g, ms[0].e);
        MovesFollow(l, base, xs, k, Moved(l, g, ms[0]), ms[1..]);
      }
    }
  }

  /** The records the hub has accepted, in the order in which it did. */
  ghost function Wire(s: State): (w: seq<Record>)
    requires forall j :: 0 <= j < |s.sent| ==> s.sent[j] < |s.fifo.accepted|
    ensures |w| == |s.sent|
  {
    seq(|s.sent|, j requires 0 <= j < |s.sent| => s.fifo.accepted[s.sent[j]])
  }

  /** How the hub's records come about from a stream of reports. */
  ghost predicate Carries(reports: seq<Record>, s: State) {
    && Increasing(s.sent) && AllBelow(s.sent, |reports|) && reports == s.fifo.accepted
    && (forall j :: 0 <= j < |s.sent| ==> Wire(s)[j] == reports[s.sent[j]])
    && |reports| + s.Awaiting() == |Wire(s)| + s.overruns + (|s.fifo.accepted| - s.fifo.taken)
    && s.fifo.taken <= |reports|
    && (!s.phase.Sent? ==> (Wire(s) == reports[..s.fifo.taken] <==> s.overruns == 0))
  }

  lemma {:induction false} ConsecutiveAt(lo: nat, k: nat, j: nat)
    requires j < k
    ensures |Consecutive(lo, k)| == k && Consecutive(lo, k)[j] == lo + j
    decreases k
  {
    ConsecutiveFacts(lo, k);
    if j > 0 {
      ConsecutiveAt(lo + 1, k - 1, j - 1);
    }
  }

  lemma NoOverrunNoGap(l: Limits, junk: seq<Slot>, es: seq<Event>)
    requires l.Sane() && |junk| == l.m && Feasible(l, Init(junk), es)
    ensures var s := After(l, Init(junk), es);
            && Reachable(l, s)
            && (!s.phase.Sent? && s.overruns == 0 ==> s.sent == Consecutive(0, s.fifo.taken))
  {
    assert Feasible(l, Init(junk), []) && After(l, Init(junk), []) == Init(junk);
    var s := After(l, Init(junk), es);
    if !s.phase.Sent? {
      ExactDelivery(l, Init(junk), es);
    }
  }

  lemma ReachableCarries(l: Limits, s: State)
    requires l.Sane() && Reachable(l, s)
    ensures Carries(s.fifo.accepted, s)
  {
    assert OrderInv(l, s) by {
      ReachableInv(l, s);
    }
    SentInOrder(l, s);
    if !s.phase.Sent? && s.overruns == 0 {
      var junk: seq<Slot>, es: seq<Event> :|
        |junk| == l.m && Feasible(l, Init(junk), es) && s == After(l, Init(junk), es);
      NoOverrunNoGap(l, junk, es);
      forall j | 0 <= j < s.fifo.taken
        ensures |Wire(s)| == s.fifo.taken && Wire(s)[j] == s.fifo.accepted[j]
      {
        ConsecutiveAt(0, s.fifo.taken, j);
      }
      assert Wire(s) == s.fifo.accepted[..s.fifo.taken];
    }
  }

  /** With the sampling task as the only producer, under any schedule of samples and sender
      steps: what the hub accepts is an in-order part of what the reference decides to
      report; it lacks exactly what is still buffered and as many reports as inserts met a
      full buffer; and without such an insert it lacks no report that has left the buffer. */
  lemma WireIsReports(l: Limits, junk: seq<Slot>, base: Record, ms: seq<Move>)
    requires l.Sane() && |junk| == l.m && Schedule(l, Node(base, 0, Init(junk)), ms)
    ensures var g, xs := Moves(l, Node(base, 0, Init(junk)), ms), Stream(ms);
            && Reachable(l, g.hub)
            && Carries(Reports(Wrapping, base, xs, |xs|), g.hub)
            && (Trusted(xs, |xs|) ==> Carries(Reports(Exact, base, xs, |xs|), g.hub))
  {
    var g0, xs := Node(base, 0, Init(junk)), Stream(ms);
    assert Feasible(l, Init(junk), []) && After(l, Init(junk), []) == Init(junk);
    assert Reachable(l, Init(junk));
    MovesFollow(l, base, xs, 0, g0, ms);
    ReachableCarries(l, Moves(l, g0, ms).hub);
    WrappingIsExact(xs, |xs|);
    if Trusted(xs, |xs|) {
      SameReportsQueued(base, xs, |xs|);
    }
  }
}
