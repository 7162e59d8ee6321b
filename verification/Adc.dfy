/** The sampling task: averaging, the deadband on wrapping differences, the heartbeat. */
module Adc {
  import opened Types
  import opened DataBuffer

  // ---------- the arithmetic of abs() on unsigned differences ----------

  function Wrap32(x: int): uint32 {
    x % 0x1_0000_0000
  }

  /** Reading a 32-bit pattern as a signed integer. */
  function ToInt32(x: uint32): int {
    if x < 0x8000_0000 then x else x - 0x1_0000_0000
  }

  /** The library abs(): the most negative value has no positive counterpart. */
  function Abs32(x: int): int {
    if x == -0x8000_0000 then x else if x < 0 then -x else x
  }

  /** Subtraction of 32-bit unsigned values. */
  function Sub32(a: uint32, b: uint32): (d: uint32)
    ensures d == Wrap32(a - b)
  {
    if b <= a then a - b else a - b + 0x1_0000_0000
  }

  /** What the code compares with its threshold. */
  function CodeDistance(a: uint32, b: uint32): int {
    Abs32(ToInt32(Sub32(a, b)))
  }

  function Distance(a: int, b: int): nat {
    if a < b then b - a else a - b
  }

  /** The code's distance is the true one exactly when the values lie less than 2^31 apart. */
  lemma WrappedDistance(a: uint32, b: uint32)
    ensures CodeDistance(a, b) == Distance(a, b) <==> Distance(a, b) < 0x8000_0000
  {
  }

  /** For any threshold the comparison errs on exactly these pairs: 2^31 apart, where abs()
      stays negative, or so far apart that the difference wraps back under the threshold. */
  lemma ThresholdExact(a: uint32, b: uint32, limit: nat)
    requires limit < 0x8000_0000
    ensures (CodeDistance(a, b) > limit <==> Distance(a, b) > limit) <==>
            !(Distance(a, b) == 0x8000_0000 || Distance(a, b) >= 0x1_0000_0000 - limit)
  {
  }

  // ---------- averaging ----------

  function Sum(raw: seq<int>): int {
    if raw == [] then 0 else Sum(raw[..|raw| - 1]) + raw[|raw| - 1]
  }

  lemma {:induction false} SumBounds(raw: seq<int>, lo: int, hi: int)
    requires forall i :: 0 <= i < |raw| ==> lo <= raw[i] <= hi
    ensures |raw| * lo <= Sum(raw) <= |raw| * hi
  {
    if raw != [] {
      SumBounds(raw[..|raw| - 1], lo, hi);
      calc {
        |raw| * lo;
        (|raw| - 1) * lo + lo;
      }
      calc {
        |raw| * hi;
        (|raw| - 1) * hi + hi;
      }
    }
  }

  const SAMPLES := 64

  /** Multisampling of both channels; the accumulators are 32-bit unsigned sums. */
  method Multisample(raw: seq<int>, raw1: seq<int>) returns (avg: uint32, avg1: uint32)
    requires |raw| == |raw1| == SAMPLES
    ensures avg == Wrap32(Sum(raw)) / SAMPLES
    ensures avg1 == Wrap32(Sum(raw1)) / SAMPLES
  {
    avg, avg1 := 0, 0;
    for i := 0 to SAMPLES
      invariant avg == Wrap32(Sum(raw[..i])) && avg1 == Wrap32(Sum(raw1[..i]))
    {
      assert raw[..i + 1][..i] == raw[..i] && raw1[..i + 1][..i] == raw1[..i];
      avg := Wrap32(avg + raw[i]);
      avg1 := Wrap32(avg1 + raw1[i]);
    }
    assert raw[..SAMPLES] == raw && raw1[..SAMPLES] == raw1;
    avg := avg / SAMPLES;
    avg1 := avg1 / SAMPLES;
  }

  /** With 12-bit readings and 64 samples the sum cannot wrap, and the average lies
      between any bounds the readings respect. */
  lemma AverageWithinReadings(raw: seq<int>, lo: int, hi: int)
    requires |raw| == SAMPLES
    requires 0 <= lo <= hi < 4096
    requires forall i :: 0 <= i < |raw| ==> lo <= raw[i] <= hi
    ensures Wrap32(Sum(raw)) == Sum(raw)
    ensures lo <= Wrap32(Sum(raw)) / SAMPLES <= hi
  {
    SumBounds(raw, lo, hi);
  }

  // ---------- the reference: which samples are reported ----------

  /** One pass of the task: the two voltages in mV and the lamp status. */
  datatype Sample = Sample(mv1: uint32, mv2: uint32, status: uint8)

  /** Outside the deadband of an earlier report, by true distances. */
  predicate Far(a: Sample, b: Sample) {
    Distance(a.mv1, b.mv1) > 5 || Distance(a.mv2, b.mv2) > 10 || a.status != b.status
  }

  /** The same test as the code computes it. */
  predicate CodeFar(a: Sample, b: Sample) {
    CodeDistance(a.mv1, b.mv1) > 5 || CodeDistance(a.mv2, b.mv2) > 10 || a.status != b.status
  }

  /** Whether distances are true ones or those of the wrapping code. */
  datatype Metric = Exact | Wrapping

  predicate Apart(m: Metric, a: Sample, b: Sample) {
    if m.Exact? then Far(a, b) else CodeFar(a, b)
  }

  const HEARTBEAT := 10

  /** A sample is reported if it is the first, is far from the last one reported, or comes
      ten samples after it. */
  predicate Reported(m: Metric, xs: seq<Sample>, k: nat)
    requires k < |xs|
    decreases k, 1
  {
    k == 0 || Apart(m, xs[LastReport(m, xs, k)], xs[k]) || k - LastReport(m, xs, k) == HEARTBEAT
  }

  /** The last sample before the k-th that was reported. */
  function LastReport(m: Metric, xs: seq<Sample>, k: nat): (j: nat)
    requires 0 < k <= |xs|
    ensures j < k
    decreases k, 0
  {
    if k == 1 || Reported(m, xs, k - 1) then k - 1 else LastReport(m, xs, k - 1)
  }

  lemma {:induction false} LastReportFacts(m: Metric, xs: seq<Sample>, k: nat)
    requires 0 < k <= |xs|
    ensures Reported(m, xs, LastReport(m, xs, k))
    ensures forall i :: LastReport(m, xs, k) < i < k ==> !Reported(m, xs, i)
    ensures k - LastReport(m, xs, k) <= HEARTBEAT
  {
    if k > 1 && !Reported(m, xs, k - 1) {
      LastReportFacts(m, xs, k - 1);
    }
  }

  /** Within the deadband, by true distances. */
  predicate Near(a: Sample, b: Sample) {
    Distance(a.mv1, b.mv1) <= 5 && Distance(a.mv2, b.mv2) <= 10 && a.status == b.status
  }

  /** After every pass the reference's last report is within the deadband of the sample. */
  lemma ReportsTrack(xs: seq<Sample>, k: nat)
    requires 0 < k <= |xs|
    ensures Near(xs[LastReport(Exact, xs, k)], xs[k - 1])
  {
  }

  /** Any ten consecutive samples contain a report. */
  lemma HeartbeatWindow(m: Metric, xs: seq<Sample>, i: nat)
    requires i + HEARTBEAT <= |xs|
    ensures exists k :: i <= k < i + HEARTBEAT && Reported(m, xs, k)
  {
    LastReportFacts(m, xs, i + HEARTBEAT);
    assert Reported(m, xs, LastReport(m, xs, i + HEARTBEAT));
  }

  lemma NextRemainder(k: nat)
    ensures (k + 1) % HEARTBEAT == if k % HEARTBEAT == HEARTBEAT - 1 then 0 else k % HEARTBEAT + 1
  {
  }

  lemma SteadyNext(m: Metric, xs: seq<Sample>, k: nat)
    requires 0 < k < |xs| && !Apart(m, xs[LastReport(m, xs, k)], xs[k])
    requires LastReport(m, xs, k) == k - 1 - (k - 1) % HEARTBEAT
    ensures Reported(m, xs, k) <==> k % HEARTBEAT == 0
    ensures LastReport(m, xs, k + 1) == k - k % HEARTBEAT
  {
    NextRemainder(k - 1);
  }

  lemma {:induction false} SteadyLast(m: Metric, xs: seq<Sample>, k: nat)
    requires 0 < k <= |xs|
    requires forall i, j :: 0 <= i < |xs| && 0 <= j < |xs| ==> !Apart(m, xs[i], xs[j])
    ensures LastReport(m, xs, k) == k - 1 - (k - 1) % HEARTBEAT
  {
    if k > 1 {
      SteadyLast(m, xs, k - 1);
      SteadyNext(m, xs, k - 1);
    }
  }

  /** A stream that never leaves its own deadband is reported at every tenth sample and at
      no other. */
  lemma SteadyStream(m: Metric, xs: seq<Sample>, k: nat)
    requires k < |xs|
    requires forall i, j :: 0 <= i < |xs| && 0 <= j < |xs| ==> !Apart(m, xs[i], xs[j])
    ensures Reported(m, xs, k) <==> k % HEARTBEAT == 0
  {
    if k > 0 {
      SteadyLast(m, xs, k);
      SteadyNext(m, xs, k);
    }
  }

  // ---------- where the wrapping test can be trusted ----------

  /** Far apart by the given limit, and yet not so for the code. */
  predicate Hidden(a: uint32, b: uint32, limit: nat) {
    Distance(a, b) == 0x8000_0000 || Distance(a, b) >= 0x1_0000_0000 - limit
  }

  /** The pairs that the code takes for near although they are not. */
  predicate Misjudged(a: Sample, b: Sample) {
    && a.status == b.status
    && (Hidden(a.mv1, b.mv1, 5) || Hidden(a.mv2, b.mv2, 10))
    && (Hidden(a.mv1, b.mv1, 5) || Distance(a.mv1, b.mv1) <= 5)
    && (Hidden(a.mv2, b.mv2, 10) || Distance(a.mv2, b.mv2) <= 10)
  }

  lemma MisjudgedExact(a: Sample, b: Sample)
    ensures (CodeFar(a, b) <==> Far(a, b)) <==> !Misjudged(a, b)
  {
    ThresholdExact(a.mv1, b.mv1, 5);
    ThresholdExact(a.mv2, b.mv2, 10);
  }

  ghost predicate SameReports(xs: seq<Sample>, k: nat)
    requires k <= |xs|
  {
    forall i :: 0 <= i < k ==> (Reported(Wrapping, xs, i) <==> Reported(Exact, xs, i))
  }

  /** No sample is misjudged against the last report, unless the heartbeat is due anyway. */
  ghost predicate Trusted(xs: seq<Sample>, k: nat)
    requires k <= |xs|
  {
    forall i :: 0 < i < k && i - LastReport(Exact, xs, i) < HEARTBEAT ==>
      !Misjudged(xs[LastReport(Exact, xs, i)], xs[i])
  }

  lemma {:induction false} SameLastReport(xs: seq<Sample>, k: nat)
    requires 0 < k <= |xs| && SameReports(xs, k)
    ensures LastReport(Wrapping, xs, k) == LastReport(Exact, xs, k)
  {
    if k > 1 && !Reported(Exact, xs, k - 1) {
      SameLastReport(xs, k - 1);
    }
  }

  lemma SameNext(xs: seq<Sample>, k: nat)
    requires 0 < k < |xs| && SameReports(xs, k)
    ensures (Reported(Wrapping, xs, k) <==> Reported(Exact, xs, k)) <==>
            (k - LastReport(Exact, xs, k) < HEARTBEAT ==> !Misjudged(xs[LastReport(Exact, xs, k)], xs[k]))
  {
    SameLastReport(xs, k);
    LastReportFacts(Exact, xs, k);
    MisjudgedExact(xs[LastReport(Exact, xs, k)], xs[k]);
  }

  /** The wrapping code reports the same samples of a stream as true distances would, if
      and only if it never meets a misjudged pair. */
  lemma {:induction false} WrappingIsExact(xs: seq<Sample>, k: nat)
    requires k <= |xs|
    ensures SameReports(xs, k) <==> Trusted(xs, k)
  {
    if k > 0 {
      WrappingIsExact(xs, k - 1);
      if k > 1 && SameReports(xs, k - 1) {
        SameNext(xs, k - 1);
      }
    }
  }

  predicate InRange(x: Sample) {
    x.mv1 < 0x8000_0000 && x.mv2 < 0x8000_0000
  }

  /** Streams below 2^31 mV never meet one. */
  lemma InRangeIsTrusted(xs: seq<Sample>)
    requires forall i :: 0 <= i < |xs| ==> InRange(xs[i])
    ensures SameReports(xs, |xs|)
    ensures |xs| > 0 ==> Near(xs[LastReport(Wrapping, xs, |xs|)], xs[|xs| - 1])
  {
    WrappingIsExact(xs, |xs|);
    if |xs| > 0 {
      SameLastReport(xs, |xs|);
      ReportsTrack(xs, |xs|);
    }
  }

  // ---------- the code's decision ----------

  /** What one pass measures: the first channel in mV, the second before doubling. */
  datatype Input = Input(mv1: uint32, voltage: uint32, status: uint8)

  function Converted(i: Input): Sample {
    Sample(i.mv1, Wrap32(i.voltage * 2), i.status)
  }

  function Samples(inputs: seq<Input>): (xs: seq<Sample>)
    ensures |xs| == |inputs|
  {
    seq(|inputs|, i requires 0 <= i < |inputs| => Converted(inputs[i]))
  }

  predicate CodeReports(tmp: Record, cnt: uint16, x: Sample) {
    CodeFar(Sample(tmp.mv1, tmp.mv2, tmp.status), x) || cnt % 10 == 0
  }

  /** The last report, in the record that is queued. */
  function Entry(base: Record, x: Sample): Record {
    base.(mv1 := x.mv1, mv2 := x.mv2, status := x.status)
  }

  /** The task's two variables after k passes. */
  ghost predicate Tracking(base: Record, xs: seq<Sample>, k: nat, tmp: Record, cnt: int)
    requires k <= |xs|
  {
    if k == 0 then
      tmp == base && cnt == 0
    else
      tmp == Entry(base, xs[LastReport(Wrapping, xs, k)]) && cnt == k - LastReport(Wrapping, xs, k)
  }

  lemma HeartbeatIsTen(cnt: nat)
    requires 1 <= cnt <= HEARTBEAT
    ensures cnt % 10 == 0 <==> cnt == HEARTBEAT
  {
  }

  /** Whatever the record held at first, the code decides as the reference does, and its
      counter never passes 10. */
  lemma DecisionIsReference(base: Record, xs: seq<Sample>, k: nat, tmp: Record, cnt: uint16)
    requires k < |xs| && Tracking(base, xs, k, tmp, cnt)
    ensures CodeReports(tmp, cnt, xs[k]) <==> Reported(Wrapping, xs, k)
    ensures cnt <= HEARTBEAT
  {
    if k > 0 {
      assert cnt <= HEARTBEAT by {
        LastReportFacts(Wrapping, xs, k);
      }
      HeartbeatIsTen(cnt);
    }
  }

  /** Neither channel reaches 2^31 mV, the second counting twice. */
  predicate Small(x: Input) {
    x.mv1 < 0x8000_0000 && x.voltage < 0x4000_0000
  }

  lemma SmallIsTracked(base: Record, inputs: seq<Input>, tmp: Record, cnt: int)
    requires inputs != [] && Tracking(base, Samples(inputs), |inputs|, tmp, cnt)
    requires forall i :: 0 <= i < |inputs| ==> Small(inputs[i])
    ensures var x := inputs[|inputs| - 1];
            && Distance(tmp.mv1, x.mv1) <= 5
            && Distance(tmp.mv2, x.voltage + x.voltage) <= 10
            && tmp.status == x.status
  {
    InRangeIsTrusted(Samples(inputs));
  }

  lemma TrackingStep(base: Record, xs: seq<Sample>, k: nat, tmp: Record, cnt: int)
    requires k < |xs| && Tracking(base, xs, k, tmp, cnt)
    ensures if Reported(Wrapping, xs, k) then Tracking(base, xs, k + 1, Entry(tmp, xs[k]), 1)
            else Tracking(base, xs, k + 1, tmp, cnt + 1)
  {
  }

  /** The records queued for the first k samples. */
  function Reports(m: Metric, base: Record, xs: seq<Sample>, k: nat): seq<Record>
    requires k <= |xs|
  {
    if k == 0 then []
    else if Reported(m, xs, k - 1) then Reports(m, base, xs, k - 1) + [Entry(base, xs[k - 1])]
    else Reports(m, base, xs, k - 1)
  }

  lemma {:induction false} SameReportsQueued(base: Record, xs: seq<Sample>, k: nat)
    requires k <= |xs| && SameReports(xs, k)
    ensures Reports(Wrapping, base, xs, k) == Reports(Exact, base, xs, k)
  {
    if k > 0 {
      SameReportsQueued(base, xs, k - 1);
    }
  }

  /** In a ring of n cells, q has become f by the reports of the first k samples. */
  ghost predicate Queued(n: nat, q: Fifo, f: Fifo, base: Record, xs: seq<Sample>, k: nat)
    requires k <= |xs|
  {
    f == RunOps(n, q, Inserts(Reports(Wrapping, base, xs, k)))
  }

  lemma QueuedStep(n: nat, q: Fifo, f: Fifo, f': Fifo, base: Record, xs: seq<Sample>, k: nat)
    requires k < |xs| && Queued(n, q, f, base, xs, k)
    requires f' == if Reported(Wrapping, xs, k) then Inserted(n, f, Entry(base, xs[k]), true) else f
    ensures Queued(n, q, f', base, xs, k + 1)
  {
    InsertsMore(n, q, Reports(Wrapping, base, xs, k), Entry(base, xs[k]));
  }

  // ---------- the task ----------

  class AdcTask {
    var tmp: Record // tmp_data_queue: never initialised by the code
    var cnt: uint16

    constructor (garbage: Record)
      ensures tmp == garbage && cnt == 0
    {
      tmp, cnt := garbage, 0;
    }

    /** One pass of the endless loop. The buffer size printed after an insert is exact. */
    method Pass(ring: RingBuffer, x: Input) returns (size: Option<int>)
      requires ring.Valid()
      modifies this, ring, ring.data
      ensures ring.Valid()
      ensures var report := CodeReports(old(tmp), old(cnt), Converted(x));
              && tmp == (if report then Entry(old(tmp), Converted(x)) else old(tmp))
              && cnt == (if report then 1 else (old(cnt) + 1) % 0x1_0000)
              && ring.fifo == (if report then Inserted(ring.data.Length, old(ring.fifo), tmp, true) else old(ring.fifo))
              && size == (if report then Some(|Contents(ring.fifo)|) else None)
      ensures size.Some? ==> tmp == old(tmp).(mv1 := x.mv1, status := x.status,
                                              mv2 := (x.voltage + x.voltage) % 0x1_0000_0000)
    {
      size := None;
      var mv2 := Wrap32(x.voltage * 2);
      var delta := tmp.status - x.status;
      if CodeDistance(tmp.mv1, x.mv1) > 5 || CodeDistance(tmp.mv2, mv2) > 10
         || (if delta < 0 then -delta else delta) > 0 || cnt % 10 == 0 {
        tmp := tmp.(mv1 := x.mv1, mv2 := mv2, status := x.status);
        cnt := 0;
        ring.Insert(tmp, true);
        var n := ring.Size();
        size := Some(n);
      }
      cnt := (cnt + 1) % 0x1_0000;
    }

    /** A pass seen from the stream: after k passes comes the reference's decision on
        sample k. */
    method Follow(ring: RingBuffer, inputs: seq<Input>, k: nat, ghost base: Record, ghost q: Fifo)
      requires ring.Valid() && k < |inputs|
      requires Tracking(base, Samples(inputs), k, tmp, cnt)
      requires Queued(ring.data.Length, q, ring.fifo, base, Samples(inputs), k)
      modifies this, ring, ring.data
      ensures ring.Valid()
      ensures Tracking(base, Samples(inputs), k + 1, tmp, cnt)
      ensures Queued(ring.data.Length, q, ring.fifo, base, Samples(inputs), k + 1)
    {
      ghost var xs, f := Samples(inputs), ring.fifo;
      DecisionIsReference(base, xs, k, tmp, cnt);
      TrackingStep(base, xs, k, tmp, cnt);
      var size := Pass(ring, inputs[k]);
      QueuedStep(ring.data.Length, q, f, ring.fifo, base, xs, k);
    }

    /** The task's first passes, whatever it measures and whatever its record held before:
        it queues exactly the reports of the wrapping reference. */
    method Execute(ring: RingBuffer, inputs: seq<Input>)
      requires ring.Valid() && cnt == 0
      modifies this, ring, ring.data
      ensures ring.Valid()
      ensures Queued(ring.data.Length, old(ring.fifo), ring.fifo, old(tmp), Samples(inputs), |inputs|)
      ensures Tracking(old(tmp), Samples(inputs), |inputs|, tmp, cnt)
    {
      ghost var q, base, xs := ring.fifo, tmp, Samples(inputs);
      assert Tracking(base, xs, 0, tmp, cnt) && Queued(ring.data.Length, q, ring.fifo, base, xs, 0);
      for k := 0 to |inputs|
        invariant ring.Valid()
        invariant Queued(ring.data.Length, q, ring.fifo, base, xs, k)
        invariant Tracking(base, xs, k, tmp, cnt)
      {
        Follow(ring, inputs, k, base, q);
      }
    }

    /** What that means for the caller: the counter is between 1 and 10; a stream that the
        code can be trusted on is reported as by true distances; and below 2^31 mV, the
        second channel counting twice, the record last reported is within 5 mV, 10 mV and
        the status of the last input. */
    method Run(ring: RingBuffer, inputs: seq<Input>)
      requires ring.Valid() && cnt == 0
      modifies this, ring, ring.data
      ensures ring.Valid()
      ensures inputs != [] ==> 1 <= cnt <= HEARTBEAT
      ensures var xs := Samples(inputs);
              && ring.fifo == RunOps(ring.data.Length, old(ring.fifo), Inserts(Reports(Wrapping, old(tmp), xs, |xs|)))
              && (Trusted(xs, |xs|) ==>
                    ring.fifo == RunOps(ring.data.Length, old(ring.fifo), Inserts(Reports(Exact, old(tmp), xs, |xs|))))
      ensures inputs != [] && (forall i :: 0 <= i < |inputs| ==> Small(inputs[i])) ==>
              var x := inputs[|inputs| - 1];
              && Distance(tmp.mv1, x.mv1) <= 5
              && Distance(tmp.mv2, x.voltage + x.voltage) <= 10
              && tmp.status == x.status
    {
      ghost var base, xs := tmp, Samples(inputs);
      Execute(ring, inputs);
      WrappingIsExact(xs, |xs|);
      if Trusted(xs, |xs|) {
        SameReportsQueued(base, xs, |xs|);
      }
      if inputs != [] {
        LastReportFacts(Wrapping, xs, |xs|);
        if forall i :: 0 <= i < |inputs| ==> Small(inputs[i]) {
          SmallIsTracked(base, inputs, tmp, cnt);
        }
      }
    }
  }
}
