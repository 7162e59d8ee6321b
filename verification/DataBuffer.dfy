/** The drop-oldest ring buffer between the producers and the hub client. */
module DataBuffer {
  import opened Types

  /** The abstract queue: everything ever accepted, and how many of those have left
      at the front. What is buffered is therefore always the rest of the history. */
  datatype Fifo = Fifo(accepted: seq<Record>, taken: nat)

  const EMPTY := Fifo([], 0)

  datatype Op = Insert(x: Record, keepNew: bool) | Remove

  /** A ring of n cells holds at most n - 1 records. */
  ghost predicate WellFormed(n: nat, q: Fifo) {
    q.taken <= |q.accepted| < q.taken + n
  }

  ghost function Contents(q: Fifo): seq<Record>
    requires q.taken <= |q.accepted|
  {
    q.accepted[q.taken..]
  }

  function Inserted(n: nat, q: Fifo, x: Record, keepNew: bool): Fifo {
    if |q.accepted| + 1 < q.taken + n then
      Fifo(q.accepted + [x], q.taken)
    else if keepNew then
      Fifo(q.accepted + [x], q.taken + 1)
    else
      q
  }

  function Removed(q: Fifo): Fifo {
    if q.taken < |q.accepted| then Fifo(q.accepted, q.taken + 1) else q
  }

  function Apply(n: nat, q: Fifo, op: Op): Fifo {
    match op
    case Insert(x, keepNew) => Inserted(n, q, x, keepNew)
    case Remove => Removed(q)
  }

  function RunOps(n: nat, q: Fifo, ops: seq<Op>): Fifo
    decreases |ops|
  {
    if ops == [] then q else RunOps(n, Apply(n, q, ops[0]), ops[1..])
  }

  /** The reference: a plain sequence, bounded, oldest record first. */
  function ApplySeq(n: nat, s: seq<Record>, op: Op): seq<Record> {
    match op
    case Insert(x, keepNew) =>
      if |s| < n - 1 then s + [x]
      else if keepNew && |s| > 0 then s[1..] + [x]
      else s
    case Remove =>
      if s == [] then [] else s[1..]
  }

  function RunSeq(n: nat, s: seq<Record>, ops: seq<Op>): seq<Record>
    decreases |ops|
  {
    if ops == [] then s else RunSeq(n, ApplySeq(n, s, ops[0]), ops[1..])
  }

  /** The history grows only at its end, and readings leave only at the front. */
  ghost predicate Extends(q: Fifo, q': Fifo) {
    q.accepted <= q'.accepted && q.taken <= q'.taken
  }

  lemma ApplyRefines(n: nat, q: Fifo, op: Op)
    requires 2 <= n && WellFormed(n, q)
    ensures WellFormed(n, Apply(n, q, op)) && Extends(q, Apply(n, q, op))
    ensures Contents(Apply(n, q, op)) == ApplySeq(n, Contents(q), op)
  {
    if op.Insert? {
      var a, t, x := q.accepted, q.taken, op.x;
      assert (a + [x])[t..] == a[t..] + [x];
      if t < |a| {
        assert (a + [x])[t + 1..] == a[t..][1..] + [x];
      }
    }
  }

  /** Under any sequence of operations the queue behaves as the bounded sequence, never
      exceeds n - 1 records, and holds exactly the records accepted last. */
  lemma {:induction false} RunRefinesSequence(n: nat, q: Fifo, ops: seq<Op>)
    requires 2 <= n && WellFormed(n, q)
    ensures var q' := RunOps(n, q, ops);
            && WellFormed(n, q') && Extends(q, q')
            && Contents(q') == RunSeq(n, Contents(q), ops)
            && |Contents(q')| <= n - 1
            && Contents(q') == q'.accepted[|q'.accepted| - |Contents(q')|..]
    decreases |ops|
  {
    if ops != [] {
      ApplyRefines(n, q, ops[0]);
      RunRefinesSequence(n, Apply(n, q, ops[0]), ops[1..]);
    }
  }

  lemma {:induction false} RunOpsAppend(n: nat, q: Fifo, ops: seq<Op>, op: Op)
    ensures RunOps(n, q, ops + [op]) == Apply(n, RunOps(n, q, ops), op)
    decreases |ops|
  {
    if ops != [] {
      assert (ops + [op])[1..] == ops[1..] + [op];
      RunOpsAppend(n, Apply(n, q, ops[0]), ops[1..], op);
    }
  }

  /** Producers always ask for the newest record to be kept. */
  function Inserts(rs: seq<Record>): seq<Op> {
    seq(|rs|, i requires 0 <= i < |rs| => Insert(rs[i], true))
  }

  lemma {:induction false} InsertsAppend(n: nat, q: Fifo, a: seq<Record>, b: seq<Record>)
    ensures RunOps(n, q, Inserts(a + b)) == RunOps(n, RunOps(n, q, Inserts(a)), Inserts(b))
    decreases |b|
  {
    if b == [] {
      assert a + b == a;
    } else {
      var front, r := b[..|b| - 1], b[|b| - 1];
      assert b == front + [r];
      assert a + b == (a + front) + [r];
      InsertsAppend(n, q, a, front);
      InsertsMore(n, q, a + front, r);
      InsertsMore(n, RunOps(n, q, Inserts(a)), front, r);
    }
  }

  lemma InsertsMore(n: nat, q: Fifo, rs: seq<Record>, r: Record)
    ensures RunOps(n, q, Inserts(rs + [r])) == Inserted(n, RunOps(n, q, Inserts(rs)), r, true)
  {
    assert Inserts(rs + [r]) == Inserts(rs) + [Insert(r, true)];
    RunOpsAppend(n, q, Inserts(rs), Insert(r, true));
  }

  ghost function Next(n: nat, i: nat): nat {
    if i + 1 < n then i + 1 else 0
  }

  /** The k-th cell after start, going round an array of n cells. */
  ghost function Cell(n: nat, start: nat, k: nat): nat {
    if start + k < n then start + k else start + k - n
  }

  lemma NextCell(n: nat, start: nat, k: nat)
    requires start < n && k + 1 < n
    ensures Next(n, Cell(n, start, k)) == Cell(n, start, k + 1)
  {
  }

  /** From start onwards, going round, the cells hold the records of s, oldest first. */
  ghost predicate Stores(cells: seq<Record>, start: nat, s: seq<Record>)
    requires start < |cells|
    decreases |s|
  {
    s == [] || (cells[start] == s[0] && Stores(cells, Next(|cells|, start), s[1..]))
  }

  lemma {:induction false} StoresMore(cells: seq<Record>, start: nat, s: seq<Record>, x: Record)
    requires start < |cells| && |s| < |cells| && Stores(cells, start, s)
    ensures Cell(|cells|, start, |s|) < |cells|
    ensures Stores(cells[Cell(|cells|, start, |s|) := x], start, s + [x])
    decreases |s|
  {
    if s != [] {
      assert (s + [x])[1..] == s[1..] + [x];
      StoresMore(cells, Next(|cells|, start), s[1..], x);
    } else {
      assert (s + [x])[1..] == [];
    }
  }

  /** The buffer's statics. Index arithmetic is that of eight-bit unsigned variables. */
  class RingBuffer {
    const data: array<Record>
    var head: uint8
    var tail: uint8
    var itemCount: uint8
    ghost var fifo: Fifo

    ghost predicate Valid()
      reads this, data
    {
      && 2 <= data.Length <= 0x100
      && head < data.Length && tail < data.Length
      && WellFormed(data.Length, fifo)
      && itemCount == |Contents(fifo)|
      && tail == Cell(data.Length, head, itemCount)
      && Stores(data[..], head, Contents(fifo))
    }

    constructor (n: nat, blank: Record)
      requires 2 <= n <= 0x100
      ensures Valid() && fresh(data)
      ensures data.Length == n && fifo == EMPTY
    {
      data := new Record[n](_ => blank);
      head, tail, itemCount := 0, 0, 0;
      fifo := EMPTY;
    }

    method Peek() returns (r: Record)
      requires Valid()
      ensures Contents(fifo) != [] ==> r == Contents(fifo)[0]
    {
      r := data[head];
    }

    method IsEmpty() returns (b: bool)
      requires Valid()
      ensures b <==> Contents(fifo) == []
    {
      b := head == tail;
    }

    method IsFull() returns (b: bool)
      requires Valid()
      ensures b <==> |Contents(fifo)| == data.Length - 1
    {
      var next: uint8 := (tail + 1) % 0x100;
      if next >= data.Length {
        next := 0;
      }
      b := head == next;
    }

    /** Exact on a non-empty buffer; an empty one reports its number of cells. */
    method Size() returns (n: int)
      requires Valid()
      ensures n == if Contents(fifo) == [] then data.Length else |Contents(fifo)|
    {
      if tail > head {
        n := tail - head;
      } else {
        n := tail + data.Length - head;
      }
    }

    /** On an empty buffer the record returned is indeterminate. */
    method RemoveData() returns (r: Record)
      requires Valid()
      modifies this
      ensures Valid()
      ensures fifo == Removed(old(fifo))
      ensures old(Contents(fifo)) != [] ==> r == old(Contents(fifo))[0]
    {
      var garbage: Record := *;
      r := garbage;
      if head == tail {
        return;
      }
      r := TakeOldest();
    }

    /** The copy-out branch of RemoveData. */
    method TakeOldest() returns (r: Record)
      requires Valid() && Contents(fifo) != []
      modifies this
      ensures Valid()
      ensures fifo == Fifo(old(fifo).accepted, old(fifo).taken + 1)
      ensures r == old(Contents(fifo))[0]
    {
      ghost var q := Removed(fifo);
      assert Contents(q) == Contents(fifo)[1..];
      r := data[head];
      head := (head + 1) % 0x100;
      if head >= data.Length {
        head := 0;
      }
      itemCount := (itemCount - 1) % 0x100;
      fifo := q;
    }

    method Insert(x: Record, keepNew: bool)
      requires Valid()
      modifies this, data
      ensures Valid()
      ensures fifo == Inserted(data.Length, old(fifo), x, keepNew)
    {
      var full := IsFull();
      if full && keepNew {
        var dropped := RemoveData();
      }
      full := IsFull();
      if !full {
        Append(x);
      }
    }

    /** The copy-in branch of Insert. */
    method Append(x: Record)
      requires Valid() && |Contents(fifo)| < data.Length - 1
      modifies this, data
      ensures Valid()
      ensures fifo == Fifo(old(fifo).accepted + [x], old(fifo).taken)
    {
      ghost var n, cells, s := data.Length, data[..], Contents(fifo);
      ghost var q := Fifo(fifo.accepted + [x], fifo.taken);
      assert Contents(q) == s + [x];
      StoresMore(cells, head, s, x);
      NextCell(n, head, |s|);
      data[tail] := x;
      assert data[..] == cells[Cell(n, head, |s|) := x];
      tail := (tail + 1) % 0x100;
      if tail >= data.Length {
        tail := 0;
      }
      assert tail == Cell(n, head, |s| + 1);
      itemCount := (itemCount + 1) % 0x100;
      fifo := q;
    }

    /** Any sequence of inserts and removes, in place. */
    method Execute(ops: seq<Op>)
      requires Valid()
      modifies this, data
      ensures Valid()
      ensures fifo == RunOps(data.Length, old(fifo), ops)
      ensures Contents(fifo) == RunSeq(data.Length, old(Contents(fifo)), ops)
      ensures itemCount == |RunSeq(data.Length, old(Contents(fifo)), ops)|
    {
      for i := 0 to |ops|
        invariant Valid()
        invariant fifo == RunOps(data.Length, old(fifo), ops[..i])
      {
        assert ops[..i + 1] == ops[..i] + [ops[i]];
        RunOpsAppend(data.Length, old(fifo), ops[..i], ops[i]);
        match ops[i] {
          case Insert(x, keepNew) => Insert(x, keepNew);
          case Remove => var r := RemoveData();
        }
      }
      assert ops[..|ops|] == ops;
      RunRefinesSequence(data.Length, old(fifo), ops);
    }
  }
}
