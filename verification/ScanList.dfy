/** The circular list of recently seen devices. */
module ScanList {
  import opened Types

  function Blank(n: nat): seq<Addr> {
    seq(n, _ => ZERO_ADDR)
  }

  /** The last n of the addresses added, after n all-zero ones that were there at first. */
  ghost function Latest(n: nat, added: seq<Addr>): (l: seq<Addr>)
    ensures |l| == n
  {
    (Blank(n) + added)[|added|..]
  }

  /** Among the last n added. */
  ghost predicate Recent(n: nat, added: seq<Addr>, bd: Addr) {
    exists i :: 0 <= i < |added| && |added| - n <= i && added[i] == bd
  }

  /** What the list answers: recently added, or all-zero while the list is not yet full. */
  ghost predicate Listed(n: nat, added: seq<Addr>, bd: Addr) {
    Recent(n, added, bd) || (|added| < n && bd == ZERO_ADDR)
  }

  lemma LatestIsListed(n: nat, added: seq<Addr>, bd: Addr)
    ensures bd in Latest(n, added) <==> Listed(n, added, bd)
  {
    var all, k := Blank(n) + added, |added|;
    if bd in Latest(n, added) {
      var i :| 0 <= i < n && Latest(n, added)[i] == bd;
      assert all[k + i] == bd;
      if n <= k + i {
        assert added[k + i - n] == bd;
      }
    }
    if Recent(n, added, bd) {
      var i :| 0 <= i < k && k - n <= i && added[i] == bd;
      assert Latest(n, added)[i + n - k] == all[i + n];
    }
    if k < n && bd == ZERO_ADDR {
      assert Latest(n, added)[0] == all[k];
    }
  }

  lemma LatestMore(n: nat, added: seq<Addr>, bd: Addr)
    requires 1 <= n
    ensures Latest(n, added + [bd]) == Latest(n, added)[1..] + [bd]
  {
    assert Blank(n) + (added + [bd]) == Blank(n) + added + [bd];
  }

  /** The cells from position i onwards, going round. */
  ghost function From(cells: seq<Addr>, i: nat): seq<Addr>
    requires i <= |cells|
  {
    cells[i..] + cells[..i]
  }

  lemma FromMore(cells: seq<Addr>, i: nat, bd: Addr)
    requires i < |cells|
    ensures From(cells[i := bd], if i + 1 < |cells| then i + 1 else 0) == From(cells, i)[1..] + [bd]
  {
  }

  // ---------- the caller's discipline: check, then add ----------

  ghost function Noted(n: nat, added: seq<Addr>, bd: Addr): seq<Addr> {
    if Listed(n, added, bd) then added else added + [bd]
  }

  ghost function NoteAll(n: nat, added: seq<Addr>, bds: seq<Addr>): seq<Addr>
    decreases |bds|
  {
    if bds == [] then added else NoteAll(n, Noted(n, added, bds[0]), bds[1..])
  }

  lemma {:induction false} NoteAllOnly(n: nat, added: seq<Addr>, bds: seq<Addr>)
    ensures added <= NoteAll(n, added, bds)
    ensures forall i :: |added| <= i < |NoteAll(n, added, bds)| ==> NoteAll(n, added, bds)[i] in bds
    decreases |bds|
  {
    if bds != [] {
      var next := Noted(n, added, bds[0]);
      NoteAllOnly(n, next, bds[1..]);
    }
  }

  /** A device is listed as soon as it is noted. */
  lemma {:induction false} NotedIsListed(n: nat, added: seq<Addr>, bds: seq<Addr>)
    requires 1 <= n && bds != []
    ensures Listed(n, NoteAll(n, added, bds), bds[|bds| - 1])
    decreases |bds|
  {
    var next := Noted(n, added, bds[0]);
    if |bds| == 1 {
      assert NoteAll(n, next, bds[1..]) == next;
      assert next != added ==> next[|added|] == bds[0];
    } else {
      NotedIsListed(n, next, bds[1..]);
    }
  }

  /** Nothing is listed but devices noted, zero apart. */
  lemma ListedWasNoted(n: nat, bds: seq<Addr>, bd: Addr)
    requires Listed(n, NoteAll(n, [], bds), bd)
    ensures bd in bds || bd == ZERO_ADDR
  {
    NoteAllOnly(n, [], bds);
  }

  /** Two adds of one address are more than n adds apart. */
  ghost predicate Spaced(n: nat, added: seq<Addr>) {
    forall i, j :: 0 <= i < j < |added| && j - i <= n ==> added[i] != added[j]
  }

  lemma {:induction false} DisciplineSpaces(n: nat, added: seq<Addr>, bds: seq<Addr>)
    requires Spaced(n, added)
    ensures Spaced(n, NoteAll(n, added, bds))
    decreases |bds|
  {
    if bds != [] {
      DisciplineSpaces(n, Noted(n, added, bds[0]), bds[1..]);
    }
  }

  ghost function Max(a: int, b: int): int {
    if a < b then b else a
  }

  /** The filled entries stay pairwise distinct forever, under check-then-add from an
      empty list. */
  lemma EntriesStayDistinct(n: nat, bds: seq<Addr>, i: int, j: int)
    requires var added := NoteAll(n, [], bds);
             Max(0, |added| - n) <= i < j < |added|
    ensures var added := NoteAll(n, [], bds); added[i] != added[j]
  {
    DisciplineSpaces(n, [], bds);
  }

  // ---------- the code ----------

  /** Compare byte by byte; 1 if equal. */
  method CompareBdAddr(a: Addr, b: Addr) returns (r: uint8)
    ensures r == if a == b then 1 else 0
  {
    var i: uint16 := 0;
    while i < 6
      invariant 0 <= i <= 6
      invariant a[..i] == b[..i]
    {
      if a[i] != b[i] {
        return 0;
      }
      i := i + 1;
    }
    assert a == a[..6] && b == b[..6];
    return 1;
  }

  class GapScanList {
    const cells: array<Addr>
    var nEnd: uint16
    ghost var added: seq<Addr>

    /** Read from the write position onwards, going round, the cells are the latest n. */
    ghost predicate Valid()
      reads this, cells
    {
      && 1 <= cells.Length <= 0xff
      && nEnd < cells.Length
      && From(cells[..], nEnd) == Latest(cells.Length, added)
    }

    constructor (n: nat)
      requires 1 <= n <= 0xff
      ensures Valid() && fresh(cells)
      ensures cells.Length == n && added == []
    {
      cells := new Addr[n](_ => ZERO_ADDR);
      nEnd := 0;
      added := [];
      new;
      assert cells[..] == Blank(n);
    }

    method Add(bd: Addr)
      requires Valid()
      modifies this, cells
      ensures Valid()
      ensures added == old(added) + [bd]
    {
      LatestMore(cells.Length, added, bd);
      FromMore(cells[..], nEnd, bd);
      cells[nEnd] := bd;
      nEnd := (nEnd + 1) % 0x1_0000;
      if nEnd >= cells.Length {
        nEnd := 0;
      }
      added := added + [bd];
    }

    method Check(bd: Addr) returns (r: uint8)
      requires Valid()
      ensures r == if Listed(cells.Length, added, bd) then 1 else 0
    {
      LatestIsListed(cells.Length, added, bd);
      r := 0;
      var i: uint8 := 0;
      while i < cells.Length
        invariant 0 <= i <= cells.Length
        invariant bd !in cells[..i]
      {
        var same := CompareBdAddr(bd, cells[i]);
        if same == 1 {
          assert cells[i] in From(cells[..], nEnd);
          return 1;
        }
        i := i + 1;
      }
      assert bd !in From(cells[..], nEnd);
    }

    /** What the scan callback does with every result. */
    method Note(bd: Addr)
      requires Valid()
      modifies this, cells
      ensures Valid()
      ensures added == Noted(cells.Length, old(added), bd)
      ensures Listed(cells.Length, added, bd)
    {
      NotedIsListed(cells.Length, added, [bd]);
      assert NoteAll(cells.Length, added, [bd]) == Noted(cells.Length, added, bd);
      var known := Check(bd);
      if known == 0 {
        Add(bd);
      }
    }
  }
}
