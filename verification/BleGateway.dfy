/** The Bluetooth callbacks with their real variables: three flags, the profile table, the
    scan list and the ring buffer. */
module BleGateways {
  import opened Types
  import opened DataBuffer
  import opened ScanList
  import opened Ble

  const NAMES := ["enware", "enware", "enware"]

  function Strip(r: Record): Merged {
    Merged(r.mac, r.temperature, r.status, r.vdd)
  }

  function Strips(rs: seq<Record>): (ms: seq<Merged>)
    ensures |ms| == |rs|
  {
    seq(|rs|, i requires 0 <= i < |rs| => Strip(rs[i]))
  }

  /** The records rs account for all that was queued between two moments, both in the
      model and in a ring of n cells. */
  ghost predicate Fed(n: nat, f: Fifo, q: seq<Merged>, f': Fifo, q': seq<Merged>, rs: seq<Record>) {
    f' == RunOps(n, f, Inserts(rs)) && q' == q + Strips(rs)
  }

  lemma FedTwice(n: nat, f: Fifo, q: seq<Merged>, f': Fifo, q': seq<Merged>, rs: seq<Record>,
                 f'': Fifo, q'': seq<Merged>, more: seq<Record>)
    requires Fed(n, f, q, f', q', rs) && Fed(n, f', q', f'', q'', more)
    ensures Fed(n, f, q, f'', q'', rs + more)
  {
    InsertsAppend(n, f, rs, more);
    assert Strips(rs + more) == Strips(rs) + Strips(more);
  }

  lemma LowestOfThree(a: bool, b: bool, c: bool)
    ensures LowestFree([a, b, c]) == if !a then 0 else if !b then 1 else if !c then 2 else 3
  {
    assert [a, b, c][1..] == [b, c];
    assert [b, c][1..] == [c];
    assert [c][1..] == [];
    assert LowestFree([c]) == if !c then 0 else 1;
  }

  class BleGateway {
    const profiles: array<Profile>   // gl_profile_tab
    const list: GapScanList
    const ring: RingBuffer
    var connA: bool
    var connB: bool
    var connC: bool
    var stopScanDone: bool
    var isConnecting: bool
    ghost var model: State

    ghost predicate Valid()
      reads this, profiles, list, list.cells, ring, ring.data
    {
      && profiles.Length == 3
      && Shaped(model)
      && model.taken == [connA, connB, connC]
      && model.profiles == profiles[..]
      && model.stopScanDone == stopScanDone && model.isConnecting == isConnecting
      && list.Valid() && ring.Valid()
    }

    constructor (list: GapScanList, ring: RingBuffer)
      requires list.Valid() && ring.Valid()
      ensures Valid() && fresh(profiles)
      ensures this.list == list && this.ring == ring && model == Init()
    {
      this.list, this.ring := list, ring;
      profiles := new Profile[3](_ => BLANK);
      connA, connB, connC, stopScanDone, isConnecting := false, false, false, false, false;
      model := Init();
      new;
      assert profiles[..] == [BLANK, BLANK, BLANK];
    }

    /** start_scan */
    method StartScan()
      requires Valid()
      modifies this
      ensures Valid()
      ensures model == Rescan(old(model))
    {
      stopScanDone := false;
      isConnecting := false;
      model := Rescan(model);
    }

    /** The chain of tests for a bonded device. */
    method OpenBonded()
      modifies `connA, `connB, `connC, `isConnecting
      ensures var i := LowestFree(old([connA, connB, connC]));
              && [connA, connB, connC] ==
                 (if i < 3 then old([connA, connB, connC])[i := true] else old([connA, connB, connC]))
              && isConnecting == (if i < 3 then true else old(isConnecting))
    {
      LowestOfThree(connA, connB, connC);
      if !connA {
        connA := true;
        isConnecting := true;
      } else if !connB {
        connB := true;
        isConnecting := true;
      } else if !connC {
        connC := true;
        isConnecting := true;
      }
    }

    /** The chain of tests for a device with a name. */
    method OpenNamed(name: string)
      modifies `connA, `connB, `connC, `isConnecting
      ensures var i := if name == REMOTE_NAME then LowestFree(old([connA, connB, connC])) else 3;
              && [connA, connB, connC] ==
                 (if i < 3 then old([connA, connB, connC])[i := true] else old([connA, connB, connC]))
              && isConnecting == (if i < 3 then true else old(isConnecting))
    {
      LowestOfThree(connA, connB, connC);
      if |NAMES[0]| == |name| && name == NAMES[0] && !connA {
        connA := true;
        isConnecting := true;
      } else if |NAMES[1]| == |name| && name == NAMES[1] && !connB {
        connB := true;
        isConnecting := true;
      } else if |NAMES[2]| == |name| && name == NAMES[2] && !connC {
        connC := true;
        isConnecting := true;
      }
    }

    /** A scan result: note the device, then claim a slot for it if it is wanted. */
    method ScanResult(bda: Addr, bonded: bool, name: Option<string>)
      requires Valid()
      modifies this, list, list.cells
      ensures Valid()
      ensures model == Step(old(model), Scan(bda, bonded, name))
      ensures list.added == Noted(list.cells.Length, old(list.added), bda)
    {
      list.Note(bda);
      Search(bda, bonded, name);
    }

    /** What the scan callback does with the device once it is noted. */
    method Search(bda: Addr, bonded: bool, name: Option<string>)
      requires Valid()
      modifies this
      ensures Valid()
      ensures model == DoScan(old(model), bda, bonded, name)
    {
      LowestOfThree(connA, connB, connC);
      model := DoScan(model, bda, bonded, name);
      if connA && connB && connC && !stopScanDone {
        stopScanDone := true;
        return;
      }
      if bonded {
        OpenBonded();
      } else if name.Some? {
        OpenNamed(name.value);
      }
    }

    /** The body of the match in notifyCallback: merge into profile i and queue. */
    method Merge(i: Index, n: Note, mv1: uint32, mv2: uint32) returns (r: Record, size: int)
      requires Valid() && First(model.profiles, n.bda) == i
      modifies this, profiles, ring, ring.data
      ensures Valid()
      ensures model == old(model).(profiles := NoteProfiles(old(model).profiles, n),
                                   queued := old(model).queued + NoteRecords(old(model).profiles, n))
      ensures [Strip(r)] == NoteRecords(old(model).profiles, n)
      ensures ring.fifo == Inserted(ring.data.Length, old(ring.fifo), r, true)
      ensures size == |Contents(ring.fifo)|
    {
      var p := profiles[i];
      if n.handle == p.charHandle {
        p := p.(status := Switch(n.value), temperature := Ble.Temperature(n.value));
      } else if n.handle == p.charVddHandle {
        p := p.(vdd := Vdd(n.value));
      }
      assert p == Updated(model.profiles[i], n);
      profiles[i] := p;
      r := Record(n.bda, p.temperature, Truncated8(p.vdd), p.status, mv1, mv2);
      model := model.(profiles := NoteProfiles(model.profiles, n),
                      queued := model.queued + NoteRecords(model.profiles, n));
      ring.Insert(r, true);
      size := ring.Size();
    }

    /** notifyCallback. The two voltages of the record queued are indeterminate; the buffer
        size printed after an insert is exact. */
    method NotifyCallback(n: Note) returns (ghost rs: seq<Record>, size: Option<int>)
      requires Valid()
      modifies this, profiles, ring, ring.data
      ensures Valid()
      ensures model == old(model).(profiles := NoteProfiles(old(model).profiles, n),
                                   queued := old(model).queued + NoteRecords(old(model).profiles, n))
      ensures Strips(rs) == NoteRecords(old(model).profiles, n)
      ensures ring.fifo == RunOps(ring.data.Length, old(ring.fifo), Inserts(rs))
      ensures size == if rs == [] then None else Some(|Contents(ring.fifo)|)
    {
      rs, size := [], None;
      var mv1: uint32, mv2: uint32 := *, *;
      var i: uint8 := 0;
      while i < 3
        invariant 0 <= i <= 3
        invariant Valid() && model == old(model) && ring.fifo == old(ring.fifo)
        invariant forall j :: 0 <= j < i ==> model.profiles[j].remote != n.bda
      {
        var same := CompareBdAddr(n.bda, profiles[i].remote);
        if same == 1 {
          var r, k := Merge(i, n, mv1, mv2);
          rs, size := [r], Some(k);
          InsertsMore(ring.data.Length, old(ring.fifo), [], r);
          assert [] + [r] == [r];
          return;
        }
        i := i + 1;
      }
      assert model.queued + [] == model.queued;
    }

    method SetConnection(i: Index, on: bool)
      modifies `connA, `connB, `connC
      ensures [connA, connB, connC] == old([connA, connB, connC])[i := on]
    {
      match i {
        case 0 => connA := on;
        case 1 => connB := on;
        case _ => connC := on;
      }
    }

    // One method for each event that gattc_profile_event_handler acts on; the flag it is
    // given is that of profile i.

    method OnOpened(i: Index, e: GattcEvent)
      requires Valid() && e.Opened?
      modifies this, profiles
      ensures Valid()
      ensures model == Handler(old(model), i, e)
    {
      if !e.ok {
        SetConnection(i, false);
      } else {
        profiles[i] := profiles[i].(remote := e.bda, connId := e.connId);
      }
      model := Handler(model, i, e);
    }

    method OnServiceFound(i: Index, e: GattcEvent)
      requires Valid() && e.ServiceFound?
      modifies this, profiles
      ensures Valid()
      ensures model == Handler(old(model), i, e)
    {
      if e.shortUuid {
        if e.uuid == SERVICE_T {
          profiles[i] := profiles[i].(gotT := true, tRange := e.range);
        } else if e.uuid == SERVICE_VDD {
          profiles[i] := profiles[i].(gotVdd := true, vddRange := e.range);
        }
      }
      model := Handler(model, i, e);
    }

    method OnSearchDone(i: Index, e: GattcEvent)
      requires Valid() && e.SearchDone?
      modifies this, profiles
      ensures Valid()
      ensures model == Handler(old(model), i, e)
    {
      if e.ok {
        var p := profiles[i];
        if p.gotT && e.tChar.Some? {
          p := p.(charHandle := e.tChar.value);
        }
        if p.gotVdd && e.vddChar.Some? {
          p := p.(charVddHandle := e.vddChar.value);
        }
        assert p == Discovered(model.profiles[i], e.tChar, e.vddChar);
        profiles[i] := p;
        stopScanDone, isConnecting := false, false;
      }
      model := Handler(model, i, e);
    }

    method OnDisconnected(i: Index, e: GattcEvent)
      requires Valid() && e.Disconnected?
      modifies this, profiles
      ensures Valid()
      ensures model == Handler(old(model), i, e)
    {
      stopScanDone, isConnecting := false, false;
      if e.bda == profiles[i].remote {
        SetConnection(i, false);
        profiles[i] := profiles[i].(gotT := false, gotVdd := false);
      }
      model := Handler(model, i, e);
    }

    /** gattc_profile_event_handler */
    method ProfileEvent(i: Index, e: GattcEvent) returns (ghost rs: seq<Record>)
      requires Valid()
      modifies this, profiles, ring, ring.data
      ensures Valid()
      ensures model == Handler(old(model), i, e)
      ensures Fed(ring.data.Length, old(ring.fifo), old(model.queued), ring.fifo, model.queued, rs)
    {
      rs := [];
      match e {
        case Opened(_, _, _) => OnOpened(i, e);
        case ServiceFound(_, _, _) => OnServiceFound(i, e);
        case SearchDone(_, _, _) => OnSearchDone(i, e);
        case Disconnected(_) => OnDisconnected(i, e);
        case Notified(note) =>
          ghost var target := Handler(model, i, e);
          var size;
          rs, size := NotifyCallback(note);
          model := target;
        case Registered(_, _) => model := Handler(model, i, e);
        case OtherGattc => model := Handler(model, i, e);
      }
    }

    method CallProfile(gattcIf: nat, e: GattcEvent, i: Index) returns (ghost rs: seq<Record>)
      requires Valid()
      modifies this, profiles, ring, ring.data
      ensures Valid()
      ensures model == Called(old(model), gattcIf, e, i)
      ensures Fed(ring.data.Length, old(ring.fifo), old(model.queued), ring.fifo, model.queued, rs)
    {
      rs := [];
      if gattcIf == IF_NONE || gattcIf == profiles[i].gattcIf {
        rs := ProfileEvent(i, e);
      }
    }

    /** esp_gattc_cb, the loop: call every profile that the event's interface concerns. */
    method DispatchAll(gattcIf: nat, e: GattcEvent) returns (ghost rs: seq<Record>)
      requires Valid()
      modifies this, profiles, ring, ring.data
      ensures Valid()
      ensures model == Dispatch(old(model), gattcIf, e, 0)
      ensures Fed(ring.data.Length, old(ring.fifo), old(model.queued), ring.fifo, model.queued, rs)
    {
      rs := [];
      var idx := 0;
      while idx < 3
        invariant 0 <= idx <= 3
        invariant Valid()
        invariant Dispatch(model, gattcIf, e, idx) == Dispatch(old(model), gattcIf, e, 0)
        invariant Fed(ring.data.Length, old(ring.fifo), old(model.queued), ring.fifo, model.queued, rs)
      {
        ghost var f, q := ring.fifo, model.queued;
        ghost var more := CallProfile(gattcIf, e, idx);
        FedTwice(ring.data.Length, old(ring.fifo), old(model.queued), f, q, rs, ring.fifo, model.queued, more);
        rs := rs + more;
        idx := idx + 1;
      }
    }

    /** esp_gattc_cb: note a new interface first. */
    method GattcCallback(gattcIf: nat, e: GattcEvent) returns (ghost rs: seq<Record>)
      requires Valid()
      modifies this, profiles, ring, ring.data
      ensures Valid()
      ensures model == Step(old(model), Gattc(gattcIf, e))
      ensures Fed(ring.data.Length, old(ring.fifo), old(model.queued), ring.fifo, model.queued, rs)
    {
      rs := [];
      if e.Registered? {
        if e.ok {
          profiles[e.appId] := profiles[e.appId].(gattcIf := gattcIf);
          model := WithProfile(model, e.appId, profiles[e.appId]);
        } else {
          return;
        }
      }
      rs := DispatchAll(gattcIf, e);
    }

    /** Any sequence of callbacks, carried out on the real variables. */
    method Run(es: seq<Event>) returns (ghost rs: seq<Record>)
      requires Valid()
      modifies this, profiles, list, list.cells, ring, ring.data
      ensures Valid()
      ensures model == After(old(model), es)
      ensures Fed(ring.data.Length, old(ring.fifo), old(model.queued), ring.fifo, model.queued, rs)
    {
      rs := [];
      var i := 0;
      while i < |es|
        invariant 0 <= i <= |es|
        invariant Valid()
        invariant After(model, es[i..]) == After(old(model), es)
        invariant Fed(ring.data.Length, old(ring.fifo), old(model.queued), ring.fifo, model.queued, rs)
      {
        ghost var f, q, more := ring.fifo, model.queued, [];
        assert es[i..][1..] == es[i + 1..];
        more := Perform(es[i]);
        FedTwice(ring.data.Length, old(ring.fifo), old(model.queued), f, q, rs, ring.fifo, model.queued, more);
        rs := rs + more;
        i := i + 1;
      }
    }

    method Perform(e: Event) returns (ghost rs: seq<Record>)
      requires Valid()
      modifies this, profiles, list, list.cells, ring, ring.data
      ensures Valid()
      ensures model == Step(old(model), e)
      ensures Fed(ring.data.Length, old(ring.fifo), old(model.queued), ring.fifo, model.queued, rs)
    {
      rs := [];
      match e {
        case Scan(bda, bonded, name) => ScanResult(bda, bonded, name);
        case Restart => StartScan();
        case Gattc(gattcIf, ge) => rs := GattcCallback(gattcIf, ge);
      }
    }
  }
}
