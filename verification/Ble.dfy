/** Bookkeeping of the three Bluetooth connections as a state machine over the stack's
    callbacks: slot flags, per-profile discovery state, and the merged sensor values. */
module Ble {
  import opened Types

  type Index = i: nat | i < 3

  const IF_NONE: nat := 0xff
  const SERVICE_T: nat := 0x2B1D
  const SERVICE_VDD: nat := 0x99DA
  const REMOTE_NAME := "enware"

  datatype Range = Range(start: nat, end: nat)

  /** One element of gl_profile_tab. */
  datatype Profile = Profile(
    gattcIf: nat, connId: nat, remote: Addr,
    tRange: Range, vddRange: Range, gotT: bool, gotVdd: bool,
    charHandle: nat, charVddHandle: nat,
    temperature: int, vdd: int, status: uint8)

  /** A notification: peer, characteristic, bytes. */
  datatype Note = Note(bda: Addr, handle: nat, value: seq<uint8>)

  datatype GattcEvent =
    | Registered(appId: Index, ok: bool)
    | Opened(ok: bool, bda: Addr, connId: nat)
    | ServiceFound(shortUuid: bool, uuid: nat, range: Range)
    | SearchDone(ok: bool, tChar: Option<nat>, vddChar: Option<nat>) // what the look-ups would find
    | Notified(note: Note)
    | Disconnected(bda: Addr)
    | OtherGattc

  datatype Event =
    | Scan(bda: Addr, bonded: bool, name: Option<string>)
    | Restart                                 // a scan ended, or its parameters were set
    | Gattc(gattcIf: nat, e: GattcEvent)

  datatype Service = ServiceT | ServiceVdd

  datatype Lookup = Lookup(profile: nat, service: Service, range: Range)

  /** What happened to a slot: a request to open it, or an event that frees it. */
  datatype Mark = Open | Release

  /** A queued record, without the two voltages the code leaves unset. */
  datatype Merged = Merged(mac: Addr, temperature: int, status: uint8, vdd: uint8)

  datatype State = State(
    taken: seq<bool>,             // conn_device_a, _b, _c
    stopScanDone: bool,
    isConnecting: bool,
    profiles: seq<Profile>,       // gl_profile_tab
    // history
    opens: seq<(nat, Addr)>,      // open requests: slot and device
    lookups: seq<Lookup>,         // characteristic look-ups
    queued: seq<Merged>,          // records queued
    heard: seq<seq<GattcEvent>>,  // per profile: the events its handler was given
    marks: seq<seq<Mark>>,        // per slot
    holder: seq<Option<Addr>>     // per slot: the device last opened, until its open failed or it disconnected
  )

  predicate Shaped(s: State) {
    |s.taken| == |s.profiles| == |s.heard| == |s.marks| == |s.holder| == 3
  }

  /** At start-up: no interface known, no service found, the rest of each record zero. */
  const BLANK := Profile(IF_NONE, 0, ZERO_ADDR, Range(0, 0), Range(0, 0), false, false, 0, 0, 0, 0, 0)

  function Init(): (s: State)
    ensures Shaped(s)
  {
    State([false, false, false], false, false, [BLANK, BLANK, BLANK],
          [], [], [], [[], [], []], [[], [], []], [None, None, None])
  }

  // ---------- scan results ----------

  /** The lowest free slot, or 3. */
  function LowestFree(taken: seq<bool>): (i: nat)
    ensures i <= |taken|
    ensures forall j :: 0 <= j < i ==> taken[j]
    ensures i < |taken| ==> !taken[i]
  {
    if taken == [] || !taken[0] then 0 else 1 + LowestFree(taken[1..])
  }

  function Claim(s: State, i: Index, bda: Addr): (s': State)
    requires Shaped(s)
    ensures Shaped(s')
  {
    s.(taken := s.taken[i := true], isConnecting := true, opens := s.opens + [(i, bda)],
       marks := s.marks[i := s.marks[i] + [Open]], holder := s.holder[i := Some(bda)])
  }

  function DoScan(s: State, bda: Addr, bonded: bool, name: Option<string>): (s': State)
    requires Shaped(s)
    ensures Shaped(s')
  {
    var i := LowestFree(s.taken);
    if i == 3 && !s.stopScanDone then s.(stopScanDone := true)
    else if i < 3 && (bonded || name == Some(REMOTE_NAME)) then Claim(s, i, bda)
    else s
  }

  // ---------- notifications ----------

  function Temperature(value: seq<uint8>): int {
    if |value| != 2 then 1000
    else
      var high: int := value[1];
      high % 4 * 256 + value[0]
  }

  function Switch(value: seq<uint8>): uint8 {
    if |value| != 2 then 2 else value[1] / 4 % 2
  }

  function Vdd(value: seq<uint8>): int {
    if |value| != 2 then 0
    else
      var high: int := value[1];
      high * 256 + value[0]
  }

  /** The first profile with that address, or the number of profiles. */
  function First(ps: seq<Profile>, bda: Addr): (i: nat)
    ensures i <= |ps|
    ensures i < |ps| ==> ps[i].remote == bda
    ensures forall j :: 0 <= j < i ==> ps[j].remote != bda
  {
    if ps == [] || ps[0].remote == bda then 0 else 1 + First(ps[1..], bda)
  }

  function Updated(p: Profile, n: Note): Profile {
    if n.handle == p.charHandle then p.(status := Switch(n.value), temperature := Temperature(n.value))
    else if n.handle == p.charVddHandle then p.(vdd := Vdd(n.value))
    else p
  }

  function NoteProfiles(ps: seq<Profile>, n: Note): (r: seq<Profile>)
    ensures |r| == |ps|
  {
    var i := First(ps, n.bda);
    if i < |ps| then ps[i := Updated(ps[i], n)] else ps
  }

  function Truncated8(x: int): uint8 {
    x % 0x100
  }

  function Record8(p: Profile, mac: Addr): Merged {
    Merged(mac, p.temperature, p.status, Truncated8(p.vdd))
  }

  /** What a notification puts into the buffer: at most one record. */
  function NoteRecords(ps: seq<Profile>, n: Note): seq<Merged> {
    var i := First(ps, n.bda);
    if i < |ps| then [Record8(Updated(ps[i], n), n.bda)] else []
  }

  // ---------- one profile's handler ----------

  function Rescan(s: State): State {
    s.(stopScanDone := false, isConnecting := false)
  }

  function Freed(s: State, i: Index): (s': State)
    requires Shaped(s)
    ensures Shaped(s')
  {
    s.(taken := s.taken[i := false], marks := s.marks[i := s.marks[i] + [Release]])
  }

  function WithProfile(s: State, i: Index, p: Profile): (s': State)
    requires Shaped(s)
    ensures Shaped(s')
  {
    s.(profiles := s.profiles[i := p])
  }

  function LookupsOf(i: Index, p: Profile): seq<Lookup> {
    (if p.gotT then [Lookup(i, ServiceT, p.tRange)] else [])
    + (if p.gotVdd then [Lookup(i, ServiceVdd, p.vddRange)] else [])
  }

  function Discovered(p: Profile, tChar: Option<nat>, vddChar: Option<nat>): Profile {
    p.(charHandle := if p.gotT && tChar.Some? then tChar.value else p.charHandle,
       charVddHandle := if p.gotVdd && vddChar.Some? then vddChar.value else p.charVddHandle)
  }

  /** Does the event tell that the device's open failed or that it disconnected? */
  predicate Ends(e: GattcEvent, device: Option<Addr>) {
    || (e.Opened? && !e.ok && device == Some(e.bda))
    || (e.Disconnected? && device == Some(e.bda))
  }

  function Hear(s: State, i: Index, e: GattcEvent): (s': State)
    requires Shaped(s)
    ensures Shaped(s')
  {
    s.(heard := s.heard[i := s.heard[i] + [e]],
       holder := if Ends(e, s.holder[i]) then s.holder[i := None] else s.holder)
  }

  function React(s: State, i: Index, e: GattcEvent): (s': State)
    requires Shaped(s)
    ensures Shaped(s')
  {
    var p := s.profiles[i];
    match e
    case Opened(ok, bda, connId) =>
      if ok then WithProfile(s, i, p.(remote := bda, connId := connId)) else Freed(s, i)
    case ServiceFound(shortUuid, uuid, range) =>
      if shortUuid && uuid == SERVICE_T then WithProfile(s, i, p.(gotT := true, tRange := range))
      else if shortUuid && uuid == SERVICE_VDD then WithProfile(s, i, p.(gotVdd := true, vddRange := range))
      else s
    case SearchDone(ok, tChar, vddChar) =>
      if ok then
        Rescan(WithProfile(s, i, Discovered(p, tChar, vddChar)).(lookups := s.lookups + LookupsOf(i, p)))
      else s
    case Notified(note) =>
      s.(profiles := NoteProfiles(s.profiles, note), queued := s.queued + NoteRecords(s.profiles, note))
    case Disconnected(bda) =>
      if bda == p.remote then Freed(WithProfile(Rescan(s), i, p.(gotT := false, gotVdd := false)), i)
      else Rescan(s)
    case Registered(_, _) => s
    case OtherGattc => s
  }

  function Handler(s: State, i: Index, e: GattcEvent): (s': State)
    requires Shaped(s)
    ensures Shaped(s')
  {
    React(Hear(s, i, e), i, e)
  }

  /** The dispatcher's test: does an event concern the profile with interface own? */
  predicate Concerns(own: nat, gattcIf: nat) {
    gattcIf == IF_NONE || gattcIf == own
  }

  function Called(s: State, gattcIf: nat, e: GattcEvent, i: Index): (s': State)
    requires Shaped(s)
    ensures Shaped(s')
  {
    if Concerns(s.profiles[i].gattcIf, gattcIf) then Handler(s, i, e) else s
  }

  /** The dispatcher's loop from profile i on. */
  function Dispatch(s: State, gattcIf: nat, e: GattcEvent, i: nat): (s': State)
    requires Shaped(s) && i <= 3
    ensures Shaped(s')
    decreases 3 - i
  {
    if i == 3 then s else Dispatch(Called(s, gattcIf, e, i), gattcIf, e, i + 1)
  }

  function DoGattc(s: State, gattcIf: nat, e: GattcEvent): (s': State)
    requires Shaped(s)
    ensures Shaped(s')
  {
    if e.Registered? then
      if e.ok then
        Dispatch(WithProfile(s, e.appId, s.profiles[e.appId].(gattcIf := gattcIf)), gattcIf, e, 0)
      else s
    else
      Dispatch(s, gattcIf, e, 0)
  }

  function Step(s: State, e: Event): (s': State)
    requires Shaped(s)
    ensures Shaped(s')
  {
    match e
    case Scan(bda, bonded, name) => DoScan(s, bda, bonded, name)
    case Restart => Rescan(s)
    case Gattc(gattcIf, ge) => DoGattc(s, gattcIf, ge)
  }

  function After(s: State, es: seq<Event>): (s': State)
    requires Shaped(s)
    ensures Shaped(s')
    decreases |es|
  {
    if es == [] then s else After(Step(s, es[0]), es[1..])
  }

  ghost predicate Reachable(s: State) {
    exists es :: s == After(Init(), es)
  }

  lemma {:induction false} AfterOne(s: State, es: seq<Event>, e: Event)
    requires Shaped(s)
    ensures After(s, es + [e]) == Step(After(s, es), e)
    decreases |es|
  {
    if es == [] {
      assert [e][1..] == [];
    } else {
      assert (es + [e])[1..] == es[1..] + [e];
      AfterOne(Step(s, es[0]), es[1..], e);
    }
  }

  // ---------- what every step keeps ----------

  /** The peer of a profile, from the events it was given: the last one opened. */
  function RemoteOf(h: seq<GattcEvent>): Addr {
    if h == [] then ZERO_ADDR
    else
      var e := h[|h| - 1];
      if e.Opened? && e.ok then e.bda else RemoteOf(h[..|h| - 1])
  }

  function ConnOf(h: seq<GattcEvent>): nat {
    if h == [] then 0
    else
      var e := h[|h| - 1];
      if e.Opened? && e.ok then e.connId else ConnOf(h[..|h| - 1])
  }

  /** The range that the latest search result for a service reported, searching backwards
      no further than the latest disconnect of the profile's own peer. */
  function LatestRange(h: seq<GattcEvent>, service: nat): Option<Range> {
    if h == [] then None
    else
      var front, e := h[..|h| - 1], h[|h| - 1];
      if e.ServiceFound? && e.shortUuid && e.uuid == service then Some(e.range)
      else if e.Disconnected? && e.bda == RemoteOf(front) then None
      else LatestRange(front, service)
  }

  /** The handle that a completed search answers with, if it asks for that service. */
  function Answer(e: GattcEvent, service: nat): Option<nat> {
    if !(e.SearchDone? && e.ok) then None else if service == SERVICE_T then e.tChar else e.vddChar
  }

  /** The latest such answer that came while the service was known, zero before the first. */
  function HandleOf(h: seq<GattcEvent>, service: nat): nat {
    if h == [] then 0
    else
      var front, e := h[..|h| - 1], h[|h| - 1];
      if LatestRange(front, service).Some? && Answer(e, service).Some? then Answer(e, service).value
      else HandleOf(front, service)
  }

  ghost predicate ProfileInv(p: Profile, h: seq<GattcEvent>) {
    && p.remote == RemoteOf(h) && p.connId == ConnOf(h)
    && p.charHandle == HandleOf(h, SERVICE_T) && p.charVddHandle == HandleOf(h, SERVICE_VDD)
    && LatestRange(h, SERVICE_T) == (if p.gotT then Some(p.tRange) else None)
    && LatestRange(h, SERVICE_VDD) == (if p.gotVdd then Some(p.vddRange) else None)
  }

  ghost predicate Inv(s: State) {
    Shaped(s) && forall i :: 0 <= i < 3 ==> ProfileInv(s.profiles[i], s.heard[i])
  }

  lemma HearKeepsProfile(p: Profile, h: seq<GattcEvent>, e: GattcEvent)
    requires ProfileInv(p, h)
    ensures !e.Opened? && !e.ServiceFound? && !e.SearchDone? && !e.Disconnected? ==> ProfileInv(p, h + [e])
    ensures e.SearchDone? ==> ProfileInv(if e.ok then Discovered(p, e.tChar, e.vddChar) else p, h + [e])
    ensures e.Opened? ==> ProfileInv(if e.ok then p.(remote := e.bda, connId := e.connId) else p, h + [e])
    ensures e.Disconnected? ==>
            ProfileInv(if e.bda == p.remote then p.(gotT := false, gotVdd := false) else p, h + [e])
    ensures e.ServiceFound? ==>
            ProfileInv(if e.shortUuid && e.uuid == SERVICE_T then p.(gotT := true, tRange := e.range)
                       else if e.shortUuid && e.uuid == SERVICE_VDD then p.(gotVdd := true, vddRange := e.range)
                       else p, h + [e])
  {
    assert (h + [e])[..|h|] == h;
  }

  /** Notifications leave what ProfileInv speaks of alone. */
  lemma NoteKeepsProfiles(ps: seq<Profile>, n: Note, hs: seq<seq<GattcEvent>>)
    requires |ps| == |hs| && forall i :: 0 <= i < |ps| ==> ProfileInv(ps[i], hs[i])
    ensures forall i :: 0 <= i < |ps| ==> ProfileInv(NoteProfiles(ps, n)[i], hs[i])
  {
  }

  lemma DiscoveryKeepsInv(s: State, i: Index, e: GattcEvent)
    requires Inv(s) && (e.ServiceFound? || e.SearchDone? || e.Registered? || e.OtherGattc?)
    ensures Inv(Handler(s, i, e))
  {
    HearKeepsProfile(s.profiles[i], s.heard[i], e);
  }

  lemma OpenedKeepsInv(s: State, i: Index, e: GattcEvent)
    requires Inv(s) && e.Opened?
    ensures Inv(Handler(s, i, e))
  {
    HearKeepsProfile(s.profiles[i], s.heard[i], e);
  }

  lemma DisconnectedKeepsInv(s: State, i: Index, e: GattcEvent)
    requires Inv(s) && e.Disconnected?
    ensures Inv(Handler(s, i, e))
  {
    HearKeepsProfile(s.profiles[i], s.heard[i], e);
  }

  lemma HandlerKeepsInv(s: State, i: Index, e: GattcEvent)
    requires Inv(s)
    ensures Inv(Handler(s, i, e))
  {
    if e.Notified? {
      HearKeepsProfile(s.profiles[i], s.heard[i], e);
      NoteKeepsProfiles(s.profiles, e.note, Hear(s, i, e).heard);
    } else if e.Opened? {
      OpenedKeepsInv(s, i, e);
    } else if e.Disconnected? {
      DisconnectedKeepsInv(s, i, e);
    } else {
      DiscoveryKeepsInv(s, i, e);
    }
  }

  lemma {:induction false} DispatchKeepsInv(s: State, gattcIf: nat, e: GattcEvent, i: nat)
    requires Inv(s) && i <= 3
    ensures Inv(Dispatch(s, gattcIf, e, i))
    decreases 3 - i
  {
    if i < 3 {
      HandlerKeepsInv(s, i, e);
      DispatchKeepsInv(Called(s, gattcIf, e, i), gattcIf, e, i + 1);
    }
  }

  lemma {:induction false} StepKeepsInv(s: State, e: Event)
    requires Inv(s)
    ensures Inv(Step(s, e))
  {
    match e
    case Scan(_, _, _) =>
    case Restart =>
    case Gattc(gattcIf, ge) =>
      if ge.Registered? && ge.ok {
        var s1 := WithProfile(s, ge.appId, s.profiles[ge.appId].(gattcIf := gattcIf));
        assert Inv(s1);
        DispatchKeepsInv(s1, gattcIf, ge, 0);
      } else if !ge.Registered? {
        DispatchKeepsInv(s, gattcIf, ge, 0);
      }
  }

  lemma {:induction false} RunKeepsInv(s: State, es: seq<Event>)
    requires Inv(s)
    ensures Inv(After(s, es))
    decreases |es|
  {
    if es != [] {
      StepKeepsInv(s, es[0]);
      RunKeepsInv(Step(s, es[0]), es[1..]);
    }
  }

  lemma InitInv()
    ensures Inv(Init())
  {
  }

  lemma {:induction false} ReachableInv(s: State)
    requires Reachable(s)
    ensures Inv(s)
  {
    var es :| s == After(Init(), es);
    InitInv();
    RunKeepsInv(Init(), es);
  }
}
