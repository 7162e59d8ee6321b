/** What service discovery looks up, and what the merged sensor values are, over whole runs. */
module BleReadings {
  import opened Types
  import opened Ble

  // ---------- discovery ----------

  function Wanted(i: Index, service: Service, r: Option<Range>): seq<Lookup> {
    if r.Some? then [Lookup(i, service, r.value)] else []
  }

  /** What profile i would look up: for each service the latest range reported to it. */
  function FoundBy(s: State, i: Index): seq<Lookup>
    requires Shaped(s)
  {
    Wanted(i, ServiceT, LatestRange(s.heard[i], SERVICE_T))
    + Wanted(i, ServiceVdd, LatestRange(s.heard[i], SERVICE_VDD))
  }

  /** The same for all profiles from k on that an event concerns. */
  function Found(s: State, gattcIf: nat, k: nat): seq<Lookup>
    requires Shaped(s) && k <= 3
    decreases 3 - k
  {
    if k == 3 then []
    else (if Concerns(s.profiles[k].gattcIf, gattcIf) then FoundBy(s, k) else []) + Found(s, gattcIf, k + 1)
  }

  /** The profiles from k on are as they were. */
  ghost predicate SameFrom(s: State, t: State, k: nat)
    requires Shaped(s) && Shaped(t)
  {
    forall j :: k <= j < 3 ==> t.heard[j] == s.heard[j] && t.profiles[j].gattcIf == s.profiles[j].gattcIf
  }

  lemma {:induction false} FoundFrame(s: State, t: State, gattcIf: nat, k: nat)
    requires Shaped(s) && Shaped(t) && k <= 3 && SameFrom(s, t, k)
    ensures Found(t, gattcIf, k) == Found(s, gattcIf, k)
    decreases 3 - k
  {
    if k < 3 {
      FoundFrame(s, t, gattcIf, k + 1);
    }
  }

  lemma SearchHandler(s: State, i: Index, e: GattcEvent)
    requires Inv(s) && e.SearchDone? && e.ok
    ensures Handler(s, i, e).lookups == s.lookups + FoundBy(s, i)
    ensures SameFrom(s, Handler(s, i, e), i + 1)
  {
  }

  lemma Regroup<T>(a: seq<T>, b: seq<T>, c: seq<T>)
    ensures (a + b) + c == a + (b + c)
  {
  }

  lemma FoundNext(s: State, t: State, gattcIf: nat, k: Index, own: seq<Lookup>)
    requires Shaped(s) && Shaped(t) && SameFrom(s, t, k + 1)
    requires own == if Concerns(s.profiles[k].gattcIf, gattcIf) then FoundBy(s, k) else []
    ensures (s.lookups + own) + Found(t, gattcIf, k + 1) == s.lookups + Found(s, gattcIf, k)
  {
    FoundFrame(s, t, gattcIf, k + 1);
    Regroup(s.lookups, own, Found(s, gattcIf, k + 1));
  }

  lemma SearchCalled(s: State, gattcIf: nat, e: GattcEvent, k: Index)
    requires Inv(s) && e.SearchDone? && e.ok
    ensures var t := Called(s, gattcIf, e, k);
            Inv(t) && t.lookups + Found(t, gattcIf, k + 1) == s.lookups + Found(s, gattcIf, k)
  {
    HandlerKeepsInv(s, k, e);
    SearchHandler(s, k, e);
    var own := if Concerns(s.profiles[k].gattcIf, gattcIf) then FoundBy(s, k) else [];
    assert Called(s, gattcIf, e, k).lookups == s.lookups + own;
    FoundNext(s, Called(s, gattcIf, e, k), gattcIf, k, own);
  }

  lemma {:induction false} SearchDispatch(s: State, gattcIf: nat, e: GattcEvent, k: nat)
    requires Inv(s) && k <= 3 && e.SearchDone? && e.ok
    ensures Dispatch(s, gattcIf, e, k).lookups == s.lookups + Found(s, gattcIf, k)
    decreases 3 - k
  {
    if k < 3 {
      SearchCalled(s, gattcIf, e, k);
      SearchDispatch(Called(s, gattcIf, e, k), gattcIf, e, k + 1);
    }
  }

  lemma {:induction false} NoSearchDispatch(s: State, gattcIf: nat, e: GattcEvent, k: nat)
    requires Shaped(s) && k <= 3 && !(e.SearchDone? && e.ok)
    ensures Dispatch(s, gattcIf, e, k).lookups == s.lookups
    decreases 3 - k
  {
    if k < 3 {
      NoSearchDispatch(Called(s, gattcIf, e, k), gattcIf, e, k + 1);
    }
  }

  /** When a search completes, each profile the event concerns looks up a characteristic
      exactly if a search result for its service has reached that profile since its peer
      last disconnected, and then in the range that the latest such result reported. No
      other event looks anything up. */
  lemma LookupsUseLatestRange(s: State, e: Event)
    requires Reachable(s)
    ensures Step(s, e).lookups ==
            s.lookups + if e.Gattc? && e.e.SearchDone? && e.e.ok then Found(s, e.gattcIf, 0) else []
  {
    ReachableInv(s);
    if e.Gattc? {
      if e.e.SearchDone? && e.e.ok {
        SearchDispatch(s, e.gattcIf, e.e, 0);
      } else {
        NoSearchDispatch(s, e.gattcIf, e.e, 0);
        if e.e.Registered? {
          NoSearchDispatch(WithProfile(s, e.e.appId, s.profiles[e.e.appId].(gattcIf := e.gattcIf)), e.gattcIf, e.e, 0);
        }
      }
    }
  }

  // ---------- merged values ----------

  function NoteAll(ps: seq<Profile>, notes: seq<Note>): (r: seq<Profile>)
    ensures |r| == |ps|
  {
    if notes == [] then ps else NoteProfiles(NoteAll(ps, notes[..|notes| - 1]), notes[|notes| - 1])
  }

  /** The bytes of the latest notification of a peer's characteristic. */
  function Latest(notes: seq<Note>, bda: Addr, handle: nat): Option<seq<uint8>> {
    if notes == [] then None
    else
      var n := notes[|notes| - 1];
      if n.bda == bda && n.handle == handle then Some(n.value) else Latest(notes[..|notes| - 1], bda, handle)
  }

  /** A profile after some notifications, told from its peer's latest ones only. If one
      handle names both characteristics, the temperature reading wins. */
  function Merge(p: Profile, notes: seq<Note>): Profile {
    var t, v := Latest(notes, p.remote, p.charHandle), Latest(notes, p.remote, p.charVddHandle);
    p.(temperature := if t.Some? then Temperature(t.value) else p.temperature,
       status := if t.Some? then Switch(t.value) else p.status,
       vdd := if v.Some? && p.charVddHandle != p.charHandle then Vdd(v.value) else p.vdd)
  }

  lemma {:induction false} SameRemotes(ps: seq<Profile>, qs: seq<Profile>, bda: Addr)
    requires |ps| == |qs| && forall i :: 0 <= i < |ps| ==> ps[i].remote == qs[i].remote
    ensures First(ps, bda) == First(qs, bda)
  {
    if ps != [] {
      SameRemotes(ps[1..], qs[1..], bda);
    }
  }

  lemma MergeStep(p: Profile, notes: seq<Note>, n: Note)
    ensures Merge(p, notes + [n]) == if n.bda == p.remote then Updated(Merge(p, notes), n) else Merge(p, notes)
  {
    assert (notes + [n])[..|notes|] == notes;
  }

  /** For any interleaving of peers and characteristics, each profile holds the decoded
      latest notifications of its own peer; a profile whose address an earlier one has
      already never changes. */
  lemma {:induction false} ProfilesHoldLatest(ps: seq<Profile>, notes: seq<Note>, i: nat)
    requires i < |ps|
    ensures NoteAll(ps, notes)[i] == if First(ps, ps[i].remote) == i then Merge(ps[i], notes) else ps[i]
    decreases |notes|
  {
    if notes != [] {
      var front, n := notes[..|notes| - 1], notes[|notes| - 1];
      assert notes == front + [n];
      ProfilesHoldLatest(ps, front, i);
      RemotesKept(ps, front);
      SameRemotes(NoteAll(ps, front), ps, n.bda);
      MergeStep(ps[i], front, n);
    }
  }

  lemma {:induction false} RemotesKept(ps: seq<Profile>, notes: seq<Note>)
    ensures forall i :: 0 <= i < |ps| ==> NoteAll(ps, notes)[i].remote == ps[i].remote
    decreases |notes|
  {
    if notes != [] {
      RemotesKept(ps, notes[..|notes| - 1]);
    }
  }

  /** Every record queued carries the decoded latest temperature and switch notification
      and the latest supply notification of the peer that sent the last one, as the first
      profile with that address knows them; the supply value is cut to eight bits. A peer
      that no profile knows queues nothing. */
  lemma {:induction false} QueuedIsLatest(ps: seq<Profile>, notes: seq<Note>, n: Note)
    ensures var i := First(ps, n.bda);
            NoteRecords(NoteAll(ps, notes), n) ==
            if i < |ps| then
              var p := Merge(ps[i], notes + [n]);
              [Merged(n.bda, p.temperature, p.status, p.vdd % 0x100)]
            else []
  {
    var i := First(ps, n.bda);
    RemotesKept(ps, notes);
    SameRemotes(NoteAll(ps, notes), ps, n.bda);
    if i < |ps| {
      var all := notes + [n];
      assert all[..|all| - 1] == notes && all[|all| - 1] == n;
      ProfilesHoldLatest(ps, all, i);
    }
  }

  // ---------- merged values over runs ----------

  /** The part of a profile that notifications and records depend on. */
  function Face(p: Profile): Profile {
    BLANK.(remote := p.remote, charHandle := p.charHandle, charVddHandle := p.charVddHandle,
           temperature := p.temperature, status := p.status, vdd := p.vdd)
  }

  function Faces(ps: seq<Profile>): (fs: seq<Profile>)
    ensures |fs| == |ps|
  {
    seq(|ps|, i requires 0 <= i < |ps| => Face(ps[i]))
  }

  lemma FacesNoted(ps: seq<Profile>, n: Note)
    ensures Faces(NoteProfiles(ps, n)) == NoteProfiles(Faces(ps), n)
    ensures NoteRecords(ps, n) == NoteRecords(Faces(ps), n)
  {
    SameRemotes(ps, Faces(ps), n.bda);
    var i := First(ps, n.bda);
    if i < |ps| {
      assert Face(Updated(ps[i], n)) == Updated(Face(ps[i]), n);
    }
  }

  /** The records that some notifications, merged one after the other, queue. */
  function Queues(ps: seq<Profile>, notes: seq<Note>): seq<Merged> {
    if notes == [] then []
    else
      var front, n := notes[..|notes| - 1], notes[|notes| - 1];
      Queues(ps, front) + NoteRecords(NoteAll(ps, front), n)
  }

  /** What they should be: for each notification one record of the latest values, from the
      first profile that has its peer's address. */
  function Expected(ps: seq<Profile>, notes: seq<Note>): seq<Merged> {
    if notes == [] then []
    else
      var n := notes[|notes| - 1];
      var i := First(ps, n.bda);
      Expected(ps, notes[..|notes| - 1])
      + if i < |ps| then
          var p := Merge(ps[i], notes);
          [Merged(n.bda, p.temperature, p.status, p.vdd % 0x100)]
        else []
  }

  lemma {:induction false} QueuesExpected(ps: seq<Profile>, notes: seq<Note>)
    ensures Queues(ps, notes) == Expected(ps, notes)
    decreases |notes|
  {
    if notes != [] {
      var front, n := notes[..|notes| - 1], notes[|notes| - 1];
      assert notes == front + [n];
      QueuesExpected(ps, front);
      QueuedIsLatest(ps, front, n);
    }
  }

  lemma {:induction false} NotesAppend(ps: seq<Profile>, a: seq<Note>, b: seq<Note>)
    ensures NoteAll(ps, a + b) == NoteAll(NoteAll(ps, a), b)
    ensures Queues(ps, a + b) == Queues(ps, a) + Queues(NoteAll(ps, a), b)
    decreases |b|
  {
    if b == [] {
      assert a + b == a;
    } else {
      var front := b[..|b| - 1];
      assert (a + b)[..|a + b| - 1] == a + front;
      NotesAppend(ps, a, front);
    }
  }

  /** Between s and t the given notifications were merged and nothing else that they or
      the records depend on has changed. */
  ghost predicate Noted(s: State, t: State, notes: seq<Note>) {
    && Faces(t.profiles) == NoteAll(Faces(s.profiles), notes)
    && t.queued == s.queued + Queues(Faces(s.profiles), notes)
  }

  lemma NotedTwice(s: State, t: State, u: State, a: seq<Note>, b: seq<Note>)
    requires Noted(s, t, a) && Noted(t, u, b)
    ensures Noted(s, u, a + b)
  {
    var fs := Faces(s.profiles);
    var qa, qb := Queues(fs, a), Queues(Faces(t.profiles), b);
    assert Queues(fs, a + b) == qa + qb && NoteAll(fs, a + b) == Faces(u.profiles) by {
      NotesAppend(fs, a, b);
    }
    assert u.queued == (s.queued + qa) + qb == s.queued + (qa + qb);
  }

  /** The notifications that one event delivers: one for each profile it concerns. */
  function Delivered(ps: seq<Profile>, gattcIf: nat, n: Note): seq<Note> {
    if ps == [] then []
    else (if Concerns(ps[0].gattcIf, gattcIf) then [n] else []) + Delivered(ps[1..], gattcIf, n)
  }

  lemma {:induction false} DeliveredFrame(ps: seq<Profile>, qs: seq<Profile>, gattcIf: nat, n: Note)
    requires |ps| == |qs| && forall i :: 0 <= i < |ps| ==> ps[i].gattcIf == qs[i].gattcIf
    ensures Delivered(ps, gattcIf, n) == Delivered(qs, gattcIf, n)
  {
    if ps != [] {
      DeliveredFrame(ps[1..], qs[1..], gattcIf, n);
    }
  }

  lemma NotedHandler(s: State, i: Index, n: Note)
    requires Shaped(s)
    ensures Noted(s, Handler(s, i, Notified(n)), [n])
    ensures forall j :: 0 <= j < 3 ==> Handler(s, i, Notified(n)).profiles[j].gattcIf == s.profiles[j].gattcIf
  {
    FacesNoted(s.profiles, n);
    var fs := Faces(s.profiles);
    assert [n][..0] == [];
    assert NoteAll(fs, []) == fs && NoteAll(fs, [n]) == NoteProfiles(fs, n);
    assert Queues(fs, [n]) == NoteRecords(fs, n);
  }

  lemma NotedCalled(s: State, gattcIf: nat, n: Note, k: Index)
    requires Shaped(s)
    ensures var t := Called(s, gattcIf, Notified(n), k);
            var own := if Concerns(s.profiles[k].gattcIf, gattcIf) then [n] else [];
            && Noted(s, t, own)
            && Delivered(s.profiles[k..], gattcIf, n) == own + Delivered(t.profiles[k + 1..], gattcIf, n)
  {
    var t := Called(s, gattcIf, Notified(n), k);
    NotedHandler(s, k, n);
    DeliveredFrame(s.profiles[k + 1..], t.profiles[k + 1..], gattcIf, n);
    assert s.profiles[k..][1..] == s.profiles[k + 1..];
  }

  lemma {:induction false} NotedDispatch(s: State, gattcIf: nat, n: Note, k: nat)
    requires Shaped(s) && k <= 3
    ensures Noted(s, Dispatch(s, gattcIf, Notified(n), k), Delivered(s.profiles[k..], gattcIf, n))
    decreases 3 - k
  {
    if k < 3 {
      var t := Called(s, gattcIf, Notified(n), k);
      NotedCalled(s, gattcIf, n, k);
      NotedDispatch(t, gattcIf, n, k + 1);
      NotedTwice(s, t, Dispatch(t, gattcIf, Notified(n), k + 1),
                 if Concerns(s.profiles[k].gattcIf, gattcIf) then [n] else [],
                 Delivered(t.profiles[k + 1..], gattcIf, n));
    }
  }

  /** Peer and characteristics of every profile are the same. */
  ghost predicate SameWiring(s: State, t: State)
    requires Shaped(s) && Shaped(t)
  {
    forall i :: 0 <= i < 3 ==>
      && t.profiles[i].remote == s.profiles[i].remote
      && t.profiles[i].charHandle == s.profiles[i].charHandle
      && t.profiles[i].charVddHandle == s.profiles[i].charVddHandle
  }

  /** The values and the records are untouched. */
  ghost predicate SameReadings(s: State, t: State)
    requires Shaped(s) && Shaped(t)
  {
    && t.queued == s.queued
    && forall i :: 0 <= i < 3 ==>
         && t.profiles[i].temperature == s.profiles[i].temperature
         && t.profiles[i].status == s.profiles[i].status
         && t.profiles[i].vdd == s.profiles[i].vdd
  }

  lemma OtherHandler(s: State, i: Index, e: GattcEvent)
    requires Shaped(s) && !e.Notified?
    ensures SameReadings(s, Handler(s, i, e))
  {
  }

  lemma {:induction false} OtherDispatch(s: State, gattcIf: nat, e: GattcEvent, k: nat)
    requires Shaped(s) && k <= 3 && !e.Notified?
    ensures SameReadings(s, Dispatch(s, gattcIf, e, k))
    decreases 3 - k
  {
    if k < 3 {
      OtherHandler(s, k, e);
      OtherDispatch(Called(s, gattcIf, e, k), gattcIf, e, k + 1);
    }
  }

  function NotesOf(s: State, e: Event): seq<Note>
    requires Shaped(s)
  {
    if e.Gattc? && e.e.Notified? then Delivered(s.profiles, e.gattcIf, e.e.note) else []
  }

  lemma OtherGattcStep(s: State, gattcIf: nat, e: GattcEvent)
    requires Shaped(s) && !e.Notified?
    ensures SameReadings(s, DoGattc(s, gattcIf, e))
  {
    if e.Registered? {
      OtherDispatch(WithProfile(s, e.appId, s.profiles[e.appId].(gattcIf := gattcIf)), gattcIf, e, 0);
    } else {
      OtherDispatch(s, gattcIf, e, 0);
    }
  }

  lemma OtherStep(s: State, e: Event)
    requires Shaped(s) && !(e.Gattc? && e.e.Notified?)
    ensures SameReadings(s, Step(s, e))
  {
    if e.Gattc? {
      OtherGattcStep(s, e.gattcIf, e.e);
    }
  }

  lemma NotedStep(s: State, e: Event)
    requires Shaped(s) && SameWiring(s, Step(s, e))
    ensures Noted(s, Step(s, e), NotesOf(s, e))
  {
    if e.Gattc? && e.e.Notified? {
      NotedDispatch(s, e.gattcIf, e.e.note, 0);
      assert s.profiles[0..] == s.profiles;
    } else {
      OtherStep(s, e);
      assert Faces(Step(s, e).profiles) == Faces(s.profiles);
    }
  }

  /** No step of the run opens a connection to another peer or discovers another
      characteristic handle. */
  ghost predicate Settled(s: State, es: seq<Event>)
    requires Shaped(s)
    decreases |es|
  {
    es == [] || (SameWiring(s, Step(s, es[0])) && Settled(Step(s, es[0]), es[1..]))
  }

  /** The notifications that a run delivers, once for each profile called. */
  function RunNotes(s: State, es: seq<Event>): seq<Note>
    requires Shaped(s)
    decreases |es|
  {
    if es == [] then [] else NotesOf(s, es[0]) + RunNotes(Step(s, es[0]), es[1..])
  }

  lemma {:induction false} NotedRun(s: State, es: seq<Event>)
    requires Shaped(s) && Settled(s, es)
    ensures Noted(s, After(s, es), RunNotes(s, es))
    decreases |es|
  {
    if es != [] {
      var t := Step(s, es[0]);
      NotedStep(s, es[0]);
      NotedRun(t, es[1..]);
      NotedTwice(s, t, After(s, es), NotesOf(s, es[0]), RunNotes(t, es[1..]));
    }
  }

  lemma {:induction false} ExpectedFaces(ps: seq<Profile>, notes: seq<Note>)
    ensures Expected(Faces(ps), notes) == Expected(ps, notes)
    decreases |notes|
  {
    if notes != [] {
      ExpectedFaces(ps, notes[..|notes| - 1]);
      SameRemotes(ps, Faces(ps), notes[|notes| - 1].bda);
    }
  }

  lemma FaceHolds(ps: seq<Profile>, qs: seq<Profile>, notes: seq<Note>, i: nat)
    requires Faces(qs) == NoteAll(Faces(ps), notes) && i < |ps| == |qs|
    ensures Face(qs[i]) == Face(if First(ps, ps[i].remote) == i then Merge(ps[i], notes) else ps[i])
  {
    var fs := Faces(ps);
    assert Face(qs[i]) == Faces(qs)[i];
    ProfilesHoldLatest(fs, notes, i);
    SameRemotes(ps, fs, ps[i].remote);
    assert Face(Merge(ps[i], notes)) == Merge(fs[i], notes);
  }

  /** Over any run that keeps peers and characteristics, with any other callbacks between
      the notifications: the records queued are, one for each notification delivered, those
      of the latest decoded values; and each profile ends with its peer's latest values,
      unless an earlier profile has the same peer. */
  lemma RunQueuesLatest(s: State, es: seq<Event>)
    requires Shaped(s) && Settled(s, es)
    ensures After(s, es).queued == s.queued + Expected(s.profiles, RunNotes(s, es))
    ensures forall i :: 0 <= i < 3 ==>
              Face(After(s, es).profiles[i]) ==
              Face(if First(s.profiles, s.profiles[i].remote) == i then Merge(s.profiles[i], RunNotes(s, es))
                   else s.profiles[i])
  {
    var t, notes := After(s, es), RunNotes(s, es);
    NotedRun(s, es);
    QueuesExpected(Faces(s.profiles), notes);
    ExpectedFaces(s.profiles, notes);
    forall i | 0 <= i < 3
      ensures Face(t.profiles[i]) ==
              Face(if First(s.profiles, s.profiles[i].remote) == i then Merge(s.profiles[i], notes) else s.profiles[i])
    {
      FaceHolds(s.profiles, t.profiles, notes, i);
    }
  }

  /** How a sensor packs ten bits of temperature and its switch, and its supply voltage in
      sixteen bits; decoding recovers all three. */
  lemma DecodeRecovers(temperature: nat, on: bool, vdd: nat)
    requires temperature < 1024 && vdd < 0x1_0000
    ensures var value: seq<uint8> := [temperature % 256, temperature / 256 + if on then 4 else 0];
            Temperature(value) == temperature && Switch(value) == (if on then 1 else 0)
    ensures var value: seq<uint8> := [vdd % 256, vdd / 256];
            Vdd(value) == vdd
  {
  }

  /** The switch tells a malformed notification from a well-formed one; the temperature of a
      malformed one is within the range of well-formed ones. */
  lemma MalformedShows(value: seq<uint8>)
    ensures Switch(value) == 2 <==> |value| != 2
    ensures |value| != 2 ==> Temperature(value) == 1000 && Vdd(value) == 0
    ensures 0 <= Temperature(value) < 1024 && 0 <= Vdd(value) < 0x1_0000
  {
  }
}
