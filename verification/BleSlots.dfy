/** What the flags of the three connection slots tell over whole runs. */
module BleSlots {
  import opened Types
  import opened Ble

  /** A scan result asks for at most one connection, in the lowest free slot, exactly when
      some slot is free and the device is bonded or carries the name; the two grounds have
      the same effect. */
  lemma ScanClaimsLowest(s: State, bda: Addr, bonded: bool, name: Option<string>)
    requires Shaped(s)
    ensures var s' := Step(s, Scan(bda, bonded, name));
            var wanted := bonded || name == Some(REMOTE_NAME);
            if wanted && false in s.taken then
              exists i :: 0 <= i < 3 && !s.taken[i] && (forall j :: 0 <= j < i ==> s.taken[j])
                          && s'.taken == s.taken[i := true] && s'.opens == s.opens + [(i, bda)]
            else
              s'.taken == s.taken && s'.opens == s.opens
    ensures Step(s, Scan(bda, true, name)) == Step(s, Scan(bda, false, Some(REMOTE_NAME)))
  {
    var i := LowestFree(s.taken);
    if i < 3 {
      assert s.taken[i] == false;
    }
  }

  // ---------- one slot on its own ----------

  /** The device of the latest open request for a slot, zero before the first. */
  function Requested(opens: seq<(nat, Addr)>, i: nat): Addr {
    if opens == [] then ZERO_ADDR
    else
      var last := opens[|opens| - 1];
      if last.0 == i then last.1 else Requested(opens[..|opens| - 1], i)
  }

  /** All that concerns one slot. */
  datatype Slot = Slot(gattcIf: nat, remote: Addr, taken: bool, holder: Option<Addr>,
                       requested: Addr, marks: seq<Mark>)

  function View(s: State, i: Index): Slot
    requires Shaped(s)
  {
    Slot(s.profiles[i].gattcIf, s.profiles[i].remote, s.taken[i], s.holder[i], Requested(s.opens, i), s.marks[i])
  }

  /** What a handler does, apart from the history of holders. */
  function Reacted(v: Slot, e: GattcEvent): Slot {
    if e.Opened? && e.ok then v.(remote := e.bda)
    else if e.Opened? || (e.Disconnected? && e.bda == v.remote) then
      v.(taken := false, marks := v.marks + [Release])
    else v
  }

  function Handled(v: Slot, e: GattcEvent): Slot {
    Reacted(if Ends(e, v.holder) then v.(holder := None) else v, e)
  }

  /** One slot's part in a step; claims tells whether a scan result finds it the lowest
      free one. */
  function Alone(v: Slot, e: Event, i: Index, claims: bool): Slot {
    match e
    case Scan(bda, bonded, name) =>
      if claims && (bonded || name == Some(REMOTE_NAME)) then
        v.(taken := true, holder := Some(bda), requested := bda, marks := v.marks + [Open])
      else v
    case Restart => v
    case Gattc(gattcIf, ge) =>
      if ge.Registered? then
        if ge.ok && ge.appId == i then v.(gattcIf := gattcIf) else v
      else if Concerns(v.gattcIf, gattcIf) then Handled(v, ge)
      else v
  }

  lemma NoteView(s: State, note: Note, i: Index)
    requires Shaped(s)
    ensures View(s.(profiles := NoteProfiles(s.profiles, note)), i) == View(s, i)
  {
    var ps, k := s.profiles, First(s.profiles, note.bda);
    assert k < 3 ==> Updated(ps[k], note).remote == ps[k].remote && Updated(ps[k], note).gattcIf == ps[k].gattcIf;
  }

  lemma FreedView(s: State, j: Index, i: Index)
    requires Shaped(s)
    ensures View(Freed(s, j), i) ==
            if i == j then View(s, i).(taken := false, marks := s.marks[i] + [Release]) else View(s, i)
  {
  }

  lemma DisconnectedView(s: State, j: Index, bda: Addr, i: Index)
    requires Shaped(s)
    ensures View(React(s, j, Disconnected(bda)), i) ==
            if i == j then Reacted(View(s, i), Disconnected(bda)) else View(s, i)
  {
    var p := s.profiles[j];
    if bda == p.remote {
      var t := WithProfile(Rescan(s), j, p.(gotT := false, gotVdd := false));
      assert View(t, i) == View(s, i);
      FreedView(t, j, i);
    }
  }

  lemma ReactView(s: State, j: Index, e: GattcEvent, i: Index)
    requires Shaped(s)
    ensures View(React(s, j, e), i) == if i == j then Reacted(View(s, i), e) else View(s, i)
  {
    if e.Notified? {
      NoteView(s, e.note, i);
    } else if e.Disconnected? {
      DisconnectedView(s, j, e.bda, i);
    } else if e.Opened? {
      FreedView(s, j, i);
    }
  }

  /** A handler acts on its own slot only. */
  lemma HandlerView(s: State, j: Index, e: GattcEvent, i: Index)
    requires Shaped(s)
    ensures View(Handler(s, j, e), i) == if i == j then Handled(View(s, i), e) else View(s, i)
  {
    var t := Hear(s, j, e);
    assert View(t, i) == if i == j && Ends(e, s.holder[i]) then View(s, i).(holder := None) else View(s, i);
    ReactView(t, j, e, i);
  }

  lemma {:induction false} DispatchView(s: State, gattcIf: nat, e: GattcEvent, k: nat, i: Index)
    requires Shaped(s) && k <= 3
    ensures View(Dispatch(s, gattcIf, e, k), i) ==
            if k <= i && Concerns(s.profiles[i].gattcIf, gattcIf) then Handled(View(s, i), e) else View(s, i)
    decreases 3 - k
  {
    if k < 3 {
      HandlerView(s, k, e, i);
      DispatchView(Called(s, gattcIf, e, k), gattcIf, e, k + 1, i);
    }
  }

  lemma RequestedMore(opens: seq<(nat, Addr)>, j: nat, bda: Addr, i: nat)
    ensures Requested(opens + [(j, bda)], i) == if i == j then bda else Requested(opens, i)
  {
    assert (opens + [(j, bda)])[..|opens|] == opens;
  }

  lemma ScanView(s: State, bda: Addr, bonded: bool, name: Option<string>, i: Index)
    requires Shaped(s)
    ensures View(DoScan(s, bda, bonded, name), i) ==
            Alone(View(s, i), Scan(bda, bonded, name), i, LowestFree(s.taken) == i)
  {
    RequestedMore(s.opens, LowestFree(s.taken), bda, i);
  }

  lemma GattcView(s: State, gattcIf: nat, e: GattcEvent, i: Index)
    requires Shaped(s)
    ensures View(DoGattc(s, gattcIf, e), i) ==
            Alone(View(s, i), Gattc(gattcIf, e), i, LowestFree(s.taken) == i)
  {
    if !e.Registered? {
      DispatchView(s, gattcIf, e, 0, i);
    } else if e.ok {
      var s1 := WithProfile(s, e.appId, s.profiles[e.appId].(gattcIf := gattcIf));
      assert View(s1, i) == if e.appId == i then View(s, i).(gattcIf := gattcIf) else View(s, i);
      DispatchView(s1, gattcIf, e, 0, i);
    }
  }

  /** Every slot goes its own way: what a step does to it depends on nothing but the slot,
      the event, and whether a scan result finds it the lowest free one. */
  lemma StepView(s: State, e: Event, i: Index)
    requires Shaped(s)
    ensures View(Step(s, e), i) == Alone(View(s, i), e, i, LowestFree(s.taken) == i)
  {
    match e
    case Scan(bda, bonded, name) => ScanView(s, bda, bonded, name, i);
    case Restart =>
    case Gattc(gattcIf, ge) => GattcView(s, gattcIf, ge, i);
  }

  // ---------- opens and releases ----------

  /** Opens and releases take turns, an open first. */
  ghost predicate Alternating(m: seq<Mark>) {
    forall k :: 0 <= k < |m| ==> (m[k] == Open <==> k % 2 == 0)
  }

  predicate LastIsOpen(m: seq<Mark>) {
    |m| > 0 && m[|m| - 1] == Open
  }

  /** An event that makes the code release a slot although its flag is clear: a failed open,
      or a disconnect of the address in its profile. */
  predicate Stray(v: Slot, e: Event) {
    && e.Gattc? && Concerns(v.gattcIf, e.gattcIf) && !v.taken
    && ((e.e.Opened? && !e.e.ok) || (e.e.Disconnected? && e.e.bda == v.remote))
  }

  predicate Orderly(s: State, es: seq<Event>, i: Index)
    requires Shaped(s)
    decreases |es|
  {
    es == [] || (!Stray(View(s, i), es[0]) && Orderly(Step(s, es[0]), es[1..], i))
  }

  lemma AlternatingMore(m: seq<Mark>, x: Mark)
    ensures Alternating(m + [x]) <==> Alternating(m) && (x == Open <==> !LastIsOpen(m))
  {
    var m' := m + [x];
    assert m'[|m|] == x;
    assert forall k :: 0 <= k < |m| ==> m'[k] == m[k];
    if Alternating(m) && (x == Open <==> !LastIsOpen(m)) {
      assert |m| % 2 == 0 <==> !LastIsOpen(m);
    }
  }

  lemma AloneMarks(v: Slot, e: Event, i: Index, claims: bool)
    requires (v.taken <==> LastIsOpen(v.marks)) && (claims ==> !v.taken)
    ensures var w := Alone(v, e, i, claims);
            && (w.taken <==> LastIsOpen(w.marks))
            && (Alternating(w.marks) <==> Alternating(v.marks) && !Stray(v, e))
  {
    AlternatingMore(v.marks, Open);
    AlternatingMore(v.marks, Release);
  }

  lemma MarksStep(s: State, e: Event, i: Index)
    requires Shaped(s) && (s.taken[i] <==> LastIsOpen(s.marks[i]))
    ensures var v, w := View(s, i), View(Step(s, e), i);
            && (w.taken <==> LastIsOpen(w.marks))
            && (Alternating(w.marks) <==> Alternating(v.marks) && !Stray(v, e))
  {
    StepView(s, e, i);
    AloneMarks(View(s, i), e, i, LowestFree(s.taken) == i);
  }

  lemma {:induction false} MarksRun(s: State, es: seq<Event>, i: Index)
    requires Shaped(s) && (s.taken[i] <==> LastIsOpen(s.marks[i]))
    ensures After(s, es).taken[i] <==> LastIsOpen(After(s, es).marks[i])
    ensures Alternating(After(s, es).marks[i]) <==> Alternating(s.marks[i]) && Orderly(s, es, i)
    decreases |es|
  {
    if es != [] {
      MarksStep(s, es[0], i);
      MarksRun(Step(s, es[0]), es[1..], i);
    }
  }

  /** Over every run a slot's open requests and releases alternate, an open first, if and
      only if no event that releases the slot ever arrives while its flag is clear. The
      flag is set exactly if the last of them is an open, in any case. */
  lemma OpensAndReleasesAlternate(es: seq<Event>, i: Index)
    ensures Alternating(After(Init(), es).marks[i]) <==> Orderly(Init(), es, i)
    ensures After(Init(), es).taken[i] <==> LastIsOpen(After(Init(), es).marks[i])
  {
    MarksRun(Init(), es, i);
  }

  // ---------- whose slot it is ----------

  /** An event that clears a set flag without ending the open or connection that the flag
      stands for, or the reverse: a failed open of another device than the one requested; a
      disconnect of the profile's peer when that is not the device requested; or of the
      device requested when that is not the profile's peer. */
  predicate Misleading(v: Slot, e: Event) {
    && e.Gattc? && Concerns(v.gattcIf, e.gattcIf) && v.taken
    && (|| (e.e.Opened? && !e.e.ok && e.e.bda != v.requested)
        || (e.e.Disconnected? && (e.e.bda == v.remote) != (e.e.bda == v.requested)))
  }

  predicate Attributed(s: State, es: seq<Event>, i: Index)
    requires Shaped(s)
    decreases |es|
  {
    es == [] || (!Misleading(View(s, i), es[0]) && Attributed(Step(s, es[0]), es[1..], i))
  }

  /** In every state of the run the flag tells whether some device holds the slot. */
  predicate Truthful(s: State, es: seq<Event>, i: Index)
    requires Shaped(s)
    decreases |es|
  {
    && (s.taken[i] <==> s.holder[i].Some?)
    && (es == [] || Truthful(Step(s, es[0]), es[1..], i))
  }

  ghost predicate HeldByRequested(v: Slot) {
    v.holder.Some? ==> v.holder == Some(v.requested)
  }

  lemma AloneHolder(v: Slot, e: Event, i: Index, claims: bool)
    requires HeldByRequested(v)
    ensures var w := Alone(v, e, i, claims);
            && HeldByRequested(w)
            && ((v.taken <==> v.holder.Some?) ==> (!Misleading(v, e) <==> (w.taken <==> w.holder.Some?)))
  {
  }

  lemma HolderStep(s: State, e: Event, i: Index)
    requires Shaped(s) && HeldByRequested(View(s, i))
    ensures var v, w := View(s, i), View(Step(s, e), i);
            && HeldByRequested(w)
            && ((v.taken <==> v.holder.Some?) ==> (!Misleading(v, e) <==> (w.taken <==> w.holder.Some?)))
  {
    StepView(s, e, i);
    AloneHolder(View(s, i), e, i, LowestFree(s.taken) == i);
  }

  lemma {:induction false} HolderRun(s: State, es: seq<Event>, i: Index)
    requires Shaped(s) && HeldByRequested(View(s, i)) && (s.taken[i] <==> s.holder[i].Some?)
    ensures Truthful(s, es, i) <==> Attributed(s, es, i)
    decreases |es|
  {
    if es != [] {
      HolderStep(s, es[0], i);
      if !Misleading(View(s, i), es[0]) {
        HolderRun(Step(s, es[0]), es[1..], i);
      }
    }
  }

  lemma {:induction false} HolderIsRequested(s: State, es: seq<Event>, i: Index)
    requires Shaped(s) && HeldByRequested(View(s, i))
    ensures HeldByRequested(View(After(s, es), i))
    decreases |es|
  {
    if es != [] {
      HolderStep(s, es[0], i);
      HolderIsRequested(Step(s, es[0]), es[1..], i);
    }
  }

  /** Throughout a run a slot's flag is set exactly while the device last requested for it
      is being opened or connected, if and only if no misleading event occurs. */
  lemma FlagIsHolder(es: seq<Event>, i: Index)
    ensures Truthful(Init(), es, i) <==> Attributed(Init(), es, i)
    ensures var s := After(Init(), es);
            s.holder[i].Some? ==> s.holder[i] == Some(Requested(s.opens, i))
  {
    HolderRun(Init(), es, i);
    HolderIsRequested(Init(), es, i);
  }

  // ---------- a run on which both go wrong ----------

  /** Slot 0 is opened for x, which disconnects; then it is claimed for y, and x comes back
      in slot 1. Profile 0 still holds the address of x. */
  function Prelude(x: Addr, y: Addr, g0: nat, g1: nat): seq<Event> {
    [Gattc(g0, Registered(0, true)), Gattc(g1, Registered(1, true)),
     Scan(x, true, None), Gattc(g0, Opened(true, x, 0)), Gattc(g0, Disconnected(x)),
     Scan(y, true, None), Scan(x, true, None), Gattc(g1, Opened(true, x, 1))]
  }

  const NEW_SLOT := Slot(IF_NONE, ZERO_ADDR, false, None, ZERO_ADDR, [])

  /** The first two slots after k events from start-up. */
  function FirstTwo(es: seq<Event>, k: nat): (Slot, Slot)
    requires k <= |es|
  {
    if k == 0 then (NEW_SLOT, NEW_SLOT) else Both(FirstTwo(es, k - 1), es[k - 1])
  }

  function Both(v: (Slot, Slot), e: Event): (Slot, Slot) {
    (Alone(v.0, e, 0, !v.0.taken), Alone(v.1, e, 1, v.0.taken && !v.1.taken))
  }

  lemma ClaimsOfTwo(taken: seq<bool>)
    requires |taken| == 3
    ensures LowestFree(taken) == 0 <==> !taken[0]
    ensures LowestFree(taken) == 1 <==> taken[0] && !taken[1]
  {
  }

  lemma BothViews(s: State, e: Event)
    requires Shaped(s)
    ensures Both((View(s, 0), View(s, 1)), e) == (View(Step(s, e), 0), View(Step(s, e), 1))
  {
    StepView(s, e, 0);
    StepView(s, e, 1);
    ClaimsOfTwo(s.taken);
  }

  lemma {:induction false} FirstTwoViews(es: seq<Event>, k: nat)
    requires k <= |es|
    ensures FirstTwo(es, k) == (View(After(Init(), es[..k]), 0), View(After(Init(), es[..k]), 1))
  {
    if k > 0 {
      var s, e := After(Init(), es[..k - 1]), es[k - 1];
      FirstTwoViews(es, k - 1);
      assert es[..k] == es[..k - 1] + [e];
      AfterOne(Init(), es[..k - 1], e);
      BothViews(s, e);
    }
  }

  const TURN: seq<Mark> := [Open, Release]

  lemma MarksSpelled()
    ensures [] + [Open] == [Open] && [Open] + [Release] == TURN
    ensures TURN + [Open] == [Open, Release, Open] && TURN + [Open] + [Release] == TURN + TURN
  {
  }

  lemma AfterPrelude(x: Addr, y: Addr, g0: nat, g1: nat, es: seq<Event>)
    requires g0 != g1 && g0 != IF_NONE && g1 != IF_NONE
    requires Prelude(x, y, g0, g1) <= es
    ensures FirstTwo(es, 8) == (Slot(g0, x, true, Some(y), y, TURN + [Open]), Slot(g1, x, true, Some(x), x, [Open]))
  {
    var first := Prelude(x, y, g0, g1);
    assert forall k :: 0 <= k < 8 ==> es[k] == first[k];
    var a, b := NEW_SLOT.(gattcIf := g0), NEW_SLOT.(gattcIf := g1);
    assert FirstTwo(es, 1) == (a, NEW_SLOT) by {
      assert es[0] == first[0];
    }
    assert FirstTwo(es, 2) == (a, b) by {
      assert es[1] == first[1];
    }
    MarksSpelled();
    var a3 := Slot(g0, ZERO_ADDR, true, Some(x), x, [Open]);
    assert FirstTwo(es, 3) == (a3, b) by {
      assert es[2] == first[2];
    }
    var a4 := a3.(remote := x);
    assert FirstTwo(es, 4) == (a4, b) by {
      assert es[3] == first[3];
    }
    var a5 := Slot(g0, x, false, None, x, TURN);
    assert FirstTwo(es, 5) == (a5, b) by {
      assert es[4] == first[4];
    }
    var a6 := Slot(g0, x, true, Some(y), y, TURN + [Open]);
    assert FirstTwo(es, 6) == (a6, b) by {
      assert es[5] == first[5];
    }
    var b7 := Slot(g1, ZERO_ADDR, true, Some(x), x, [Open]);
    assert FirstTwo(es, 7) == (a6, b7) by {
      assert es[6] == first[6];
    }
    assert FirstTwo(es, 8) == (a6, b7.(remote := x)) by {
      assert es[7] == first[7];
    }
  }

  function Straying(x: Addr, y: Addr, g0: nat, g1: nat): seq<Event> {
    Prelude(x, y, g0, g1) + [Gattc(g0, Opened(false, y, 0)), Gattc(g0, Disconnected(x))]
  }

  function Freeing(x: Addr, y: Addr, g0: nat, g1: nat): seq<Event> {
    Prelude(x, y, g0, g1) + [Gattc(g0, Disconnected(x)), Gattc(g0, Opened(true, y, 0))]
  }

  lemma AfterStraying(x: Addr, y: Addr, g0: nat, g1: nat)
    requires x != y && g0 != g1 && g0 != IF_NONE && g1 != IF_NONE
    ensures FirstTwo(Straying(x, y, g0, g1), 10).0 == Slot(g0, x, false, None, y, TURN + TURN + [Release])
  {
    var es := Straying(x, y, g0, g1);
    AfterPrelude(x, y, g0, g1, es);
    MarksSpelled();
    assert FirstTwo(es, 9).0 == Slot(g0, x, false, None, y, TURN + TURN) by {
      assert es[8] == Gattc(g0, Opened(false, y, 0));
    }
    assert es[9] == Gattc(g0, Disconnected(x));
  }

  lemma AfterFreeing(x: Addr, y: Addr, g0: nat, g1: nat)
    requires x != y && g0 != g1 && g0 != IF_NONE && g1 != IF_NONE
    ensures FirstTwo(Freeing(x, y, g0, g1), 10).0 == Slot(g0, y, false, Some(y), y, TURN + TURN)
  {
    var es := Freeing(x, y, g0, g1);
    AfterPrelude(x, y, g0, g1, es);
    MarksSpelled();
    assert FirstTwo(es, 9).0 == Slot(g0, x, false, Some(y), y, TURN + TURN) by {
      assert es[8] == Gattc(g0, Disconnected(x));
    }
    assert es[9] == Gattc(g0, Opened(true, y, 0));
  }

  lemma FirstView(es: seq<Event>)
    ensures FirstTwo(es, |es|).0 == View(After(Init(), es), 0)
  {
    FirstTwoViews(es, |es|);
    assert es[..|es|] == es;
  }

  lemma {:induction false} TruthfulEnd(s: State, es: seq<Event>, i: Index)
    requires Shaped(s) && Truthful(s, es, i)
    ensures After(s, es).taken[i] <==> After(s, es).holder[i].Some?
    decreases |es|
  {
    if es != [] {
      TruthfulEnd(Step(s, es[0]), es[1..], i);
    }
  }

  lemma MarksJudged()
    ensures Alternating(TURN + TURN) && !Alternating(TURN + TURN + [Release])
  {
    var m := TURN + TURN + [Release];
    assert m[4] == Release;
  }

  lemma Judged(es: seq<Event>, i: Index)
    ensures var s := After(Init(), es);
            && (s.marks[i] == TURN + TURN ==> Orderly(Init(), es, i))
            && (s.marks[i] == TURN + TURN + [Release] ==> !Orderly(Init(), es, i))
            && (!s.taken[i] && s.holder[i].Some? ==> !Attributed(Init(), es, i))
  {
    MarksJudged();
    OpensAndReleasesAlternate(es, i);
    FlagIsHolder(es, i);
    if Truthful(Init(), es, i) {
      TruthfulEnd(Init(), es, i);
    }
  }

  /** The open for y fails, and x disconnects from slot 1. The stack tells both interfaces,
      and the one of slot 0 releases its slot a second time. */
  lemma SecondDisconnectStrays(x: Addr, y: Addr, g0: nat, g1: nat)
    requires x != y && g0 != g1 && g0 != IF_NONE && g1 != IF_NONE
    ensures var es := Straying(x, y, g0, g1);
            After(Init(), es).marks[0] == TURN + TURN + [Release] && !Orderly(Init(), es, 0)
  {
    AfterStraying(x, y, g0, g1);
    FirstView(Straying(x, y, g0, g1));
    Judged(Straying(x, y, g0, g1), 0);
  }

  /** The same disconnect before the open for y has ended: the flag is cleared, and y is
      then connected in a slot that counts as free. The marks do not show it. */
  lemma LateDisconnectFreesOther(x: Addr, y: Addr, g0: nat, g1: nat)
    requires x != y && g0 != g1 && g0 != IF_NONE && g1 != IF_NONE
    ensures var es := Freeing(x, y, g0, g1);
            var s := After(Init(), es);
            && s.profiles[0].remote == y && s.holder[0] == Some(y) && !s.taken[0]
            && Orderly(Init(), es, 0) && !Attributed(Init(), es, 0)
  {
    AfterFreeing(x, y, g0, g1);
    FirstView(Freeing(x, y, g0, g1));
    Judged(Freeing(x, y, g0, g1), 0);
  }
}
