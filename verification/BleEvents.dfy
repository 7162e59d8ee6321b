/** The three profiles and the scan's flags, told from the list of callbacks alone. */
module BleEvents {
  import opened Ble
  import opened BleSlots

  // ---------- which callbacks a profile hears ----------

  /** The interface that a profile was registered with last. */
  function InterfaceOf(es: seq<Event>, i: Index): nat {
    if es == [] then IF_NONE
    else
      var e := es[|es| - 1];
      if e.Gattc? && e.e == Registered(i, true) then e.gattcIf else InterfaceOf(es[..|es| - 1], i)
  }

  /** The events meant for every interface or for that of the profile, in order; a failed
      registration goes to none. */
  function HeardOf(es: seq<Event>, i: Index): seq<GattcEvent> {
    if es == [] then []
    else
      var e := es[|es| - 1];
      var meant := e.Gattc? && (e.e.Registered? ==> e.e.ok) && (e.gattcIf == 0xff || e.gattcIf == InterfaceOf(es, i));
      HeardOf(es[..|es| - 1], i) + if meant then [e.e] else []
  }

  lemma HandlerHeard(s: State, j: Index, e: GattcEvent, i: Index)
    requires Shaped(s)
    ensures Handler(s, j, e).heard[i] == if i == j then s.heard[i] + [e] else s.heard[i]
  {
    assert React(Hear(s, j, e), j, e).heard == Hear(s, j, e).heard;
  }

  /** What event e adds to what profile i has heard, if it is among those called. */
  function Share(s: State, gattcIf: nat, e: GattcEvent, called: bool, i: Index): seq<GattcEvent>
    requires Shaped(s)
  {
    if called && (gattcIf == 0xff || gattcIf == s.profiles[i].gattcIf) then [e] else []
  }

  lemma CalledHeard(s: State, gattcIf: nat, e: GattcEvent, k: Index, i: Index)
    requires Shaped(s)
    ensures var t := Called(s, gattcIf, e, k);
            && t.heard[i] == s.heard[i] + Share(s, gattcIf, e, k == i, i)
            && t.profiles[i].gattcIf == s.profiles[i].gattcIf
  {
    HandlerHeard(s, k, e, i);
    HandlerView(s, k, e, i);
    assert View(Handler(s, k, e), i).gattcIf == View(s, i).gattcIf;
  }

  lemma {:induction false} DispatchHeard(s: State, gattcIf: nat, e: GattcEvent, k: nat, i: Index)
    requires Shaped(s) && k <= 3
    ensures Dispatch(s, gattcIf, e, k).heard[i] == s.heard[i] + Share(s, gattcIf, e, k <= i, i)
    decreases 3 - k
  {
    if k < 3 {
      CalledHeard(s, gattcIf, e, k, i);
      DispatchHeard(Called(s, gattcIf, e, k), gattcIf, e, k + 1, i);
    }
  }

  lemma StepHeard(s: State, e: Event, i: Index)
    requires Shaped(s)
    ensures var t := Step(s, e);
            && t.profiles[i].gattcIf ==
               (if e.Gattc? && e.e == Registered(i, true) then e.gattcIf else s.profiles[i].gattcIf)
            && t.heard[i] == s.heard[i] +
                 if e.Gattc? && (e.e.Registered? ==> e.e.ok)
                    && (e.gattcIf == 0xff || e.gattcIf == t.profiles[i].gattcIf)
                 then [e.e] else []
  {
    StepView(s, e, i);
    assert View(Step(s, e), i).gattcIf == Alone(View(s, i), e, i, LowestFree(s.taken) == i).gattcIf;
    if e.Gattc? {
      GattcHeard(s, e.gattcIf, e.e, i);
    }
  }

  lemma GattcHeard(s: State, gattcIf: nat, e: GattcEvent, i: Index)
    requires Shaped(s)
    ensures var own := if e == Registered(i, true) then gattcIf else s.profiles[i].gattcIf;
            DoGattc(s, gattcIf, e).heard[i] ==
            s.heard[i] + if (e.Registered? ==> e.ok) && (gattcIf == 0xff || gattcIf == own) then [e] else []
  {
    if !e.Registered? {
      DispatchHeard(s, gattcIf, e, 0, i);
    } else if e.ok {
      DispatchHeard(WithProfile(s, e.appId, s.profiles[e.appId].(gattcIf := gattcIf)), gattcIf, e, 0, i);
    }
  }

  lemma {:induction false} HeardIsMeant(es: seq<Event>, i: Index)
    ensures After(Init(), es).profiles[i].gattcIf == InterfaceOf(es, i)
    ensures After(Init(), es).heard[i] == HeardOf(es, i)
    decreases |es|
  {
    if es != [] {
      var front, e := es[..|es| - 1], es[|es| - 1];
      assert es == front + [e];
      HeardIsMeant(front, i);
      AfterOne(Init(), front, e);
      StepHeard(After(Init(), front), e, i);
    }
  }

  /** After any callbacks, peer, connection and both characteristic handles of a profile are
      those that the events meant for it reported last: a handle, the latest answer of a
      completed search that came while the handle's own service was known. */
  lemma ProfileFollowsEvents(es: seq<Event>, i: Index)
    ensures var p, h := After(Init(), es).profiles[i], HeardOf(es, i);
            && p.gattcIf == InterfaceOf(es, i)
            && p.remote == RemoteOf(h) && p.connId == ConnOf(h)
            && p.charHandle == HandleOf(h, SERVICE_T) && p.charVddHandle == HandleOf(h, SERVICE_VDD)
  {
    HeardIsMeant(es, i);
    assert Reachable(After(Init(), es));
    ReachableInv(After(Init(), es));
  }

  // ---------- the two flags of the scan ----------

  /** A completed search and any disconnect make the code scan again. */
  predicate Rescans(e: GattcEvent) {
    e.Disconnected? || (e.SearchDone? && e.ok)
  }

  /** Some profile from k on is called. */
  predicate Reaches(s: State, gattcIf: nat, k: nat)
    requires Shaped(s) && k <= 3
    decreases 3 - k
  {
    k < 3 && (gattcIf == 0xff || gattcIf == s.profiles[k].gattcIf || Reaches(s, gattcIf, k + 1))
  }

  /** The step starts a scan. */
  predicate Starts(s: State, e: Event)
    requires Shaped(s)
  {
    e.Restart? || (e.Gattc? && Rescans(e.e) && Reaches(s, e.gattcIf, 0))
  }

  /** A scan result while all three flags are set. */
  predicate Crowded(s: State, e: Event)
    requires Shaped(s)
  {
    e.Scan? && s.taken == [true, true, true]
  }

  lemma ReactScan(s: State, i: Index, e: GattcEvent)
    requires Shaped(s)
    ensures var t := React(s, i, e);
            && t.opens == s.opens
            && t.isConnecting == (s.isConnecting && !Rescans(e))
            && t.stopScanDone == (s.stopScanDone && !Rescans(e))
  {
  }

  lemma HandlerScan(s: State, i: Index, e: GattcEvent)
    requires Shaped(s)
    ensures var t := Handler(s, i, e);
            && t.opens == s.opens
            && t.isConnecting == (s.isConnecting && !Rescans(e))
            && t.stopScanDone == (s.stopScanDone && !Rescans(e))
            && forall j :: 0 <= j < 3 ==> t.profiles[j].gattcIf == s.profiles[j].gattcIf
  {
    ReactScan(Hear(s, i, e), i, e);
    forall j | 0 <= j < 3
      ensures Handler(s, i, e).profiles[j].gattcIf == s.profiles[j].gattcIf
    {
      HandlerView(s, i, e, j);
      assert View(Handler(s, i, e), j).gattcIf == View(s, j).gattcIf;
    }
  }

  lemma {:induction false} ReachesFrame(s: State, t: State, gattcIf: nat, k: nat)
    requires Shaped(s) && Shaped(t) && k <= 3
    requires forall j :: 0 <= j < 3 ==> t.profiles[j].gattcIf == s.profiles[j].gattcIf
    ensures Reaches(t, gattcIf, k) == Reaches(s, gattcIf, k)
    decreases 3 - k
  {
    if k < 3 {
      ReachesFrame(s, t, gattcIf, k + 1);
    }
  }

  lemma {:induction false} DispatchScan(s: State, gattcIf: nat, e: GattcEvent, k: nat)
    requires Shaped(s) && k <= 3
    ensures var t, starts := Dispatch(s, gattcIf, e, k), Rescans(e) && Reaches(s, gattcIf, k);
            && t.opens == s.opens
            && t.isConnecting == (s.isConnecting && !starts) && t.stopScanDone == (s.stopScanDone && !starts)
    decreases 3 - k
  {
    if k < 3 {
      var t := Called(s, gattcIf, e, k);
      HandlerScan(s, k, e);
      DispatchScan(t, gattcIf, e, k + 1);
      ReachesFrame(s, t, gattcIf, k + 1);
    }
  }

  lemma GattcScan(s: State, gattcIf: nat, e: GattcEvent)
    requires Shaped(s)
    ensures var t, starts := DoGattc(s, gattcIf, e), Rescans(e) && Reaches(s, gattcIf, 0);
            && t.opens == s.opens
            && t.isConnecting == (s.isConnecting && !starts) && t.stopScanDone == (s.stopScanDone && !starts)
  {
    if !e.Registered? {
      DispatchScan(s, gattcIf, e, 0);
    } else if e.ok {
      DispatchScan(WithProfile(s, e.appId, s.profiles[e.appId].(gattcIf := gattcIf)), gattcIf, e, 0);
    }
  }

  lemma AllTaken(taken: seq<bool>)
    requires |taken| == 3
    ensures LowestFree(taken) == 3 <==> taken == [true, true, true]
  {
    if LowestFree(taken) == 3 {
      assert taken[0] && taken[1] && taken[2];
    }
  }

  lemma ScanStep(s: State, e: Event)
    requires Shaped(s)
    ensures var t := Step(s, e);
            && (t.isConnecting <==> !Starts(s, e) && (s.isConnecting || |t.opens| > |s.opens|))
            && (t.stopScanDone <==> !Starts(s, e) && (s.stopScanDone || Crowded(s, e)))
            && |t.opens| >= |s.opens|
  {
    AllTaken(s.taken);
    if e.Gattc? {
      GattcScan(s, e.gattcIf, e.e);
    }
  }

  predicate NoStart(s: State, es: seq<Event>)
    requires Shaped(s)
    decreases |es|
  {
    es == [] || (!Starts(s, es[0]) && NoStart(Step(s, es[0]), es[1..]))
  }

  predicate EverCrowded(s: State, es: seq<Event>)
    requires Shaped(s)
    decreases |es|
  {
    es != [] && (Crowded(s, es[0]) || EverCrowded(Step(s, es[0]), es[1..]))
  }

  lemma {:induction false} ScanRun(s: State, es: seq<Event>)
    requires Shaped(s) && NoStart(s, es)
    ensures var t := After(s, es);
            && |t.opens| >= |s.opens|
            && (t.isConnecting <==> s.isConnecting || |t.opens| > |s.opens|)
            && (t.stopScanDone <==> s.stopScanDone || EverCrowded(s, es))
    decreases |es|
  {
    if es != [] {
      ScanStep(s, es[0]);
      ScanRun(Step(s, es[0]), es[1..]);
    }
  }

  /** Between two starts of the scan one flag tells whether a connection has been asked for,
      and the other whether a result came while all slots were taken. */
  lemma ScanFlags(s: State, e: Event, es: seq<Event>)
    requires Shaped(s) && Starts(s, e) && NoStart(Step(s, e), es)
    ensures var t := After(s, [e] + es);
            && (t.isConnecting <==> |t.opens| > |s.opens|)
            && (t.stopScanDone <==> EverCrowded(Step(s, e), es))
  {
    ScanStep(s, e);
    assert |Step(s, e).opens| == |s.opens| by {
      if e.Gattc? {
        GattcScan(s, e.gattcIf, e.e);
      }
    }
    ScanRun(Step(s, e), es);
    assert ([e] + es)[1..] == es;
  }
}
