/** The main window when sends overlap. `All_Buttons_Disabler` leaves the
    custom-key button, its radio buttons and its text box enabled, so a custom
    code can be sent while another send is in flight; every send then shares
    the one `_cts` slot, and each `finally` of `SendKeyCombo` disposes and
    clears whatever the slot holds at that moment. */
module Overlap {
  import opened Results
  import opened HexParse
  import opened Keys
  import opened Resolution
  import opened Sequence
  import opened Sending

  /** One CancellationTokenSource. */
  datatype TokenSource = TokenSource(cancelled: bool, disposed: bool)

  /** The `_cts` field: empty, or the index of a token source. */
  datatype Slot = Null | Holds(source: nat)

  /** Where one send stands: waiting out the pre-delay, holding the keys,
      past the hold checkpoint, or finished. */
  datatype Stage = AwaitDelay | AwaitHold | AwaitRelease | Ended

  /** One send: the token source it was started with (its own `ct`), its
      stage, what it presses, the calls it has made, and whether its hold
      checkpoint saw a cancel. */
  datatype Flight = Flight(token: nat, stage: Stage, resolved: Resolved, mods: Modifiers,
                           sent: seq<Dispatch>, holdCancelled: bool)

  /** The calls a send has made, for the stage it is in: none before the
      press, the presses during the hold, and at the end either nothing or the
      presses followed by the releases. */
  predicate FlightSent(f: Flight) {
    match f.stage
    case AwaitDelay => f.sent == []
    case AwaitHold => f.sent == PressDispatches(f.resolved, f.mods)
    case AwaitRelease => f.sent == PressDispatches(f.resolved, f.mods)
    case Ended => f.sent == [] || f.sent == PressDispatches(f.resolved, f.mods) + ReleaseDispatches(f.resolved, f.mods)
  }

  /** After appending one send with token `newest` to `before`, a send in
      flight other than the new one was in flight before, with a smaller
      token; and when none was in flight before, every send in flight has
      token `newest`. */
  lemma InFlightAfterAppend(before: seq<Flight>, after: seq<Flight>, newest: nat)
    requires |after| == |before| + 1 && after[..|before|] == before && after[|before|].token == newest
    requires forall i | 0 <= i < |before| :: before[i].token < newest
    ensures (exists i | 0 <= i < |before| :: before[i].stage != Ended) ==>
      exists i | 0 <= i < |after| :: after[i].stage != Ended && after[i].token != newest
    ensures (forall i | 0 <= i < |before| :: before[i].stage == Ended) ==>
      forall i | 0 <= i < |after| && after[i].stage != Ended :: after[i].token == newest
  {
    if exists i | 0 <= i < |before| :: before[i].stage != Ended {
      var i :| 0 <= i < |before| && before[i].stage != Ended;
      assert after[i] == before[i];
    }
    if forall i | 0 <= i < |before| :: before[i].stage == Ended {
      forall i | 0 <= i < |after| && after[i].stage != Ended ensures after[i].token == newest {
        if i < |before| {
          assert false;
        }
      }
    }
  }

  class Window {
    /** `_cts` */
    var cts: Slot
    /** Every token source created so far, oldest first. */
    var sources: seq<TokenSource>
    /** Every send started so far, oldest first. */
    var flights: seq<Flight>
    var controlsEnabled: bool
    var status: Status
    /** Every call made into the operating system, oldest first. */
    var log: seq<Dispatch>
    /** A `finally` of `SendKeyCombo` found `_cts` null and threw. */
    var faulted: bool

    ghost predicate Valid()
      reads this`cts, this`sources, this`flights
    {
      && (cts.Holds? ==> cts.source < |sources| && !sources[cts.source].disposed)
      && (forall i | 0 <= i < |flights| :: flights[i].token < |sources| && FlightSent(flights[i]))
      && (forall i, j | 0 <= i < j < |flights| :: flights[i].token < flights[j].token)
    }

    /** Some send has not finished. */
    predicate Busy()
      reads this`flights
    {
      exists i | 0 <= i < |flights| :: flights[i].stage != Ended
    }

    /** The slot holds the token of every send in flight, so a cancel click
        reaches it and its `finally` finds a token to dispose. */
    ghost predicate SlotOwned()
      reads this`cts, this`flights
    {
      forall i | 0 <= i < |flights| && flights[i].stage != Ended :: cts == Holds(flights[i].token)
    }

    constructor ()
      ensures Valid() && SlotOwned() && !Busy()
      ensures cts == Null && sources == [] && flights == [] && log == []
      ensures controlsEnabled && status == Ready && !faulted
    {
      cts := Null;
      sources := [];
      flights := [];
      controlsEnabled := true;
      status := Ready;
      log := [];
      faulted := false;
    }

    /** While the slot is owned, at most one send is in flight. */
    lemma OnlyFlight(i: nat)
      requires Valid() && SlotOwned() && i < |flights| && flights[i].stage != Ended
      ensures forall j | 0 <= j < |flights| && flights[j].stage != Ended :: j == i
    {
      forall j | 0 <= j < |flights| && flights[j].stage != Ended ensures j == i {
        assert flights[j].token == flights[i].token;
      }
    }

    /** A send in flight whose token is not in the slot does not own it. */
    lemma NotOwnedBy(i: nat)
      requires i < |flights| && flights[i].stage != Ended && cts != Holds(flights[i].token)
      ensures !SlotOwned()
    {
    }

    /** `_cts.Dispose(); _cts = null;` at the end of `SendKeyCombo`: an empty
        slot throws, otherwise the source it holds is disposed. */
    method CloseSlot()
      requires Valid()
      modifies this`cts, this`sources, this`faulted
      ensures Valid() && cts == Null
      ensures old(cts).Null? ==> faulted && sources == old(sources)
      ensures old(cts).Holds? ==>
        faulted == old(faulted)
        && sources == old(sources)[old(cts).source := old(sources)[old(cts).source].(disposed := true)]
    {
      if cts.Null? {
        faulted := true;
        return;
      }
      sources := sources[cts.source := sources[cts.source].(disposed := true)];
      cts := Null;
    }

    /** A click on a key button (enabled only with the other controls) or on
        the custom-key button (always enabled): a fresh token source goes into
        the slot, overwriting the one there, and the request is resolved. A
        refused request disposes the fresh source and empties the slot. Either
        way a send in flight has lost the slot. */
    method Start(req: SendRequest) returns (outcome: StartOutcome)
      requires Valid()
      requires controlsEnabled || req.customVK || req.customSC
      modifies this
      ensures Valid()
      ensures outcome == match ResolveRequest(req) case Ok(_) => Started case Err(e) => Refused(e)
      ensures log == old(log) && faulted == old(faulted)
      ensures |sources| == |old(sources)| + 1 && sources[..|old(sources)|] == old(sources)
      ensures outcome.Started? ==>
        flights == old(flights) + [Flight(|old(sources)|, AwaitDelay, ResolveRequest(req).value, req.mods, [], false)]
        && cts == Holds(|old(sources)|) && sources[|old(sources)|] == TokenSource(false, false)
        && !controlsEnabled && status == Waiting
      ensures outcome.Refused? ==>
        flights == old(flights) && cts == Null && sources[|old(sources)|] == TokenSource(false, true)
        && controlsEnabled && status == old(status)
      ensures old(Busy()) ==> !SlotOwned()
      ensures !old(Busy()) ==> SlotOwned()
    {
      var r := ResolveRequest(req);
      if r.Err? {
        Refuse();
        outcome := Refused(r.error);
      } else {
        Accept(r.value, req.mods);
        outcome := Started;
      }
    }

    /** A resolved request: its fresh source goes into the slot and its send
        begins its pre-delay with the controls disabled. */
    method Accept(res: Resolved, mods: Modifiers)
      requires Valid()
      modifies this`sources, this`cts, this`flights, this`controlsEnabled, this`status
      ensures Valid()
      ensures sources == old(sources) + [TokenSource(false, false)] && cts == Holds(|old(sources)|)
      ensures flights == old(flights) + [Flight(|old(sources)|, AwaitDelay, res, mods, [], false)]
      ensures !controlsEnabled && status == Waiting
      ensures old(Busy()) ==> !SlotOwned()
      ensures !old(Busy()) ==> SlotOwned()
    {
      controlsEnabled, status := false, Waiting;
      var newest := Open();
      Enqueue(Flight(newest, AwaitDelay, res, mods, [], false));
      InFlightAfterAppend(old(flights), flights, newest);
    }

    /** A refused request: its fresh source goes into the slot, and the
        `finally` of `SendKeyCombo` disposes it and empties the slot before
        anything else runs, so no fault can arise here. */
    method Refuse()
      requires Valid()
      modifies this`sources, this`cts, this`controlsEnabled, this`faulted
      ensures Valid() && faulted == old(faulted)
      ensures sources == old(sources) + [TokenSource(false, true)] && cts == Null
      ensures controlsEnabled
      ensures old(Busy()) ==> !SlotOwned()
      ensures !old(Busy()) ==> SlotOwned()
    {
      sources, cts, controlsEnabled := sources + [TokenSource(false, true)], Null, true;
      if Busy() {
        var i :| 0 <= i < |flights| && flights[i].stage != Ended;
        NotOwnedBy(i);
      }
    }

    /** `_cts = new CancellationTokenSource()`. */
    method Open() returns (newest: nat)
      requires Valid()
      modifies this`sources, this`cts
      ensures Valid() && newest == |old(sources)|
      ensures sources == old(sources) + [TokenSource(false, false)] && cts == Holds(newest)
    {
      newest := |sources|;
      sources, cts := sources + [TokenSource(false, false)], Holds(newest);
    }

    /** A new send, with a token newer than every other. */
    method Enqueue(f: Flight)
      requires Valid() && f.token < |sources| && f.stage == AwaitDelay && f.sent == []
      requires forall i | 0 <= i < |flights| :: flights[i].token < f.token
      modifies this`flights
      ensures Valid() && flights == old(flights) + [f]
    {
      flights := flights + [f];
    }

    /** `btnCancel_Click`: cancels the source in the slot, if there is one not
        yet cancelled; otherwise nothing changes. */
    method Cancel()
      requires Valid()
      modifies this`sources, this`status
      ensures Valid()
      ensures old(cts.Holds? && !sources[cts.source].cancelled) ==>
        sources == old(sources)[cts.source := TokenSource(true, false)] && status == Cancelling
      ensures !old(cts.Holds? && !sources[cts.source].cancelled) ==>
        sources == old(sources) && status == old(status)
    {
      if cts.Holds? && !sources[cts.source].cancelled {
        sources := sources[cts.source := TokenSource(true, false)];
        status := Cancelling;
      }
    }

    /** Send `i`'s pre-delay has ended; its checkpoint reads its own token. A
        cancelled token ends the send with nothing sent and runs the `finally`
        of `SendKeyCombo`; otherwise the keys are pressed. */
    method PassPreDelay(i: nat)
      requires Valid() && i < |flights| && flights[i].stage == AwaitDelay
      modifies this
      ensures Valid() && |flights| == |old(flights)|
      ensures forall j | 0 <= j < |flights| && j != i :: flights[j] == old(flights[j])
      ensures old(sources[flights[i].token].cancelled) ==>
        flights[i] == old(flights[i]).(stage := Ended) && log == old(log)
        && status == ReadyCancelled && controlsEnabled && cts == Null
        && faulted == (old(faulted) || old(cts).Null?)
      ensures !old(sources[flights[i].token].cancelled) ==>
        flights[i] == old(flights[i]).(stage := AwaitHold, sent := PressDispatches(flights[i].resolved, flights[i].mods))
        && log == old(log) + PressDispatches(flights[i].resolved, flights[i].mods)
        && status == Holding && controlsEnabled == old(controlsEnabled)
        && cts == old(cts) && sources == old(sources) && faulted == old(faulted)
      ensures old(SlotOwned()) ==> SlotOwned() && faulted == old(faulted)
    {
      if sources[flights[i].token].cancelled {
        DropAtDelay(i);
      } else {
        var f := flights[i];
        var presses := PressDispatches(f.resolved, f.mods);
        log, flights, status := log + presses, flights[i := f.(stage := AwaitHold, sent := presses)], Holding;
      }
    }

    /** The cancelled branch of `PassPreDelay`: the send ends unsent and the
        `finally` of `SendKeyCombo` closes the slot. */
    method DropAtDelay(i: nat)
      requires Valid() && i < |flights| && flights[i].stage == AwaitDelay
      modifies this
      ensures Valid() && |flights| == |old(flights)|
      ensures forall j | 0 <= j < |flights| && j != i :: flights[j] == old(flights[j])
      ensures flights[i] == old(flights[i]).(stage := Ended) && log == old(log)
      ensures status == ReadyCancelled && controlsEnabled && cts == Null
      ensures faulted == (old(faulted) || old(cts).Null?)
      ensures old(SlotOwned()) ==> SlotOwned() && faulted == old(faulted)
    {
      if old(SlotOwned()) {
        OnlyFlight(i);
      }
      status, controlsEnabled, flights := ReadyCancelled, true, flights[i := flights[i].(stage := Ended)];
      CloseSlot();
    }

    /** Send `i`'s hold has ended; its checkpoint records whether its own
        token was cancelled, and the release follows either way. */
    method PassHold(i: nat)
      requires Valid() && i < |flights| && flights[i].stage == AwaitHold
      modifies this`flights
      ensures Valid() && |flights| == |old(flights)|
      ensures forall j | 0 <= j < |flights| && j != i :: flights[j] == old(flights[j])
      ensures flights[i] == old(flights[i]).(stage := AwaitRelease, holdCancelled := sources[flights[i].token].cancelled)
      ensures old(SlotOwned()) ==> SlotOwned()
    {
      flights := flights[i := flights[i].(stage := AwaitRelease, holdCancelled := sources[flights[i].token].cancelled)];
    }

    /** The `finally` blocks of send `i`: release its keys, re-enable the
        controls, report a cancelled hold, then dispose and clear the slot,
        whichever send's source it holds. */
    method Finish(i: nat)
      requires Valid() && i < |flights| && flights[i].stage == AwaitRelease
      modifies this
      ensures Valid() && |flights| == |old(flights)|
      ensures forall j | 0 <= j < |flights| && j != i :: flights[j] == old(flights[j])
      ensures log == old(log) + ReleaseDispatches(flights[i].resolved, flights[i].mods)
      ensures flights[i] == old(flights[i]).(stage := Ended, sent := old(flights[i].sent) + ReleaseDispatches(flights[i].resolved, flights[i].mods))
      ensures flights[i].sent == PressDispatches(flights[i].resolved, flights[i].mods) + ReleaseDispatches(flights[i].resolved, flights[i].mods)
      ensures controlsEnabled && cts == Null
      ensures status == if old(flights[i].holdCancelled) then ReadyCancelled else Ready
      ensures faulted == (old(faulted) || old(cts).Null?)
      ensures old(cts).Holds? ==> sources == old(sources)[old(cts).source := old(sources)[old(cts).source].(disposed := true)]
      ensures old(SlotOwned()) ==> SlotOwned() && faulted == old(faulted)
    {
      var f := flights[i];
      if old(SlotOwned()) {
        OnlyFlight(i);
      }
      var releases := ReleaseDispatches(f.resolved, f.mods);
      log, flights := log + releases, flights[i := f.(stage := Ended, sent := f.sent + releases)];
      status, controlsEnabled := if f.holdCancelled then ReadyCancelled else Ready, true;
      CloseSlot();
    }
  }

  lemma Digits7C()
    ensures StringToUShort("7C") == Ok(Parsed(0x7C, false))
  {
    assert HexDigits(0x7C, 2) == "7C" by {
      assert HexDigits(7, 1) == "7";
    }
    StringToUShortPlain(0x7C, 2);
  }

  lemma NotAName7C()
    ensures Upper("7C") !in KeyCodes
  {
    assert Upper("7C") == "7C";
    assert "7C"[0] == '7';
  }

  /** F13 is a table name. */
  lemma F13Resolves(m: Modifiers)
    ensures ResolveRequest(SendRequest("F13", m, false, false, SendInputApi)).Ok?
  {
    assert Upper("F13") == "F13";
  }

  /** The custom virtual key "7C" is not a table name and parses. */
  lemma Custom7CResolves(m: Modifiers)
    ensures ResolveRequest(SendRequest("7C", m, true, false, SendInputApi)).Ok?
  {
    Digits7C();
    NotAName7C();
  }

  /** Send `a` from an idle window and let its pre-delay pass: its keys are
      held and the slot holds its source. */
  method HoldFirst(w: Window, a: SendRequest)
    requires w.Valid() && w.flights == [] && w.sources == [] && w.controlsEnabled && !w.faulted
    requires ResolveRequest(a).Ok?
    modifies w
    ensures w.Valid() && !w.faulted && w.cts == Holds(0) && w.sources == [TokenSource(false, false)]
    ensures w.flights == [Flight(0, AwaitHold, ResolveRequest(a).value, a.mods, PressDispatches(ResolveRequest(a).value, a.mods), false)]
  {
    var started := w.Start(a);
    w.PassPreDelay(0);
  }

  /** Then send custom request `b` during that hold and let its pre-delay
      pass: both keys are held, and the slot holds `b`'s source. */
  method HoldSecond(w: Window, b: SendRequest)
    requires w.Valid() && !w.faulted && |w.flights| == 1 && w.sources == [TokenSource(false, false)]
    requires w.flights[0].token == 0 && w.flights[0].stage == AwaitHold
    requires ResolveRequest(b).Ok? && (b.customVK || b.customSC)
    modifies w
    ensures w.Valid() && !w.faulted && w.cts == Holds(1)
    ensures w.sources == [TokenSource(false, false), TokenSource(false, false)]
    ensures w.flights == old(w.flights)
      + [Flight(1, AwaitHold, ResolveRequest(b).value, b.mods, PressDispatches(ResolveRequest(b).value, b.mods), false)]
  {
    var started := w.Start(b);
    w.PassPreDelay(1);
  }

  /** With both keys held, the slot holding the second send's cancelled
      source: the first send's hold ends uncancelled, and its `finally`
      disposes the second send's source and empties the slot. */
  method EndFirst(w: Window)
    requires w.Valid() && !w.faulted && |w.flights| == 2 && w.cts == Holds(1)
    requires w.sources == [TokenSource(false, false), TokenSource(true, false)]
    requires w.flights[0].token == 0 && w.flights[0].stage == AwaitHold && !w.flights[0].holdCancelled
    requires w.flights[1].token == 1 && w.flights[1].stage == AwaitHold
    modifies w
    ensures w.Valid() && !w.faulted && w.cts == Null && w.controlsEnabled
    ensures w.sources == [TokenSource(false, false), TokenSource(true, true)]
    ensures |w.flights| == 2 && w.flights[1] == old(w.flights[1])
    ensures w.flights[0] == old(w.flights[0]).(stage := Ended,
      sent := old(w.flights[0].sent) + ReleaseDispatches(old(w.flights[0].resolved), old(w.flights[0].mods)))
  {
    w.PassHold(0);
    w.Finish(0);
  }

  /** F13 is held with SendInput, and the custom virtual key "7C" is sent
      during the hold; a cancel click follows while both are held. The click
      cancels only the custom send's source, so F13 is held for its whole
      time. F13's `finally` then re-enables the controls and disposes the
      custom send's source while the custom key is still held, and the custom
      send's own `finally` finds the slot empty and throws. Both sends still
      release every key they pressed. */
  method OverlappingSends() returns (f13HoldCancelled: bool, customHoldCancelled: bool,
                                     enabledDuringCustomHold: bool, customSourceDisposedEarly: bool,
                                     faulted: bool, f13Sent: seq<Dispatch>, customSent: seq<Dispatch>)
    ensures !f13HoldCancelled && customHoldCancelled
    ensures enabledDuringCustomHold && customSourceDisposedEarly
    ensures faulted
    ensures ResolveRequest(SendRequest("7C", Modifiers(false, false, false), true, false, SendInputApi)).Ok?
    ensures var r := ResolveRequest(SendRequest("F13", Modifiers(false, false, false), false, false, SendInputApi)).value;
      f13Sent == PressDispatches(r, Modifiers(false, false, false)) + ReleaseDispatches(r, Modifiers(false, false, false))
    ensures var r := ResolveRequest(SendRequest("7C", Modifiers(false, false, false), true, false, SendInputApi)).value;
      customSent == PressDispatches(r, Modifiers(false, false, false)) + ReleaseDispatches(r, Modifiers(false, false, false))
  {
    var none := Modifiers(false, false, false);
    var f13 := SendRequest("F13", none, false, false, SendInputApi);
    var custom := SendRequest("7C", none, true, false, SendInputApi);
    F13Resolves(none);
    Custom7CResolves(none);
    var w := new Window();
    HoldFirst(w, f13);
    HoldSecond(w, custom);
    w.Cancel();
    EndFirst(w);
    f13HoldCancelled := w.flights[0].holdCancelled;
    enabledDuringCustomHold := w.controlsEnabled && w.flights[1].stage == AwaitHold;
    customSourceDisposedEarly := w.sources[1].disposed;
    w.PassHold(1);
    customHoldCancelled := w.flights[1].holdCancelled;
    w.Finish(1);
    faulted := w.faulted;
    f13Sent, customSent := w.flights[0].sent, w.flights[1].sent;
  }
}
