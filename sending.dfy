/** The send/cancel sequencer of `SendKeyCombo` and the two send methods:
    resolve, wait, press, hold, release, with cancellation observed at the
    checkpoint after each wait and the release guaranteed once the press has
    gone out. The operating-system calls append to an event log. */
module Sending {
  import opened Results
  import opened Keys
  import opened Resolution
  import opened Sequence

  /** The "method" drop-down: index 0 is SendInput, index 1 keybd_event. */
  datatype Method = SendInputApi | KeybdEventApi

  /** One click: the key name or custom code, the modifier check boxes at that
      moment, how a custom code is to be read, and the chosen method. */
  datatype SendRequest = SendRequest(key: string, mods: Modifiers, customVK: bool, customSC: bool, api: Method)

  /** What a started send will press. */
  datatype Resolved = ViaSendInput(target: Target) | ViaKeybd(vk: U8)

  /** The resolution step of the chosen method, which runs before any delay.
      Each method resolves in its own way; SendInput can fail only on a code
      that does not parse, and never on a table name; keybd_event refuses
      every custom scan code, and a name that is not in the table. */
  function ResolveRequest(req: SendRequest): (r: Result<Resolved, SendError>)
    ensures r.Ok? ==> (r.value.ViaSendInput? <==> req.api == SendInputApi)
    ensures req.api == SendInputApi && r.Err? ==> r.error.BadCode?
    ensures req.api == SendInputApi && Upper(req.key) in KeyCodes ==>
      r == Ok(ViaSendInput(Target(KeyCodes[Upper(req.key)], false)))
    ensures req.api == KeybdEventApi && !req.customVK && req.customSC ==> r == Err(ScanCodeUnsupported)
    ensures req.api == KeybdEventApi && !req.customVK && !req.customSC ==>
      (r.Ok? <==> req.key in KeyCodes) && (r.Err? ==> r.error == UnknownKey)
  {
    match req.api
    case SendInputApi =>
      (match ResolveForSendInput(req.key, req.customVK, req.customSC)
       case Ok(t) => Ok(ViaSendInput(t))
       case Err(e) => Err(BadCode(e)))
    case KeybdEventApi =>
      (match ResolveForKeybd(req.key, req.customVK, req.customSC)
       case Ok(vk) => Ok(ViaKeybd(vk))
       case Err(e) => Err(e))
  }

  /** One call into the operating system: a SendInput batch or a single keybd_event. */
  datatype Dispatch = Batch(inputs: seq<KeyInput>) | Single(call: KeybdCall)

  /** The calls that press the keys: one batch, or one call per key. */
  function PressDispatches(r: Resolved, m: Modifiers): seq<Dispatch> {
    match r
    case ViaSendInput(t) => [Batch(Presses(Chord(t.codes, m), t.extended))]
    case ViaKeybd(vk) =>
      var calls := KeybdPresses(KeybdChord(vk, m));
      seq(|calls|, i requires 0 <= i < |calls| => Single(calls[i]))
  }

  /** The calls that release them. */
  function ReleaseDispatches(r: Resolved, m: Modifiers): seq<Dispatch> {
    match r
    case ViaSendInput(t) => [Batch(Releases(Chord(t.codes, m), t.extended))]
    case ViaKeybd(vk) =>
      var calls := KeybdReleases(KeybdChord(vk, m));
      seq(|calls|, i requires 0 <= i < |calls| => Single(calls[i]))
  }

  /** The keybd_event press calls, one `if` at a time as the source makes them. */
  lemma KeybdPressCalls(vk: U8, m: Modifiers)
    ensures PressDispatches(ViaKeybd(vk), m)
      == (if m.ctrl then [Single(KeybdCall(0x11, 0, KEYEVENTF_KEYDOWN))] else [])
       + (if m.shift then [Single(KeybdCall(0x10, 0, KEYEVENTF_KEYDOWN))] else [])
       + (if m.alt then [Single(KeybdCall(0x12, 0, KEYEVENTF_KEYDOWN))] else [])
       + [Single(KeybdCall(vk, 0, KEYEVENTF_KEYDOWN))]
  {
  }

  /** The keybd_event release calls: target first, then alt, shift, ctrl. */
  lemma KeybdReleaseCalls(vk: U8, m: Modifiers)
    ensures ReleaseDispatches(ViaKeybd(vk), m)
      == [Single(KeybdCall(vk, 0, KEYEVENTF_KEYUP))]
       + (if m.alt then [Single(KeybdCall(0x12, 0, KEYEVENTF_KEYUP))] else [])
       + (if m.shift then [Single(KeybdCall(0x10, 0, KEYEVENTF_KEYUP))] else [])
       + (if m.ctrl then [Single(KeybdCall(0x11, 0, KEYEVENTF_KEYUP))] else [])
  {
  }

  /** A key transition as the operating system sees it, whichever call carried it. */
  datatype KeyEvent = KeyEvent(vk: int, scan: int, flags: bv32)

  function DispatchEvents(d: Dispatch): seq<KeyEvent> {
    match d
    case Batch(ins) => seq(|ins|, i requires 0 <= i < |ins| => KeyEvent(ins[i].vk, ins[i].scan, ins[i].flags))
    case Single(c) => [KeyEvent(c.vk, c.scan, c.flags)]
  }

  /** The key events of a run of calls, in the order they reach the system. */
  function Events(ds: seq<Dispatch>): seq<KeyEvent> {
    if ds == [] then [] else DispatchEvents(ds[0]) + Events(ds[1..])
  }

  lemma {:induction false} EventsOfSingles(calls: seq<KeybdCall>)
    ensures Events(seq(|calls|, i requires 0 <= i < |calls| => Single(calls[i])))
            == seq(|calls|, i requires 0 <= i < |calls| => KeyEvent(calls[i].vk, calls[i].scan, calls[i].flags))
  {
    var ds := seq(|calls|, i requires 0 <= i < |calls| => Single(calls[i]));
    if calls != [] {
      assert ds[1..] == seq(|calls[1..]|, i requires 0 <= i < |calls[1..]| => Single(calls[1..][i]));
      EventsOfSingles(calls[1..]);
    }
  }

  lemma EventsOfBatch(ins: seq<KeyInput>)
    ensures Events([Batch(ins)]) == DispatchEvents(Batch(ins))
  {
    assert [Batch(ins)][1..] == [];
  }

  /** `up` undoes `down`: as many events, none of `down` a key-up, all of
      `up` key-ups, and `up` names the keys of `down` in reverse order. */
  predicate Undoes(down: seq<KeyEvent>, up: seq<KeyEvent>) {
    && |down| == |up|
    && (forall i | 0 <= i < |down| :: down[i].flags & KEYEVENTF_KEYUP == 0)
    && (forall i | 0 <= i < |up| :: up[i].flags & KEYEVENTF_KEYUP != 0)
    && (forall i | 0 <= i < |up| ::
          up[i].vk == down[|down| - 1 - i].vk && up[i].scan == down[|down| - 1 - i].scan)
  }

  /** Release guarantee, as data: the release calls carry one key-up event for
      every key-down event of the press calls, for the same keys in reverse
      order, and no press event is a key-up. */
  lemma ReleasesUndoPresses(r: Resolved, m: Modifiers)
    ensures var down, up := Events(PressDispatches(r, m)), Events(ReleaseDispatches(r, m));
      |down| == 1 + ModifierCount(m) && Undoes(down, up)
  {
    match r
    case ViaSendInput(t) => BatchReleasesUndo(t, m);
    case ViaKeybd(vk) => KeybdReleasesUndo(vk, m);
  }

  lemma BatchReleasesUndo(t: Target, m: Modifiers)
    ensures var down, up := Events(PressDispatches(ViaSendInput(t), m)), Events(ReleaseDispatches(ViaSendInput(t), m));
      |down| == 1 + ModifierCount(m) && Undoes(down, up)
  {
    var c := Chord(t.codes, m);
    var p, q := Presses(c, t.extended), Releases(c, t.extended);
    EventsOfBatch(p);
    EventsOfBatch(q);
    var down, up := DispatchEvents(Batch(p)), DispatchEvents(Batch(q));
    forall i | 0 <= i < |down| ensures down[i].flags & KEYEVENTF_KEYUP == 0 {
      assert down[i].flags == p[i].flags;
    }
    forall i | 0 <= i < |up|
      ensures up[i].flags & KEYEVENTF_KEYUP != 0
      ensures up[i].vk == down[|down| - 1 - i].vk && up[i].scan == down[|down| - 1 - i].scan
    {
      assert up[i].flags == q[i].flags;
      assert down[|down| - 1 - i].vk == p[|c| - 1 - i].vk;
    }
  }

  lemma KeybdReleasesUndo(vk: U8, m: Modifiers)
    ensures var down, up := Events(PressDispatches(ViaKeybd(vk), m)), Events(ReleaseDispatches(ViaKeybd(vk), m));
      |down| == 1 + ModifierCount(m) && Undoes(down, up)
  {
    var c := KeybdChord(vk, m);
    EventsOfSingles(KeybdPresses(c));
    EventsOfSingles(KeybdReleases(c));
  }

  /** The steps of a send. Releasing is the moment between the hold
      checkpoint and the `finally` that releases the keys. */
  datatype Phase = Idle | PreDelay | KeyHeld | Releasing

  /** The status line of the window. */
  datatype Status =
    | Ready           // "Status: Ready"
    | Waiting         // "Status: Waiting Before Sending..."
    | Holding         // "Status: Holding Key..."
    | Cancelling      // "Status: Cancelling..."
    | ReadyCancelled  // "Status: Ready (Operation Cancelled)"

  datatype StartOutcome = Started | Refused(error: SendError)

  /** The main window's sequencing state. */
  class Sender {
    var phase: Phase
    /** `_cts != null` */
    var hasToken: bool
    /** `_cts.IsCancellationRequested` */
    var cancelRequested: bool
    /** The key buttons, check boxes, delay fields and method drop-down. */
    var controlsEnabled: bool
    var status: Status
    /** Every call made into the operating system, oldest first. */
    var log: seq<Dispatch>
    /** The send in flight (or the last one). */
    var mods: Modifiers
    var resolved: Resolved
    /** `keyUpInputs` of the SendInput path, built together with the down list. */
    var pendingUp: seq<KeyInput>
    /** Whether the hold checkpoint found the token cancelled. */
    var holdCancelled: bool
    /** Length of the log when the send in flight began. */
    ghost var sendStart: nat

    /** The calls made by the send in flight (or the last one). */
    ghost function Sent(): seq<Dispatch>
      reads this
      requires sendStart <= |log|
    {
      log[sendStart..]
    }

    ghost predicate Valid()
      reads this
    {
      && sendStart <= |log|
      && (phase == Idle <==> !hasToken)
      && (!hasToken ==> !cancelRequested)
      && (controlsEnabled <==> phase == Idle)
      && (phase == PreDelay ==> Sent() == [])
      && (phase == KeyHeld || phase == Releasing ==>
            Sent() == PressDispatches(resolved, mods)
            && (resolved.ViaSendInput? ==>
                  pendingUp == Releases(Chord(resolved.target.codes, mods), resolved.target.extended)))
      && (phase == Idle ==>
            Sent() == [] || Sent() == PressDispatches(resolved, mods) + ReleaseDispatches(resolved, mods))
    }

    constructor ()
      ensures Valid() && phase == Idle && log == [] && status == Ready
    {
      phase := Idle;
      hasToken, cancelRequested := false, false;
      controlsEnabled := true;
      status := Ready;
      log := [];
      mods := Modifiers(false, false, false);
      resolved := ViaKeybd(0);
      pendingUp := [];
      holdCancelled := false;
      sendStart := 0;
    }

    /** `SendKeyCombo` up to the first delay: a fresh token, then the chosen
        method's resolution. A refused request leaves through the `finally`
        of `SendKeyCombo` having sent nothing; a resolved one disables the
        controls and starts the pre-delay. A send starts only from an idle
        window: every control that can start one is disabled while a send is
        in flight, so the token is always the send's own (`Overlap.Window`
        models the program's custom-key button, which stays enabled). */
    method Start(req: SendRequest) returns (outcome: StartOutcome)
      requires Valid() && phase == Idle
      modifies this
      ensures Valid() && log == old(log) && Sent() == []
      ensures outcome == match ResolveRequest(req) case Ok(_) => Started case Err(e) => Refused(e)
      ensures outcome.Started? ==>
        phase == PreDelay && hasToken && !cancelRequested && !controlsEnabled && status == Waiting
        && resolved == ResolveRequest(req).value && mods == req.mods
      ensures outcome.Refused? ==>
        phase == Idle && !hasToken && controlsEnabled && status == old(status)
    {
      hasToken, cancelRequested := true, false;
      sendStart := |log|;
      var r := ResolveRequest(req);
      if r.Err? {
        controlsEnabled := true;
        hasToken, cancelRequested := false, false;
        return Refused(r.error);
      }
      resolved, mods := r.value, req.mods;
      controlsEnabled := false;
      status := Waiting;
      phase := PreDelay;
      outcome := Started;
    }

    /** `btnCancel_Click`: cancels the token if there is one not yet cancelled,
        and does nothing otherwise. */
    method Cancel()
      requires Valid()
      modifies this
      ensures Valid()
      ensures old(hasToken && !cancelRequested) ==>
        cancelRequested && status == Cancelling
        && phase == old(phase) && hasToken && controlsEnabled == old(controlsEnabled)
        && log == old(log) && sendStart == old(sendStart) && holdCancelled == old(holdCancelled)
        && resolved == old(resolved) && mods == old(mods) && pendingUp == old(pendingUp)
      ensures !old(hasToken && !cancelRequested) ==> unchanged(this)
    {
      if hasToken && !cancelRequested {
        cancelRequested := true;
        status := Cancelling;
      }
    }

    /** The pre-delay has ended, by time or by cancellation; the checkpoint
        after it either abandons the send with nothing sent, dropping the
        send's own token, or presses the keys and starts the hold. */
    method PassPreDelay()
      requires Valid() && phase == PreDelay
      modifies this
      ensures Valid() && resolved == old(resolved) && mods == old(mods)
      ensures old(hasToken)
      ensures old(cancelRequested) ==>
        phase == Idle && log == old(log) && Sent() == []
        && status == ReadyCancelled && controlsEnabled && !hasToken
      ensures !old(cancelRequested) ==>
        phase == KeyHeld && log == old(log) + PressDispatches(resolved, mods)
        && status == Holding && !controlsEnabled && hasToken && !cancelRequested
    {
      if cancelRequested {
        status := ReadyCancelled;
        controlsEnabled := true;
        hasToken, cancelRequested := false, false;
        phase := Idle;
        return;
      }
      PressKeys();
      assert Sent() == PressDispatches(resolved, mods);
      status := Holding;
      phase := KeyHeld;
    }

    /** The hold has ended, by time or by cancellation; the checkpoint after
        it records which, and either way the keys are released next. */
    method PassHold()
      requires Valid() && phase == KeyHeld
      modifies this
      ensures Valid() && phase == Releasing && holdCancelled == old(cancelRequested)
      ensures log == old(log) && status == old(status) && hasToken && cancelRequested == old(cancelRequested)
      ensures resolved == old(resolved) && mods == old(mods) && !controlsEnabled
    {
      holdCancelled := cancelRequested;
      phase := Releasing;
    }

    /** The `finally` blocks: release the keys, re-enable the controls, report
        a cancelled hold, and drop the token, which is always this send's own. */
    method Finish()
      requires Valid() && phase == Releasing
      modifies this`log, this`status, this`controlsEnabled, this`hasToken, this`cancelRequested, this`phase
      ensures Valid() && phase == Idle && old(hasToken)
      ensures log == old(log) + ReleaseDispatches(resolved, mods)
      ensures Sent() == PressDispatches(resolved, mods) + ReleaseDispatches(resolved, mods)
      ensures controlsEnabled && !hasToken && !cancelRequested
      ensures status == if old(holdCancelled) then ReadyCancelled else Ready
      ensures resolved == old(resolved) && mods == old(mods)
    {
      ghost var pressed := Sent();
      ReleaseKeys();
      assert log[sendStart..] == pressed + ReleaseDispatches(resolved, mods);
      status, controlsEnabled, hasToken, cancelRequested, phase :=
        if holdCancelled then ReadyCancelled else Ready, true, false, false, Idle;
    }

    /** The presses: one SendInput batch built by `BuildInputLists` (which
        also builds the release batch), or one keybd_event per key. */
    method PressKeys()
      modifies this`log, this`pendingUp
      ensures log == old(log) + PressDispatches(resolved, mods)
      ensures resolved.ViaSendInput? ==>
        pendingUp == Releases(Chord(resolved.target.codes, mods), resolved.target.extended)
      ensures resolved.ViaKeybd? ==> pendingUp == old(pendingUp)
    {
      match resolved {
        case ViaSendInput(t) =>
          var down, up := BuildInputLists(t, mods);
          log := log + [Batch(down)];
          pendingUp := up;
        case ViaKeybd(vk) =>
          KeybdPressCalls(vk, mods);
          if mods.ctrl { log := log + [Single(KeybdCall(0x11, 0, KEYEVENTF_KEYDOWN))]; }
          if mods.shift { log := log + [Single(KeybdCall(0x10, 0, KEYEVENTF_KEYDOWN))]; }
          if mods.alt { log := log + [Single(KeybdCall(0x12, 0, KEYEVENTF_KEYDOWN))]; }
          log := log + [Single(KeybdCall(vk, 0, KEYEVENTF_KEYDOWN))];
      }
    }

    /** The releases: the prepared SendInput batch, or one keybd_event per key
        from the target back to ctrl. */
    method ReleaseKeys()
      requires resolved.ViaSendInput? ==>
        pendingUp == Releases(Chord(resolved.target.codes, mods), resolved.target.extended)
      modifies this`log
      ensures log == old(log) + ReleaseDispatches(resolved, mods)
    {
      match resolved {
        case ViaSendInput(t) =>
          log := log + [Batch(pendingUp)];
        case ViaKeybd(vk) =>
          KeybdReleaseCalls(vk, mods);
          log := log + [Single(KeybdCall(vk, 0, KEYEVENTF_KEYUP))];
          if mods.alt { log := log + [Single(KeybdCall(0x12, 0, KEYEVENTF_KEYUP))]; }
          if mods.shift { log := log + [Single(KeybdCall(0x10, 0, KEYEVENTF_KEYUP))]; }
          if mods.ctrl { log := log + [Single(KeybdCall(0x11, 0, KEYEVENTF_KEYUP))]; }
      }
    }
  }

  /** Where a cancel click falls in a send. */
  datatype CancelPoint = NoCancel | DuringPreDelay | DuringHold | DuringRelease

  /** One complete send on a fresh window, with a cancel click (clicked twice
      during the hold) at the given point: nothing is sent for a refused
      request or a cancelled pre-delay; otherwise every pressed key is
      released, whether or not the hold was cancelled. */
  method RunSend(req: SendRequest, at: CancelPoint) returns (outcome: StartOutcome, events: seq<Dispatch>, final: Status)
    ensures outcome == match ResolveRequest(req) case Ok(_) => Started case Err(e) => Refused(e)
    ensures outcome.Refused? ==> events == [] && final == Ready
    ensures outcome.Started? && at == DuringPreDelay ==> events == [] && final == ReadyCancelled
    ensures outcome.Started? && at != DuringPreDelay ==>
      events == PressDispatches(ResolveRequest(req).value, req.mods) + ReleaseDispatches(ResolveRequest(req).value, req.mods)
    ensures outcome.Started? && at == DuringHold ==> final == ReadyCancelled
    ensures outcome.Started? && (at == NoCancel || at == DuringRelease) ==> final == Ready
  {
    var s := new Sender();
    outcome := s.Start(req);
    if outcome.Refused? {
      return outcome, s.log, s.status;
    }
    if at == DuringPreDelay {
      s.Cancel();
    }
    s.PassPreDelay();
    if s.phase == Idle {
      return outcome, s.log, s.status;
    }
    if at == DuringHold {
      s.Cancel();
      s.Cancel();
    }
    s.PassHold();
    if at == DuringRelease {
      s.Cancel();
    }
    s.Finish();
    return outcome, s.log, s.status;
  }

  /** Sending F17 with ctrl through SendInput: one batch LCTRL, F17 down and
      one batch F17, LCTRL up. */
  lemma CtrlF17Send()
    ensures var req := SendRequest("F17", Modifiers(true, false, false), false, false, SendInputApi);
      ResolveRequest(req) == Ok(ViaSendInput(Target(KeyCode(0x80, 104), false)))
      && PressDispatches(ResolveRequest(req).value, req.mods) + ReleaseDispatches(ResolveRequest(req).value, req.mods)
         == [Batch([KeyInput(0x11, 29, 0), KeyInput(0x80, 104, 0)]), Batch([KeyInput(0x80, 104, 2), KeyInput(0x11, 29, 2)])]
  {
    assert Upper("F17") == "F17";
    CtrlF17Events();
  }

}
