/** The press and release events of one send: modifiers ctrl, shift, alt and
    then the target going down, and the same keys coming up in reverse. */
module Sequence {
  import opened Keys
  import opened Resolution

  // dwFlags bits of KEYBDINPUT and keybd_event.
  const KEYEVENTF_KEYDOWN: bv32 := 0x0000
  const KEYEVENTF_EXTENDEDKEY: bv32 := 0x0001
  const KEYEVENTF_KEYUP: bv32 := 0x0002
  const KEYEVENTF_SCANCODE: bv32 := 0x0008

  /** The keyboard part of an INPUT record handed to SendInput. */
  datatype KeyInput = KeyInput(vk: U16, scan: U16, flags: bv32)

  /** `CreateInput`: start from no flags, add KEYUP for a release and
      EXTENDEDKEY for an extended key. SCANCODE is never added. */
  function CreateInput(vk: U16, scan: U16, isKeyUp: bool, extended: bool): (r: KeyInput)
    ensures r.vk == vk && r.scan == scan
    ensures (r.flags & KEYEVENTF_KEYUP != 0) == isKeyUp
    ensures (r.flags & KEYEVENTF_EXTENDEDKEY != 0) == extended
    ensures r.flags & KEYEVENTF_SCANCODE == 0
    ensures r.flags & !(KEYEVENTF_KEYUP | KEYEVENTF_EXTENDEDKEY) == 0
  {
    var noFlags: bv32 := 0;
    var withUp := if isKeyUp then noFlags | KEYEVENTF_KEYUP else noFlags;
    var flags := if extended then withUp | KEYEVENTF_EXTENDEDKEY else withUp;
    KeyInput(vk, scan, flags)
  }

  /** The modifier check boxes, read when the send starts. */
  datatype Modifiers = Modifiers(ctrl: bool, shift: bool, alt: bool)

  function ModifierCount(m: Modifiers): nat {
    (if m.ctrl then 1 else 0) + (if m.shift then 1 else 0) + (if m.alt then 1 else 0)
  }

  /** The keys of a send in the order they go down. */
  function Chord(target: KeyCode, m: Modifiers): (c: seq<KeyCode>)
    ensures |c| == 1 + ModifierCount(m) && c[|c| - 1] == target
  {
    (if m.ctrl then [LCtrl] else []) + (if m.shift then [LShift] else [])
    + (if m.alt then [LAlt] else []) + [target]
  }

  /** Key-down inputs for the keys of a chord, first to last. */
  function Presses(chord: seq<KeyCode>, extended: bool): seq<KeyInput> {
    seq(|chord|, i requires 0 <= i < |chord| => CreateInput(chord[i].vk, chord[i].scan, false, extended))
  }

  /** Key-up inputs for the keys of a chord, last to first. */
  function Releases(chord: seq<KeyCode>, extended: bool): seq<KeyInput> {
    seq(|chord|, i requires 0 <= i < |chord| =>
      CreateInput(chord[|chord| - 1 - i].vk, chord[|chord| - 1 - i].scan, true, extended))
  }

  /** Builds `keyDownInputs` and `keyUpInputs` one `Add` at a time, in the
      order the SendInput path does. */
  method BuildInputLists(t: Target, m: Modifiers) returns (down: seq<KeyInput>, up: seq<KeyInput>)
    ensures down == Presses(Chord(t.codes, m), t.extended)
    ensures up == Releases(Chord(t.codes, m), t.extended)
  {
    var ext := t.extended;
    down := [];
    up := [];
    if m.ctrl { down := down + [CreateInput(LCtrl.vk, LCtrl.scan, false, ext)]; }
    if m.shift { down := down + [CreateInput(LShift.vk, LShift.scan, false, ext)]; }
    if m.alt { down := down + [CreateInput(LAlt.vk, LAlt.scan, false, ext)]; }
    down := down + [CreateInput(t.codes.vk, t.codes.scan, false, ext)];

    up := up + [CreateInput(t.codes.vk, t.codes.scan, true, ext)];
    if m.alt { up := up + [CreateInput(LAlt.vk, LAlt.scan, true, ext)]; }
    if m.shift { up := up + [CreateInput(LShift.vk, LShift.scan, true, ext)]; }
    if m.ctrl { up := up + [CreateInput(LCtrl.vk, LCtrl.scan, true, ext)]; }
  }

  /** Both lists hold one event per key; the release list names the keys of
      the press list in reverse order; presses carry flags 0 or 1 and releases
      2 or 3, the low bit being the target's extended flag. */
  lemma PressesAndReleasesMirror(chord: seq<KeyCode>, extended: bool)
    ensures var down, up := Presses(chord, extended), Releases(chord, extended);
      |down| == |up| == |chord|
      && (forall i | 0 <= i < |up| ::
            up[i].vk == down[|down| - 1 - i].vk && up[i].scan == down[|down| - 1 - i].scan)
      && (forall i | 0 <= i < |down| ::
            down[i].flags == (if extended then KEYEVENTF_EXTENDEDKEY else KEYEVENTF_KEYDOWN))
      && (forall i | 0 <= i < |up| ::
            up[i].flags == (if extended then KEYEVENTF_KEYUP | KEYEVENTF_EXTENDEDKEY else KEYEVENTF_KEYUP))
  {
    var down, up := Presses(chord, extended), Releases(chord, extended);
    forall i | 0 <= i < |up|
      ensures up[i].vk == down[|down| - 1 - i].vk && up[i].scan == down[|down| - 1 - i].scan
      ensures up[i].flags == (if extended then KEYEVENTF_KEYUP | KEYEVENTF_EXTENDEDKEY else KEYEVENTF_KEYUP)
    {
      var k := chord[|chord| - 1 - i];
      assert up[i] == CreateInput(k.vk, k.scan, true, extended);
      assert down[|down| - 1 - i] == CreateInput(k.vk, k.scan, false, extended);
    }
  }

  /** Which modifiers the chord holds, and where: ctrl before shift before alt,
      all before the target; before the target stand only modifiers, and each
      exactly when it is selected. */
  lemma ChordOrder(target: KeyCode, m: Modifiers)
    ensures var c := Chord(target, m);
      (m.ctrl ==> c[0] == LCtrl)
      && (m.shift ==> c[if m.ctrl then 1 else 0] == LShift)
      && (m.alt ==> c[ModifierCount(m) - 1] == LAlt)
      && (forall i | 0 <= i < |c| - 1 :: c[i] in {LCtrl, LShift, LAlt})
      && (LCtrl in c[..|c| - 1] <==> m.ctrl)
      && (LShift in c[..|c| - 1] <==> m.shift)
      && (LAlt in c[..|c| - 1] <==> m.alt)
  {
    var c := Chord(target, m);
    var mods := ChordModifiers(target, m);
    assert LCtrl != LShift && LCtrl != LAlt && LShift != LAlt;
    if m.ctrl {
      assert mods[0] == LCtrl;
    }
    if m.shift {
      assert mods[if m.ctrl then 1 else 0] == LShift;
    }
  }

  /** The keys before the target: the selected modifiers, in order. */
  lemma ChordModifiers(target: KeyCode, m: Modifiers) returns (mods: seq<KeyCode>)
    ensures mods == (if m.ctrl then [LCtrl] else []) + (if m.shift then [LShift] else [])
                    + (if m.alt then [LAlt] else [])
    ensures Chord(target, m) == mods + [target]
  {
    mods := (if m.ctrl then [LCtrl] else []) + (if m.shift then [LShift] else [])
            + (if m.alt then [LAlt] else []);
  }

  /** The scenario "F17 with ctrl": LCTRL then F17 down, F17 then LCTRL up. */
  lemma CtrlF17Events()
    ensures var c := Chord(KeyCodes["F17"], Modifiers(true, false, false));
      Presses(c, false) == [KeyInput(0x11, 29, 0), KeyInput(0x80, 104, 0)]
      && Releases(c, false) == [KeyInput(0x80, 104, 2), KeyInput(0x11, 29, 2)]
  {
    var c := Chord(KeyCodes["F17"], Modifiers(true, false, false));
    assert c == [LCtrl, KeyCodes["F17"]];
    var up := Releases(c, false);
    assert up[0] == CreateInput(0x80, 104, true, false);
    assert up[1] == CreateInput(0x11, 29, true, false);
  }

  // ---------------------------------------------------------------------------
  // keybd_event path

  /** One call `keybd_event(bVk, bScan, dwFlags, 0)`. */
  datatype KeybdCall = KeybdCall(vk: U8, scan: U8, flags: bv32)

  /** The virtual keys of a keybd_event send in the order they go down; the
      modifiers are the literal codes 0x11, 0x10 and 0x12. */
  function KeybdChord(vk: U8, m: Modifiers): (c: seq<U8>)
    ensures |c| == 1 + ModifierCount(m) && c[|c| - 1] == vk
  {
    (if m.ctrl then [0x11] else []) + (if m.shift then [0x10] else [])
    + (if m.alt then [0x12] else []) + [vk]
  }

  function KeybdPresses(chord: seq<U8>): seq<KeybdCall> {
    seq(|chord|, i requires 0 <= i < |chord| => KeybdCall(chord[i], 0, KEYEVENTF_KEYDOWN))
  }

  function KeybdReleases(chord: seq<U8>): seq<KeybdCall> {
    seq(|chord|, i requires 0 <= i < |chord| => KeybdCall(chord[|chord| - 1 - i], 0, KEYEVENTF_KEYUP))
  }

  /** keybd_event presses the same keys as SendInput, each cut to its low
      byte, with no scan code and never the extended flag. */
  lemma KeybdMatchesSendInput(target: KeyCode, m: Modifiers)
    ensures var c, k := Chord(target, m), KeybdChord(LowByte(target.vk), m);
      |k| == |c| && forall i | 0 <= i < |k| :: k[i] == LowByte(c[i].vk)
    ensures forall i | 0 <= i < 1 + ModifierCount(m) ::
      KeybdPresses(KeybdChord(LowByte(target.vk), m))[i].flags == KEYEVENTF_KEYDOWN
      && KeybdReleases(KeybdChord(LowByte(target.vk), m))[i].flags == KEYEVENTF_KEYUP
  {
  }
}
