# F-Key-Sender: the key-injection sequencer

F-Key-Sender is a small Windows utility whose main window sends presses of
F13–F24 (and a test key X) to the system, optionally held together with the
left Ctrl, Shift and Alt keys. It can also send a custom hexadecimal virtual-key
or scan code. This project models the logic behind that window in Dafny:

- **Custom-code validation** (`Validation`). A custom code is refused when it
  is empty or when neither "virtual key" nor "scan code" is selected. One
  leading lower-case `0x` is removed. After that, only hex digits and white
  space may remain.
- **Hex parsing** (`HexParse`). `StringToUShort` parses a code in the way
  .NET's `ushort.Parse(..., NumberStyles.HexNumber)` does, and it detects the
  `E0` extended-key prefix.
- **Key resolution** (`Resolution`). Each send method resolves the key in its
  own way:
  - SendInput looks the name up in the fixed table first, ignoring case. If
    the name is not there, a custom virtual key becomes `(vk, 0)` and a
    custom scan code becomes `(0, scan)`.
  - keybd_event reads a custom virtual key first and cuts it to its low
    byte. It refuses scan codes.
- **Event sequences** (`Sequence`). The down list holds ctrl, shift and alt
  (each only when selected), then the target key. The up list holds the same
  keys in reverse order. Every event carries the `dwFlags` word computed by
  `CreateInput`.
- **The send/cancel state machine** (`Sending.Sender`). The phases are Idle,
  PreDelay, KeyHeld, Releasing and back to Idle. A cancel request is seen only
  at the checkpoint after each delay. Once the press has been sent, the
  `finally` blocks always send the release, exactly once. `Sender` starts a
  send only from an idle window.
- **Overlapping sends** (`Overlap.Window`). The same window with every send
  kept separately and the one shared `_cts` field modelled as a slot. Here a
  custom code can be sent while another send is in flight, as the program
  allows. Each send computes its SendInput release batch from its own key
  (`ReleaseDispatches`) rather than keeping a pre-built list.

The two operating-system calls, `SendInput` and `keybd_event`, are modelled as
appends to an event log, `Sender.log`. The delays are explicit steps
(`PassPreDelay`, `PassHold`). The window's controls are reduced to one
`controlsEnabled` flag and a status value.

Some behaviour of `MainForm.cs` worth knowing before reading the model:

- keybd_event never consults the table for a custom code, and it matches
  table names case-sensitively.
- Validation accepts some codes that `ushort.Parse` then rejects: digits
  separated by white space, values above 0xFFFF, and blanks. For those,
  `SendKeyCombo` has already created its token, and its `finally` block runs.
  The model turns this into `Refused(BadCode(..))` with no events
  (`ValidatedButInnerSpace` and the two lemmas after it).
- The `E0` prefix is detected on the validated text as it stands, white
  space included.
- `All_Buttons_Disabler` does not disable the custom-key button, its radio
  buttons or its text box. So a custom send can start while another send is
  in flight, and all sends share the single `_cts` field (`Overlap.Window`,
  and "## Findings" below).

## Model

| member | source | states |
|---|---|---|
| Keys.TableNames | MainForm.cs:20-38 | the key table names are exactly F13 to F24, LCTRL, LSHIFT, LALT and X |
| Keys.FunctionKeyCodes | MainForm.cs:22-33 | F13+k has virtual key 0x7C+k and scan code 100+k, except F24, whose scan code is 118 |
| Keys.TableNamesAreUpper | MainForm.cs:20-38 | every name in the key table is already upper case |
| Keys.Upper | MainForm.cs:564 | keeps the length, leaves no lower-case ASCII letter, and changes only lower-case ASCII letters, each to its capital |
| Keys.UpperIdempotent | MainForm.cs:564 | upper-casing twice is upper-casing once |
| Keys.LowByte | MainForm.cs:111-121 | the byte agrees with the 16-bit value modulo 0x100, and equals it when the value is below 0x100 |
| Keys.AnyCaseOfName | MainForm.cs:238 | a table name written with any of its letters in lower case selects that name's entry |
| Keys.TableVirtualKeysFitByte | MainForm.cs:20-38 | every virtual key in the table is below 0x100, so keybd_event's byte cut leaves named keys unchanged |
| HexParse.StringToUShort | MainForm.cs:562-582 | when parsing succeeds, the key is extended exactly when the input is longer than 2 characters and starts with `E0` or `e0` |
| HexParse.StringToUShortValue | MainForm.cs:562-582 | the input parses to (v, ext) exactly when its upper-cased text is the `E0` prefix (taken exactly when the text is longer than 2 and starts with `E0`) or nothing, followed by white space, hex digits of value v, white space and NULs |
| HexParse.ParseHexNumberAccepts | MainForm.cs:575-580 | white space, hex digits, white space and NULs parse to the digits' value when it is at most 0xFFFF; otherwise the result is an overflow error |
| HexParse.ParseHexNumber | MainForm.cs:575-580 | a string that does not give a format error holds only hex digits, number white space and NULs; a string with no hex digit gives a format error |
| HexParse.ParseHexNumberShape | MainForm.cs:575-580 | a string that does not give a format error is white space, hex digits (at least one), white space and NULs, and the result is the digits' value or, above 0xFFFF, an overflow error |
| HexParse.ParseHexNumberOk | MainForm.cs:575-580 | a string parses to v exactly when it is white space, hex digits with value v, white space and NULs |
| HexParse.ParseHexNumberRejectsInnerWhite | MainForm.cs:575-580 | any string with number white space between two hex digits is a format error |
| HexParse.StringToUShortExtended | MainForm.cs:567-575 | `E0` followed by the numeral of any 16-bit value parses to that value, marked extended |
| HexParse.StringToUShortFourDigits | MainForm.cs:562-582 | each 4-digit numeral parses back to its value, except `E0xy`, which parses as the extended key xy |
| HexParse.StringToUShortBareE0 | MainForm.cs:567-580 | `E0` or `e0` on its own is the plain code 0xE0, not extended |
| HexParse.StringToUShortOverflow | MainForm.cs:580 | the hex numeral of any value above 0xFFFF that does not start with `E0` is an overflow error |
| HexParse.StringToUShortInnerSpace | MainForm.cs:580 | `7 C` is a format error |
| HexParse.StringToUShortPrefixOnly | MainForm.cs:567-575 | `E0 ` leaves nothing to parse after the prefix and fails |
| Validation.StripHexPrefix | MainForm.cs:537-541 | a text starting with lower-case `0x` loses exactly those two characters; any other text is unchanged |
| Validation.MatchesHexPattern | MainForm.cs:543-548 | a non-empty text of hex digits and white space matches; a matching text is non-empty and holds no NUL |
| Validation.ValidateCustomCode | MainForm.cs:519-559 | empty text gives EmptyCode; then having no mode selected gives NoModeSelected; any other refusal is NotHex; an accepted code is the text less at most one `0x`, is non-empty and holds only hex digits or white space; VK wins when both modes are selected |
| Validation.ValidateAcceptsHex | MainForm.cs:537-558 | hex digits and white space are accepted unchanged, with or without one `0x` in front |
| Validation.ValidatePrefixEdgeCases | MainForm.cs:537-548 | `0X7C`, `0x0x7C` and a bare `0x` are refused |
| Validation.ValidatedButInnerSpace | MainForm.cs:544-580 | `7 C` passes validation and then fails to parse |
| Validation.ValidatedButOverflow | MainForm.cs:538-580 | the numeral of any value above 0xFFFF (not starting with `E0`), typed after `0x`, passes validation without the prefix and then overflows |
| Validation.ValidatedButBlank | MainForm.cs:544-580 | a code of blanks passes validation and then fails to parse |
| Validation.ShortValidatedCodeParses | MainForm.cs:544-581 | every validated code of at most four hex digits with no white space parses |
| Resolution.ResolveForSendInput | MainForm.cs:235-256 | a case-insensitive table hit wins, not extended; otherwise the result succeeds exactly when `StringToUShort` does; a custom VK gives (code, 0) and a custom SC gives (0, code), each with the parsed extended flag; with neither flag the pair stays (0, 0) |
| Sending.ResolveRequest | MainForm.cs:75-82 | the drop-down picks the sender: SendInput requests resolve to SendInput targets and fail only on a bad code, a table name resolves to its entry; keybd_event refuses a custom scan code and, for a name, succeeds exactly when the name is in the table as typed |
| Resolution.ResolveForKeybd | MainForm.cs:104-122 | a custom VK succeeds exactly when it parses, and gives the low byte of the code; a custom SC is refused; a named key succeeds exactly when it is in the table, and gives its virtual key |
| Resolution.CustomCodeThatIsAName | MainForm.cs:238-253 | of the table names, only the three-character F names can be typed as a validated custom code |
| Resolution.NameBeforeCustomCode | MainForm.cs:238-247 | custom VK `f13` resolves under SendInput to the F13 entry (0x7C, 100), not to 0xF13; keybd_event sends 0x13 |
| Resolution.ExtendedScanCode | MainForm.cs:248-253 | custom SC `E013` gives (0, 0x13), extended, under SendInput; keybd_event refuses it |
| Sequence.CreateInput | MainForm.cs:261-286 | KEYUP is set exactly for a release; EXTENDEDKEY exactly when extended; SCANCODE and every other bit are never set |
| Sequence.Chord | MainForm.cs:305-311 | one key per selected modifier plus the target key, with the target last |
| Sequence.BuildInputLists | MainForm.cs:301-317 | the appended down list is the chord's presses and the appended up list is its releases in reverse order |
| Sequence.PressesAndReleasesMirror | MainForm.cs:305-317 | both lists have one event per key; up[i] has the codes of down[n-1-i]; down flags are 0 or 1 and up flags 2 or 3, following the target's extended flag |
| Sequence.ChordOrder | MainForm.cs:305-311 | ctrl is first, then shift, then alt, then the target key; the modifiers are exactly the selected ones |
| Sequence.CtrlF17Events | MainForm.cs:306-317 | F17 with ctrl: LCTRL then F17 down (flags 0); F17 then LCTRL up (flags 2) |
| Sequence.KeybdChord | MainForm.cs:141-147 | one byte per selected modifier plus the target, with the target last |
| Sequence.KeybdMatchesSendInput | MainForm.cs:142-168 | keybd_event presses the same keys as SendInput, each cut to its low byte; its flags are KEYDOWN or KEYUP and never EXTENDEDKEY |
| Sending.KeybdPressCalls | MainForm.cs:141-147 | the keybd_event presses are ctrl?, shift?, alt?, then the target, one call each |
| Sending.KeybdReleaseCalls | MainForm.cs:162-168 | the keybd_event releases are the target, then alt?, shift?, ctrl?, one call each |
| Sending.ReleasesUndoPresses | MainForm.cs:302-338 | for both methods, the release calls carry one key-up event per key-down event of the press calls, for the same keys in reverse order, and no press is a key-up |
| Sending.Sender.constructor | MainForm.cs:49-60 | the window starts idle, with an empty log and no token; the status Ready it shows comes from the designer file, which is not part of this model |
| Sending.Sender.Start | MainForm.cs:62-133 | from an idle window: sends nothing; a refused request leaves the window idle with controls enabled and no token; a resolved one moves to the pre-delay with controls disabled and a fresh token |
| Sending.Sender.Cancel | MainForm.cs:490-499 | cancels and shows Cancelling only when a token exists and is not yet cancelled; otherwise nothing changes, so a repeated cancel does nothing |
| Sending.Sender.PassPreDelay | MainForm.cs:297-322 | a cancelled checkpoint ends the send with nothing sent and status Ready (Operation Cancelled), disposing the send's own token; otherwise the press calls are appended to the log and the hold begins |
| Sending.Sender.PassHold | MainForm.cs:331-334 | records whether the hold checkpoint saw a cancel, and in both cases goes on to the release |
| Sending.Sender.Finish | MainForm.cs:335-348 | appends the release calls, so the send's log is exactly the presses followed by the releases; re-enables the controls; disposes the send's own token, which is still in the field; the status reports a cancelled hold |
| Sending.Sender.PressKeys | MainForm.cs:302-322 | the log grows by exactly the press calls of the resolved key |
| Sending.Sender.ReleaseKeys | MainForm.cs:160-168 | the log grows by exactly the release calls of the resolved key: one keybd_event call per key, or the single SendInput batch of line 338 |
| Sending.RunSend | MainForm.cs:62-97 | for every request and cancel point: a refusal or a pre-delay cancel sends nothing; every other path sends the presses and then the releases, once each, and ends with the matching status |
| Sending.CtrlF17Send | MainForm.cs:233-338 | F17 with ctrl through SendInput sends the batch [LCTRL, F17] down and then the batch [F17, LCTRL] up |
| Overlap.Window.constructor | MainForm.cs:49-60 | no token, no sends, controls enabled, status Ready, no fault |
| Overlap.Window.Start | MainForm.cs:62-133 | allowed when the controls are enabled, or at any time for a custom code; a new token source always replaces the one in the field; a refused request disposes it and empties the field; starting during another send leaves that send without its token in the field, starting from idle leaves every send owning it |
| Overlap.Window.Cancel | MainForm.cs:490-499 | cancels the source in the field, whichever send created it, only when there is one and it is not yet cancelled; otherwise nothing changes |
| Overlap.Window.CloseSlot | MainForm.cs:90-96 | disposes the source in the field and empties it; an empty field is the null dereference of line 94 and marks the window faulted |
| Overlap.Window.PassPreDelay | MainForm.cs:297-322 | the send's own source decides: cancelled ends it with nothing sent and closes the field; otherwise its presses are logged; no fault arises while every send owns the field |
| Overlap.Window.PassHold | MainForm.cs:331-334 | records whether the send's own source was cancelled during the hold |
| Overlap.Window.Finish | MainForm.cs:335-348 | logs the releases, so the send has sent its presses and then its releases; re-enables every control, closes the field, whatever it holds, and faults when it is already empty |
| Overlap.OverlappingSends | MainForm.cs:357-385 | F13 held, custom VK `7C` sent during the hold, cancel clicked: the cancel reaches only `7C`, the controls are enabled again while `7C` is held, `7C`'s source is disposed by F13's send, and the last `finally` dereferences null |

## Left out

- The P/Invoke calls `SendInput` and `keybd_event` are not modelled. A call is
  an entry appended to `Sender.log`. Their return values are ignored by the
  program and are not modelled either.
- The INPUT, KEYBDINPUT, MOUSEINPUT and HARDWAREINPUT layouts are reduced to
  `(vk, scan, dwFlags)`. The `type` field is always INPUT_KEYBOARD and
  `dwExtraInfo` is always zero. `Marshal.SizeOf` and the stopwatch `time`
  field are left out.
- Timing is not modelled: the lengths of `Task.Delay` (delay in seconds × 1000,
  hold in ms), `Task.Run` threading and `this.Invoke` marshalling. Each delay
  is one step, and the checkpoint after it reads the cancel flag.
- Sending.Sender.Start: requires an idle window, as if the custom-key
  controls were disabled with the others. The program leaves them enabled
  (`All_Buttons_Disabler`, lines 357-385). That case is modelled by
  `Overlap.Window`; see "## Findings".
- In `Sending.Sender`, a cancel before the pre-delay checkpoint is not a
  separate step: the button is only shown once the delegate has run (line
  132), and the checkpoint reads the flag either way. `Overlap.Window.Cancel`
  can be called at any point.
- `Overlap.Window` keeps the log of every send together and does not model
  which thread each call runs on.
- From the WinForms controls, only the fact that they are all enabled or all
  disabled is kept. The cancel button's `Enabled`/`Visible` state is left out.
  So are the status colours, `TopMost`, `chkAlwaysOnTop` and `OnFormClosing`.
  The status text becomes a `Status` value.
- The per-button click handlers (one `SendKeyCombo("F13")`-style call each)
  are left out. So are the empty radio, text-box and wait-handle members.
- Drop-down indices other than 0 and 1 are not modelled: in the code they
  send nothing, and the drop-down only offers these two entries.
- The .NET exceptions that leave the `async void` handler (a failed
  `ushort.Parse`, a missing `keyCodes[key]`) are not modelled as exceptions.
  They become a `Refused` outcome, after which the window is idle again,
  because the `finally` block of `SendKeyCombo` has run.
- Upper-casing is modelled on ASCII letters only, and `StartsWith` is
  ordinal. The culture-dependent mappings of other characters are not
  modelled. They never change a code that has passed validation.
- `LowByte` assumes a little-endian machine, where `BitConverter.GetBytes(x)[0]`
  is the low byte.

## Findings

| source | as written | input that shows it | evidently intended | confidence | as-written member | corrected member |
|---|---|---|---|---|---|---|
| MainForm.cs:357-385 | the custom-key controls stay enabled during a send, so a second send overwrites the shared `_cts` (line 71); the first `finally` to run disposes the other send's source and sets the field to null (92-95), a cancel reaches only the newest send (492-494), and the last `finally` dereferences null at line 94 | F13 held; custom VK `7C` sent during the hold; cancel clicked | the custom-key controls disabled with the rest ("Disable all buttons"), so `_cts` always belongs to the single send in flight | medium, not executed | Overlap.OverlappingSends | Sending.Sender.Start |
