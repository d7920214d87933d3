/** How each send method turns the requested key into codes, before any
    delay starts: the table first for SendInput, the custom code first for
    keybd_event. */
module Resolution {
  import opened Results
  import opened Keys
  import opened HexParse
  import opened Validation

  /** What can stop a send before its first event. */
  datatype SendError =
    | BadCode(reason: ParseError)  // `StringToUShort` throws
    | ScanCodeUnsupported          // keybd_event cannot send scan codes
    | UnknownKey                   // `keyCodes[key]` throws

  /** The resolved key of the SendInput path: the codes to send and the
      extended flag every event of the send carries. */
  datatype Target = Target(codes: KeyCode, extended: bool)

  /** Resolution in `SendKey_Method_SendInputAsync`: a case-insensitive table
      lookup, then the custom virtual key as (vk, 0), then the custom scan code
      as (0, scan). When nothing applies, `TryGetValue` has left the pair at
      its default (0, 0). */
  function ResolveForSendInput(key: string, customVK: bool, customSC: bool): (r: Result<Target, ParseError>)
    ensures Upper(key) in KeyCodes ==> r == Ok(Target(KeyCodes[Upper(key)], false))
    ensures Upper(key) !in KeyCodes && (customVK || customSC) ==>
      (r.Ok? <==> StringToUShort(key).Ok?)
      && (r.Err? ==> r.error == StringToUShort(key).error)
    ensures Upper(key) !in KeyCodes && customVK && r.Ok? ==>
      r.value.codes.scan == 0 && StringToUShort(key).value == Parsed(r.value.codes.vk, r.value.extended)
    ensures Upper(key) !in KeyCodes && !customVK && customSC && r.Ok? ==>
      r.value.codes.vk == 0 && StringToUShort(key).value == Parsed(r.value.codes.scan, r.value.extended)
    ensures Upper(key) !in KeyCodes && !customVK && !customSC ==> r == Ok(Target(KeyCode(0, 0), false))
  {
    if Upper(key) in KeyCodes then Ok(Target(KeyCodes[Upper(key)], false))
    else if customVK then
      match StringToUShort(key)
      case Ok(p) => Ok(Target(KeyCode(p.code, 0), p.extended))
      case Err(e) => Err(e)
    else if customSC then
      match StringToUShort(key)
      case Ok(p) => Ok(Target(KeyCode(0, p.code), p.extended))
      case Err(e) => Err(e)
    else Ok(Target(KeyCode(0, 0), false))
  }

  /** Resolution in `SendKey_keybd_eventAsync`: a custom virtual key is parsed
      and cut to its low byte, a custom scan code is refused before anything is
      sent, and a named key is looked up exactly as given. The extended flag
      the parser reports is dropped. */
  function ResolveForKeybd(key: string, customVK: bool, customSC: bool): (r: Result<U8, SendError>)
    ensures customVK ==>
      (r.Ok? <==> StringToUShort(key).Ok?)
      && (r.Ok? ==> r.value == StringToUShort(key).value.code % 0x100)
      && (r.Err? ==> r.error == BadCode(StringToUShort(key).error))
    ensures !customVK && customSC ==> r == Err(ScanCodeUnsupported)
    ensures !customVK && !customSC ==>
      (r.Ok? <==> key in KeyCodes) && (r.Ok? ==> r.value == KeyCodes[key].vk)
  {
    TableVirtualKeysFitByte();
    if customVK then
      match StringToUShort(key)
      case Ok(p) => Ok(LowByte(p.code))
      case Err(e) => Err(BadCode(e))
    else if customSC then Err(ScanCodeUnsupported)
    else if key in KeyCodes then Ok(LowByte(KeyCodes[key].vk))
    else Err(UnknownKey)
  }

  /** Of the table's names only F13 to F24 can be typed as a custom code (the
      others hold letters that are not hex digits), and typing one selects the
      table entry rather than the hex value. */
  lemma CustomCodeThatIsAName(code: string)
    requires MatchesHexPattern(code)
    ensures Upper(code) in KeyCodes ==> |code| == 3 && Upper(code)[0] == 'F'
  {
    var c := Upper(code)[0];
    assert IsHexDigit(code[0]) || IsRegexSpace(code[0]);
    assert c != 'L' && c != 'X';
    if Upper(code) in KeyCodes {
      assert Upper(code) !in {"LCTRL", "LSHIFT", "LALT", "X"};
    }
  }

  /** "f13" sent as a custom virtual key: SendInput sends the F13 entry, not
      0xF13, while keybd_event sends the low byte of 0xF13. */
  lemma NameBeforeCustomCode()
    ensures ResolveForSendInput("f13", true, false) == Ok(Target(KeyCode(0x7C, 100), false))
    ensures StringToUShort("f13") == Ok(Parsed(0xF13, false))
    ensures ResolveForKeybd("f13", true, false) == Ok(0x13)
  {
    F13Parses();
    UpperF13();
    FunctionKeyCodes(13);
  }

  lemma UpperF13()
    ensures Upper("f13") == "F13"
  {
    assert Upper("f13")[0] == 'F';
  }

  lemma F13Parses()
    ensures StringToUShort("f13") == Ok(Parsed(0xF13, false))
  {
    assert StringToUShort("F13") == Ok(Parsed(0xF13, false)) by {
      F13Digits();
      StringToUShortPlain(0xF13, 3);
    }
    UpperF13();
    StringToUShortIgnoresCase("f13");
  }

  lemma F13Digits()
    ensures HexDigits(0xF13, 3) == "F13"
  {
    assert HexDigits(0xF1, 2) == "F1";
  }

  /** A custom scan code "E013": SendInput sends scan code 0x13 marked
      extended; keybd_event refuses it. */
  lemma ExtendedScanCode()
    ensures ResolveForSendInput("E013", false, true) == Ok(Target(KeyCode(0, 0x13), true))
    ensures ResolveForKeybd("E013", false, true) == Err(ScanCodeUnsupported)
  {
    E013Parses();
    E013NotAName();
  }

  lemma E013NotAName()
    ensures Upper("E013") !in KeyCodes
  {
    assert Upper("E013") == "E013";
    assert "E013"[0] == 'E';
  }

  lemma E013Parses()
    ensures StringToUShort("E013") == Ok(Parsed(0x13, true))
  {
    assert HexDigits(0x13, 2) == "13" by {
      assert HexDigits(1, 1) == "1";
    }
    assert "E013" == "E0" + "13";
    StringToUShortExtended(0x13, 2);
  }
}
