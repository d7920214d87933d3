/** The checks `buttonSendCustomKey_Click` makes on the custom-code text box
    before it starts a send. */
module Validation {
  import opened Results
  import opened Keys
  import opened HexParse

  /** The characters the .NET regular-expression class `\s` matches:
      `[\f\n\r\t\v\x85\p{Z}]`. */
  predicate IsRegexSpace(c: char) {
    '\t' <= c <= '\r' || c == ' ' || c == '\U{85}' || c == '\U{A0}' || c == '\U{1680}'
    || '\U{2000}' <= c <= '\U{200A}' || c == '\U{2028}' || c == '\U{2029}'
    || c == '\U{202F}' || c == '\U{205F}' || c == '\U{3000}'
  }

  /** The pattern `^[0-9A-Fa-f\s]+$`: one or more hex digits or spaces. It
      admits every non-empty mix of hex digits and the white space `ushort.Parse`
      skips, and refuses the NULs that the parser would ignore. */
  predicate MatchesHexPattern(s: string)
    ensures s != [] && (forall i | 0 <= i < |s| :: IsHexDigit(s[i]) || IsNumberWhite(s[i])) ==> MatchesHexPattern(s)
    ensures MatchesHexPattern(s) ==> s != [] && forall i | 0 <= i < |s| :: s[i] != '\0'
  {
    s != [] && forall i | 0 <= i < |s| :: IsHexDigit(s[i]) || IsRegexSpace(s[i])
  }

  /** Which radio button chose how the code is read. */
  datatype Mode = VirtualKey | ScanCode

  datatype ValidationError =
    | EmptyCode       // "Please enter a custom key code."
    | NoModeSelected  // neither the VK nor the SC radio button is checked
    | NotHex          // "Please enter a valid hexadecimal key code."

  /** A code that passed validation, as it is handed to `SendKeyCombo`. */
  datatype CustomKey = CustomKey(code: string, mode: Mode)

  /** Removes one leading lower-case "0x", as `StartsWith("0x")` and `Substring(2)` do. */
  function StripHexPrefix(s: string): (r: string)
    ensures |s| >= 2 && s[..2] == "0x" ==> s == "0x" + r
    ensures !(|s| >= 2 && s[..2] == "0x") ==> r == s
  {
    if |s| >= 2 && s[..2] == "0x" then s[2..] else s
  }

  /** The validation half of `buttonSendCustomKey_Click`. */
  function ValidateCustomCode(text: string, vkChecked: bool, scChecked: bool): (r: Result<CustomKey, ValidationError>)
    ensures text == [] ==> r == Err(EmptyCode)
    ensures text != [] && !vkChecked && !scChecked ==> r == Err(NoModeSelected)
    ensures r.Err? && text != [] && (vkChecked || scChecked) ==> r.error == NotHex
    ensures r.Ok? ==> MatchesHexPattern(r.value.code) && (text == r.value.code || text == "0x" + r.value.code)
    ensures r.Ok? ==> r.value.mode == if vkChecked then VirtualKey else ScanCode
  {
    if text == [] then Err(EmptyCode)
    else if !vkChecked && !scChecked then Err(NoModeSelected)
    else
      var code := StripHexPrefix(text);
      if !MatchesHexPattern(code) then Err(NotHex)
      else if vkChecked then Ok(CustomKey(code, VirtualKey))
      else Ok(CustomKey(code, ScanCode))
  }

  /** Hex digits and spaces are accepted as they stand, and one "0x" in front
      of them is dropped; the virtual-key reading wins when both buttons are checked. */
  lemma ValidateAcceptsHex(code: string, vkChecked: bool, scChecked: bool)
    requires MatchesHexPattern(code) && (vkChecked || scChecked)
    ensures var want := Ok(CustomKey(code, if vkChecked then VirtualKey else ScanCode));
      ValidateCustomCode(code, vkChecked, scChecked) == want
      && ValidateCustomCode("0x" + code, vkChecked, scChecked) == want
  {
    if |code| >= 2 {
      assert code[..2][1] == code[1] != 'x';
    }
    assert ("0x" + code)[..2] == "0x" && ("0x" + code)[2..] == code;
  }

  /** Only one lower-case prefix is removed: "0X7C", "0x0x7C" and "0x" are refused. */
  lemma ValidatePrefixEdgeCases()
    ensures ValidateCustomCode("0X7C", true, false) == Err(NotHex)
    ensures ValidateCustomCode("0x0x7C", true, false) == Err(NotHex)
    ensures ValidateCustomCode("0x", false, true) == Err(NotHex)
  {
    assert "0X7C"[..2] != "0x" && !IsHexDigit("0X7C"[1]);
    assert "0x0x7C"[..2] == "0x" && "0x0x7C"[2..][1] == 'x';
    assert "0x"[..2] == "0x";
  }

  /** Validation admits codes the parser then refuses, so sending them fails
      in `StringToUShort`: white space between digits, ... */
  lemma ValidatedButInnerSpace()
    ensures ValidateCustomCode("7 C", true, false) == Ok(CustomKey("7 C", VirtualKey))
    ensures StringToUShort("7 C") == Err(Format)
  {
    ValidateAcceptsHex("7 C", true, false);
    StringToUShortInnerSpace();
  }

  /** ... a code above 0xFFFF, ... */
  lemma ValidatedButOverflow(n: nat, k: nat)
    requires 0xFFFF < n < Pow16(k)
    requires HexDigits(n, k)[0] != 'E' || HexDigits(n, k)[1] != '0'
    ensures var d := HexDigits(n, k);
      ValidateCustomCode("0x" + d, true, false) == Ok(CustomKey(d, VirtualKey))
      && StringToUShort(d) == Err(Overflow)
  {
    var d := HexDigits(n, k);
    assert ValidateCustomCode("0x" + d, true, false) == Ok(CustomKey(d, VirtualKey)) by {
      ValidateAcceptsHex(d, true, false);
    }
    StringToUShortOverflow(n, k);
  }

  /** ... and a code made only of blanks. */
  lemma ValidatedButBlank()
    ensures ValidateCustomCode("  ", false, true) == Ok(CustomKey("  ", ScanCode))
    ensures StringToUShort("  ") == Err(Format)
  {
    ValidateAcceptsHex("  ", false, true);
    assert Upper("  ") == "  ";
    assert "  "[0] != 'E';
  }

  lemma {:induction false} UpperKeepsHex(s: string)
    requires AllHex(s)
    ensures AllHex(Upper(s)) && HexValue(Upper(s)) == HexValue(s)
  {
    if s != [] {
      var t := s[..|s| - 1];
      UpperKeepsHex(t);
      assert Upper(s)[..|s| - 1] == Upper(t);
    }
  }

  /** A validated code of at most four hex digits and no spaces always parses. */
  lemma ShortValidatedCodeParses(text: string, vkChecked: bool, scChecked: bool)
    requires ValidateCustomCode(text, vkChecked, scChecked).Ok?
    requires var code := ValidateCustomCode(text, vkChecked, scChecked).value.code;
      AllHex(code) && |code| <= 4
    ensures StringToUShort(ValidateCustomCode(text, vkChecked, scChecked).value.code).Ok?
  {
    var code := ValidateCustomCode(text, vkChecked, scChecked).value.code;
    var up := Upper(code);
    UpperKeepsHex(code);
    if |up| > 2 && up[0] == 'E' && up[1] == '0' {
      var d := up[2..];
      assert AllHex(d) && |d| <= 2;
      HexValueBound(d);
      assert Pow16(|d|) <= 0x100;
      ParseDigits(d);
    } else {
      assert up != [];
      HexValueBound(up);
      assert Pow16(|up|) <= 0x10000;
      ParseDigits(up);
    }
  }
}
