/** `StringToUShort` and the part of .NET's `ushort.Parse(s,
    NumberStyles.HexNumber)` it relies on. HexNumber admits leading and
    trailing white space around one or more hex digits and no sign or "0x";
    like the .NET parser, trailing NUL characters are ignored, a malformed
    string is a format error even when its digits would also overflow, and
    the overflow test is on the value, so leading zeros are harmless. */
module HexParse {
  import opened Results
  import opened Keys

  predicate IsHexDigit(c: char) {
    '0' <= c <= '9' || 'A' <= c <= 'F' || 'a' <= c <= 'f'
  }

  /** The white space .NET's number parser skips: U+0009 to U+000D and U+0020. */
  predicate IsNumberWhite(c: char) {
    c == ' ' || '\t' <= c <= '\r'
  }

  predicate AllHex(s: string) {
    forall i | 0 <= i < |s| :: IsHexDigit(s[i])
  }

  predicate AllNumberWhite(s: string) {
    forall i | 0 <= i < |s| :: IsNumberWhite(s[i])
  }

  predicate AllNul(s: string) {
    forall i | 0 <= i < |s| :: s[i] == '\0'
  }

  function DigitValue(c: char): (v: nat)
    requires IsHexDigit(c)
    ensures v < 16
  {
    if '0' <= c <= '9' then c as int - '0' as int
    else if 'A' <= c <= 'F' then c as int - 'A' as int + 10
    else c as int - 'a' as int + 10
  }

  /** The number written by a string of hex digits, most significant first. */
  function HexValue(d: string): nat
    requires AllHex(d)
  {
    if d == [] then 0 else 16 * HexValue(d[..|d| - 1]) + DigitValue(d[|d| - 1])
  }

  function Pow16(k: nat): nat {
    if k == 0 then 1 else 16 * Pow16(k - 1)
  }

  /** Number of leading characters of `s` that are number white space. */
  function LeadWhite(s: string): (n: nat)
    ensures n <= |s| && AllNumberWhite(s[..n])
    ensures n < |s| ==> !IsNumberWhite(s[n])
  {
    if s != [] && IsNumberWhite(s[0]) then
      var n := 1 + LeadWhite(s[1..]);
      assert s[..n] == [s[0]] + s[1..][..n - 1];
      n
    else 0
  }

  /** Number of leading characters of `s` that are hex digits. */
  function HexRun(s: string): (n: nat)
    ensures n <= |s| && AllHex(s[..n])
    ensures n < |s| ==> !IsHexDigit(s[n])
  {
    if s != [] && IsHexDigit(s[0]) then
      var n := 1 + HexRun(s[1..]);
      assert s[..n] == [s[0]] + s[1..][..n - 1];
      n
    else 0
  }

  datatype ParseError = Format | Overflow

  /** The characters a HexNumber string may hold at all. */
  predicate HexNumberChar(c: char) {
    IsHexDigit(c) || IsNumberWhite(c) || c == '\0'
  }

  /** The four parts of a string HexNumber accepts: leading white space, one
      or more hex digits, trailing white space and trailing NULs. */
  predicate HexNumberParts(lead: string, digits: string, trail: string, nuls: string) {
    AllNumberWhite(lead) && AllHex(digits) && digits != [] && AllNumberWhite(trail) && AllNul(nuls)
  }

  /** Cutting `s` at three successive offsets and gluing the pieces back
      gives `s`. */
  lemma SplitFour(s: string, i: nat, n: nat, j: nat)
    requires i + n + j <= |s|
    ensures s == s[..i] + s[i..][..n] + s[i..][n..][..j] + s[i..][n..][j..]
  {
    var rest := s[i..][n..];
    assert rest == rest[..j] + rest[j..];
    assert s[i..] == s[i..][..n] + rest;
    assert s == s[..i] + s[i..];
  }

  /** Every character of a four-part string is a HexNumber character, and the
      first one after the leading white space is a digit. */
  lemma PartsChars(lead: string, digits: string, trail: string, nuls: string)
    requires HexNumberParts(lead, digits, trail, nuls)
    ensures var s := lead + digits + trail + nuls;
      (forall k | 0 <= k < |s| :: HexNumberChar(s[k])) && IsHexDigit(s[|lead|])
  {
    var s := lead + digits + trail + nuls;
    forall k | 0 <= k < |s| ensures HexNumberChar(s[k]) {
      if k < |lead| {
        assert s[k] == lead[k];
      } else if k < |lead| + |digits| {
        assert s[k] == digits[k - |lead|];
      } else if k < |lead| + |digits| + |trail| {
        assert s[k] == trail[k - |lead| - |digits|];
      } else {
        assert s[k] == nuls[k - |lead| - |digits| - |trail|];
      }
    }
    assert s[|lead|] == digits[0];
  }

  /** `ushort.Parse(s, NumberStyles.HexNumber)`: the value, or the exception
      it throws. Only HexNumber characters get past the format check, and a
      string without any hex digit (empty, blank) is a format error. */
  function ParseHexNumber(s: string): (r: Result<U16, ParseError>)
    ensures r != Err(Format) ==> forall k | 0 <= k < |s| :: HexNumberChar(s[k])
    ensures (forall k | 0 <= k < |s| :: !IsHexDigit(s[k])) ==> r == Err(Format)
  {
    var i := LeadWhite(s);
    var n := HexRun(s[i..]);
    var rest := s[i..][n..];
    var j := LeadWhite(rest);
    if n == 0 || !AllNul(rest[j..]) then Err(Format)
    else
      SplitFour(s, i, n, j);
      PartsChars(s[..i], s[i..][..n], rest[..j], rest[j..]);
      if HexValue(s[i..][..n]) > 0xFFFF then Err(Overflow)
      else Ok(HexValue(s[i..][..n]))
  }

  /** What `StringToUShort` returns: the parsed code and whether it carried the
      "E0" extended-key prefix. */
  datatype Parsed = Parsed(code: U16, extended: bool)

  /** `StringToUShort`: upper-case the input; if it starts with "E0" and has
      more after it, parse the rest and mark the key extended, otherwise parse
      the whole string. */
  function StringToUShort(input: string): (r: Result<Parsed, ParseError>)
    ensures r.Ok? ==> (r.value.extended <==> |input| > 2 && (input[0] == 'E' || input[0] == 'e') && input[1] == '0')
  {
    var up := Upper(input);
    if |up| > 2 && up[0] == 'E' && up[1] == '0' then
      match ParseHexNumber(up[2..])
      case Ok(v) => Ok(Parsed(v, true))
      case Err(e) => Err(e)
    else
      match ParseHexNumber(up)
      case Ok(v) => Ok(Parsed(v, false))
      case Err(e) => Err(e)
  }

  // ---------------------------------------------------------------------------
  // What ParseHexNumber accepts

  lemma {:induction false} LeadWhiteExact(s: string, k: nat)
    requires k <= |s| && AllNumberWhite(s[..k])
    requires k < |s| ==> !IsNumberWhite(s[k])
    ensures LeadWhite(s) == k
  {
    if k > 0 {
      assert IsNumberWhite(s[..k][0]);
      assert s[1..][..k - 1] == s[..k][1..];
      LeadWhiteExact(s[1..], k - 1);
    }
  }

  lemma {:induction false} HexRunExact(s: string, k: nat)
    requires k <= |s| && AllHex(s[..k])
    requires k < |s| ==> !IsHexDigit(s[k])
    ensures HexRun(s) == k
  {
    if k > 0 {
      assert IsHexDigit(s[..k][0]);
      assert s[1..][..k - 1] == s[..k][1..];
      HexRunExact(s[1..], k - 1);
    }
  }

  /** Completeness: white space, a run of hex digits, white space and NULs
      parse to the digits' value, or overflow when that exceeds 0xFFFF. */
  lemma ParseHexNumberAccepts(lead: string, digits: string, trail: string, nuls: string)
    requires AllNumberWhite(lead) && AllHex(digits) && digits != []
    requires AllNumberWhite(trail) && AllNul(nuls)
    ensures ParseHexNumber(lead + digits + trail + nuls)
            == if HexValue(digits) <= 0xFFFF then Ok(HexValue(digits)) else Err(Overflow)
  {
    var s := lead + digits + trail + nuls;
    assert s[..|lead|] == lead;
    LeadWhiteExact(s, |lead|);
    var t := s[|lead|..];
    assert t == digits + trail + nuls;
    assert t[..|digits|] == digits;
    HexRunExact(t, |digits|);
    var rest := s[|lead| + |digits|..];
    assert rest == t[|digits|..] == trail + nuls;
    assert rest[..|trail|] == trail;
    LeadWhiteExact(rest, |trail|);
    assert rest[|trail|..] == nuls;
  }

  /** Soundness: a string that gets past the format check is white space,
      hex digits, white space and NULs, and its value is that of the digits. */
  lemma ParseHexNumberShape(s: string)
    requires ParseHexNumber(s) != Err(Format)
    ensures exists lead, digits, trail, nuls | HexNumberParts(lead, digits, trail, nuls) ::
      s == lead + digits + trail + nuls
      && ParseHexNumber(s) == if HexValue(digits) <= 0xFFFF then Ok(HexValue(digits)) else Err(Overflow)
  {
    var i := LeadWhite(s);
    var n := HexRun(s[i..]);
    var rest := s[i..][n..];
    var j := LeadWhite(rest);
    SplitFour(s, i, n, j);
    assert HexNumberParts(s[..i], s[i..][..n], rest[..j], rest[j..]);
  }

  /** `ushort.Parse` yields `v` exactly when the string is white space, hex
      digits worth `v`, white space and NULs. */
  lemma ParseHexNumberOk(s: string, v: U16)
    ensures ParseHexNumber(s) == Ok(v) <==>
      exists lead, digits, trail, nuls | HexNumberParts(lead, digits, trail, nuls) ::
        s == lead + digits + trail + nuls && HexValue(digits) == v
  {
    if ParseHexNumber(s) == Ok(v) {
      ParseHexNumberShape(s);
    }
    if exists lead, digits, trail, nuls | HexNumberParts(lead, digits, trail, nuls) ::
         s == lead + digits + trail + nuls && HexValue(digits) == v
    {
      var lead, digits, trail, nuls :| HexNumberParts(lead, digits, trail, nuls)
        && s == lead + digits + trail + nuls && HexValue(digits) == v;
      ParseHexNumberAccepts(lead, digits, trail, nuls);
    }
  }

  /** In a four-part string every character from the first digit to the last
      is a digit, so no white space lies between two digits. */
  lemma PartsNoInnerWhite(lead: string, digits: string, trail: string, nuls: string, i: nat, k: nat, j: nat)
    requires HexNumberParts(lead, digits, trail, nuls)
    requires var s := lead + digits + trail + nuls; i < k < j < |s|
    ensures var s := lead + digits + trail + nuls;
      !(IsHexDigit(s[i]) && IsNumberWhite(s[k]) && IsHexDigit(s[j]))
  {
    var s := lead + digits + trail + nuls;
    if i < |lead| {
      assert s[i] == lead[i];
    } else if j >= |lead| + |digits| {
      if j < |lead| + |digits| + |trail| {
        assert s[j] == trail[j - |lead| - |digits|];
      } else {
        assert s[j] == nuls[j - |lead| - |digits| - |trail|];
      }
    } else {
      assert s[k] == digits[k - |lead|];
    }
  }

  /** White space between two hex digits, wherever it stands, is a format
      error: "7 C", "7  C", " 7 C" and "7 C " are all refused. */
  lemma ParseHexNumberRejectsInnerWhite(s: string, i: nat, k: nat, j: nat)
    requires i < k < j < |s|
    requires IsHexDigit(s[i]) && IsNumberWhite(s[k]) && IsHexDigit(s[j])
    ensures ParseHexNumber(s) == Err(Format)
  {
    if ParseHexNumber(s) != Err(Format) {
      ParseHexNumberShape(s);
      var lead, digits, trail, nuls :| HexNumberParts(lead, digits, trail, nuls)
        && s == lead + digits + trail + nuls;
      PartsNoInnerWhite(lead, digits, trail, nuls, i, k, j);
      assert false;
    }
  }

  // ---------------------------------------------------------------------------
  // Round trips through StringToUShort

  /** The input upper-cased, seen as the "E0" prefix (when `StringToUShort`
      takes it as one) and the text that is parsed. */
  predicate PrefixSplit(input: string, ext: bool, body: string) {
    var up := Upper(input);
    (ext <==> |up| > 2 && up[0] == 'E' && up[1] == '0')
    && up == (if ext then "E0" else "") + body
  }

  lemma StringToUShortParses(input: string)
    ensures var up := Upper(input);
      var ext := |up| > 2 && up[0] == 'E' && up[1] == '0';
      var body := if ext then up[2..] else up;
      PrefixSplit(input, ext, body)
      && StringToUShort(input) == match ParseHexNumber(body)
                                  case Ok(c) => Ok(Parsed(c, ext))
                                  case Err(e) => Err(e)
  {
  }

  /** The text after the prefix is determined by the input and the flag. */
  lemma PrefixSplitUnique(input: string, ext: bool, body1: string, body2: string)
    requires PrefixSplit(input, ext, body1) && PrefixSplit(input, ext, body2)
    ensures body1 == body2
  {
    var pre: string := if ext then "E0" else "";
    assert body1 == (pre + body1)[|pre|..];
    assert body2 == (pre + body2)[|pre|..];
  }

  /** `StringToUShort` yields code `v` with extended flag `ext` exactly when
      the upper-cased input is "E0" (precisely when `ext`, and then with more
      after it) followed by white space, hex digits worth `v`, white space and
      NULs: letter case and surrounding white space do not matter. */
  lemma StringToUShortValue(input: string, v: U16, ext: bool)
    ensures StringToUShort(input) == Ok(Parsed(v, ext)) <==>
      exists body | PrefixSplit(input, ext, body) :: ParseHexNumber(body) == Ok(v)
    ensures StringToUShort(input) == Ok(Parsed(v, ext)) <==>
      exists lead, digits, trail, nuls | HexNumberParts(lead, digits, trail, nuls) ::
        PrefixSplit(input, ext, lead + digits + trail + nuls) && HexValue(digits) == v
  {
    StringToUShortParses(input);
    var up := Upper(input);
    var ext0 := |up| > 2 && up[0] == 'E' && up[1] == '0';
    var body0 := if ext0 then up[2..] else up;
    ParseHexNumberOk(body0, v);
    if exists body | PrefixSplit(input, ext, body) :: ParseHexNumber(body) == Ok(v) {
      var body :| PrefixSplit(input, ext, body) && ParseHexNumber(body) == Ok(v);
      PrefixSplitUnique(input, ext, body, body0);
    }
    if exists lead, digits, trail, nuls | HexNumberParts(lead, digits, trail, nuls) ::
         PrefixSplit(input, ext, lead + digits + trail + nuls) && HexValue(digits) == v
    {
      var lead, digits, trail, nuls :| HexNumberParts(lead, digits, trail, nuls)
        && PrefixSplit(input, ext, lead + digits + trail + nuls) && HexValue(digits) == v;
      PrefixSplitUnique(input, ext, lead + digits + trail + nuls, body0);
    }
  }

  /** The parse does not depend on the case of the letters typed. */
  lemma StringToUShortIgnoresCase(s: string)
    ensures StringToUShort(s) == StringToUShort(Upper(s))
  {
    UpperIdempotent(s);
  }

  function HexChar(v: nat): (c: char)
    requires v < 16
    ensures IsHexDigit(c) && DigitValue(c) == v && !('a' <= c <= 'z')
  {
    if v < 10 then ('0' as int + v) as char else ('A' as int + v - 10) as char
  }

  /** The `k`-digit upper-case hex numeral of `n`, zero-padded. */
  function HexDigits(n: nat, k: nat): (d: string)
    ensures |d| == k && AllHex(d) && NoLower(d)
  {
    if k == 0 then [] else HexDigits(n / 16, k - 1) + [HexChar(n % 16)]
  }

  lemma {:induction false} HexDigitsValue(n: nat, k: nat)
    requires n < Pow16(k)
    ensures HexValue(HexDigits(n, k)) == n
  {
    if k > 0 {
      var d := HexDigits(n, k);
      assert d[..k - 1] == HexDigits(n / 16, k - 1);
      HexDigitsValue(n / 16, k - 1);
    }
  }

  lemma {:induction false} HexValueBound(d: string)
    requires AllHex(d)
    ensures HexValue(d) < Pow16(|d|)
  {
    if d != [] {
      HexValueBound(d[..|d| - 1]);
    }
  }

  /** A bare run of hex digits parses to its value or overflows. */
  lemma ParseDigits(d: string)
    requires AllHex(d) && d != []
    ensures ParseHexNumber(d) == if HexValue(d) <= 0xFFFF then Ok(HexValue(d)) else Err(Overflow)
  {
    assert d == [] + d + [] + [];
    ParseHexNumberAccepts([], d, [], []);
  }

  /** A numeral that does not start with "E0" parses as itself, not extended. */
  lemma StringToUShortPlain(n: U16, k: nat)
    requires 0 < k && n < Pow16(k)
    requires k <= 2 || HexDigits(n, k)[0] != 'E' || HexDigits(n, k)[1] != '0'
    ensures StringToUShort(HexDigits(n, k)) == Ok(Parsed(n, false))
  {
    var d := HexDigits(n, k);
    UpperNoLower(d);
    assert ParseHexNumber(d) == Ok(n) by {
      HexDigitsValue(n, k);
      ParseDigits(d);
    }
  }

  /** "E0" followed by the numeral of any 16-bit value parses to that value,
      marked extended. */
  lemma StringToUShortExtended(n: U16, k: nat)
    requires k > 0 && n < Pow16(k)
    ensures StringToUShort("E0" + HexDigits(n, k)) == Ok(Parsed(n, true))
  {
    var d := HexDigits(n, k);
    var s := "E0" + d;
    assert ParseHexNumber(d) == Ok(n) by {
      HexDigitsValue(n, k);
      ParseDigits(d);
    }
    assert NoLower(s) by {
      forall i | 0 <= i < |s| ensures !('a' <= s[i] <= 'z') {
        if i >= 2 { assert s[i] == d[i - 2]; }
      }
    }
    UpperNoLower(s);
    assert s[0] == 'E' && s[1] == '0' && s[2..] == d;
  }

  lemma DivSteps(n: nat)
    ensures n / 16 / 16 == n / 0x100 && n / 0x100 / 16 == n / 0x1000
    ensures n % 0x100 / 16 == n / 16 % 16 && n % 0x100 % 16 == n % 16
  {
    Digit16(n);
    DivDiv(n / 16);
    DivDiv(n);
    assert n / 0x100 / 16 == n / 0x1000 by {
      var b := n / 0x100;
      assert n == 0x1000 * (b / 16) + (0x100 * (b % 16) + n % 0x100);
    }
  }

  /** `n` is 16 times its quotient plus its last digit. */
  lemma Digit16(n: nat)
    ensures n == 16 * (n / 16) + n % 16 && 0 <= n % 16 < 16
  {
  }

  lemma DivDiv(n: nat)
    ensures n / 16 / 16 == n / 0x100
    ensures n % 0x100 == 16 * (n / 16 % 16) + n % 16
  {
    var a := n / 16;
    Digit16(n);
    Digit16(a);
    assert n == 0x100 * (a / 16) + (16 * (a % 16) + n % 16);
  }

  /** The four digits of `n`, most significant first. */
  lemma FourDigitsShape(n: nat)
    ensures HexDigits(n, 4) == [HexChar(n / 16 / 16 / 16 % 16), HexChar(n / 16 / 16 % 16),
                                HexChar(n / 16 % 16), HexChar(n % 16)]
  {
    var a := n / 16;
    var b := a / 16;
    var c := b / 16;
    assert HexDigits(c, 1) == [HexChar(c % 16)];
    assert HexDigits(b, 2) == [HexChar(c % 16), HexChar(b % 16)];
    assert HexDigits(a, 3) == [HexChar(c % 16), HexChar(b % 16), HexChar(a % 16)];
  }

  lemma TwoDigitsShape(n: nat)
    ensures HexDigits(n, 2) == [HexChar(n / 16 % 16), HexChar(n % 16)]
  {
    assert HexDigits(n / 16, 1) == [HexChar(n / 16 % 16)];
  }

  lemma FourDigitsExtended(n: U16)
    requires n / 0x100 == 0xE0
    ensures HexDigits(n, 4) == "E0" + HexDigits(n % 0x100, 2)
  {
    FourDigitsShape(n);
    DivSteps(n);
    TwoDigitsShape(n % 0x100);
    assert n / 16 / 16 / 16 % 16 == 0xE && n / 16 / 16 % 16 == 0;
  }

  lemma FourDigitsPlain(n: U16)
    requires n / 0x100 != 0xE0
    ensures HexDigits(n, 4)[0] != 'E' || HexDigits(n, 4)[1] != '0'
  {
    var s := HexDigits(n, 4);
    FourDigitsShape(n);
    DivSteps(n);
    var hi := n / 0x100;
    assert n / 16 / 16 / 16 % 16 == hi / 16 && n / 16 / 16 % 16 == hi % 16;
    assert DigitValue(s[0]) == hi / 16;
    assert DigitValue(s[1]) == hi % 16;
  }

  /** The four-digit numeral of a 16-bit value parses back to it, except that
      the numerals "E0xy" read as the extended key xy. */
  lemma StringToUShortFourDigits(n: U16)
    ensures StringToUShort(HexDigits(n, 4))
            == if n / 0x100 == 0xE0 then Ok(Parsed(n % 0x100, true)) else Ok(Parsed(n, false))
  {
    if n / 0x100 == 0xE0 {
      FourDigitsExtended(n);
      StringToUShortExtended(n % 0x100, 2);
    } else {
      FourDigitsPlain(n);
      StringToUShortPlain(n, 4);
    }
  }

  /** "E0" alone is not a prefix: it is the plain code 0xE0. */
  lemma StringToUShortBareE0()
    ensures StringToUShort("E0") == Ok(Parsed(0xE0, false))
    ensures StringToUShort("e0") == Ok(Parsed(0xE0, false))
  {
    BareUpperE0();
    StringToUShortIgnoresCase("e0");
    UpperE0();
  }

  lemma UpperE0()
    ensures Upper("e0") == "E0"
  {
    assert Upper("e0")[0] == 'E';
  }

  lemma BareUpperE0()
    ensures StringToUShort("E0") == Ok(Parsed(0xE0, false))
  {
    var d := HexDigits(0xE0, 2);
    assert d == "E0" by {
      assert d[0] == 'E' && d[1] == '0';
    }
    StringToUShortPlain(0xE0, 2);
  }

  /** A numeral of a value above 16 bits, not read as "E0"-prefixed, overflows. */
  lemma StringToUShortOverflow(n: nat, k: nat)
    requires 0xFFFF < n < Pow16(k)
    requires HexDigits(n, k)[0] != 'E' || HexDigits(n, k)[1] != '0'
    ensures StringToUShort(HexDigits(n, k)) == Err(Overflow)
  {
    var d := HexDigits(n, k);
    assert k > 0;
    UpperNoLower(d);
    assert ParseHexNumber(d) == Err(Overflow) by {
      HexDigitsValue(n, k);
      ParseDigits(d);
    }
  }

  /** White space between digits is refused by the parser. */
  lemma StringToUShortInnerSpace()
    ensures StringToUShort("7 C") == Err(Format)
  {
    var s := "7 C";
    UpperNoLower(s);
    ParseHexNumberRejectsInnerWhite(s, 0, 1, 2);
  }

  /** "E0" followed only by white space leaves nothing to parse. */
  lemma StringToUShortPrefixOnly()
    ensures StringToUShort("E0 ") == Err(Format)
  {
    var s := "E0 ";
    UpperNoLower(s);
    assert s[2..] == " ";

  }
}
