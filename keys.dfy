/** The fixed key table of the main window, the integer widths of the Windows
    input structures, and the ASCII case mapping used for key names. */
module Keys {

  /** An unsigned 8-bit value (the `byte` that keybd_event takes). */
  type U8 = x: int | 0 <= x < 0x100

  /** An unsigned 16-bit value (a `ushort`: wVk, wScan, a parsed custom code). */
  type U16 = x: int | 0 <= x < 0x1_0000

  /** A virtual-key code and a hardware scan code, as the table pairs them. */
  datatype KeyCode = KeyCode(vk: U16, scan: U16)

  /** The named keys the program can send, keyed by upper-case name. */
  const KeyCodes: map<string, KeyCode> := map[
    "F13" := KeyCode(0x7C, 100),
    "F14" := KeyCode(0x7D, 101),
    "F15" := KeyCode(0x7E, 102),
    "F16" := KeyCode(0x7F, 103),
    "F17" := KeyCode(0x80, 104),
    "F18" := KeyCode(0x81, 105),
    "F19" := KeyCode(0x82, 106),
    "F20" := KeyCode(0x83, 107),
    "F21" := KeyCode(0x84, 108),
    "F22" := KeyCode(0x85, 109),
    "F23" := KeyCode(0x86, 110),
    "F24" := KeyCode(0x87, 118),
    "LCTRL" := KeyCode(0x11, 29),
    "LSHIFT" := KeyCode(0x10, 42),
    "LALT" := KeyCode(0x12, 56),
    "X" := KeyCode(0x58, 45)
  ]

  /** The three left-hand modifiers, read out of the table by name. */
  const LCtrl: KeyCode := KeyCodes["LCTRL"]
  const LShift: KeyCode := KeyCodes["LSHIFT"]
  const LAlt: KeyCode := KeyCodes["LALT"]

  /** The first byte of a little-endian `ushort`: the byte that agrees with
      `x` on its low eight bits. */
  function LowByte(x: U16): (b: U8)
    ensures (x - b) % 0x100 == 0
    ensures x < 0x100 ==> b == x
  {
    x % 0x100
  }

  /** `char.ToUpper` on ASCII: no lower-case letter survives, and only
      lower-case letters change, each to the letter 32 code points below. */
  function UpperChar(c: char): (u: char)
    ensures !('a' <= u <= 'z')
    ensures u == c || ('a' <= c <= 'z' && u as int == c as int - 32)
  {
    if 'a' <= c <= 'z' then (c as int - 32) as char else c
  }

  /** `char.ToLower` on ASCII: it removes upper-case letters and never changes
      what a character upper-cases to. */
  function LowerChar(c: char): (l: char)
    ensures !('A' <= l <= 'Z')
    ensures UpperChar(l) == UpperChar(c)
  {
    if 'A' <= c <= 'Z' then (c as int + 32) as char else c
  }

  predicate NoLower(s: string) {
    forall i | 0 <= i < |s| :: !('a' <= s[i] <= 'z')
  }

  /** `string.ToUpper()` restricted to ASCII letters: the result has no
      lower-case letter, and each character is either kept or is a lower-case
      letter raised to its capital. */
  function Upper(s: string): (u: string)
    ensures |u| == |s| && NoLower(u)
    ensures forall i | 0 <= i < |s| ::
      u[i] == s[i] || ('a' <= s[i] <= 'z' && u[i] as int == s[i] as int - 32)
  {
    seq(|s|, i requires 0 <= i < |s| => UpperChar(s[i]))
  }

  /** A string without lower-case letters is its own upper case. */
  lemma UpperNoLower(s: string)
    requires NoLower(s)
    ensures Upper(s) == s
  {
  }

  lemma UpperIdempotent(s: string)
    ensures Upper(Upper(s)) == Upper(s)
  {
    UpperNoLower(Upper(s));
  }

  /** Every name in the table is already upper case, so a name written in any
      mixture of cases maps back onto it. */
  lemma TableNamesAreUpper()
    ensures forall name | name in KeyCodes :: Upper(name) == name
  {
    assert Upper("F13") == "F13";
    assert Upper("F14") == "F14";
    assert Upper("F15") == "F15";
    assert Upper("F16") == "F16";
    assert Upper("F17") == "F17";
    assert Upper("F18") == "F18";
    assert Upper("F19") == "F19";
    assert Upper("F20") == "F20";
    assert Upper("F21") == "F21";
    assert Upper("F22") == "F22";
    assert Upper("F23") == "F23";
    assert Upper("F24") == "F24";
    assert Upper("LCTRL") == "LCTRL";
    assert Upper("LSHIFT") == "LSHIFT";
    assert Upper("LALT") == "LALT";
    assert Upper("X") == "X";
  }

  /** A key name written with any of its letters in lower case resolves to the
      table entry of the upper-case name. */
  lemma AnyCaseOfName(name: string, key: string)
    requires name in KeyCodes
    requires |key| == |name|
    requires forall i | 0 <= i < |key| :: key[i] == name[i] || key[i] == LowerChar(name[i])
    ensures Upper(key) in KeyCodes && KeyCodes[Upper(key)] == KeyCodes[name]
  {
    TableNamesAreUpper();
    assert Upper(name) == name;
    forall i | 0 <= i < |key| ensures Upper(key)[i] == name[i] {
      assert UpperChar(name[i]) == name[i];
    }
    assert Upper(key) == name;
  }

  /** The name of function key F`n`, for `n` from 13 to 24. */
  function FunctionKeyName(n: int): (name: string)
    requires 13 <= n <= 24
    ensures |name| == 3 && name[0] == 'F'
  {
    ['F', ('0' as int + n / 10) as char, ('0' as int + n % 10) as char]
  }

  lemma FunctionKeyNames(n: int)
    requires 13 <= n <= 24
    ensures FunctionKeyName(n) == ["F13", "F14", "F15", "F16", "F17", "F18",
                                   "F19", "F20", "F21", "F22", "F23", "F24"][n - 13]
  {
  }

  /** F13 to F24 carry the consecutive virtual keys 0x7C to 0x87; their scan
      codes run from 100 to 110 for F13 to F23, and F24's is 118. */
  lemma FunctionKeyCodes(n: int)
    requires 13 <= n <= 24
    ensures FunctionKeyName(n) in KeyCodes
    ensures KeyCodes[FunctionKeyName(n)].vk == 0x7C + (n - 13)
    ensures KeyCodes[FunctionKeyName(n)].scan == if n == 24 then 118 else 100 + (n - 13)
  {
    FunctionKeyNames(n);
  }

  /** The table holds F13 to F24, the three left-hand modifiers and X, and
      nothing else. */
  lemma TableNames()
    ensures KeyCodes.Keys == (set n | 13 <= n <= 24 :: FunctionKeyName(n)) + {"LCTRL", "LSHIFT", "LALT", "X"}
  {
    var fs := set n | 13 <= n <= 24 :: FunctionKeyName(n);
    var names := {"F13", "F14", "F15", "F16", "F17", "F18", "F19", "F20", "F21", "F22", "F23", "F24"};
    forall name | name in fs ensures name in names {
      var n :| 13 <= n <= 24 && name == FunctionKeyName(n);
      FunctionKeyNames(n);
    }
    var list := ["F13", "F14", "F15", "F16", "F17", "F18", "F19", "F20", "F21", "F22", "F23", "F24"];
    forall k | 0 <= k < 12 ensures list[k] in fs {
      FunctionKeyNames(k + 13);
      assert FunctionKeyName(k + 13) in fs;
    }
    assert list[0] in fs && list[1] in fs && list[2] in fs && list[3] in fs && list[4] in fs && list[5] in fs;
    assert list[6] in fs && list[7] in fs && list[8] in fs && list[9] in fs && list[10] in fs && list[11] in fs;
  }

  /** Every virtual key in the table fits in one byte, so the keybd_event path
      sends the table's virtual keys unchanged. */
  lemma TableVirtualKeysFitByte()
    ensures forall name | name in KeyCodes :: KeyCodes[name].vk < 0x100
  {
  }
}
