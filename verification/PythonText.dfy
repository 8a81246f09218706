/** What Python's `str.upper`, `str.isdigit` and `int` do to characters beyond
    ASCII, by version 14 of the Unicode character database. */
module PythonText {
  import opened Ascii
  import opened Decimal

  // ---------------------------------------------------------------- case

  predicate IsAscii(s: string) { forall i :: 0 <= i < |s| ==> s[i] < '\U{80}' }

  /** The characters beyond ASCII whose upper case is ASCII: the sharp s, the
      dotless i, the long s, and seven ligatures. */
  predicate Folds(c: char) {
    c == '\U{df}' || c == '\U{131}' || c == '\U{17f}' || '\U{fb00}' <= c <= '\U{fb06}'
  }

  /** `str.upper` on one character. The upper case of every other character beyond
      ASCII holds a character beyond ASCII; here it stands for itself, which decides
      every comparison with an ASCII word in the same way. */
  function UpperOf(c: char): (r: string)
    ensures r != "" && (c < '\U{80}' ==> r == [Upper(c)])
    ensures !Folds(c) && c >= '\U{80}' ==> r == [c]
  {
    if c == '\U{df}' then "SS"
    else if c == '\U{131}' then "I"
    else if c == '\U{17f}' then "S"
    else if c == '\U{fb00}' then "FF"
    else if c == '\U{fb01}' then "FI"
    else if c == '\U{fb02}' then "FL"
    else if c == '\U{fb03}' then "FFI"
    else if c == '\U{fb04}' then "FFL"
    else if c == '\U{fb05}' || c == '\U{fb06}' then "ST"
    else [Upper(c)]
  }

  function PythonUpper(s: string): (r: string) {
    if s == "" then "" else UpperOf(s[0]) + PythonUpper(s[1..])
  }

  predicate Foldless(s: string) { forall i :: 0 <= i < |s| ==> !Folds(s[i]) }

  /** Without those characters it makes no difference whether only the ASCII letters
      are folded up or all letters are. */
  lemma {:induction false} UpperIsAsciiUpper(s: string)
    requires Foldless(s)
    ensures PythonUpper(s) == UpperAll(s)
  {
    if s == "" {
    } else {
      assert !Folds(s[0]) && forall i :: 0 <= i < |s| - 1 ==> s[1..][i] == s[i + 1];
      UpperIsAsciiUpper(s[1..]);
    }
  }

  /** With one of them it does: to Python, `o` and the ligature of two f spell OFF. */
  lemma LigatureIsOff(s: string)
    requires s == ['o', '\U{fb00}']
    ensures PythonUpper(s) == "OFF" && UpperAll(s) != "OFF"
  {
    assert s[1..] == ['\U{fb00}'] && s[1..][1..] == "";
    assert PythonUpper(s[1..]) == "FF" + "";
    assert UpperOf('o') == ['O'];
  }

  // ---------------------------------------------------------------- digits

  /** The zeros of the decimal digits of other scripts; the nine other digits of a
      script follow its zero. */
  const ZEROS: seq<int> := SOUTH_ASIAN_ZEROS + SOUTHEAST_ASIAN_ZEROS + HISTORIC_ZEROS + LATER_ZEROS

  const SOUTH_ASIAN_ZEROS: seq<int> := [
    0x660, 0x6F0, 0x7C0, 0x966, 0x9E6, 0xA66, 0xAE6, 0xB66, 0xBE6,
    0xC66, 0xCE6, 0xD66, 0xDE6, 0xE50, 0xED0, 0xF20
  ]

  const SOUTHEAST_ASIAN_ZEROS: seq<int> := [
    0x1040, 0x1090, 0x17E0, 0x1810, 0x1946, 0x19D0, 0x1A80, 0x1A90, 0x1B50,
    0x1BB0, 0x1C40, 0x1C50, 0xA620, 0xA8D0, 0xA900, 0xA9D0
  ]

  const HISTORIC_ZEROS: seq<int> := [
    0xA9F0, 0xAA50, 0xABF0, 0xFF10, 0x104A0, 0x10D30, 0x11066, 0x110F0, 0x11136,
    0x111D0, 0x112F0, 0x11450, 0x114D0, 0x11650, 0x116C0, 0x11730
  ]

  const LATER_ZEROS: seq<int> := [
    0x118E0, 0x11950, 0x11C50, 0x11D50, 0x11DA0, 0x16A60, 0x16AC0, 0x16B50, 0x1D7CE,
    0x1D7D8, 0x1D7E2, 0x1D7EC, 0x1D7F6, 0x1E140, 0x1E2F0, 0x1E950, 0x1FBF0
  ]

  /** The other characters that `isdigit` accepts, as ranges: superscripts,
      subscripts, circled and parenthesised digits. `int` refuses them. */
  const OTHER_DIGITS: seq<(int, int)> := [
    (0xB2, 0xB3), (0xB9, 0xB9), (0x1369, 0x1371), (0x19DA, 0x19DA), (0x2070, 0x2070),
    (0x2074, 0x2079), (0x2080, 0x2089), (0x2460, 0x2468), (0x2474, 0x247C), (0x2488, 0x2490),
    (0x24EA, 0x24EA), (0x24F5, 0x24FD), (0x24FF, 0x24FF), (0x2776, 0x277E), (0x2780, 0x2788),
    (0x278A, 0x2792), (0x10A40, 0x10A43), (0x10E60, 0x10E68), (0x11052, 0x1105A), (0x1F100, 0x1F10A)
  ]

  /** The value of a decimal digit of any script. */
  function DecimalFrom(c: char, i: nat): (r: Option<nat>)
    requires i <= |ZEROS|
    ensures r.Some? ==> r.value <= 9
    decreases |ZEROS| - i
  {
    if i == |ZEROS| then None
    else if ZEROS[i] <= c as int <= ZEROS[i] + 9 then Some(c as int - ZEROS[i])
    else DecimalFrom(c, i + 1)
  }

  function DecimalOf(c: char): (r: Option<nat>)
    ensures r.Some? ==> r.value <= 9
  {
    if IsDigit(c) then Some(DigitValue(c)) else DecimalFrom(c, 0)
  }

  predicate IsOtherDigit(c: char) {
    exists i :: 0 <= i < |OTHER_DIGITS| && OTHER_DIGITS[i].0 <= c as int <= OTHER_DIGITS[i].1
  }

  /** `str.isdigit` and `str.isdecimal`, character by character. */
  predicate AllPythonDigits(s: string) { forall i :: 0 <= i < |s| ==> DecimalOf(s[i]).Some? || IsOtherDigit(s[i]) }

  predicate AllDecimals(s: string) { forall i :: 0 <= i < |s| ==> DecimalOf(s[i]).Some? }

  /** The number that decimal digits of any scripts spell. */
  function DecimalsValue(s: string): (r: nat)
    requires AllDecimals(s)
  {
    if s == "" then 0 else DecimalsValue(s[..|s| - 1]) * 10 + DecimalOf(s[|s| - 1]).value
  }

  lemma SouthAsian(i: nat)
    requires i < |SOUTH_ASIAN_ZEROS|
    ensures SOUTH_ASIAN_ZEROS[i] >= 0x660
  {}

  lemma SoutheastAsian(i: nat)
    requires i < |SOUTHEAST_ASIAN_ZEROS|
    ensures SOUTHEAST_ASIAN_ZEROS[i] >= 0x660
  {}

  lemma Historic(i: nat)
    requires i < |HISTORIC_ZEROS|
    ensures HISTORIC_ZEROS[i] >= 0x660
  {}

  lemma Later(i: nat)
    requires i < |LATER_ZEROS|
    ensures LATER_ZEROS[i] >= 0x660
  {}

  lemma ZerosAreLate(i: nat)
    requires i < |ZEROS|
    ensures ZEROS[i] >= 0x660
  {
    var a, b, c := |SOUTH_ASIAN_ZEROS|, |SOUTHEAST_ASIAN_ZEROS|, |HISTORIC_ZEROS|;
    if i < a {
      SouthAsian(i);
    } else if i < a + b {
      SoutheastAsian(i - a);
    } else if i < a + b + c {
      Historic(i - a - b);
    } else {
      Later(i - a - b - c);
    }
  }

  lemma {:induction false} NoLaterDigit(c: char, i: nat)
    requires i <= |ZEROS| && c < '\U{660}'
    ensures DecimalFrom(c, i) == None
    decreases |ZEROS| - i
  {
    if i == |ZEROS| {
    } else {
      ZerosAreLate(i);
      NoLaterDigit(c, i + 1);
    }
  }

  /** Below U+0660 the decimal digits are those of ASCII. */
  lemma EarlyDigits(c: char)
    requires c < '\U{660}'
    ensures DecimalOf(c).Some? <==> IsDigit(c)
  {
    NoLaterDigit(c, 0);
  }

  lemma AsciiDigits(c: char)
    requires IsDigit(c)
    ensures DecimalOf(c).Some?
  {}

  lemma NoOtherDigit(c: char)
    requires c < '\U{80}'
    ensures !IsOtherDigit(c)
  {}

  /** ASCII numerals have the same value either way. */
  lemma {:induction false} AsciiValue(s: string)
    requires AllDigits(s)
    ensures AllDecimals(s) && DecimalsValue(s) == Value(s)
  {
    if s == "" {
    } else {
      AsciiValue(s[..|s| - 1]);
    }
  }
}
