/** Decimal numerals: printing, reading, and the firmware's early-exit reader. */
module Decimal {
  import opened Ascii

  predicate IsDigit(c: char) { '0' <= c <= '9' }

  function DigitValue(c: char): (d: nat)
    requires IsDigit(c)
    ensures d <= 9
  {
    c as int - '0' as int
  }

  function DigitChar(d: nat): (c: char)
    requires d <= 9
    ensures IsDigit(c) && DigitValue(c) == d
  {
    (d + '0' as int) as char
  }

  predicate AllDigits(s: string) { forall i :: 0 <= i < |s| ==> IsDigit(s[i]) }

  function Value(s: string): (r: nat)
    requires AllDigits(s)
  {
    if s == "" then 0 else Value(s[..|s| - 1]) * 10 + DigitValue(s[|s| - 1])
  }

  function Digits(n: nat): (s: string)
    ensures s != "" && AllDigits(s)
  {
    if n < 10 then [DigitChar(n)] else Digits(n / 10) + [DigitChar(n % 10)]
  }

  /** Arduino's `Print::print(long)` and Python's `str(int)`. */
  function Print(i: int): (s: string)
    ensures s != "" && (forall k :: 0 <= k < |s| ==> IsDigit(s[k]) || s[k] == '-')
  {
    if i < 0 then "-" + Digits(-i) else Digits(i)
  }

  lemma {:induction false} ValueOfDigits(n: nat)
    ensures Value(Digits(n)) == n
  {
    if n >= 10 {
      ValueOfDigits(n / 10);
      var s := Digits(n);
      assert s[..|s| - 1] == Digits(n / 10);
    } else {
      assert Digits(n)[..0] == "";
    }
  }

  lemma {:induction false} PrefixValueAtMost(s: string, k: nat)
    requires AllDigits(s) && k <= |s|
    ensures Value(s[..k]) <= Value(s)
    decreases |s|
  {
    if k < |s| {
      var t := s[..|s| - 1];
      PrefixValueAtMost(t, k);
      assert t[..k] == s[..k];
    } else {
      assert s[..k] == s;
    }
  }

  lemma {:induction false} DigitsLength(n: nat, k: nat)
    requires k >= 1 && n < Pow10(k)
    ensures |Digits(n)| <= k
  {
    if n >= 10 { DigitsLength(n / 10, k - 1); }
  }

  function Pow10(k: nat): (p: nat)
    ensures p >= 1
  {
    if k == 0 then 1 else 10 * Pow10(k - 1)
  }

  // ---------------------------------------------------------------- numerals

  /** The digits of a token once an optional leading minus sign is removed. */
  function Magnitude(t: string): (r: string) {
    if t != "" && t[0] == '-' then t[1..] else t
  }

  predicate IsNumeral(t: string) { Magnitude(t) != "" && AllDigits(Magnitude(t)) }

  function NumeralValue(t: string): (r: int)
    requires IsNumeral(t)
  {
    var v: int := Value(Magnitude(t));
    if t[0] == '-' then -v else v
  }

  /** Declarative meaning of a bounded numeric argument: an optional minus, one
      or more digits, magnitude at most 99999, and inside the caller's range. */
  predicate Accepted(t: string, lo: int, hi: int, v: int) {
    IsNumeral(t) && NumeralValue(t) == v && -99999 <= v <= 99999 && lo <= v <= hi
  }

  lemma PrintIsNumeral(i: int)
    ensures IsNumeral(Print(i)) && NumeralValue(Print(i)) == i
  {
    if i < 0 {
      ValueOfDigits(-i);
      assert Print(i)[1..] == Digits(-i);
    } else {
      ValueOfDigits(i);
      assert IsDigit(Digits(i)[0]);
    }
  }

  /** Every value in range is accepted in its printed form, as itself and as
      nothing else. */
  lemma PrintAccepted(i: int, lo: int, hi: int, v: int)
    requires -99999 <= i <= 99999 && lo <= i <= hi
    ensures Accepted(Print(i), lo, hi, v) <==> v == i
  {
    PrintIsNumeral(i);
  }

  /** The firmware's accumulator: one step past the 99999 cut-off and no further,
      so the 32-bit `long` of the board cannot overflow. */
  type Accumulator = x: int | 0 <= x <= 999_999

  /** The same reader as a value, for use in specifications. */
  function ReadSigned(token: Option<string>, lo: int, hi: int): (r: Option<int>)
    ensures forall v :: r == Some(v) <==> token.Some? && Accepted(token.value, lo, hi, v)
  {
    if token.None? || !IsNumeral(token.value) then None
    else
      var v := NumeralValue(token.value);
      if -99999 <= v <= 99999 && lo <= v <= hi then Some(v) else None
  }

  /** `parseSigned`: one pass over the characters, giving up as soon as the
      accumulator passes 99999. */
  method ParseSigned(token: Option<string>, lo: int, hi: int) returns (r: Option<int>)
    ensures forall v :: r == Some(v) <==> token.Some? && Accepted(token.value, lo, hi, v)
    ensures r == ReadSigned(token, lo, hi)
  {
    if token.None? || token.value == "" { return None; }
    var t := token.value;
    var negative := t[0] == '-';
    if negative && |t| == 1 { return None; }
    ghost var digits := Magnitude(t);
    var start := if negative then 1 else 0;
    var p := start;
    var parsed: Accumulator := 0;
    while p < |t|
      invariant start <= p <= |t|
      invariant AllDigits(t[start..p])
      invariant parsed == Value(t[start..p]) && parsed <= 99999
    {
      if t[p] < '0' || t[p] > '9' {
        assert digits[p - start] == t[p];
        return None;
      }
      assert t[start..p + 1][..p - start] == t[start..p];
      parsed := parsed * 10 + DigitValue(t[p]);
      if parsed > 99999 {
        if AllDigits(digits) {
          PrefixValueAtMost(digits, p + 1 - start);
          assert digits[..p + 1 - start] == t[start..p + 1];
        }
        return None;
      }
      p := p + 1;
    }
    assert t[start..] == t[start..p] == digits;
    var v: int := parsed;
    if negative { v := -v; }
    if v < lo || v > hi { return None; }
    r := Some(v);
  }
}
