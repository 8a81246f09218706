/** Fixed-width machine words of the board (an 8-bit AVR, little-endian). */
module Words {
  const TWO16: int := 0x1_0000
  const TWO32: int := 0x1_0000_0000

  type byte = x: int | 0 <= x < 0x100
  type u16 = x: int | 0 <= x < 0x1_0000
  type i16 = x: int | -0x8000 <= x < 0x8000
  type u32 = x: int | 0 <= x < 0x1_0000_0000

  /** Truncation to 32 bits; also the result of unsigned 32-bit subtraction. */
  function U32(x: int): (r: u32) { x % TWO32 }

  function U16(x: int): (r: u16) { x % TWO16 }

  /** Truncation to a signed 16-bit `int`. */
  function I16(x: int): (r: i16) { (x + 0x8000) % TWO16 - 0x8000 }

  lemma I16Sum(a: int, b: int)
    ensures I16(I16(a) + b) == I16(a + b)
  {}

  function Bytes16(x: u16): (r: seq<byte>) { [x % 0x100, x / 0x100] }

  function Word16(b: seq<byte>): (r: u16)
    requires |b| == 2
  {
    var lo: int, hi: int := b[0], b[1];
    lo + 0x100 * hi
  }

  lemma WordRoundTrip(x: u16)
    ensures Word16(Bytes16(x)) == x
  {}

  /** Two's complement reading of two bytes. */
  function Int16(b: seq<byte>): (r: i16)
    requires |b| == 2
  {
    var w := Word16(b);
    var x: int := w;
    if x < 0x8000 then x else x - TWO16
  }

  function Bit(b: bool): (x: byte)
    ensures x <= 1
  {
    if b then 1 else 0
  }

  function Flatten<T>(parts: seq<seq<T>>): (r: seq<T>) {
    if parts == [] then [] else parts[0] + Flatten(parts[1..])
  }

  // ---------------------------------------------------------------- sequences

  lemma Assoc<T>(a: seq<T>, b: seq<T>, c: seq<T>)
    ensures (a + b) + c == a + (b + c)
  {}

  lemma HeadFirst<T>(a: seq<T>, b: seq<T>)
    requires a != []
    ensures a + b == [a[0]] + (a[1..] + b)
  {}

  lemma NothingBefore<T>(b: seq<T>)
    ensures [] + b == b
  {}

  lemma FlattenCons<T>(part: seq<T>, parts: seq<seq<T>>)
    ensures Flatten([part] + parts) == part + Flatten(parts)
  {
    assert ([part] + parts)[1..] == parts;
  }

  lemma {:induction false} FlattenAppend<T>(a: seq<seq<T>>, b: seq<seq<T>>)
    ensures Flatten(a + b) == Flatten(a) + Flatten(b)
  {
    if a == [] {
      NothingBefore(b);
      NothingBefore(Flatten(b));
    } else {
      FlattenAppend(a[1..], b);
      HeadFirst(a, b);
      FlattenCons(a[0], a[1..] + b);
      Assoc(a[0], Flatten(a[1..]), Flatten(b));
    }
  }
}
