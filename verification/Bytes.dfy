/** Fixed-width integers and their little-endian byte strings. */
module Bytes {

  const U16_SPAN := 0x1_0000
  const U32_SPAN := 0x1_0000_0000
  const U64_SPAN := 0x1_0000_0000_0000_0000

  type u8 = x: int | 0 <= x < 0x100
  type u16 = x: int | 0 <= x < U16_SPAN
  type u32 = x: int | 0 <= x < U32_SPAN
  type u64 = x: int | 0 <= x < U64_SPAN

  /** The number of values that `width` bytes can hold. */
  function Span(width: nat): (n: nat)
    ensures n > 0
  {
    if width == 0 then 1 else 0x100 * Span(width - 1)
  }

  /** The low `width` bytes of `x`, least significant first. */
  function LE(width: nat, x: nat): (b: seq<u8>)
    ensures |b| == width
  {
    if width == 0 then [] else [x % 0x100] + LE(width - 1, x / 0x100)
  }

  function FromLE(b: seq<u8>): nat {
    if b == [] then 0 else b[0] + 0x100 * FromLE(b[1..])
  }

  lemma Spans()
    ensures Span(1) == 0x100 && Span(2) == U16_SPAN && Span(4) == U32_SPAN && Span(8) == U64_SPAN
  {
    assert Span(3) == 0x100_0000 && Span(5) == 0x100_0000_0000;
    assert Span(6) == 0x1_0000_0000_0000 && Span(7) == 0x100_0000_0000_0000;
  }

  /** Writing a value that fits and reading it back. */
  lemma {:induction false} ReadWritten(width: nat, x: nat)
    requires x < Span(width)
    ensures FromLE(LE(width, x)) == x
  {
    if width > 0 {
      ReadWritten(width - 1, x / 0x100);
    }
  }

  /** Reading bytes and writing them back. */
  lemma {:induction false} WrittenRead(b: seq<u8>)
    ensures FromLE(b) < Span(|b|)
    ensures LE(|b|, FromLE(b)) == b
  {
    if b != [] {
      WrittenRead(b[1..]);
      assert FromLE(b) / 0x100 == FromLE(b[1..]);
    }
  }

  /** Which byte comes first: byte `i` holds the digit of 256^i, so that the least significant byte leads. */
  lemma {:induction false} ByteOf(width: nat, x: nat, i: nat)
    requires i < width
    ensures LE(width, x)[i] == x / Span(i) % 0x100
  {
    if i > 0 {
      ByteOf(width - 1, x / 0x100, i - 1);
      DivideTwice(x, Span(i - 1));
    }
  }

  lemma DivideTwice(x: nat, n: nat)
    requires n > 0
    ensures x / 0x100 / n == x / (0x100 * n)
  {
    var q, r := x / 0x100, x % 0x100;
    var q', r' := q / n, q % n;
    assert q == n * q' + r';
    assert x == 0x100 * (n * q' + r') + r == (0x100 * n) * q' + (0x100 * r' + r);
    Quotient(x, 0x100 * n, q', 0x100 * r' + r);
  }

  lemma Quotient(x: nat, d: nat, q: nat, r: nat)
    requires x == d * q + r && r < d
    ensures x / d == q
  {
    var q', r' := x / d, x % d;
    assert x == d * q' + r';
    if q' > q {
      Scaled(d, q + 1, q');
    } else if q' < q {
      Scaled(d, q' + 1, q);
    }
  }

  lemma Scaled(d: nat, a: nat, b: nat)
    requires a <= b
    ensures d * a <= d * b
  {
  }

  function High(x: nat, n: nat): nat
    requires n > 0
  {
    x / n
  }

  /** The bytes of a wide word are those of its low part and then those of its high part. */
  lemma {:induction false} LowThenHigh(low: nat, high: nat, x: nat)
    ensures LE(low + high, x) == LE(low, x) + LE(high, High(x, Span(low)))
  {
    if low > 0 {
      LowThenHigh(low - 1, high, x / 0x100);
      DivideTwice(x, Span(low - 1));
    }
  }

  /** The widths that messages use, byte by byte. */
  lemma {:induction false} LittleEndian(x: u64)
    ensures x < U16_SPAN ==> LE(2, x) == [x % 0x100, x / 0x100]
    ensures x < U32_SPAN ==> LE(4, x) == [x % 0x100, x / 0x100 % 0x100, x / 0x1_0000 % 0x100, x / 0x100_0000]
    ensures LE(8, x) == LE(4, x) + LE(4, x / U32_SPAN)
  {
    Spans();
    assert Span(3) == 0x100_0000;
    LowThenHigh(4, 4, x);
    OneByte(x);
    OneByte(x / 0x100);
    OneByte(x / 0x1_0000);
    OneByte(x / 0x100_0000);
    LowThenHigh(1, 1, x);
    LowThenHigh(2, 2, x);
    LowThenHigh(1, 1, x / 0x1_0000);
    hide LE, Span;
  }

  lemma {:induction false} OneByte(x: nat)
    ensures LE(1, x) == [x % 0x100]
  {
    assert LE(1, x) == [x % 0x100] + LE(0, x / 0x100);
  }
}
