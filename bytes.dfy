/** Machine integers of the firmware and the 24-bit big-endian encoding the
    telemetry frame uses for capacitance values. */
module Bytes {

  /** An 8-bit unsigned value (uint8_t). */
  type byte = x: int | 0 <= x < 0x100

  const Two24: nat := 0x100_0000
  const Two32: nat := 0x1_0000_0000

  /** A 32-bit unsigned value (uint32_t). */
  type u32 = x: int | 0 <= x < 0x1_0000_0000

  /** uint32_t arithmetic: the result of an addition wraps around modulo 2^32. */
  function Wrap32(x: nat): (r: u32)
    ensures x < Two32 ==> r == x
    ensures x >= Two32 ==> r < x
    ensures Two32 <= x < 2 * Two32 ==> r == x - Two32
  {
    x % Two32
  }

  /** Combines three received bytes, most significant first, into the
      unsigned 24-bit value `(b0 << 16) + (b1 << 8) + b2`. */
  function Combine24(b0: byte, b1: byte, b2: byte): (v: nat)
    ensures v < Two24
  {
    b0 * 0x1_0000 + b1 * 0x100 + b2
  }

  /** Splits a 32-bit value into the three bytes `(v >> 16) & 0xFF`,
      `(v >> 8) & 0xFF`, `v & 0xFF`; bits above the 24th are dropped. */
  function Split24(v: u32): (bytes: seq<byte>)
    ensures |bytes| == 3
  {
    [(v / 0x1_0000) % 0x100, (v / 0x100) % 0x100, v % 0x100]
  }

  /** Splitting a value below 2^24 and combining the bytes gives it back. */
  lemma SplitThenCombine(v: u32)
    requires v < Two24
    ensures var b := Split24(v); Combine24(b[0], b[1], b[2]) == v
  {
    var hi, lo := v / 0x100, v % 0x100;
    assert v == hi * 0x100 + lo;
    assert hi < 0x1_0000;
    var h, m := hi / 0x100, hi % 0x100;
    assert hi == h * 0x100 + m;
    DivDiv(v);
    assert v / 0x1_0000 == h;
    assert h < 0x100;
  }

  /** Combining three bytes and splitting the result gives the bytes back. */
  lemma CombineThenSplit(b0: byte, b1: byte, b2: byte)
    ensures Split24(Combine24(b0, b1, b2)) == [b0, b1, b2]
  {
    var v := Combine24(b0, b1, b2);
    assert v == (b0 * 0x100 + b1) * 0x100 + b2;
    assert v / 0x100 == b0 * 0x100 + b1;
    assert v % 0x100 == b2;
    DivDiv(v);
    assert v / 0x1_0000 == (b0 * 0x100 + b1) / 0x100 == b0;
  }

  /** Only the low 24 bits of a value reach the frame. */
  lemma SplitIgnoresHighBits(v: u32)
    ensures Split24(v) == Split24(v % Two24)
  {
    var w, q := v % Two24, v / Two24;
    assert v == (q * 0x100) * 0x1_0000 + w;
    ShiftOut(w, q * 0x100, 0x1_0000);
    ShiftOut(w / 0x1_0000, q, 0x100);
    assert v == (q * 0x1_0000) * 0x100 + w;
    ShiftOut(w, q * 0x1_0000, 0x100);
    ShiftOut(w / 0x100, q * 0x100, 0x100);
  }

  /** Adding a multiple of `k` adds to the quotient and leaves the remainder. */
  lemma ShiftOut(a: nat, n: nat, k: nat)
    requires k == 2 || k == 4 || k == 8 || k == 0x10 || k == 0x20 || k == 0x100 || k == 0x1_0000
    ensures (n * k + a) / k == n + a / k
    ensures (n * k + a) % k == a % k
  {
    var x := n * k + a;
    assert x == (n + a / k) * k + a % k;
    assert 0 <= a % k < k;
  }

  /** Dividing by 2^8 twice is dividing by 2^16. */
  lemma DivDiv(v: nat)
    ensures v / 0x1_0000 == (v / 0x100) / 0x100
  {
    var q := v / 0x100;
    var r := v % 0x100;
    var q2 := q / 0x100;
    var r2 := q % 0x100;
    assert v == q2 * 0x1_0000 + (r2 * 0x100 + r);
    assert 0 <= r2 * 0x100 + r < 0x1_0000;
  }
}
