/** Bytes and the big-endian 32-bit words that every length prefix, metric and
    configuration field is written in. */
module Bytes {
  type byte = x: int | 0 <= x < 256

  const TWO_TO_THE_32 := 0x1_0000_0000

  /** `(n as u32).to_be_bytes()`: the cast drops everything above 32 bits. */
  function Be32(n: nat): (b: seq<byte>)
    ensures |b| == 4
  {
    [n / 0x100_0000 % 256, n / 0x1_0000 % 256, n / 0x100 % 256, n % 256]
  }

  /** `u32::from_be_bytes`. */
  function FromBe32(b: seq<byte>): (n: nat)
    requires |b| == 4
    ensures n < TWO_TO_THE_32
  {
    var b0: int, b1: int, b2: int := b[0], b[1], b[2];
    b0 * 0x100_0000 + b1 * 0x1_0000 + b2 * 0x100 + b[3]
  }

  lemma Be32Truncates(n: nat)
    ensures FromBe32(Be32(n)) == n % TWO_TO_THE_32
  {
    var q1, q2, q3 := n / 0x100, n / 0x1_0000, n / 0x100_0000;
    assert q2 == q1 / 0x100 && q3 == q2 / 0x100;
    assert n == q1 * 0x100 + n % 0x100;
    assert q1 == q2 * 0x100 + q1 % 0x100;
    assert q2 == q3 * 0x100 + q2 % 0x100;
    assert q3 == q3 / 0x100 * 0x100 + q3 % 0x100;
    assert n == q3 / 0x100 * TWO_TO_THE_32 + FromBe32(Be32(n));
  }

  lemma Be32Inverts(b: seq<byte>)
    requires |b| == 4
    ensures Be32(FromBe32(b)) == b
  {
    var n, b0: int, b1: int, b2: int := FromBe32(b), b[0], b[1], b[2];
    assert n / 0x100 == b0 * 0x1_0000 + b1 * 0x100 + b2;
    assert n / 0x1_0000 == b0 * 0x100 + b1;
    assert n / 0x100_0000 == b0 && b0 % 0x100 == b0;
    assert n / 0x1_0000 % 0x100 == b1 && n / 0x100 % 0x100 == b2 && n % 0x100 == b[3];
  }
}
