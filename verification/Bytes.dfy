/** Bytes and the big-endian integers built from them. */
module Bytes {
  type Byte = b: int | 0 <= b < 256

  function U16(n: nat): (s: seq<Byte>)
    ensures |s| == 2
  {
    [n / 256 % 256, n % 256]
  }

  function U24(n: nat): (s: seq<Byte>)
    ensures |s| == 3
  {
    [n / 65536 % 256, n / 256 % 256, n % 256]
  }

  function Read16(hi: Byte, lo: Byte): nat {
    256 * hi + lo
  }

  function Read24(hi: Byte, mid: Byte, lo: Byte): nat {
    65536 * hi + 256 * mid + lo
  }

  lemma ReadsBack16(n: nat)
    requires n < 0x1_0000
    ensures Read16(U16(n)[0], U16(n)[1]) == n
  {
  }

  lemma ReadsBack24(n: nat)
    requires n < 0x100_0000
    ensures Read24(U24(n)[0], U24(n)[1], U24(n)[2]) == n
  {
    assert n / 65536 % 256 == n / 65536;
    assert n / 256 == 256 * (n / 65536) + n / 256 % 256;
  }

  lemma WritesBack16(hi: Byte, lo: Byte)
    ensures U16(Read16(hi, lo)) == [hi, lo]
  {
  }

  lemma WritesBack24(hi: Byte, mid: Byte, lo: Byte)
    ensures U24(Read24(hi, mid, lo)) == [hi, mid, lo]
  {
    var n := Read24(hi, mid, lo);
    assert n / 65536 == hi;
    assert n / 256 == 256 * hi + mid;
  }
}
