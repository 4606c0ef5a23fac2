/** Bytes, PCM16 samples, and little-endian integers. */
module Bytes {
  type Byte = b: nat | b < 256

  type Sample = x: int | -0x8000 <= x < 0x8000

  type U16 = x: nat | x < 0x1_0000

  type U32 = x: nat | x < 0x1_0000_0000

  const TWO_TO_THE_32 := 0x1_0000_0000

  /** Unsigned 32-bit arithmetic wraps around. */
  function Wrap32(n: nat): U32 {
    n % TWO_TO_THE_32
  }

  function SampleOf(lo: Byte, hi: Byte): (s: Sample)
    ensures s % 0x1_0000 == lo + 256 * hi
  {
    var v := lo + 256 * hi;
    if v < 0x8000 then v else v - 0x1_0000
  }

  function SampleBytes(s: Sample): seq<Byte> {
    var v := if s < 0 then s + 0x1_0000 else s;
    [v % 256, v / 256]
  }

  lemma SampleRoundTrip(s: Sample)
    ensures SampleOf(SampleBytes(s)[0], SampleBytes(s)[1]) == s
  {
  }

  /** The whole samples in a byte string; an odd last byte belongs to none. */
  function Samples(bytes: seq<Byte>): (r: seq<Sample>)
    ensures |r| == |bytes| / 2
  {
    seq(|bytes| / 2, i requires 0 <= i < |bytes| / 2 => SampleOf(bytes[2 * i], bytes[2 * i + 1]))
  }

  function Le16(n: U16): (r: seq<Byte>)
    ensures |r| == 2
  {
    [n % 256, n / 256]
  }

  function Le32(n: U32): (r: seq<Byte>)
    ensures |r| == 4
  {
    [n % 256, n / 256 % 256, n / 0x1_0000 % 256, n / 0x100_0000]
  }

  function Read16(b: seq<Byte>): U16
    requires |b| == 2
  {
    var lo: int, hi: int := b[0], b[1];
    lo + 256 * hi
  }

  function Read32(b: seq<Byte>): U32
    requires |b| == 4
  {
    var b0: int, b1: int, b2: int, b3: int := b[0], b[1], b[2], b[3];
    b0 + 256 * b1 + 0x1_0000 * b2 + 0x100_0000 * b3
  }

  lemma Read32Le32(n: U32)
    ensures Read32(Le32(n)) == n
  {
    assert n / 0x1_0000 == n / 256 / 256 && n / 0x100_0000 == n / 256 / 256 / 256;
  }
}
