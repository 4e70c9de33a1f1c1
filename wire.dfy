/**
 * Byte-level representation of the values the plugin puts on the wire.
 * The model fixes the host as little-endian, `int` as 4 bytes in two's
 * complement, `size_t` as 8 bytes and `int16_t` as 2 bytes in two's complement.
 */
module Wire {

  newtype byte = x: int | 0 <= x < 0x100
  newtype int16 = x: int | -0x8000 <= x < 0x8000

  const SizeOfInt: nat := 4
  const SizeOfSizeT: nat := 8
  const SizeOfInt16: nat := 2

  function Pow256(n: nat): (r: nat)
    ensures r > 0
  {
    if n == 0 then 1 else 256 * Pow256(n - 1)
  }

  /** The n bytes that store x in memory, least significant first (x is kept modulo 256^n). */
  function LittleEndian(x: nat, n: nat): (r: seq<byte>)
    ensures |r| == n
  {
    if n == 0 then [] else [(x % 256) as byte] + LittleEndian(x / 256, n - 1)
  }

  /** The unsigned value of bytes read least significant first. */
  function FromLittleEndian(b: seq<byte>): (r: nat)
    ensures r < Pow256(|b|)
  {
    if b == [] then 0
    else
      var rest := FromLittleEndian(b[1..]);
      assert rest <= Pow256(|b| - 1) - 1;
      assert 256 * rest <= 256 * Pow256(|b| - 1) - 256;
      b[0] as nat + 256 * rest
  }

  lemma {:induction false} LittleEndianRoundTrip(x: nat, n: nat)
    requires x < Pow256(n)
    ensures FromLittleEndian(LittleEndian(x, n)) == x
  {
    if n > 0 {
      var b := LittleEndian(x, n);
      assert b[0] == (x % 256) as byte;
      assert b[1..] == LittleEndian(x / 256, n - 1);
      assert x / 256 < Pow256(n - 1);
      LittleEndianRoundTrip(x / 256, n - 1);
    }
  }

  /** The bit pattern of a 4-byte `int`, as an unsigned number. */
  function Unsigned32(x: int): (r: nat)
    ensures r < 0x1_0000_0000
  {
    x % 0x1_0000_0000
  }

  /** The `int` value of a 4-byte bit pattern. */
  function Signed32(u: nat): int {
    if u >= 0x8000_0000 then u - 0x1_0000_0000 else u
  }

  /** The bit pattern of an `int16_t`, as an unsigned number. */
  function Unsigned16(s: int16): (r: nat)
    ensures r < 0x1_0000
  {
    (s as int) % 0x1_0000
  }

  /** The `int16_t` value of a 2-byte bit pattern. */
  function Signed16(u: nat): int16
    requires u < 0x1_0000
  {
    if u >= 0x8000 then (u - 0x1_0000) as int16 else u as int16
  }

  lemma Signed32OfUnsigned32(x: int)
    requires -0x8000_0000 <= x < 0x8000_0000
    ensures Signed32(Unsigned32(x)) == x
  {
  }

  lemma Signed16OfUnsigned16(s: int16)
    ensures Signed16(Unsigned16(s)) == s
  {
  }

  /** The raw bytes of a run of samples, as `samples.data()` holds them. */
  function SampleBytes(samples: seq<int16>): (r: seq<byte>)
    ensures |r| == SizeOfInt16 * |samples|
  {
    if samples == [] then []
    else LittleEndian(Unsigned16(samples[0]), SizeOfInt16) + SampleBytes(samples[1..])
  }

  /** Reads back a run of samples from raw bytes, two bytes each. */
  function DecodeSamples(b: seq<byte>): (r: seq<int16>)
    requires |b| % 2 == 0
    ensures |r| == |b| / 2
  {
    if b == [] then []
    else [Signed16(FromLittleEndian(b[..2]))] + DecodeSamples(b[2..])
  }

  lemma {:induction false} SampleBytesRoundTrip(samples: seq<int16>)
    ensures DecodeSamples(SampleBytes(samples)) == samples
  {
    if samples != [] {
      var b := SampleBytes(samples);
      var head := LittleEndian(Unsigned16(samples[0]), SizeOfInt16);
      assert b[..2] == head;
      assert b[2..] == SampleBytes(samples[1..]);
      LittleEndianRoundTrip(Unsigned16(samples[0]), SizeOfInt16);
      Signed16OfUnsigned16(samples[0]);
      SampleBytesRoundTrip(samples[1..]);
    }
  }

  /** The bytes of several buffers sent one after another, in order. */
  function Concat(buffers: seq<seq<byte>>): seq<byte> {
    if buffers == [] then [] else Concat(buffers[..|buffers| - 1]) + buffers[|buffers| - 1]
  }

  /** Sums the buffer sizes one buffer at a time, as the total in the frame sender does. */
  method TotalSize(buffers: seq<seq<byte>>) returns (total: nat)
    ensures total == |Concat(buffers)|
  {
    total := 0;
    var i := 0;
    while i < |buffers|
      invariant 0 <= i <= |buffers|
      invariant total == |Concat(buffers[..i])|
    {
      assert buffers[..i + 1][..i] == buffers[..i];
      total := total + |buffers[i]|;
      i := i + 1;
    }
    assert buffers[..i] == buffers;
  }
}
