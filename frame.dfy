/**
 * The wire record of a completed call: the session's magic, `json_length`
 * and `sample_count` fields, then the metadata text, then the raw samples,
 * sent as five buffers in one gathered write.
 */
module Frames {

  import opened Wrappers
  import opened Wire
  import opened SessionStore

  /** 'PZZA' read as a little-endian 4-byte integer. */
  const Magic: int := 0x415A5A50

  const HeaderSize: nat := SizeOfInt + SizeOfSizeT + SizeOfInt

  /** The five buffers of the gathered write, in the order the frame requires. */
  function SendBuffers(s: Session): (r: seq<seq<byte>>)
    requires 0 <= s.sampleCount <= |s.samples|
    ensures |r| == 5
  {
    [ LittleEndian(Unsigned32(s.magic), SizeOfInt),
      LittleEndian(s.jsonLength, SizeOfSizeT),
      LittleEndian(Unsigned32(s.sampleCount), SizeOfInt),
      s.jsonString,
      SampleBytes(s.samples[..s.sampleCount]) ]
  }

  /** Five buffers sent one after another are their bytes in order. */
  lemma ConcatFive(b: seq<seq<byte>>)
    requires |b| == 5
    ensures Concat(b) == b[0] + b[1] + b[2] + b[3] + b[4]
  {
    assert b[..4][..3][..2][..1][..0] == [];
    assert Concat(b[..1]) == b[0];
    assert Concat(b[..2]) == b[0] + b[1] by { assert b[..2][..1] == b[..1]; }
    assert Concat(b[..3]) == b[0] + b[1] + b[2] by { assert b[..3][..2] == b[..2]; }
    assert Concat(b[..4]) == b[0] + b[1] + b[2] + b[3] by { assert b[..4][..3] == b[..3]; }
    assert b[..5] == b;
  }

  /** The bytes the gathered write puts on the connection. */
  function Frame(s: Session): (r: seq<byte>)
    requires 0 <= s.sampleCount <= |s.samples|
    ensures |r| == HeaderSize + |s.jsonString| + SizeOfInt16 * s.sampleCount
  {
    ConcatFive(SendBuffers(s));
    Concat(SendBuffers(s))
  }

  lemma FrameLayout(s: Session)
    requires 0 <= s.sampleCount <= |s.samples|
    ensures Frame(s) == LittleEndian(Unsigned32(s.magic), SizeOfInt)
                      + LittleEndian(s.jsonLength, SizeOfSizeT)
                      + LittleEndian(Unsigned32(s.sampleCount), SizeOfInt)
                      + s.jsonString
                      + SampleBytes(s.samples[..s.sampleCount])
  {
    ConcatFive(SendBuffers(s));
  }

  /** The frame is 4 + 8 + 4 header bytes, the metadata text and two bytes per sample. */
  lemma FrameSize(s: Session)
    requires 0 <= s.sampleCount <= |s.samples|
    ensures |Frame(s)| == SizeOfInt + SizeOfSizeT + SizeOfInt + |s.jsonString| + SizeOfInt16 * s.sampleCount
    ensures s.jsonLength == |s.jsonString| ==>
      |Frame(s)| == SizeOfInt + SizeOfSizeT + SizeOfInt + s.jsonLength + SizeOfInt16 * s.sampleCount
  {
    FrameLayout(s);
  }

  /** What a receiver does with one frame: None for a frame that is not well formed. */
  function Decode(b: seq<byte>): Option<Session> {
    if |b| < HeaderSize then None
    else
      var magic := Signed32(FromLittleEndian(b[0..4]));
      var jsonLength := FromLittleEndian(b[4..12]);
      var sampleCount := Signed32(FromLittleEndian(b[12..16]));
      if magic != Magic || sampleCount < 0 || |b| != HeaderSize + jsonLength + SizeOfInt16 * sampleCount then None
      else
        Some(Session(magic, jsonLength, sampleCount, b[16..16 + jsonLength], DecodeSamples(b[16 + jsonLength..])))
  }

  /** A session as `call_end` leaves it before sending: marked, metadata measured, count in step. */
  predicate ReadyToSend(s: Session) {
    && s.magic == Magic
    && s.jsonLength == |s.jsonString| < Pow256(SizeOfSizeT)
    && Consistent(s)
    && s.sampleCount < 0x8000_0000
  }

  /** The header fields read back from the first sixteen bytes of a frame. */
  lemma HeaderRoundTrip(s: Session, f: seq<byte>)
    requires ReadyToSend(s) && f == Frame(s)
    ensures |f| == HeaderSize + s.jsonLength + SizeOfInt16 * s.sampleCount
    ensures Signed32(FromLittleEndian(f[0..4])) == s.magic
    ensures FromLittleEndian(f[4..12]) == s.jsonLength
    ensures Signed32(FromLittleEndian(f[12..16])) == s.sampleCount
    ensures f[16..16 + s.jsonLength] == s.jsonString
    ensures f[16 + s.jsonLength..] == SampleBytes(s.samples)
  {
    FrameLayout(s);
    var m := LittleEndian(Unsigned32(s.magic), SizeOfInt);
    var l := LittleEndian(s.jsonLength, SizeOfSizeT);
    var c := LittleEndian(Unsigned32(s.sampleCount), SizeOfInt);
    assert s.samples[..s.sampleCount] == s.samples;
    var tail := SampleBytes(s.samples);
    assert f == m + l + c + s.jsonString + tail;
    assert f[0..4] == m;
    assert f[4..12] == l;
    assert f[12..16] == c;
    assert f[16..16 + s.jsonLength] == s.jsonString;
    assert f[16 + s.jsonLength..] == tail;
    LittleEndianRoundTrip(Unsigned32(s.magic), SizeOfInt);
    LittleEndianRoundTrip(s.jsonLength, SizeOfSizeT);
    LittleEndianRoundTrip(Unsigned32(s.sampleCount), SizeOfInt);
    Signed32OfUnsigned32(s.magic);
    Signed32OfUnsigned32(s.sampleCount);
  }

  /** A receiver recovers every field of the session from its frame. */
  lemma FrameRoundTrip(s: Session)
    requires ReadyToSend(s)
    ensures Decode(Frame(s)) == Some(s)
  {
    var f := Frame(s);
    HeaderRoundTrip(s, f);
    SampleBytesRoundTrip(s.samples);
  }
}
