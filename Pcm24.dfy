/** The PCM24 decoder `bytes_to_audio`: every 3-byte group of the buffer is a
    little-endian two's-complement 24-bit integer, scaled by 2^23 into [-1, 1). */
module Pcm24 {
  import opened Wrappers
  import opened Bytes

  /** 2^23, the scale of a 24-bit signed sample. */
  const FullScale: int := 0x80_0000
  const FullScaleReal: real := 8388608.0

  /** The group (b0, b1, b2) read little-endian; the three shifted ORs of the decoder
      touch disjoint bits, so they add. */
  function U24(b0: byte, b1: byte, b2: byte): nat
  {
    b0 + 256 * b1 + 65536 * b2
  }

  /** Sign extension: values at or above 0x800000 lose 0x1000000. */
  function SignExtend24(u: nat): (v: int)
    requires u < 0x100_0000
    ensures -FullScale <= v < FullScale
    ensures v == u || v == u - 0x100_0000
  {
    if u >= 0x80_0000 then u - 0x100_0000 else u
  }

  /** One decoded sample. */
  function Sample(b0: byte, b1: byte, b2: byte): real
  {
    SignExtend24(U24(b0, b1, b2)) as real / 8388608.0
  }

  /** The decoded groups of a buffer whose length is a multiple of three, in order. */
  function DecodeGroups(raw: seq<byte>): (r: seq<real>)
    requires |raw| % 3 == 0
    ensures |r| == |raw| / 3
  {
    if |raw| == 0 then [] else [Sample(raw[0], raw[1], raw[2])] + DecodeGroups(raw[3..])
  }

  /** `bytes_to_audio`: the reshape into rows of three raises ValueError when the
      length is not a multiple of three. */
  function BytesToAudio(raw: seq<byte>): (r: Result<seq<real>>)
    ensures r.Err? <==> |raw| % 3 != 0
    ensures r.Err? ==> r.error == ValueError
    ensures r.Ok? ==> |r.value| == |raw| / 3
  {
    if |raw| % 3 != 0 then Err(ValueError)
    else Ok(DecodeGroups(raw))
  }

  /** One sample per group, in order: sample k comes from bytes 3k, 3k+1, 3k+2. */
  lemma {:induction false} DecodeGroupsSpec(raw: seq<byte>)
    requires |raw| % 3 == 0
    ensures |DecodeGroups(raw)| == |raw| / 3
    ensures forall k :: 0 <= k < |raw| / 3 ==>
      DecodeGroups(raw)[k] == Sample(raw[3 * k], raw[3 * k + 1], raw[3 * k + 2])
    decreases |raw|
  {
    if |raw| > 0 {
      DecodeGroupsSpec(raw[3..]);
      forall k | 1 <= k < |raw| / 3
        ensures DecodeGroups(raw)[k] == Sample(raw[3 * k], raw[3 * k + 1], raw[3 * k + 2])
      {
        assert raw[3..][3 * (k - 1)] == raw[3 * k];
        assert raw[3..][3 * (k - 1) + 1] == raw[3 * k + 1];
        assert raw[3..][3 * (k - 1) + 2] == raw[3 * k + 2];
      }
    }
  }

  /** Every decoded sample lies in [-1, 1). */
  lemma SampleRange(b0: byte, b1: byte, b2: byte)
    ensures -1.0 <= Sample(b0, b1, b2) < 1.0
  {
    var v := SignExtend24(U24(b0, b1, b2));
    assert -FullScaleReal <= v as real < FullScaleReal;
  }

  lemma BytesToAudioRange(raw: seq<byte>)
    requires |raw| % 3 == 0
    ensures forall x :: x in BytesToAudio(raw).value ==> -1.0 <= x < 1.0
  {
    DecodeGroupsSpec(raw);
    var r := BytesToAudio(raw).value;
    forall k | 0 <= k < |r| ensures -1.0 <= r[k] < 1.0 {
      SampleRange(raw[3 * k], raw[3 * k + 1], raw[3 * k + 2]);
    }
  }

  lemma DecodeOne(b0: byte, b1: byte, b2: byte)
    ensures BytesToAudio([b0, b1, b2]) == Ok([Sample(b0, b1, b2)])
  {
    var raw := [b0, b1, b2];
    assert raw[3..] == [];
    var r := BytesToAudio(raw);
    assert r.Ok? && r.value == [Sample(b0, b1, b2)];
  }

  /** Only the all-zero group decodes to silence. */
  lemma SampleZero(b0: byte, b1: byte, b2: byte)
    ensures Sample(b0, b1, b2) == 0.0 <==> b0 == 0 && b1 == 0 && b2 == 0
  {
    var v := SignExtend24(U24(b0, b1, b2));
    assert v == 0 <==> U24(b0, b1, b2) == 0;
  }

  /** Boundary groups: the largest positive value, the most negative value and
      minus one step. A three-byte buffer decodes to the one sample of its group (`DecodeOne`). */
  lemma SampleMax()
    ensures Sample(0xFF, 0xFF, 0x7F) == (FullScale - 1) as real / FullScaleReal
  {
    assert U24(0xFF, 0xFF, 0x7F) == 0x7F_FFFF;
    assert SignExtend24(0x7F_FFFF) == 0x7F_FFFF;
  }

  lemma SampleMin()
    ensures Sample(0x00, 0x00, 0x80) == -1.0
  {
    assert U24(0x00, 0x00, 0x80) == 0x80_0000;
    assert SignExtend24(0x80_0000) == -0x80_0000;
  }

  lemma SampleMinusOne()
    ensures Sample(0xFF, 0xFF, 0xFF) == -1.0 / FullScaleReal
  {
    assert U24(0xFF, 0xFF, 0xFF) == 0xFF_FFFF;
    assert SignExtend24(0xFF_FFFF) == -1;
  }

  lemma {:induction false} DecodeGroupsAppend(a: seq<byte>, b: seq<byte>)
    requires |a| % 3 == 0 && |b| % 3 == 0
    ensures DecodeGroups(a + b) == DecodeGroups(a) + DecodeGroups(b)
    decreases |a|
  {
    if |a| == 0 {
      assert a + b == b;
    } else {
      DecodeGroupsAppend(a[3..], b);
      assert (a + b)[3..] == a[3..] + b;
      assert (a + b)[0] == a[0] && (a + b)[1] == a[1] && (a + b)[2] == a[2];
      var first := Sample(a[0], a[1], a[2]);
      assert DecodeGroups(a + b) == [first] + DecodeGroups(a[3..] + b);
      assert DecodeGroups(a) == [first] + DecodeGroups(a[3..]);
    }
  }

  /** Decoding distributes over the concatenation of two 3-aligned buffers. */
  lemma DecodeAppend(a: seq<byte>, b: seq<byte>)
    requires |a| % 3 == 0 && |b| % 3 == 0
    ensures BytesToAudio(a + b) == Ok(BytesToAudio(a).value + BytesToAudio(b).value)
  {
    DecodeGroupsAppend(a, b);
  }

  /** The three little-endian two's-complement bytes of a 24-bit sample. */
  function Encode24(s: int): (r: seq<byte>)
    requires -FullScale <= s < FullScale
    ensures |r| == 3
  {
    var u := if s < 0 then s + 0x100_0000 else s;
    [u % 256, (u / 256) % 256, u / 65536]
  }

  predicate InRange24(ss: seq<int>) { forall i :: 0 <= i < |ss| ==> -FullScale <= ss[i] < FullScale }

  /** A whole buffer of 24-bit samples. */
  function EncodeAll(ss: seq<int>): (r: seq<byte>)
    requires InRange24(ss)
    ensures |r| == 3 * |ss|
  {
    if |ss| == 0 then [] else Encode24(ss[0]) + EncodeAll(ss[1..])
  }

  function Scaled(ss: seq<int>): (r: seq<real>)
    ensures |r| == |ss|
  {
    if |ss| == 0 then [] else [ss[0] as real / FullScaleReal] + Scaled(ss[1..])
  }

  /** Encoding one sample and decoding it gives s / 2^23. */
  lemma EncodeDecode24(s: int)
    requires -FullScale <= s < FullScale
    ensures BytesToAudio(Encode24(s)) == Ok([s as real / FullScaleReal])
  {
    var r := Encode24(s);
    var u := if s < 0 then s + 0x100_0000 else s;
    assert U24(r[0], r[1], r[2]) == u;
    assert SignExtend24(u) == s;
    assert r == [r[0], r[1], r[2]];
    DecodeOne(r[0], r[1], r[2]);
  }

  /** Round trip over a whole buffer. */
  lemma {:induction false} EncodeDecodeAll(ss: seq<int>)
    requires InRange24(ss)
    ensures BytesToAudio(EncodeAll(ss)) == Ok(Scaled(ss))
    decreases |ss|
  {
    if |ss| > 0 {
      EncodeDecode24(ss[0]);
      EncodeDecodeAll(ss[1..]);
      DecodeAppend(Encode24(ss[0]), EncodeAll(ss[1..]));
    }
  }
}
