/**
  G.711 expansion (ITU-T G.711, RFC 3551 section 4.5.14) to little-endian signed
  PCM16, and the sample-doubling upsampler from 8 kHz to 16 kHz.
 */
module G711 {
  import opened Common

  datatype Codec = PCMA | PCMU

  function Pow2(e: nat): (p: nat)
    ensures p >= 1
  {
    if e == 0 then 1 else 2 * Pow2(e - 1)
  }

  function DecodeMulaw(value: Byte): int {
    var decoded := 255 - value;
    var exponent := (decoded / 16) % 8;
    var mantissa := decoded % 16;
    var sample := (mantissa * 8 + 0x84) * Pow2(exponent) - 0x84;
    if decoded >= 128 then -sample else sample
  }

  /** Every second bit of an A-law byte travels inverted. */
  function DecodeAlaw(value: Byte): int {
    ExpandAlaw(((value as bv8) ^ 0x55) as int)
  }

  function ExpandAlaw(decoded: Byte): int {
    var exponent := (decoded / 16) % 8;
    var mantissa := decoded % 16;
    var sample :=
      if exponent == 0 then mantissa * 16 + 8
      else if exponent == 1 then mantissa * 16 + 0x108
      else (mantissa * 16 + 0x108) * Pow2(exponent - 1);
    if decoded >= 128 then sample else -sample
  }

  lemma {:induction false} SegmentScale(e: nat)
    requires e < 8
    ensures Pow2(e) <= 128 && (e < 7 ==> Pow2(e) <= 64)
  {
    assert Pow2(0) == 1 && Pow2(1) == 2 && Pow2(2) == 4 && Pow2(3) == 8;
    assert Pow2(4) == 16 && Pow2(5) == 32 && Pow2(6) == 64 && Pow2(7) == 128;
  }

  lemma {:induction false} ScaledBound(x: nat, e: nat, xMax: nat, pMax: nat)
    requires x <= xMax && Pow2(e) <= pMax
    ensures 0 <= x * Pow2(e) <= xMax * pMax
  {
  }

  /** No byte expands outside the signed 16-bit range, so packing never overflows. */
  lemma {:induction false} MulawFitsPcm16(value: Byte)
    ensures -32768 <= DecodeMulaw(value) < 32768
  {
    var decoded := 255 - value;
    var exponent := (decoded / 16) % 8;
    SegmentScale(exponent);
    ScaledBound(decoded % 16 * 8 + 0x84, exponent, 252, 128);
  }

  lemma {:induction false} AlawFitsPcm16(value: Byte)
    ensures -32768 <= DecodeAlaw(value) < 32768
  {
    hide ExpandAlaw;
    ExpandedFits(((value as bv8) ^ 0x55) as int);
  }

  lemma {:induction false} ExpandedFits(decoded: Byte)
    ensures -32768 <= ExpandAlaw(decoded) < 32768
  {
    var exponent := (decoded / 16) % 8;
    if exponent >= 2 {
      SegmentScale(exponent - 1);
      ScaledBound(decoded % 16 * 16 + 0x108, exponent - 1, 504, 64);
    }
  }

  function DecodeSample(codec: Codec, value: Byte): (sample: int)
    ensures -32768 <= sample < 32768
  {
    match codec
    case PCMA => AlawFitsPcm16(value); DecodeAlaw(value)
    case PCMU => MulawFitsPcm16(value); DecodeMulaw(value)
  }

  /** Two's complement, low byte first. */
  function PackSample(sample: int): (b: Bytes)
    requires -32768 <= sample < 32768
    ensures |b| == 2
  {
    var u := sample % 65536;
    [u % 256, u / 256]
  }

  function UnpackSample(b: Bytes): int
    requires |b| == 2
  {
    var u: int := b[0] as int + 256 * b[1] as int;
    if u < 32768 then u else u - 65536
  }

  lemma {:induction false} PackRoundTrip(sample: int)
    requires -32768 <= sample < 32768
    ensures UnpackSample(PackSample(sample)) == sample
  {
  }

  function Decode(codec: Codec, payload: Bytes): (pcm: Bytes)
    ensures |pcm| == 2 * |payload|
  {
    if payload == [] then [] else PackSample(DecodeSample(codec, payload[0])) + Decode(codec, payload[1..])
  }

  /** Every sample written twice. */
  function Upsampled(pcm: Bytes): (out: Bytes)
    requires |pcm| % 2 == 0
    ensures |out| == 2 * |pcm|
  {
    seq(2 * |pcm|, k requires 0 <= k < 2 * |pcm| => pcm[2 * (k / 4) + k % 2])
  }

  lemma {:induction false} DecodedAt(codec: Codec, payload: Bytes, i: nat)
    requires i < |payload|
    ensures Decode(codec, payload)[2 * i..2 * i + 2] == PackSample(DecodeSample(codec, payload[i]))
  {
    hide DecodeSample;
    hide PackSample;
    var head := PackSample(DecodeSample(codec, payload[0]));
    var rest := Decode(codec, payload[1..]);
    if i == 0 {
      assert (head + rest)[..2] == head;
    } else {
      DecodedAt(codec, payload[1..], i - 1);
      assert (head + rest)[2 * i..2 * i + 2] == rest[2 * (i - 1)..2 * (i - 1) + 2];
    }
  }

  /** The 16 kHz bytes one packet contributes. */
  function AudioBytes(codec: Codec, payload: Bytes): (out: Bytes)
    ensures |out| == 4 * |payload|
  {
    Upsampled(Decode(codec, payload))
  }

  /** Both output samples of input byte `i` unpack to the G.711 expansion of that byte. */
  lemma {:induction false} AudioBytesAt(codec: Codec, payload: Bytes, i: nat)
    requires i < |payload|
    ensures UnpackSample(AudioBytes(codec, payload)[4 * i..4 * i + 2]) == DecodeSample(codec, payload[i])
    ensures UnpackSample(AudioBytes(codec, payload)[4 * i + 2..4 * i + 4]) == DecodeSample(codec, payload[i])
  {
    hide Decode;
    hide DecodeSample;
    hide PackSample;
    hide UnpackSample;
    hide Upsampled;
    DecodedAt(codec, payload, i);
    PackRoundTrip(DecodeSample(codec, payload[i]));
    UpsampledAt(Decode(codec, payload), i);
  }

  lemma {:induction false} EvenThenOdd(n: nat, half: nat)
    requires n == 2 * half
    ensures n % 2 == 0 && (n + 1) % 2 == 1
  {
  }

  lemma {:induction false} QuarterOf(i: nat)
    ensures (4 * i) / 4 == i && (4 * i + 1) / 4 == i && (4 * i + 2) / 4 == i && (4 * i + 3) / 4 == i
    ensures (4 * i) % 2 == 0 && (4 * i + 1) % 2 == 1 && (4 * i + 2) % 2 == 0 && (4 * i + 3) % 2 == 1
  {
    EvenThenOdd(4 * i, 2 * i);
    EvenThenOdd(4 * i + 2, 2 * i + 1);
  }

  lemma {:induction false} UpsampledAt(pcm: Bytes, i: nat)
    requires |pcm| % 2 == 0 && 2 * i + 2 <= |pcm|
    ensures Upsampled(pcm)[4 * i..4 * i + 2] == pcm[2 * i..2 * i + 2]
    ensures Upsampled(pcm)[4 * i + 2..4 * i + 4] == pcm[2 * i..2 * i + 2]
  {
    QuarterOf(i);
    assert Upsampled(pcm)[4 * i] == pcm[2 * i] && Upsampled(pcm)[4 * i + 1] == pcm[2 * i + 1];
    assert Upsampled(pcm)[4 * i + 2] == pcm[2 * i] && Upsampled(pcm)[4 * i + 3] == pcm[2 * i + 1];
  }

  lemma {:induction false} FourUpsampled(pcm: Bytes, index: nat)
    requires |pcm| % 2 == 0 && index % 2 == 0 && index + 2 <= |pcm|
    ensures var up := Upsampled(pcm);
      && up[2 * index] == pcm[index] && up[2 * index + 1] == pcm[index + 1]
      && up[2 * index + 2] == pcm[index] && up[2 * index + 3] == pcm[index + 1]
  {
    var i := index / 2;
    assert index == 2 * i;
    QuarterOf(i);
  }

  lemma {:induction false} FourMore(bytes: Bytes, target: Bytes, from: nat)
    requires from + 4 <= |bytes| == |target| && bytes[..from] == target[..from]
    requires bytes[from] == target[from] && bytes[from + 1] == target[from + 1]
    requires bytes[from + 2] == target[from + 2] && bytes[from + 3] == target[from + 3]
    ensures bytes[..from + 4] == target[..from + 4]
  {
  }

  /** The upsampling loop, filling a preallocated buffer two samples at a time. */
  method Upsample(pcm: Bytes) returns (out: Bytes)
    requires |pcm| % 2 == 0
    ensures out == Upsampled(pcm)
  {
    hide Upsampled;
    var output := new Byte[2 * |pcm|](_ => 0);
    var index, outputIndex := 0, 0;
    while index < |pcm|
      invariant 0 <= index <= |pcm| && index % 2 == 0 && outputIndex == 2 * index
      invariant output[..outputIndex] == Upsampled(pcm)[..outputIndex]
    {
      FourUpsampled(pcm, index);
      ghost var before := output[..];
      output[outputIndex], output[outputIndex + 1] := pcm[index], pcm[index + 1];
      output[outputIndex + 2], output[outputIndex + 3] := pcm[index], pcm[index + 1];
      assert output[..outputIndex] == before[..outputIndex];
      FourMore(output[..], Upsampled(pcm), outputIndex);
      outputIndex := outputIndex + 4;
      index := index + 2;
    }
    out := output[..];
  }
}
