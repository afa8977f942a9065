// VoiceInk-ios/RiffWaveUtils.swift: turning a 16-bit little-endian PCM WAV
// file (44-byte RIFF/WAVE header) into samples normalised to [-1, 1].
module RiffWave {
  import opened Base

  /** Size of the canonical RIFF/WAVE header that precedes the samples. */
  const HeaderSize: nat := 44

  const TooSmall: string := "Invalid WAV file - too small"

  predicate IsInt16(v: int) {
    -32768 <= v < 32768
  }

  /** `Int16(littleEndian:)` of the bytes `lo`, `hi`: two's complement. */
  function Int16LE(lo: Byte, hi: Byte): (v: int)
    ensures IsInt16(v)
    ensures hi < 128 <==> v >= 0
  {
    var u := lo + 256 * hi;
    if u >= 32768 then u - 65536 else u
  }

  /** The two bytes, low byte first, that store a 16-bit sample. */
  function LE16(v: int): (bytes: seq<Byte>)
    requires IsInt16(v)
    ensures |bytes| == 2
  {
    var u := if v < 0 then v + 65536 else v;
    [u % 256, u / 256]
  }

  lemma Int16RoundTrip(v: int)
    requires IsInt16(v)
    ensures Int16LE(LE16(v)[0], LE16(v)[1]) == v
  {
  }

  /** `max(-1, min(Float(short) / 32767, 1))`, on reals. */
  function Normalise(s: int): (x: real)
    ensures -1.0 <= x <= 1.0
    ensures s >= 0 <==> x >= 0.0
    ensures -32767 <= s <= 32767 ==> x == s as real / 32767.0
  {
    var q := s as real / 32767.0;
    if q > 1.0 then 1.0 else if q < -1.0 then -1.0 else q
  }

  /** The full-scale values of a 16-bit sample: the most negative one is
      clamped, the most positive maps exactly to 1. */
  lemma NormaliseEnds()
    ensures Normalise(-32768) == -1.0
    ensures Normalise(32767) == 1.0
    ensures Normalise(0) == 0.0
  {
  }

  /** Normalising never reverses the order of two samples. */
  lemma NormaliseMonotone(a: int, b: int)
    requires a <= b
    ensures Normalise(a) <= Normalise(b)
  {
  }

  // ---------------------------------------------------------------------------
  // The loop as written: `stride(from: 44, to: count, by: 2)`

  /** The offsets the stride visits for a file of `n` bytes. */
  function StrideOffsets(n: nat): (offsets: seq<nat>)
    ensures |offsets| == if n <= HeaderSize then 0 else (n - HeaderSize + 1) / 2
    ensures forall i :: 0 <= i < |offsets| ==> offsets[i] == HeaderSize + 2 * i && offsets[i] < n
  {
    if n <= HeaderSize then []
    else seq((n - HeaderSize + 1) / 2, i => HeaderSize + 2 * i)
  }

  /** Every visited offset reads the two bytes `offset` and `offset + 1`;
      both lie inside the file exactly when the payload length is even. */
  lemma StrideReadsInBoundsIffEven(n: nat)
    requires n > HeaderSize
    ensures (forall i :: 0 <= i < |StrideOffsets(n)| ==> StrideOffsets(n)[i] + 1 < n)
            <==> (n - HeaderSize) % 2 == 0
  {
    var offsets := StrideOffsets(n);
    var last := |offsets| - 1;
    if (n - HeaderSize) % 2 != 0 {
      assert offsets[last] + 1 == n;
    }
  }

  /** The smallest file the guard lets through already reads past its end:
      45 bytes visit offset 44 and read byte 45. */
  lemma OddPayloadReadsPastEnd()
    ensures |StrideOffsets(45)| == 1 && StrideOffsets(45)[0] + 1 == 45
  {
  }

  // ---------------------------------------------------------------------------
  // Decoding complete samples

  /** The 16-bit samples stored after the header: only complete pairs of
      bytes are read, so a trailing odd byte is ignored. */
  function Samples(data: seq<Byte>): (s: seq<int>)
    requires |data| >= HeaderSize
    ensures |s| == (|data| - HeaderSize) / 2
    ensures forall i :: 0 <= i < |s| ==> s[i] == SampleAt(data, i) && IsInt16(s[i])
  {
    seq((|data| - HeaderSize) / 2, i requires 0 <= i < (|data| - HeaderSize) / 2 => SampleAt(data, i))
  }

  /** Sample `i`: low byte at `44 + 2i`, high byte at `45 + 2i`. */
  function SampleAt(data: seq<Byte>, i: nat): int
    requires HeaderSize + 2 * i + 1 < |data|
  {
    Int16LE(data[HeaderSize + 2 * i], data[HeaderSize + 2 * i + 1])
  }

  /** `decodeWaveFile`: files of at most 44 bytes are rejected; otherwise the
      samples, in file order, each normalised. */
  function DecodeWave(data: seq<Byte>): (r: Result<seq<real>, string>)
    ensures |data| <= HeaderSize <==> r == Err(TooSmall)
    ensures r.Ok? ==> |r.value| == (|data| - HeaderSize) / 2
    ensures r.Ok? ==> forall i :: 0 <= i < |r.value| ==>
      -1.0 <= r.value[i] <= 1.0 && r.value[i] == Normalise(Samples(data)[i])
  {
    if |data| <= HeaderSize then Err(TooSmall)
    else
      var s := Samples(data);
      Ok(seq(|s|, i requires 0 <= i < |s| => Normalise(s[i])))
  }

  /** Serialises samples as little-endian 16-bit PCM. */
  function EncodePcm(samples: seq<int>): (bytes: seq<Byte>)
    requires forall i :: 0 <= i < |samples| ==> IsInt16(samples[i])
    ensures |bytes| == 2 * |samples|
  {
    if samples == [] then [] else LE16(samples[0]) + EncodePcm(samples[1..])
  }

  lemma {:induction false} EncodePcmAt(samples: seq<int>, i: nat)
    requires forall k :: 0 <= k < |samples| ==> IsInt16(samples[k])
    requires i < |samples|
    ensures EncodePcm(samples)[2 * i] == LE16(samples[i])[0]
    ensures EncodePcm(samples)[2 * i + 1] == LE16(samples[i])[1]
  {
    if i > 0 {
      EncodePcmAt(samples[1..], i - 1);
    }
  }

  lemma SampleReadsBack(header: seq<Byte>, samples: seq<int>, i: nat)
    requires |header| == HeaderSize && i < |samples|
    requires forall k :: 0 <= k < |samples| ==> IsInt16(samples[k])
    ensures Samples(header + EncodePcm(samples))[i] == samples[i]
  {
    var body := EncodePcm(samples);
    var data := header + body;
    EncodePcmAt(samples, i);
    var lo, hi := data[HeaderSize + 2 * i], data[HeaderSize + 2 * i + 1];
    assert lo == body[2 * i] == LE16(samples[i])[0];
    assert hi == body[2 * i + 1] == LE16(samples[i])[1];
    Int16RoundTrip(samples[i]);
    assert SampleAt(data, i) == Int16LE(lo, hi);
  }

  /** Reading back a header followed by encoded samples yields the samples. */
  lemma SamplesRoundTrip(header: seq<Byte>, samples: seq<int>)
    requires |header| == HeaderSize
    requires forall i :: 0 <= i < |samples| ==> IsInt16(samples[i])
    ensures Samples(header + EncodePcm(samples)) == samples
  {
    var s := Samples(header + EncodePcm(samples));
    assert |s| == |samples|;
    forall i | 0 <= i < |samples|
      ensures s[i] == samples[i]
    {
      SampleReadsBack(header, samples, i);
    }
  }

  /** A non-empty encoded recording decodes to its samples, normalised and
      in order. */
  lemma DecodeEncoded(header: seq<Byte>, samples: seq<int>)
    requires |header| == HeaderSize && samples != []
    requires forall i :: 0 <= i < |samples| ==> IsInt16(samples[i])
    ensures DecodeWave(header + EncodePcm(samples)).Ok?
    ensures var r := DecodeWave(header + EncodePcm(samples)).value;
      |r| == |samples| && forall i :: 0 <= i < |r| ==> r[i] == Normalise(samples[i])
  {
    SamplesRoundTrip(header, samples);
  }

  /** On even payloads the corrected decoder produces one value per offset
      the stride visits, so it agrees with the loop as written wherever
      that loop stays in bounds. */
  lemma DecodeMatchesStrideOnEvenPayload(data: seq<Byte>)
    requires |data| > HeaderSize && (|data| - HeaderSize) % 2 == 0
    ensures |DecodeWave(data).value| == |StrideOffsets(|data|)|
  {
  }
}
