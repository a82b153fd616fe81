// 16-bit PCM samples, little-endian byte codecs and the canonical 44-byte
// mono WAV header that both the Piper and the Whisper services write.
module Pcm {

  type Byte = x: int | 0 <= x < 256
  type Int16 = x: int | -32768 <= x < 32768

  // ---------------------------------------------------------------- little endian

  /** Go's `byte(v)` and `byte(v & 0xFF)`: the two's-complement low byte. */
  function LowByte(v: int): Byte { v % 256 }

  /** Go's `byte(v >> 8)` and `byte((v >> 8) & 0xFF)` (arithmetic shift). */
  function HighByte(v: int): Byte { (v / 256) % 256 }

  function LE16(v: int): seq<Byte> { [LowByte(v), HighByte(v)] }

  /** Go's `int16(lo) | int16(hi) << 8`: the signed value of the two bytes. */
  function DecodeLE16(lo: Byte, hi: Byte): (v: Int16)
    ensures LE16(v) == [lo, hi]
  {
    var u := lo + 256 * hi;
    if u >= 32768 then u - 65536 else u
  }

  /** Encoding a 16-bit sample as its low and high byte and decoding the
      pair gives the sample back, for every sample. */
  lemma LE16RoundTrip(v: Int16)
    ensures DecodeLE16(LowByte(v), HighByte(v)) == v
  {
    var q, lo := v / 256, v % 256;
    assert v == 256 * q + lo && 0 <= lo < 256;
    if v >= 0 {
      assert 0 <= q < 128;
      assert HighByte(v) == q;
    } else {
      assert -128 <= q < 0;
      assert HighByte(v) == q + 256;
      assert LowByte(v) + 256 * HighByte(v) == v + 65536;
    }
  }

  /** The four bytes of `x` from least to most significant, each taken as
      `byte((x >> 8k) & 0xFF)`: the value modulo 2^32. */
  function LE32(x: nat): seq<Byte>
  {
    [x % 256, (x / 256) % 256, (x / 256 / 256) % 256, (x / 256 / 256 / 256) % 256]
  }

  function DecodeLE32(b: seq<Byte>): nat
    requires |b| == 4
  {
    b[0] as int + 256 * (b[1] as int + 256 * (b[2] as int + 256 * b[3] as int))
  }

  lemma LE32RoundTrip(x: nat)
    ensures DecodeLE32(LE32(x)) == x % 4294967296
  {
    var x1, x2, x3 := x / 256, x / 256 / 256, x / 256 / 256 / 256;
    var x4 := x3 / 256;
    var d := DecodeLE32(LE32(x));
    assert x == x % 256 + 256 * x1;
    assert x1 == x1 % 256 + 256 * x2;
    assert x2 == x2 % 256 + 256 * x3;
    assert x3 == x3 % 256 + 256 * x4;
    assert x == d + 4294967296 * x4;
    var r, k := x % 4294967296, x / 4294967296;
    assert x == r + 4294967296 * k;
    assert 4294967296 * (x4 - k) == r - d;
  }

  function DecodeLE16Unsigned(b: seq<Byte>): nat
    requires |b| == 2
  {
    b[0] as int + 256 * b[1] as int
  }

  // ---------------------------------------------------------------- float samples

  /** Samples outside [-1, 1] are pinned to the nearest bound. */
  function Clamp(x: real): (c: real)
    ensures -1.0 <= c <= 1.0
    ensures -1.0 <= x <= 1.0 ==> c == x
    ensures x > 1.0 ==> c == 1.0
    ensures x < -1.0 ==> c == -1.0
  {
    if x > 1.0 then 1.0 else if x < -1.0 then -1.0 else x
  }

  /** Go's and Python's float-to-integer conversion: truncation toward zero. */
  function Trunc(x: real): (t: int)
    ensures 0.0 <= x ==> 0 <= t && t as real <= x < t as real + 1.0
    ensures x < 0.0 ==> t <= 0 && t as real - 1.0 < x <= t as real
  {
    if x >= 0.0 then x.Floor else -((-x).Floor)
  }

  /** `int16(clamp(x) * 32767)`: the encoding used by the STT handler and by
      both WAV writers. */
  function Quantize(x: real): (v: Int16)
    ensures -32767 <= v <= 32767
    ensures (0.0 <= x) == (0 <= v) || v == 0
    ensures -1.0 < Clamp(x) * 32767.0 - v as real < 1.0
  {
    Trunc(Clamp(x) * 32767.0)
  }

  /** `float32(v) / 32768.0`: the decoding used by the Whisper service. */
  function Dequantize(v: Int16): (x: real)
    ensures -1.0 <= x < 1.0
  {
    v as real / 32768.0
  }

  /** Samples above 1.0 encode like 1.0 and samples below -1.0 like -1.0. */
  lemma QuantizeSaturates(x: real)
    ensures x >= 1.0 ==> Quantize(x) == Quantize(1.0) == 32767
    ensures x <= -1.0 ==> Quantize(x) == Quantize(-1.0) == -32767
  {
  }

  /** Because the decoder divides by 32768 but the WAV writer multiplies by
      32767, a decoded sample that is written back loses exactly one unit of
      magnitude (zero stays zero). */
  lemma RequantizeLosesOne(v: Int16)
    ensures v > 0 ==> Quantize(Dequantize(v)) == v - 1
    ensures v == 0 ==> Quantize(Dequantize(v)) == 0
    ensures v < 0 ==> Quantize(Dequantize(v)) == v + 1
  {
    var y := Dequantize(v) * 32767.0;
    assert Clamp(Dequantize(v)) == Dequantize(v);
    assert y == v as real - v as real / 32768.0;
    if v > 0 {
      assert (v - 1) as real <= y < v as real;
    } else if v < 0 {
      assert v as real < y <= (v + 1) as real;
    }
  }

  // ---------------------------------------------------------------- WAV header

  /** The bytes of an ASCII tag such as "RIFF". */
  function Ascii(s: string): (r: seq<Byte>)
    requires forall k :: 0 <= k < |s| ==> s[k] as int < 256
    ensures |r| == |s|
    ensures forall k :: 0 <= k < |s| ==> r[k] == s[k] as int
  {
    if s == [] then [] else [s[0] as int] + Ascii(s[1..])
  }

  /** The 44-byte header of a mono, 16-bit PCM WAV file holding `n` samples
      at `rate` Hz. */
  function WavHeader(rate: nat, n: nat): (h: seq<Byte>)
    ensures |h| == 44
  {
    Ascii("RIFF") + LE32(36 + 2 * n) + Ascii("WAVE")
    + Ascii("fmt ") + LE32(16) + LE16(1) + LE16(1)
    + LE32(rate) + LE32(2 * rate) + LE16(2) + LE16(16)
    + Ascii("data") + LE32(2 * n)
  }

  /** The fields a WAV reader takes from a 44-byte header. */
  datatype WavFormat = WavFormat(
    riffSize: nat, fmtSize: nat, audioFormat: nat, channels: nat,
    sampleRate: nat, byteRate: nat, blockAlign: nat, bitsPerSample: nat,
    dataSize: nat)

  predicate HasTags(h: seq<Byte>)
    requires |h| == 44
  {
    h[0..4] == Ascii("RIFF") && h[8..12] == Ascii("WAVE")
    && h[12..16] == Ascii("fmt ") && h[36..40] == Ascii("data")
  }

  function ParseWavHeader(h: seq<Byte>): WavFormat
    requires |h| == 44
  {
    WavFormat(
      DecodeLE32(h[4..8]), DecodeLE32(h[16..20]), DecodeLE16Unsigned(h[20..22]),
      DecodeLE16Unsigned(h[22..24]), DecodeLE32(h[24..28]), DecodeLE32(h[28..32]),
      DecodeLE16Unsigned(h[32..34]), DecodeLE16Unsigned(h[34..36]), DecodeLE32(h[40..44]))
  }

  /** Reading the header back gives the RIFF size 36 + 2n, a 16-byte PCM
      (format 1) mono chunk, the sample rate, a byte rate of two bytes per
      sample, block align 2, 16 bits per sample and a data size of 2n: each
      modulo 2^32, the width of the field. */
  lemma WavHeaderFields(rate: nat, n: nat)
    ensures HasTags(WavHeader(rate, n))
    ensures ParseWavHeader(WavHeader(rate, n)) == WavFormat(
      (36 + 2 * n) % 4294967296, 16, 1, 1, rate % 4294967296,
      (2 * rate) % 4294967296, 2, 16, (2 * n) % 4294967296)
  {
    WavHeaderTags(rate, n);
    WavHeaderSlices(rate, n);
    ParseFields(WavHeader(rate, n), 36 + 2 * n, rate, 2 * rate, 2 * n);
  }

  /** A header whose fields hold these encodings parses to their values. */
  lemma ParseFields(h: seq<Byte>, riff: nat, rate: nat, byteRate: nat, data: nat)
    requires |h| == 44
    requires h[4..8] == LE32(riff) && h[16..20] == LE32(16) && h[20..22] == LE16(1)
      && h[22..24] == LE16(1) && h[24..28] == LE32(rate) && h[28..32] == LE32(byteRate)
      && h[32..34] == LE16(2) && h[34..36] == LE16(16) && h[40..44] == LE32(data)
    ensures ParseWavHeader(h) == WavFormat(
      riff % 4294967296, 16, 1, 1, rate % 4294967296, byteRate % 4294967296, 2, 16, data % 4294967296)
  {
    LE32RoundTrip(riff);
    LE32RoundTrip(rate);
    LE32RoundTrip(byteRate);
    LE32RoundTrip(data);
  }

  lemma WavHeaderTags(rate: nat, n: nat)
    ensures HasTags(WavHeader(rate, n))
  {
    var h := WavHeader(rate, n);
    assert h[0..4] == Ascii("RIFF");
    assert h[8..12] == Ascii("WAVE");
    assert h[12..16] == Ascii("fmt ");
    assert h[36..40] == Ascii("data");
  }

  /** Where each numeric field of the header sits. */
  lemma WavHeaderSlices(rate: nat, n: nat)
    ensures var h := WavHeader(rate, n);
      h[4..8] == LE32(36 + 2 * n) && h[16..20] == LE32(16) && h[20..22] == LE16(1)
      && h[22..24] == LE16(1) && h[24..28] == LE32(rate) && h[28..32] == LE32(2 * rate)
      && h[32..34] == LE16(2) && h[34..36] == LE16(16) && h[40..44] == LE32(2 * n)
  {
    var h := WavHeader(rate, n);
    assert h[4..8] == LE32(36 + 2 * n);
    assert h[16..20] == LE32(16);
    assert h[20..22] == LE16(1);
    assert h[22..24] == LE16(1);
    assert h[24..28] == LE32(rate);
    assert h[28..32] == LE32(2 * rate);
    assert h[32..34] == LE16(2);
    assert h[34..36] == LE16(16);
    assert h[40..44] == LE32(2 * n);
  }

  /** The small fields are written as a low byte over zero bytes: the
      bytes a writer that only sets the low byte leaves at zero. */
  lemma WavHeaderSmallFields(rate: nat, n: nat)
    ensures var h := WavHeader(rate, n);
      h[16..20] == [16, 0, 0, 0] && h[20..22] == [1, 0] && h[22..24] == [1, 0]
      && h[32..34] == [2, 0] && h[34..36] == [16, 0]
  {
    WavHeaderSlices(rate, n);
  }

  /** The little-endian bytes of a sequence of samples, two per sample. */
  function SampleBytes(s: seq<Int16>): (b: seq<Byte>)
    ensures |b| == 2 * |s|
    ensures forall i :: 0 <= i < |s| ==> b[2 * i] == LowByte(s[i]) && b[2 * i + 1] == HighByte(s[i])
  {
    if s == [] then [] else LE16(s[0]) + SampleBytes(s[1..])
  }

  /** Bytes that hold every sample's low byte at 2i and high byte at 2i+1
      are the sample bytes. */
  lemma SampleBytesUnique(b: seq<Byte>, q: seq<Int16>)
    requires |b| == 2 * |q|
    requires forall k :: 0 <= k < |q| ==> b[2 * k] == LowByte(q[k]) && b[2 * k + 1] == HighByte(q[k])
    ensures b == SampleBytes(q)
  {
    var t := SampleBytes(q);
    forall j | 0 <= j < |b|
      ensures b[j] == t[j]
    {
      var k := j / 2;
      if j == 2 * k {
        assert b[2 * k] == t[2 * k];
      } else {
        assert j == 2 * k + 1 && k < |q|;
        assert b[2 * k] == LowByte(q[k]) && b[2 * k + 1] == HighByte(q[k]);
        assert t[2 * k] == LowByte(q[k]) && t[2 * k + 1] == HighByte(q[k]);
      }
    }
  }

  /** Decoding each byte pair of the sample bytes gives the samples back. */
  lemma SampleBytesRoundTrip(q: seq<Int16>)
    ensures forall k :: 0 <= k < |q| ==> DecodeLE16(SampleBytes(q)[2 * k], SampleBytes(q)[2 * k + 1]) == q[k]
  {
    forall k | 0 <= k < |q|
      ensures DecodeLE16(SampleBytes(q)[2 * k], SampleBytes(q)[2 * k + 1]) == q[k]
    {
      LE16RoundTrip(q[k]);
    }
  }

  /** Appending a sample appends its two bytes: the bytes a writer emits
      sample by sample are the bytes of the whole sequence. */
  lemma {:induction false} SampleBytesAppend(s: seq<Int16>, v: Int16)
    ensures SampleBytes(s + [v]) == SampleBytes(s) + LE16(v)
    decreases |s|
  {
    if s == [] {
      assert s + [v] == [v];
    } else {
      assert (s + [v])[1..] == s[1..] + [v];
      SampleBytesAppend(s[1..], v);
    }
  }

  /** `Quantize` applied to every sample. */
  function QuantizeAll(xs: seq<real>): (q: seq<Int16>)
    ensures |q| == |xs| && forall i :: 0 <= i < |xs| ==> q[i] == Quantize(xs[i])
  {
    seq(|xs|, i requires 0 <= i < |xs| => Quantize(xs[i]))
  }
}
