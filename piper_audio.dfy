// Placeholder audio written into byte arrays, as the Piper service writes it.
module PiperAudio {
  import opened Text
  import opened Pcm

  /** The waveform of generateWordAudio, left abstract: the 16-bit sample
      for a base frequency, a word length, a word index and a position in
      the word. */
  type Tone = (real, nat, nat, nat) -> Int16

  /** Female voices are pitched at 220 Hz, all others at 150 Hz. */
  function BaseFreq(gender: string): real { if gender == "female" then 220.0 else 150.0 }

  /** The number of words, or 1 for a text without any. */
  function WordCount(text: string): (w: nat)
    ensures w >= 1 && (|Fields(text)| > 0 ==> w == |Fields(text)|)
  {
    if |Fields(text)| == 0 then 1 else |Fields(text)|
  }

  /** Samples per word: an even share of the n samples, but at least 1000. */
  function WordLength(n: nat, words: nat): (spw: nat)
    requires words >= 1
    ensures spw >= 1000 && spw >= n / words
  {
    if n / words < 1000 then 1000 else n / words
  }

  const Pause := 500

  /** Sample k of the speech-like audio of n samples. Words start every
      WordLength + 500 samples; word w is rendered when it exists and still
      fits strictly before the end, and the samples of a rendered word come
      from the waveform; every other sample (the pauses and the tail) is
      silence. */
  function SpeechSample(n: nat, words: nat, f: real, tone: Tone, k: nat): Int16
    requires words >= 1
  {
    var spw := WordLength(n, words);
    var p := spw + Pause;
    var w := k / p;
    var j := k % p;
    if w < words && w * p + spw < n && j < spw then tone(f, spw, w, j) else 0
  }

  function SpeechSamples(n: nat, words: nat, f: real, tone: Tone): (s: seq<Int16>)
    requires words >= 1
    ensures |s| == n && forall k :: 0 <= k < n ==> s[k] == SpeechSample(n, words, f, tone, k)
  {
    seq(n, k requires 0 <= k < n => SpeechSample(n, words, f, tone, k))
  }

  /** The placeholder file: the 22050 Hz header followed by the speech-like
      samples of the voice. */
  function PlaceholderWav(n: nat, text: string, gender: string, tone: Tone): (wav: seq<Byte>)
    ensures |wav| == 44 + 2 * n
  {
    WavHeader(22050, n) + SampleBytes(SpeechSamples(n, WordCount(text), BaseFreq(gender), tone))
  }

  /** A buffer too short for one word (at most 1000 samples) is silent.
      This is a fact about generateSpeechLikeAudio on its own:
      generatePlaceholderWAV always asks it for at least 22050 * 0.8 = 17640
      samples, so through the service the case does not arise. */
  lemma ShortAudioIsSilent(n: nat, words: nat, f: real, tone: Tone)
    requires words >= 1 && n <= 1000
    ensures SpeechSamples(n, words, f, tone) == Silence(n)
  {
    var spw := WordLength(n, words);
    var p := spw + Pause;
    forall k | 0 <= k < n
      ensures SpeechSample(n, words, f, tone, k) == 0
    {
      assert (k / p) * p >= 0;
    }
  }

  /** At 22050 Hz the rate and byte-rate fields of the placeholder header
      are 0x5622 and 0xAC44, little endian. */
  lemma PlaceholderRateBytes(n: nat)
    ensures WavHeader(22050, n)[24..28] == [0x22, 0x56, 0, 0]
    ensures WavHeader(22050, n)[28..32] == [0x44, 0xAC, 0, 0]
  {
    WavHeaderSlices(22050, n);
    PlaceholderRateEncodings();
  }

  lemma PlaceholderRateEncodings()
    ensures LE32(22050) == [0x22, 0x56, 0, 0] && LE32(44100) == [0x44, 0xAC, 0, 0]
  {
  }

  /** Bytes off + 2k and off + 2k + 1 of `b` hold sample k of `s`, little
      endian, for every k in [lo, hi). */
  predicate SamplesAt(b: seq<Byte>, off: nat, s: seq<Int16>, lo: nat, hi: nat) {
    lo <= hi <= |s| && off + 2 * hi <= |b|
    && forall k :: lo <= k < hi ==> b[off + 2 * k] == LowByte(s[k]) && b[off + 2 * k + 1] == HighByte(s[k])
  }

  function Silence(n: nat): (s: seq<Int16>)
    ensures |s| == n && forall k :: 0 <= k < n ==> s[k] == 0
  {
    seq(n, _ => 0)
  }

  /** One word of the waveform: its `spw` samples. */
  function WordWave(f: real, spw: nat, w: nat, tone: Tone): (s: seq<Int16>)
    ensures |s| == spw && forall i :: 0 <= i < spw ==> s[i] == tone(f, spw, w, i)
  {
    seq(spw, i requires 0 <= i < spw => tone(f, spw, w, i))
  }

  // ----------------------------------------------------------- slot arithmetic

  lemma MulStep(a: nat, b: nat, p: nat)
    ensures a < b ==> a * p + p <= b * p
  {
    if a < b {
      var d := b - a;
      assert b * p == a * p + d * p;
      assert d * p >= p;
    }
  }

  /** Position i of slot w of width p is sample w * p + i. */
  lemma DivModSlot(w: nat, i: nat, p: nat)
    requires i < p
    ensures (w * p + i) / p == w && (w * p + i) % p == i
  {
    var k := w * p + i;
    var q, r := k / p, k % p;
    assert k == q * p + r;
    MulStep(q, w, p);
    MulStep(w, q, p);
  }

  lemma SlotAtLeast(k: nat, w: nat, p: nat)
    requires p > 0 && w * p <= k
    ensures k / p >= w
  {
    var q, r := k / p, k % p;
    assert k == q * p + r;
    MulStep(q, w, p);
  }

  /** The samples of a rendered word are its waveform. */
  lemma WordSlot(n: nat, words: nat, f: real, tone: Tone, w: nat)
    requires words >= 1 && w < words
    requires w * (WordLength(n, words) + Pause) + WordLength(n, words) < n
    ensures var spw := WordLength(n, words); var lo := w * (spw + Pause);
      SpeechSamples(n, words, f, tone)[lo..lo + spw] == WordWave(f, spw, w, tone)
  {
    var spw := WordLength(n, words);
    var p := spw + Pause;
    var s := SpeechSamples(n, words, f, tone);
    forall i | 0 <= i < spw
      ensures s[w * p + i] == tone(f, spw, w, i)
    {
      DivModSlot(w, i, p);
    }
  }

  /** The samples after a rendered word and up to the next word slot are
      silent. */
  lemma PauseSlot(n: nat, words: nat, f: real, tone: Tone, w: nat, len: nat)
    requires words >= 1
    requires len <= Pause
    requires w * (WordLength(n, words) + Pause) + WordLength(n, words) + len <= n
    ensures var spw := WordLength(n, words); var lo := w * (spw + Pause) + spw;
      SpeechSamples(n, words, f, tone)[lo..lo + len] == Silence(len)
  {
    var spw := WordLength(n, words);
    var p := spw + Pause;
    var s := SpeechSamples(n, words, f, tone);
    forall k | w * p + spw <= k < w * p + spw + len
      ensures s[k] == 0
    {
      DivModSlot(w, k - w * p, p);
    }
  }

  /** From a slot whose word is not rendered, everything is silent. */
  lemma TailSlot(n: nat, words: nat, f: real, tone: Tone, w: nat)
    requires words >= 1
    requires w >= words || w * (WordLength(n, words) + Pause) + WordLength(n, words) >= n
    requires w * (WordLength(n, words) + Pause) <= n
    ensures var lo := w * (WordLength(n, words) + Pause);
      SpeechSamples(n, words, f, tone)[lo..] == Silence(n - lo)
  {
    var spw := WordLength(n, words);
    var p := spw + Pause;
    var s := SpeechSamples(n, words, f, tone);
    forall k | w * p <= k < n
      ensures s[k] == 0
    {
      SlotAtLeast(k, w, p);
      assert (k / p) * p >= w * p;
    }
  }

  // ----------------------------------------------------------- byte layout

  lemma ZeroBytesAreSilence(b: seq<Byte>, from: nat, cnt: nat)
    requires from + 2 * cnt <= |b|
    requires forall j :: from <= j < from + 2 * cnt ==> b[j] == 0
    ensures SamplesAt(b, from, Silence(cnt), 0, cnt)
  {
  }

  /** Samples placed at `from` are samples lo.. of `s` placed at `off`. */
  lemma Place(b: seq<Byte>, from: nat, v: seq<Int16>, off: nat, s: seq<Int16>, lo: nat)
    requires SamplesAt(b, from, v, 0, |v|)
    requires from == off + 2 * lo && lo + |v| <= |s| && s[lo..lo + |v|] == v
    ensures SamplesAt(b, off, s, lo, lo + |v|)
  {
    forall k | lo <= k < lo + |v|
      ensures b[off + 2 * k] == LowByte(s[k]) && b[off + 2 * k + 1] == HighByte(s[k])
    {
      assert s[k] == v[k - lo];
      assert off + 2 * k == from + 2 * (k - lo);
    }
  }

  /** Bytes that did not change keep the samples they held. */
  lemma Keep(b0: seq<Byte>, b1: seq<Byte>, off: nat, s: seq<Int16>, hi: nat)
    requires SamplesAt(b0, off, s, 0, hi)
    requires |b1| == |b0| && forall j :: 0 <= j < off + 2 * hi ==> b1[j] == b0[j]
    ensures SamplesAt(b1, off, s, 0, hi)
  {
  }

  lemma Glue(b: seq<Byte>, off: nat, s: seq<Int16>, lo: nat, mid: nat, hi: nat)
    requires SamplesAt(b, off, s, lo, mid) && SamplesAt(b, off, s, mid, hi)
    ensures SamplesAt(b, off, s, lo, hi)
  {
  }

  /** All n samples placed at `off` of a buffer ending there are the
      buffer's tail. */
  lemma SamplesAtTail(b: seq<Byte>, off: nat, s: seq<Int16>)
    requires SamplesAt(b, off, s, 0, |s|) && |b| == off + 2 * |s|
    ensures b[off..] == SampleBytes(s)
  {
    var t := SampleBytes(s);
    forall j | 0 <= j < |t|
      ensures b[off..][j] == t[j]
    {
      var k := j / 2;
      assert b[off..][j] == b[off + j];
      if j % 2 == 0 {
        assert j == 2 * k;
        assert b[off + 2 * k] == LowByte(s[k]) == t[2 * k];
      } else {
        assert j == 2 * k + 1;
        assert b[off + 2 * k + 1] == HighByte(s[k]) == t[2 * k + 1];
      }
    }
  }

  // ----------------------------------------------------------- writers

  /** generateSilence: zeroes the 2 * samples bytes from `from`. */
  method GenerateSilence(buf: array<Byte>, from: nat, samples: nat)
    requires from + 2 * samples <= buf.Length
    modifies buf
    ensures forall j :: from <= j < from + 2 * samples ==> buf[j] == 0
    ensures forall j :: 0 <= j < buf.Length && !(from <= j < from + 2 * samples) ==> buf[j] == old(buf[j])
  {
    var i := 0;
    while i < samples * 2
      invariant 0 <= i <= samples * 2
      invariant forall j :: from <= j < from + i ==> buf[j] == 0
      invariant forall j :: 0 <= j < buf.Length && !(from <= j < from + i) ==> buf[j] == old(buf[j])
    {
      buf[from + i] := 0;
      i := i + 1;
    }
  }

  /** generateWordAudio: the little-endian bytes of one word's waveform. */
  method GenerateWordAudio(buf: array<Byte>, from: nat, samples: nat, f: real, w: nat, tone: Tone)
    requires from + 2 * samples <= buf.Length
    modifies buf
    ensures SamplesAt(buf[..], from, WordWave(f, samples, w, tone), 0, samples)
    ensures forall j :: 0 <= j < buf.Length && !(from <= j < from + 2 * samples) ==> buf[j] == old(buf[j])
  {
    ghost var v := WordWave(f, samples, w, tone);
    var i := 0;
    while i < samples
      invariant 0 <= i <= samples
      invariant SamplesAt(buf[..], from, v, 0, i)
      invariant forall j :: 0 <= j < buf.Length && !(from <= j < from + 2 * i) ==> buf[j] == old(buf[j])
    {
      var sample := tone(f, samples, w, i);
      buf[from + i * 2] := LowByte(sample);
      buf[from + i * 2 + 1] := HighByte(sample);
      i := i + 1;
    }
  }

  /** generateSpeechLikeAudio on the n samples from byte `off`: each word
      takes max(n / words, 1000) samples while it fits strictly before the
      end, each is followed by min(500, remaining) silent samples, and the
      rest is zeroed. Nothing outside the 2n bytes changes. */
  method GenerateSpeechLikeAudio(buf: array<Byte>, off: nat, n: nat, text: string, gender: string, tone: Tone)
    requires off + 2 * n <= buf.Length
    modifies buf
    ensures SamplesAt(buf[..], off, SpeechSamples(n, WordCount(text), BaseFreq(gender), tone), 0, n)
    ensures forall j :: 0 <= j < buf.Length && !(off <= j < off + 2 * n) ==> buf[j] == old(buf[j])
  {
    var f := BaseFreq(gender);
    var words := |Fields(text)|;
    if words == 0 {
      words := 1;
    }
    var spw := n / words;
    if spw < 1000 {
      spw := 1000;
    }
    assert words == WordCount(text) && spw == WordLength(n, words);
    ghost var s := SpeechSamples(n, words, f, tone);
    ghost var p := spw + Pause;
    var si := 0;
    var wi := 0;
    while wi < words && si < n - spw
      invariant si <= n && (si < n ==> si == wi * p)
      invariant SamplesAt(buf[..], off, s, 0, si)
      invariant forall j :: 0 <= j < buf.Length && !(off <= j < off + 2 * n) ==> buf[j] == old(buf[j])
    {
      si := RenderWord(buf, off, n, words, spw, f, tone, wi, si);
      wi := wi + 1;
    }
    if si < n {
      FillTail(buf, off, n, words, spw, f, tone, wi, si);
    }
  }

  /** One turn of generateSpeechLikeAudio's loop: word `wi` at sample `si`,
      then its pause; returns the next sample index. */
  method RenderWord(buf: array<Byte>, off: nat, n: nat, words: nat, spw: nat, f: real, tone: Tone, wi: nat, si: nat)
    returns (next: nat)
    requires off + 2 * n <= buf.Length && words >= 1 && spw == WordLength(n, words)
    requires wi < words && si == wi * (spw + Pause) && si + spw < n
    requires SamplesAt(buf[..], off, SpeechSamples(n, words, f, tone), 0, si)
    modifies buf
    ensures next == si + spw + (if Pause < n - si - spw then Pause else n - si - spw)
    ensures next <= n && (next < n ==> next == (wi + 1) * (spw + Pause))
    ensures SamplesAt(buf[..], off, SpeechSamples(n, words, f, tone), 0, next)
    ensures forall j :: 0 <= j < buf.Length && !(off + 2 * si <= j < off + 2 * next) ==> buf[j] == old(buf[j])
  {
    RenderWave(buf, off, n, words, spw, f, tone, wi, si);
    next := RenderPause(buf, off, n, words, spw, f, tone, wi, si + spw);
  }

  /** The word's waveform at sample `si`. */
  method RenderWave(buf: array<Byte>, off: nat, n: nat, words: nat, spw: nat, f: real, tone: Tone, wi: nat, si: nat)
    requires off + 2 * n <= buf.Length && words >= 1 && spw == WordLength(n, words)
    requires wi < words && si == wi * (spw + Pause) && si + spw < n
    requires SamplesAt(buf[..], off, SpeechSamples(n, words, f, tone), 0, si)
    modifies buf
    ensures SamplesAt(buf[..], off, SpeechSamples(n, words, f, tone), 0, si + spw)
    ensures forall j :: 0 <= j < buf.Length && !(off + 2 * si <= j < off + 2 * (si + spw)) ==> buf[j] == old(buf[j])
  {
    ghost var s := SpeechSamples(n, words, f, tone);
    ghost var b0 := buf[..];
    GenerateWordAudio(buf, off + si * 2, spw, f, wi, tone);
    WordSlot(n, words, f, tone, wi);
    Keep(b0, buf[..], off, s, si);
    Place(buf[..], off + si * 2, WordWave(f, spw, wi, tone), off, s, si);
  }

  /** The pause after word `wi`, from sample `at`: 500 samples of silence,
      or fewer at the end of the buffer. */
  method RenderPause(buf: array<Byte>, off: nat, n: nat, words: nat, spw: nat, f: real, tone: Tone, wi: nat, at: nat)
    returns (next: nat)
    requires off + 2 * n <= buf.Length && words >= 1 && spw == WordLength(n, words)
    requires wi < words && at == wi * (spw + Pause) + spw && at < n
    requires SamplesAt(buf[..], off, SpeechSamples(n, words, f, tone), 0, at)
    modifies buf
    ensures next == at + (if Pause < n - at then Pause else n - at)
    ensures SamplesAt(buf[..], off, SpeechSamples(n, words, f, tone), 0, next)
    ensures forall j :: 0 <= j < buf.Length && !(off + 2 * at <= j < off + 2 * next) ==> buf[j] == old(buf[j])
  {
    ghost var s := SpeechSamples(n, words, f, tone);
    var pause := if 500 < n - at then 500 else n - at;
    ghost var b1 := buf[..];
    GenerateSilence(buf, off + at * 2, pause);
    PauseSlot(n, words, f, tone, wi, pause);
    Keep(b1, buf[..], off, s, at);
    ZeroBytesAreSilence(buf[..], off + at * 2, pause);
    Place(buf[..], off + at * 2, Silence(pause), off, s, at);
    next := at + pause;
  }

  /** The end of generateSpeechLikeAudio: once no further word is
      rendered, the samples from `si` on are zeroed. */
  method FillTail(buf: array<Byte>, off: nat, n: nat, words: nat, spw: nat, f: real, tone: Tone, wi: nat, si: nat)
    requires off + 2 * n <= buf.Length && words >= 1 && spw == WordLength(n, words)
    requires si < n && si == wi * (spw + Pause) && (wi >= words || si + spw >= n)
    requires SamplesAt(buf[..], off, SpeechSamples(n, words, f, tone), 0, si)
    modifies buf
    ensures SamplesAt(buf[..], off, SpeechSamples(n, words, f, tone), 0, n)
    ensures forall j :: 0 <= j < buf.Length && !(off + 2 * si <= j < off + 2 * n) ==> buf[j] == old(buf[j])
  {
    ghost var s := SpeechSamples(n, words, f, tone);
    var remaining := n - si;
    ghost var b2 := buf[..];
    GenerateSilence(buf, off + si * 2, remaining);
    TailSlot(n, words, f, tone, wi);
    Keep(b2, buf[..], off, s, si);
    ZeroBytesAreSilence(buf[..], off + si * 2, remaining);
    Place(buf[..], off + si * 2, Silence(remaining), off, s, si);
  }

  /** Copies `bs` into `a` from `at`. */
  method Put(a: array<Byte>, at: nat, bs: seq<Byte>)
    requires at + |bs| <= a.Length
    modifies a
    ensures a[..] == old(a[..at]) + bs + old(a[at + |bs|..])
  {
    var i := 0;
    while i < |bs|
      invariant 0 <= i <= |bs|
      invariant forall k :: 0 <= k < a.Length && !(at <= k < at + i) ==> a[k] == old(a[k])
      invariant forall k :: at <= k < at + i ==> a[k] == bs[k - at]
    {
      a[at + i] := bs[i];
      i := i + 1;
    }
    Spliced(old(a[..]), a[..], at, bs);
  }

  /** A sequence that agrees with `bs` from `at` on and with `s` elsewhere
      is `s` with `bs` written over it. */
  lemma Spliced(s: seq<Byte>, t: seq<Byte>, at: nat, bs: seq<Byte>)
    requires |s| == |t| && at + |bs| <= |s|
    requires forall k :: 0 <= k < |s| && !(at <= k < at + |bs|) ==> t[k] == s[k]
    requires forall k :: at <= k < at + |bs| ==> t[k] == bs[k - at]
    ensures t == s[..at] + bs + s[at + |bs|..]
  {
  }

  /** generatePlaceholderWAV for a text whose duration gives n samples: the
      22050 Hz mono header (its fields at their offsets, the bytes Go leaves
      at their zero value being the zero high bytes of the small fields)
      followed by the speech-like samples. */
  method GeneratePlaceholderWAV(text: string, gender: string, n: nat, tone: Tone) returns (wav: array<Byte>)
    ensures fresh(wav) && wav[..] == PlaceholderWav(n, text, gender, tone)
  {
    wav := new Byte[44 + n * 2](_ => 0);
    Put(wav, 0, WavHeader(22050, n));
    ghost var h := wav[..44];
    GenerateSpeechLikeAudio(wav, 44, n, text, gender, tone);
    assert wav[..44] == h;
    SamplesAtTail(wav[..], 44, SpeechSamples(n, WordCount(text), BaseFreq(gender), tone));
    assert wav[..] == wav[..44] + wav[..][44..];
  }
}
