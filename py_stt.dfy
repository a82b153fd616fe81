// The faster-whisper speech-to-text service of the Python backend
// (python/services/stt.py): its lifecycle around the runtime installer, the
// choice of device and compute type, the conversion of the model's segments
// into the transcription result and the float-to-WAV encoder. The model's
// transcription and the temporary file are parameters.
module PyStt {
  import opened Wrappers
  import opened Text
  import opened Pcm
  import opened Installer

  // ---------------------------------------------------------------- installation

  /** The import test `initialize` hands to the installer calls
      `_import_faster_whisper`, a name stt.py never defines: calling it
      raises NameError, before and after any install. */
  const WhisperImportTest := ImportTest(OtherError, OtherError)

  /** With that test the installer can never report success for a package
      it has not already marked, whatever pip does. */
  lemma WhisperTestNeverSucceeds(pipOk: bool)
    ensures !EnsureSucceeds(Some(WhisperImportTest), pipOk)
  {
  }

  // ---------------------------------------------------------------- device and precision

  /** What `import torch` gives in the "auto" case: no torch, or torch
      reporting whether CUDA is available. */
  datatype TorchProbe = NoTorch | Torch(cuda: bool)

  /** _determine_device: a setting other than "auto" is used as it is;
      "auto" means "cuda" when torch imports and sees CUDA, "cpu" otherwise. */
  function DetermineDevice(setting: string, probe: TorchProbe): (d: string)
    ensures setting != "auto" ==> d == setting
    ensures setting == "auto" ==> (d == "cuda" <==> probe == Torch(true))
    ensures setting == "auto" ==> (d == "cpu" <==> probe != Torch(true))
  {
    if setting != "auto" then setting
    else match probe
      case NoTorch => "cpu"
      case Torch(cuda) => if cuda then "cuda" else "cpu"
  }

  /** _determine_compute_type: a setting other than "auto" is used as it
      is; "auto" means half precision on CUDA and 8-bit integers elsewhere. */
  function DetermineComputeType(setting: string, device: string): (t: string)
    ensures setting != "auto" ==> t == setting
    ensures setting == "auto" ==> (t == "float16" <==> device == "cuda")
    ensures setting == "auto" ==> (t == "int8" <==> device != "cuda")
  {
    if setting != "auto" then setting
    else if device == "cuda" then "float16" else "int8"
  }

  /** With both settings "auto", the precision follows the probe: float16
      exactly when torch sees CUDA. */
  lemma AutoPrecisionFollowsProbe(probe: TorchProbe)
    ensures DetermineComputeType("auto", DetermineDevice("auto", probe)) == "float16" <==> probe == Torch(true)
    ensures DetermineComputeType("auto", DetermineDevice("auto", probe)) == "int8" <==> probe != Torch(true)
  {
  }

  // ---------------------------------------------------------------- transcription

  /** The keyword arguments of `model.transcribe`. */
  datatype TranscribeParams = TranscribeParams(
    beamSize: nat, wordTimestamps: bool, vadFilter: bool, language: Option<string>)

  /** Beam size 5, word timestamps on, voice-activity filter off, and the
      language passed only when one is given and not empty. */
  function ParamsFor(language: Option<string>): (p: TranscribeParams)
    ensures p.beamSize == 5 && p.wordTimestamps && !p.vadFilter
    ensures p.language.Some? <==> language.Some? && language.value != ""
    ensures p.language.Some? ==> p.language == language
  {
    TranscribeParams(5, true, false,
      if language.Some? && language.value != "" then language else None)
  }

  /** A word as the model reports it; `probability` may be missing. */
  datatype Word = Word(start: real, end: real, word: string, probability: Option<real>)

  /** A segment as the model reports it; `words` may be missing or None. */
  datatype Segment = Segment(start: real, end: real, text: string, words: Option<seq<Word>>)

  /** What the model reports about the whole audio. */
  datatype Info = Info(language: string, languageProbability: real, duration: real)

  datatype WordEntry = WordEntry(start: real, end: real, word: string, probability: real)

  datatype SegmentEntry = SegmentEntry(start: real, end: real, text: string, words: seq<WordEntry>)

  /** The dictionary `transcribe_audio` returns. */
  datatype Transcription = Transcription(
    text: string, language: string, languageProbability: real, duration: real,
    segments: seq<SegmentEntry>)

  /** One word's entry: its fields, with probability 1.0 when the model
      gives none. */
  function EntryOfWord(w: Word): (e: WordEntry)
    ensures e.start == w.start && e.end == w.end && e.word == w.word
    ensures w.probability.Some? ==> e.probability == w.probability.value
    ensures w.probability.None? ==> e.probability == 1.0
  {
    WordEntry(w.start, w.end, w.word, if w.probability.Some? then w.probability.value else 1.0)
  }

  /** One segment's entry: its times and text, and an entry per word in
      order, none when the words are missing or empty. */
  function EntryOfSegment(s: Segment): (e: SegmentEntry)
    ensures e.start == s.start && e.end == s.end && e.text == s.text
    ensures s.words.None? ==> e.words == []
    ensures s.words.Some? ==>
      |e.words| == |s.words.value| && forall i :: 0 <= i < |e.words| ==> e.words[i] == EntryOfWord(s.words.value[i])
  {
    var ws := if s.words.Some? then s.words.value else [];
    SegmentEntry(s.start, s.end, s.text, seq(|ws|, i requires 0 <= i < |ws| => EntryOfWord(ws[i])))
  }

  /** The texts of the entries, in order. */
  function Texts(entries: seq<SegmentEntry>): (ts: seq<string>)
    ensures |ts| == |entries| && forall i :: 0 <= i < |ts| ==> ts[i] == entries[i].text
  {
    seq(|entries|, i requires 0 <= i < |entries| => entries[i].text)
  }

  /** The full text: the segments' texts joined by single spaces, then
      stripped. */
  function FullText(entries: seq<SegmentEntry>): string {
    Strip(Join(Texts(entries), " "))
  }

  lemma AllSpaceAppend(a: string, b: string)
    ensures AllSpace(a + b) <==> AllSpace(a) && AllSpace(b)
  {
    assert forall k :: 0 <= k < |a| ==> a[k] == (a + b)[k];
    assert forall k :: 0 <= k < |b| ==> b[k] == (a + b)[|a| + k];
    assert forall k :: |a| <= k < |a + b| ==> (a + b)[k] == b[k - |a|];
  }

  /** Joining with spaces is blank exactly when every piece is blank. */
  lemma {:induction false} JoinBlank(ts: seq<string>)
    ensures AllSpace(Join(ts, " ")) <==> forall i :: 0 <= i < |ts| ==> AllSpace(ts[i])
    decreases |ts|
  {
    if |ts| > 1 {
      JoinBlank(ts[1..]);
      AllSpaceAppend(ts[0] + " ", Join(ts[1..], " "));
      AllSpaceAppend(ts[0], " ");
      assert forall i :: 1 <= i < |ts| ==> ts[i] == ts[1..][i - 1];
    }
  }

  /** The full text is stripped; it is empty exactly when every segment's
      text is blank (and so when there are no segments); a single segment's
      text is returned stripped. */
  lemma FullTextShape(entries: seq<SegmentEntry>)
    ensures Stripped(FullText(entries))
    ensures FullText(entries) == [] <==> forall i :: 0 <= i < |entries| ==> AllSpace(entries[i].text)
    ensures |entries| == 1 ==> FullText(entries) == Strip(entries[0].text)
  {
    JoinBlank(Texts(entries));
  }

  /** The entries of a list of segments, one per segment, in order. */
  function Entries(segs: seq<Segment>): (es: seq<SegmentEntry>)
    ensures |es| == |segs| && forall i :: 0 <= i < |es| ==> es[i] == EntryOfSegment(segs[i])
  {
    seq(|segs|, i requires 0 <= i < |segs| => EntryOfSegment(segs[i]))
  }

  /** The model's transcription of the audio bytes with the given
      parameters: its segments and its information, or the error it
      raises. */
  type Transcriber = (seq<Byte>, TranscribeParams) -> Result<(seq<Segment>, Info)>

  /** `r` is the dict _transcribe_file builds from the model's answer `res`:
      the model's error, or the segment entries, their joined text and the
      three fields of the model's information. */
  predicate Reports(r: Result<Transcription>, res: Result<(seq<Segment>, Info)>) {
    (res.Failure? ==> r == Failure(res.error))
    && (res.Success? ==>
          r.Success?
          && r.value.segments == Entries(res.value.0)
          && r.value.text == FullText(Entries(res.value.0))
          && r.value.language == res.value.1.language
          && r.value.languageProbability == res.value.1.languageProbability
          && r.value.duration == res.value.1.duration)
  }

  /** _transcribe_file: the model runs with the parameters for the
      language; its segments are drained one by one into entries, and the
      result holds those entries, their joined text and the model's
      information. An error of the model propagates. */
  method TranscribeFile(audio: seq<Byte>, language: Option<string>, transcribe: Transcriber)
    returns (r: Result<Transcription>)
    ensures Reports(r, transcribe(audio, ParamsFor(language)))
  {
    var params := ParamsFor(language);
    var res := transcribe(audio, params);
    if res.Failure? {
      return Failure(res.error);
    }
    var segments := res.value.0;
    var info := res.value.1;
    var list: seq<SegmentEntry> := [];
    var i := 0;
    while i < |segments|
      invariant 0 <= i <= |segments|
      invariant |list| == i && forall k :: 0 <= k < i ==> list[k] == EntryOfSegment(segments[k])
    {
      var entry := SegmentEntry(segments[i].start, segments[i].end, segments[i].text, []);
      if segments[i].words.Some? && segments[i].words.value != [] {
        entry := entry.(words := EntryOfSegment(segments[i]).words);
      }
      list := list + [entry];
      i := i + 1;
    }
    assert list == Entries(segments);
    var fullText := Strip(Join(Texts(list), " "));
    return Success(Transcription(fullText, info.language, info.languageProbability, info.duration, list));
  }

  // ---------------------------------------------------------------- float samples to WAV

  /** Python's wave module refuses a frame rate that is not positive, and
      struct cannot pack a header field of 2^32 or more. */
  predicate WavWritable(rate: int, n: nat) {
    0 < rate && 2 * rate < 0x1_0000_0000 && 36 + 2 * n < 0x1_0000_0000
  }

  /** The file _float32_to_wav writes: the 44-byte mono 16-bit header and
      the samples clamped, scaled by 32767 and truncated. */
  function WavBytes(rate: nat, samples: seq<real>): (b: seq<Byte>)
    ensures |b| == 44 + 2 * |samples|
  {
    WavHeader(rate, |samples|) + SampleBytes(QuantizeAll(samples))
  }

  /** _float32_to_wav: a writable rate and length give the WAV bytes, built
      sample by sample; otherwise the writer raises. */
  method Float32ToWav(samples: seq<real>, rate: int) returns (r: Result<seq<Byte>>)
    ensures WavWritable(rate, |samples|) ==> r == Success(WavBytes(rate, samples))
    ensures !WavWritable(rate, |samples|) ==> r.Failure?
  {
    if rate <= 0 {
      return Failure("bad frame rate");
    }
    if !WavWritable(rate, |samples|) {
      return Failure("argument out of range");
    }
    var data: seq<Int16> := [];
    var i := 0;
    while i < |samples|
      invariant 0 <= i <= |samples|
      invariant data == QuantizeAll(samples[..i])
    {
      data := data + [Quantize(samples[i])];
      i := i + 1;
    }
    assert samples[..i] == samples;
    return Success(WavHeader(rate, |samples|) + SampleBytes(data));
  }

  /** Reading the file back: the header describes mono 16-bit PCM at the
      given rate holding 2n data bytes, and no field wraps. */
  lemma WavBytesHeader(rate: nat, samples: seq<real>)
    requires WavWritable(rate, |samples|)
    ensures var b := WavBytes(rate, samples);
      |b| == 44 + 2 * |samples| && HasTags(b[..44])
      && ParseWavHeader(b[..44]) == WavFormat(36 + 2 * |samples|, 16, 1, 1, rate, 2 * rate, 2, 16, 2 * |samples|)
  {
    var n := |samples|;
    var h := WavHeader(rate, n);
    assert WavBytes(rate, samples)[..44] == h;
    WavHeaderFields(rate, n);
    NoWrap(36 + 2 * n);
    NoWrap(2 * n);
    NoWrap(rate);
    NoWrap(2 * rate);
  }

  lemma NoWrap(x: nat)
    requires x < 0x1_0000_0000
    ensures x % 4294967296 == x
  {
  }

  /** Each byte pair after the header decodes to the quantized sample. */
  lemma WavBytesSamples(rate: nat, samples: seq<real>)
    ensures var b := WavBytes(rate, samples);
      forall k :: 0 <= k < |samples| ==> DecodeLE16(b[44 + 2 * k], b[45 + 2 * k]) == Quantize(samples[k])
  {
    var b := WavBytes(rate, samples);
    var q := QuantizeAll(samples);
    var d := SampleBytes(q);
    assert b == WavHeader(rate, |samples|) + d;
    SampleBytesRoundTrip(q);
    forall k | 0 <= k < |samples|
      ensures DecodeLE16(b[44 + 2 * k], b[45 + 2 * k]) == Quantize(samples[k])
    {
      assert b[44 + 2 * k] == d[2 * k] && b[45 + 2 * k] == d[2 * k + 1];
    }
  }

  // ---------------------------------------------------------------- the service

  const NotInitialized := "STT service not initialized"

  /** A constructed WhisperModel: its size, device and compute type. */
  datatype WhisperModel = WhisperModel(size: string, device: string, computeType: string)

  /** The world `initialize` meets: the requirements file, pip's outcome,
      what importing torch gives, and whether building the model succeeds. */
  datatype SttHost = SttHost(file: Option<seq<string>>, pipOk: bool, probe: TorchProbe, created: bool)

  /** Writing the temporary file: the audio lands in it, or an OSError with
      its message. */
  datatype TempWrite = Written | WriteFailed(message: string)

  datatype ModelInfo =
    | NotInitializedInfo
    | ReadyInfo(modelSize: string, device: string, computeType: string, cacheDir: string)

  class STTService {
    const modelSize: string
    const device: string
    const computeType: string
    const cacheDir: string
    var model: Option<WhisperModel>
    var initialized: bool

    /** The model is loaded exactly when the service is initialized. */
    predicate Valid()
      reads this
    {
      initialized <==> model.Some?
    }

    /** __init__: settings recorded, no model. */
    constructor (modelSize: string, device: string, computeType: string, cacheDir: string)
      ensures this.modelSize == modelSize && this.device == device
      ensures this.computeType == computeType && this.cacheDir == cacheDir
      ensures model.None? && !initialized && Valid()
    {
      this.modelSize := modelSize;
      this.device := device;
      this.computeType := computeType;
      this.cacheDir := cacheDir;
      model := None;
      initialized := false;
    }

    /** is_ready: initialized and a model is loaded. */
    predicate IsReady()
      reads this
    {
      initialized && model.Some?
    }

    /** initialize: the installer is asked for faster-whisper with the
        failing import test, so it succeeds only for a package some earlier
        call (the bulk install) has marked; then an initialized service
        returns True at once, and otherwise a model is built for the chosen
        device and compute type. The installer's marks never change here,
        and every failure leaves the service as it was. */
    method Initialize(inst: RuntimeInstaller, h: SttHost) returns (ok: bool)
      requires Valid() && inst.Valid()
      modifies this, inst
      ensures Valid() && inst.Valid()
      ensures inst.installed == old(inst.installed)
      ensures ok <==> old(inst.IsPackageInstalled("faster-whisper")) && (old(initialized) || h.created)
      ensures !ok || old(initialized) ==> model == old(model) && initialized == old(initialized)
      ensures ok ==> IsReady()
      ensures ok && !old(initialized) ==>
        var d := DetermineDevice(device, h.probe);
        model == Some(WhisperModel(modelSize, d, DetermineComputeType(computeType, d)))
    {
      WhisperTestNeverSucceeds(h.pipOk);
      var installed, pip := inst.EnsurePackageInstalled("faster-whisper", Some(WhisperImportTest), h.file, h.pipOk);
      if !installed {
        return false;
      }
      if initialized {
        return true;
      }
      var dev := DetermineDevice(device, h.probe);
      var ct := DetermineComputeType(computeType, dev);
      if !h.created {
        return false;
      }
      model := Some(WhisperModel(modelSize, dev, ct));
      initialized := true;
      return true;
    }

    /** transcribe_audio: an error before initialization; otherwise the
        bytes go through a temporary file to the model, and an error writing
        the file or transcribing propagates. Removing the file afterwards
        cannot fail the call. */
    method TranscribeAudio(audio: seq<Byte>, language: Option<string>, temp: TempWrite, transcribe: Transcriber)
      returns (r: Result<Transcription>)
      ensures !IsReady() ==> r == Failure(NotInitialized)
      ensures IsReady() && temp.WriteFailed? ==> r == Failure(temp.message)
      ensures IsReady() && temp.Written? ==>
        Reports(r, transcribe(audio, ParamsFor(language)))
    {
      if !IsReady() {
        return Failure(NotInitialized);
      }
      if temp.WriteFailed? {
        return Failure(temp.message);
      }
      r := TranscribeFile(audio, language, transcribe);
    }

    /** transcribe_float32_array: the samples are encoded as WAV first, so
        an unwritable rate fails even before the readiness check; then the
        WAV bytes are transcribed. */
    method TranscribeFloat32Array(samples: seq<real>, rate: int, language: Option<string>,
                                  temp: TempWrite, transcribe: Transcriber)
      returns (r: Result<Transcription>)
      ensures !WavWritable(rate, |samples|) ==> r.Failure?
      ensures WavWritable(rate, |samples|) && !IsReady() ==> r == Failure(NotInitialized)
      ensures WavWritable(rate, |samples|) && IsReady() && temp.WriteFailed? ==>
        r == Failure(temp.message)
      ensures WavWritable(rate, |samples|) && IsReady() && temp.Written? ==>
        Reports(r, transcribe(WavBytes(rate, samples), ParamsFor(language)))
    {
      var wav := Float32ToWav(samples, rate);
      if wav.Failure? {
        return Failure(wav.error);
      }
      r := TranscribeAudio(wav.value, language, temp, transcribe);
    }

    /** get_model_info: "not_initialized" before initialization, the
        settings after; the device and compute type reported are the
        settings, not the ones chosen for the model. */
    function GetModelInfo(): (info: ModelInfo)
      reads this
      ensures info.NotInitializedInfo? <==> !initialized
      ensures info.ReadyInfo? ==>
        info.modelSize == modelSize && info.device == device && info.computeType == computeType
    {
      if !initialized then NotInitializedInfo
      else ReadyInfo(modelSize, device, computeType, cacheDir)
    }

    /** cleanup: drops the model. */
    method Cleanup()
      modifies this
      ensures model.None? && !initialized && Valid()
      ensures !IsReady() && GetModelInfo() == NotInitializedInfo
    {
      model := None;
      initialized := false;
    }
  }
}
