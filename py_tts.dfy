// The Kokoro text-to-speech service of the Python backend
// (python/services/tts.py): the voice table, its lifecycle around the
// runtime installer, voice selection, text cleaning and the collection of
// the audio segments the pipeline yields. The pipeline itself is a parameter.
module PyTts {
  import opened Wrappers
  import opened Text
  import opened Installer

  // ---------------------------------------------------------------- voices

  datatype VoiceInfo = VoiceInfo(langCode: string, description: string)

  /** The voice names in the table's order. */
  const VoiceNames: seq<string> :=
    ["af_alloy", "af_bella", "af_heart", "af_sky", "bf_alloy", "bf_bella", "bf_heart", "bf_sky"]

  /** available_voices: four American ("a") and four British ("b") voices. */
  const AvailableVoices: map<string, VoiceInfo> := map[
    "af_alloy" := VoiceInfo("a", "American English - Alloy"),
    "af_bella" := VoiceInfo("a", "American English - Bella"),
    "af_heart" := VoiceInfo("a", "American English - Heart"),
    "af_sky" := VoiceInfo("a", "American English - Sky"),
    "bf_alloy" := VoiceInfo("b", "British English - Alloy"),
    "bf_bella" := VoiceInfo("b", "British English - Bella"),
    "bf_heart" := VoiceInfo("b", "British English - Heart"),
    "bf_sky" := VoiceInfo("b", "British English - Sky")]

  /** The table's keys are exactly the listed names. */
  lemma VoiceNamesAreTheTable()
    ensures forall v :: v in AvailableVoices <==> v in VoiceNames
  {
    assert AvailableVoices.Keys == set v | v in VoiceNames;
  }

  /** The "af_" voices speak American English ("a") and the "bf_" voices
      British English ("b"). */
  lemma VoiceLanguages()
    ensures forall v :: v in AvailableVoices ==>
      (HasPrefix(v, "af_") && AvailableVoices[v].langCode == "a")
      || (HasPrefix(v, "bf_") && AvailableVoices[v].langCode == "b")
  {
    forall v | v in AvailableVoices
      ensures (HasPrefix(v, "af_") && AvailableVoices[v].langCode == "a")
        || (HasPrefix(v, "bf_") && AvailableVoices[v].langCode == "b")
    {
      VoiceNamesAreTheTable();
      var i :| 0 <= i < |VoiceNames| && VoiceNames[i] == v;
      assert v[..3] == (if i < 4 then "af_" else "bf_");
    }
  }

  /** The language code the pipeline is built for: the voice's own, or "a"
      for a voice outside the table. */
  function LangCodeFor(voice: string): (code: string)
    ensures voice in AvailableVoices ==> code == AvailableVoices[voice].langCode
    ensures voice !in AvailableVoices ==> code == "a"
    ensures code == "a" || code == "b"
  {
    if voice in AvailableVoices then AvailableVoices[voice].langCode else "a"
  }

  /** `voice or self.voice`, then the table check: a missing or empty
      request means the default, and so does a voice outside the table. */
  function SelectVoice(requested: Option<string>, default: string): (v: string)
    ensures v in AvailableVoices || v == default
    ensures requested.Some? && requested.value in AvailableVoices ==> v == requested.value
    ensures requested.None? || requested.value !in AvailableVoices ==> v == default
  {
    var chosen := if requested.Some? && requested.value != "" then requested.value else default;
    if chosen in AvailableVoices then chosen else default
  }

  // ---------------------------------------------------------------- text cleaning

  predicate IsEndPunct(c: char) { c == '.' || c == '!' || c == '?' }

  /** _clean_text: strip, collapse whitespace runs, and end a non-empty
      text with '.' unless it already ends with '.', '!' or '?'. */
  function CleanText(text: string): string {
    var n := Normalize(text);
    if n != [] && !IsEndPunct(n[|n| - 1]) then n + "." else n
  }

  /** A cleaned text is normalized, blank exactly when the input is, and a
      non-blank one ends in sentence punctuation. */
  lemma CleanTextShape(text: string)
    ensures Normalized(CleanText(text))
    ensures CleanText(text) == [] <==> AllSpace(text)
    ensures CleanText(text) != [] ==> IsEndPunct(CleanText(text)[|CleanText(text)| - 1])
  {
    var n := Normalize(text);
    if n != [] && !IsEndPunct(n[|n| - 1]) {
      NormalizedExtend(n, ".");
      assert (n + ".")[|n|] == '.';
    }
  }

  /** Cleaning a cleaned text changes nothing. */
  lemma CleanTextIdempotent(text: string)
    ensures CleanText(CleanText(text)) == CleanText(text)
  {
    CleanTextShape(text);
  }

  // ---------------------------------------------------------------- audio segments

  /** The segments that hold audio: present and not empty. */
  function KeptSegments(segs: seq<Option<seq<real>>>): (r: seq<seq<real>>)
    ensures |r| <= |segs|
    ensures forall i :: 0 <= i < |r| ==> r[i] != []
  {
    if segs == [] then []
    else
      (if segs[0].Some? && segs[0].value != [] then [segs[0].value] else [])
      + KeptSegments(segs[1..])
  }

  /** The segments one after another (np.concatenate). */
  function Flatten(parts: seq<seq<real>>): seq<real> {
    if parts == [] then [] else parts[0] + Flatten(parts[1..])
  }

  lemma {:induction false} KeptSegmentsSnoc(segs: seq<Option<seq<real>>>, a: Option<seq<real>>)
    ensures KeptSegments(segs + [a]) == KeptSegments(segs) + (if a.Some? && a.value != [] then [a.value] else [])
    decreases |segs|
  {
    if segs == [] {
      assert [] + [a] == [a];
      assert [a][1..] == [];
    } else {
      assert (segs + [a])[0] == segs[0];
      assert (segs + [a])[1..] == segs[1..] + [a];
      KeptSegmentsSnoc(segs[1..], a);
    }
  }

  /** The joined audio is exactly as long as the kept segments together. */
  lemma {:induction false} FlattenLength(parts: seq<seq<real>>)
    ensures |Flatten(parts)| == SumLengths(parts)
    decreases |parts|
  {
    if parts != [] { FlattenLength(parts[1..]); }
  }

  lemma FlattenSingle(x: seq<real>)
    ensures Flatten([x]) == x
  {
    assert [x][1..] == [];
    assert Flatten([x]) == x + Flatten([]);
  }

  function SumLengths(parts: seq<seq<real>>): nat {
    if parts == [] then 0 else |parts[0]| + SumLengths(parts[1..])
  }

  /** The result of _synthesize_text for what the pipeline yielded:
      nothing when no segment holds audio, the joined audio otherwise. */
  function Collected(segs: seq<Option<seq<real>>>): Option<seq<real>> {
    var kept := KeptSegments(segs);
    if kept == [] then None else Some(Flatten(kept))
  }

  /** A single non-empty segment is returned as it is, and empty segments
      are never part of the result. */
  lemma CollectedSingle(segs: seq<Option<seq<real>>>, k: nat)
    requires k < |segs| && segs[k].Some? && segs[k].value != []
    requires forall i :: 0 <= i < |segs| && i != k ==> segs[i].None? || segs[i].value == []
    ensures Collected(segs) == Some(segs[k].value)
  {
    SingleKept(segs, k);
    var kept := KeptSegments(segs);
    assert kept == [segs[k].value];
    FlattenSingle(segs[k].value);
  }

  lemma {:induction false} SingleKept(segs: seq<Option<seq<real>>>, k: nat)
    requires k < |segs| && segs[k].Some? && segs[k].value != []
    requires forall i :: 0 <= i < |segs| && i != k ==> segs[i].None? || segs[i].value == []
    ensures KeptSegments(segs) == [segs[k].value]
    decreases |segs|
  {
    if k == 0 {
      NoneKept(segs[1..]);
    } else {
      assert segs[k] == segs[1..][k - 1];
      SingleKept(segs[1..], k - 1);
    }
  }

  lemma {:induction false} NoneKept(segs: seq<Option<seq<real>>>)
    requires forall i :: 0 <= i < |segs| ==> segs[i].None? || segs[i].value == []
    ensures KeptSegments(segs) == []
    decreases |segs|
  {
    if segs != [] {
      assert forall i :: 0 <= i < |segs[1..]| ==> segs[1..][i] == segs[i + 1];
      NoneKept(segs[1..]);
    }
  }

  // ---------------------------------------------------------------- the service

  /** The sample rate of the synthesized audio. */
  const SampleRate := 24000

  const NotInitialized := "TTS service not initialized"

  /** A constructed KPipeline: the language it was built for. */
  datatype Pipeline = Pipeline(langCode: string)

  /** The world `initialize` meets: the requirements file, pip's outcome,
      the import test around the install, whether a later import of kokoro
      succeeds on its own, and whether building the pipeline succeeds. */
  datatype TtsHost = TtsHost(file: Option<seq<string>>, pipOk: bool, test: ImportTest,
                             importNow: bool, created: bool)

  datatype ModelInfo =
    | NotInitializedInfo
    | ReadyInfo(voice: string, device: string, quantization: string, cacheDir: string, voices: seq<string>)

  class TTSService {
    const voice: string
    const device: string
    const quantization: string
    const cacheDir: string
    var pipeline: Option<Pipeline>
    var initialized: bool

    /** The pipeline is built exactly when the service is initialized. */
    predicate Valid()
      reads this
    {
      initialized <==> pipeline.Some?
    }

    /** __init__: settings recorded, no pipeline. */
    constructor (voice: string, device: string, quantization: string, cacheDir: string)
      ensures this.voice == voice && this.device == device
      ensures this.quantization == quantization && this.cacheDir == cacheDir
      ensures pipeline.None? && !initialized && Valid()
    {
      this.voice := voice;
      this.device := device;
      this.quantization := quantization;
      this.cacheDir := cacheDir;
      pipeline := None;
      initialized := false;
    }

    /** is_ready: initialized and a pipeline is built. */
    predicate IsReady()
      reads this
    {
      initialized && pipeline.Some?
    }

    /** initialize: kokoro must be installed (marked before, or made to
        import by the installer) and importable afterwards; an initialized
        service then returns True at once, and otherwise a pipeline for the
        default voice's language is built. Every failure returns False and
        leaves the service as it was. */
    method Initialize(inst: RuntimeInstaller, h: TtsHost) returns (ok: bool)
      requires Valid() && inst.Valid()
      modifies this, inst
      ensures Valid() && inst.Valid()
      ensures inst.installed == old(inst.installed) || inst.installed == old(inst.installed)["kokoro" := true]
      ensures var installed := old(inst.IsPackageInstalled("kokoro")) || EnsureSucceeds(Some(h.test), h.pipOk);
        var imported := !old(inst.IsPackageInstalled("kokoro")) || h.importNow;
        ok <==> installed && imported && (old(initialized) || h.created)
      ensures !ok || old(initialized) ==> pipeline == old(pipeline) && initialized == old(initialized)
      ensures ok ==> IsReady() && inst.IsPackageInstalled("kokoro")
      ensures ok && !old(initialized) ==> pipeline == Some(Pipeline(LangCodeFor(voice)))
    {
      var wasMarked := inst.IsPackageInstalled("kokoro");
      var installed, pip := inst.EnsurePackageInstalled("kokoro", Some(h.test), h.file, h.pipOk);
      if !installed {
        return false;
      }
      // A test that imported during the call has set the module's flag, so
      // the second import returns at once.
      var imported := !wasMarked || h.importNow;
      if !imported {
        return false;
      }
      if initialized {
        return true;
      }
      var lang := LangCodeFor(voice);
      if !h.created {
        return false;
      }
      pipeline := Some(Pipeline(lang));
      initialized := true;
      return true;
    }

    /** _synthesize_text: a text that cleans to nothing is not synthesized;
        otherwise the pipeline runs on the cleaned text, and the audio of the
        segments that hold any is joined. A pipeline that raises gives None. */
    method SynthesizeText(text: string, v: string, run: (string, string) -> Result<seq<Option<seq<real>>>>)
      returns (audio: Option<seq<real>>)
      ensures AllSpace(text) ==> audio.None?
      ensures !AllSpace(text) && run(CleanText(text), v).Failure? ==> audio.None?
      ensures !AllSpace(text) && run(CleanText(text), v).Success? ==>
        audio == Collected(run(CleanText(text), v).value)
    {
      var cleaned := CleanText(text);
      CleanTextShape(text);
      if AllSpace(cleaned) {
        return None;
      }
      var gen := run(cleaned, v);
      if gen.Failure? {
        return None;
      }
      var segs := gen.value;
      var kept: seq<seq<real>> := [];
      var i := 0;
      while i < |segs|
        invariant 0 <= i <= |segs|
        invariant kept == KeptSegments(segs[..i])
      {
        KeptSegmentsSnoc(segs[..i], segs[i]);
        assert segs[..i + 1] == segs[..i] + [segs[i]];
        if segs[i].Some? && |segs[i].value| > 0 {
          kept := kept + [segs[i].value];
        }
        i := i + 1;
      }
      assert segs[..i] == segs;
      if kept == [] {
        return None;
      }
      if |kept| == 1 {
        assert kept == [kept[0]];
        FlattenSingle(kept[0]);
        return Some(kept[0]);
      }
      return Some(Flatten(kept));
    }

    /** synthesize_speech: an error before initialization; otherwise the
        chosen voice (or the default) is synthesized. Encoding the samples
        as WAV bytes is not part of this model. */
    method SynthesizeSpeech(text: string, requested: Option<string>,
                            run: (string, string) -> Result<seq<Option<seq<real>>>>)
      returns (r: Result<Option<seq<real>>>)
      ensures !IsReady() ==> r == Failure(NotInitialized)
      ensures IsReady() ==> r.Success?
      ensures IsReady() && AllSpace(text) ==> r == Success(None)
      ensures IsReady() && !AllSpace(text) ==>
        var res := run(CleanText(text), SelectVoice(requested, voice));
        r == Success(if res.Failure? then None else Collected(res.value))
    {
      if !IsReady() {
        return Failure(NotInitialized);
      }
      var selected := SelectVoice(requested, voice);
      var audio := SynthesizeText(text, selected, run);
      return Success(audio);
    }

    /** get_model_info: "not_initialized" before initialization, the
        settings and the table's voice names after. */
    function GetModelInfo(): (info: ModelInfo)
      reads this
      ensures info.NotInitializedInfo? <==> !initialized
      ensures info.ReadyInfo? ==>
        info.voice == voice && info.voices == VoiceNames && info.device == device
    {
      if !initialized then NotInitializedInfo
      else ReadyInfo(voice, device, quantization, cacheDir, VoiceNames)
    }

    /** cleanup: drops the pipeline. */
    method Cleanup()
      modifies this
      ensures pipeline.None? && !initialized && Valid()
      ensures !IsReady() && GetModelInfo() == NotInitializedInfo
    {
      pipeline := None;
      initialized := false;
    }
  }
}
