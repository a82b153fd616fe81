// The Piper text-to-speech service (backend/internal/piper/tts.go): a
// ready flag, a voice table keyed by name and a default voice, the voice
// resolution of Synthesize, the placeholder WAV it falls back to, the Piper
// binary path normalisation and the voice-model download table.
module Piper {
  import opened Wrappers
  import opened Text
  import opened Pcm
  import opened Assets
  import opened PiperAudio

  datatype Config = Config(piperPath: string, modelPath: string, voice: string, speed: real)

  datatype Voice = Voice(
    name: string, language: string, gender: string, quality: string,
    sampleRate: nat, description: string)

  // ---------------------------------------------------------------- voices

  /** The three Piper voices loadVoices installs. */
  const Catalog: seq<Voice> := [
    Voice("en_US-amy-medium", "en-US", "female", "medium", 22050,
          "Amy - English US female voice (Piper)"),
    Voice("en_US-hfc_female-medium", "en-US", "female", "medium", 22050,
          "HFC Female - English US female voice (Piper)"),
    Voice("en_US-kristin-medium", "en-US", "female", "medium", 22050,
          "Kristin - English US female voice (Piper)")]

  const DefaultVoiceName := "en_US-amy-medium"

  /** The table built by inserting each voice under its name in order (a
      later voice with the same name replaces an earlier one). */
  function ByName(vs: seq<Voice>): (m: map<string, Voice>)
    ensures forall name :: name in m <==> exists i :: 0 <= i < |vs| && vs[i].name == name
    ensures forall name :: name in m ==> m[name].name == name && m[name] in vs
  {
    if vs == [] then map[]
    else
      var init := ByName(vs[..|vs| - 1]);
      var last := vs[|vs| - 1];
      assert forall v :: v in vs[..|vs| - 1] ==> v in vs;
      assert forall i :: 0 <= i < |vs| - 1 ==> vs[..|vs| - 1][i] == vs[i];
      init[last.name := last]
  }

  /** The table of the catalog has exactly the three names, each mapped to
      its own entry of the catalog. */
  lemma CatalogTable()
    ensures ByName(Catalog).Keys == {"en_US-amy-medium", "en_US-hfc_female-medium", "en_US-kristin-medium"}
    ensures forall i :: 0 <= i < |Catalog| ==> ByName(Catalog)[Catalog[i].name] == Catalog[i]
  {
    CatalogInserts();
    assert Catalog[0].name == "en_US-amy-medium";
    assert Catalog[1].name == "en_US-hfc_female-medium";
    assert Catalog[2].name == "en_US-kristin-medium";
  }

  /** The table of the catalog is its three insertions in order. */
  lemma CatalogInserts()
    ensures ByName(Catalog) == map[Catalog[0].name := Catalog[0]][Catalog[1].name := Catalog[1]][Catalog[2].name := Catalog[2]]
  {
    assert Catalog[..2][..1] == Catalog[..1] && Catalog[..1][..0] == [];
  }

  predicate English(v: Voice) { v.language == "en-US" || v.language == "en-GB" }

  /** The name Synthesize looks up first: the request, else the configured
      voice, else the built-in default. */
  function RequestedVoice(voice: string, configured: string): (name: string)
    ensures voice != "" ==> name == voice
    ensures voice == "" && configured != "" ==> name == configured
    ensures voice == "" && configured == "" ==> name == DefaultVoiceName
  {
    if voice != "" then voice else if configured != "" then configured else DefaultVoiceName
  }

  /** The resolution Synthesize applies to a name: the name itself when the
      table has it, else the default voice when the table has that, else any
      English voice of the table, else nothing. */
  predicate Resolves(voices: map<string, Voice>, defaultVoice: string, name: string, sel: Option<string>)
    ensures Resolves(voices, defaultVoice, name, sel) && sel.Some? ==> sel.value in voices
    ensures Resolves(voices, defaultVoice, name, sel) && sel.None? ==> voices.Keys !! {name, defaultVoice}
  {
    if name in voices then sel == Some(name)
    else if defaultVoice in voices then sel == Some(defaultVoice)
    else if exists v :: v in voices && English(voices[v]) then sel.Some? && sel.value in voices && English(voices[sel.value])
    else sel.None?
  }

  /** A table holding at least one English voice always resolves a name. */
  lemma EnglishVoiceResolves(voices: map<string, Voice>, defaultVoice: string, name: string, sel: Option<string>)
    requires exists v :: v in voices && English(voices[v])
    requires Resolves(voices, defaultVoice, name, sel)
    ensures sel.Some? && sel.value in voices
  {
  }

  // ---------------------------------------------------------------- binary path

  /** ensurePiper's path repair: an empty path becomes the bundled binary,
      and on Windows a path without ".exe" gets it appended. */
  function NormalizePiperPath(path: string, os: string): (p: string)
    ensures path == "" ==> p == (if os == "windows" then "bin/piper.exe" else "bin/piper")
    ensures os == "windows" ==> HasSuffix(p, ".exe")
    ensures os != "windows" && path != "" ==> p == path
    ensures os == "windows" && HasSuffix(path, ".exe") ==> p == path
    ensures os == "windows" && path != "" && !HasSuffix(path, ".exe") ==> p == path + ".exe"
  {
    if path == "" then (if os == "windows" then "bin/piper.exe" else "bin/piper")
    else if os == "windows" && !HasSuffix(path, ".exe") then
      assert (path + ".exe")[|path + ".exe"| - 4..] == ".exe";
      path + ".exe"
    else path
  }

  /** Repairing a repaired path changes nothing. */
  lemma NormalizeIdempotent(path: string, os: string)
    ensures NormalizePiperPath(NormalizePiperPath(path, os), os) == NormalizePiperPath(path, os)
  {
    var p := NormalizePiperPath(path, os);
    if os != "windows" {
      assert p != "";
    }
  }

  /** The binary path the asset manager hands over on a successful
      asset extraction is already in repaired form. */
  lemma AssetPathIsNormal(am: AssetManager, os: string)
    requires am.baseDir == "."
    ensures NormalizePiperPath(am.GetBinaryPath(os, "piper"), os) == am.GetBinaryPath(os, "piper")
  {
    WorkingDirectoryBinaries(am, os);
    if os == "windows" {
      assert HasSuffix("bin/piper.exe", ".exe");
    }
  }

  const PiperNotFound := "piper binary not found - please download manually"

  // ---------------------------------------------------------------- voice models

  const HuggingFaceUS := "https://huggingface.co/rhasspy/piper-voices/resolve/v1.0.0/en/en_US"
  const HuggingFaceGB := "https://huggingface.co/rhasspy/piper-voices/resolve/v1.0.0/en/en_GB"

  /** Where each downloadable voice lives in the voice repository. */
  const VoicePaths: map<string, string> := map[
    "en_US-amy-medium" := "amy/medium",
    "en_US-hfc_female-medium" := "hfc_female/medium",
    "en_US-kristin-medium" := "kristin/medium"]

  /** One file to fetch: its URL and where it is stored. */
  datatype Download = Download(url: string, file: string)

  /** The mirror directory of a voice: the en_GB one for names starting with
      "en_GB", the en_US one otherwise. */
  function Mirror(voiceName: string): string {
    if HasPrefix(voiceName, "en_GB") then HuggingFaceGB else HuggingFaceUS
  }

  /** The URL of a voice's model file. */
  function ModelURL(voiceName: string): string
    requires voiceName in VoicePaths
  {
    Mirror(voiceName) + "/" + VoicePaths[voiceName] + "/" + voiceName + ".onnx"
  }

  /** downloadVoiceModel's plan: an "unknown voice" error for a name outside
      the table, otherwise the model and then its JSON configuration, whose
      URL is the model's with ".json" appended, both stored in the model
      directory under the voice's name. */
  function VoiceDownloads(voiceName: string, modelDir: string): (r: Result<seq<Download>>)
    ensures r.Failure? <==> voiceName !in VoicePaths
    ensures r.Failure? ==> r.error == "unknown voice: " + voiceName
    ensures r.Success? ==> (|r.value| == 2
      && r.value[0] == Download(ModelURL(voiceName), JoinPath(modelDir, voiceName + ".onnx"))
      && r.value[1] == Download(ModelURL(voiceName) + ".json", JoinPath(modelDir, voiceName + ".onnx.json")))
  {
    if voiceName !in VoicePaths then Failure("unknown voice: " + voiceName)
    else
      var dir := Mirror(voiceName) + "/" + VoicePaths[voiceName] + "/";
      assert dir + voiceName + ".onnx.json" == ModelURL(voiceName) + ".json";
      Success([Download(dir + voiceName + ".onnx", JoinPath(modelDir, voiceName + ".onnx")),
               Download(dir + voiceName + ".onnx.json", JoinPath(modelDir, voiceName + ".onnx.json"))])
  }

  /** Every name of the download table starts with "en_US", so the en_GB
      mirror is never chosen. */
  lemma DownloadsUseUSMirror(voiceName: string)
    requires voiceName in VoicePaths
    ensures Mirror(voiceName) == HuggingFaceUS
  {
    assert voiceName[..5] == "en_US";
  }

  /** The download table covers exactly the catalog. */
  lemma DownloadTableIsCatalog()
    ensures VoicePaths.Keys == ByName(Catalog).Keys
  {
    CatalogTable();
  }

  // ---------------------------------------------------------------- service

  class TTSService {
    var ready: bool
    var status: string
    var config: Config
    var voices: map<string, Voice>
    var infoVoices: seq<Voice>
    var defaultVoice: string
    const assetManager: AssetManager

    /** The table is always the one built from the listed voices, the list
        is empty or the catalog, and a ready service has the catalog. */
    predicate Valid()
      reads this
    {
      (infoVoices == [] || infoVoices == Catalog) && voices == ByName(infoVoices)
      && (ready ==> infoVoices == Catalog)
      && assetManager.baseDir == "."
    }

    /** NewTTSService: no voices yet, default voice Amy, "initializing". */
    constructor (config: Config)
      ensures !ready && status == "initializing" && this.config == config
      ensures voices == map[] && infoVoices == [] && defaultVoice == DefaultVoiceName
      ensures Valid()
    {
      this.config := config;
      ready := false;
      status := "initializing";
      voices := map[];
      infoVoices := [];
      defaultVoice := DefaultVoiceName;
      assetManager := new AssetManager(".");
    }

    predicate IsReady()
      reads this
    {
      ready
    }

    /** loadVoices: the table is replaced by the catalog keyed by name and
        the service info lists the catalog. */
    method LoadVoices()
      modifies this
      ensures voices == ByName(Catalog) && infoVoices == Catalog
      ensures ready == old(ready) && status == old(status) && config == old(config)
      ensures defaultVoice == old(defaultVoice)
    {
      voices := map[];
      infoVoices := Catalog;
      var i := 0;
      while i < |Catalog|
        invariant 0 <= i <= |Catalog|
        invariant voices == ByName(Catalog[..i])
        invariant ready == old(ready) && status == old(status) && config == old(config)
        invariant defaultVoice == old(defaultVoice) && infoVoices == Catalog
      {
        assert Catalog[..i + 1][..i] == Catalog[..i];
        voices := voices[Catalog[i].name := Catalog[i]];
        i := i + 1;
      }
      assert Catalog[..i] == Catalog;
    }

    /** ensurePiper: repairs the configured path, then succeeds when the
        binary and its dependencies exist; otherwise the bin directory is
        created and a download tried, whose failure is the only other
        error. */
    method EnsurePiper(os: string, binaryExists: bool, depsExist: bool, mkdirErr: Option<string>, downloadOk: bool)
      returns (err: Option<string>)
      modifies this
      ensures config == old(config).(piperPath := NormalizePiperPath(old(config.piperPath), os))
      ensures err.None? <==> (binaryExists && depsExist) || (mkdirErr.None? && downloadOk)
      ensures !(binaryExists && depsExist) && mkdirErr.Some? ==> err == Some("failed to create bin directory: " + mkdirErr.value)
      ensures !(binaryExists && depsExist) && mkdirErr.None? && !downloadOk ==> err == Some(PiperNotFound)
      ensures ready == old(ready) && status == old(status) && voices == old(voices)
      ensures infoVoices == old(infoVoices) && defaultVoice == old(defaultVoice)
    {
      if config.piperPath == "" {
        if os == "windows" {
          config := config.(piperPath := "bin/piper.exe");
        } else {
          config := config.(piperPath := "bin/piper");
        }
      } else if os == "windows" && !HasSuffix(config.piperPath, ".exe") {
        config := config.(piperPath := config.piperPath + ".exe");
      }
      if binaryExists && depsExist {
        return None;
      }
      if mkdirErr.Some? {
        return Some("failed to create bin directory: " + mkdirErr.value);
      }
      if !downloadOk {
        return Some(PiperNotFound);
      }
      return None;
    }

    /** Initialize: on successful asset extraction the configured paths are
        redirected to the extracted binary and model directory; the binary
        check runs and its failure is ignored; the catalog is loaded and the
        service is ready. It never fails. */
    method Initialize(os: string, assetsErr: Option<string>, binaryExists: bool, depsExist: bool,
                      mkdirErr: Option<string>, downloadOk: bool)
      returns (err: Option<string>)
      requires Valid()
      modifies this
      ensures err.None? && ready && status == "ready" && Valid()
      ensures voices == ByName(Catalog) && infoVoices == Catalog && defaultVoice == old(defaultVoice)
      ensures config.piperPath == NormalizePiperPath(
        if assetsErr.None? then assetManager.GetBinaryPath(os, "piper") else old(config.piperPath), os)
      ensures config.modelPath == (if assetsErr.None? then "models/piper" else old(config.modelPath))
      ensures config.voice == old(config.voice) && config.speed == old(config.speed)
      ensures assetsErr.None? ==> config.piperPath == (if os == "windows" then "bin/piper.exe" else "bin/piper")
    {
      if assetsErr.None? {
        config := config.(piperPath := assetManager.GetBinaryPath(os, "piper"),
                          modelPath := assetManager.GetModelPath("piper"));
        WorkingDirectoryModels(assetManager);
        AssetPathIsNormal(assetManager, os);
        WorkingDirectoryBinaries(assetManager, os);
      }
      var ensureErr := EnsurePiper(os, binaryExists, depsExist, mkdirErr, downloadOk);
      LoadVoices();
      ready := true;
      status := "ready";
      return None;
    }

    /** The voice Synthesize selects for a name. */
    method ResolveVoice(name: string) returns (sel: Option<string>)
      ensures Resolves(voices, defaultVoice, name, sel)
    {
      if name in voices {
        return Some(name);
      }
      if defaultVoice in voices {
        return Some(defaultVoice);
      }
      if v :| v in voices && English(voices[v]) {
        return Some(v);
      }
      return None;
    }

    /** Synthesize: fails when the service is not ready, then for an empty
        text, before any voice lookup; fails with "no voices available"
        exactly when the name does not resolve; otherwise returns Piper's
        audio, or the placeholder WAV of the selected voice when the voice
        model or Piper itself fails. A valid ready service always resolves,
        so its only errors are the first two. */
    method Synthesize(text: string, voice: string, modelErr: Option<string>, piper: Result<seq<Byte>>,
                      n: nat, tone: Tone)
      returns (r: Result<seq<Byte>>)
      ensures !ready ==> r == Failure("TTS service is not ready")
      ensures ready && text == [] ==> r == Failure("text cannot be empty")
      ensures ready && text != [] ==>
        var name := RequestedVoice(voice, config.voice);
        (r == Failure("no voices available") <==> Resolves(voices, defaultVoice, name, None))
        && (r.Success? ==> exists sel :: (sel in voices && Resolves(voices, defaultVoice, name, Some(sel))
             && r.value == (if modelErr.None? && piper.Success? then piper.value
                            else PlaceholderWav(n, text, voices[sel].gender, tone))))
        && (r.Failure? ==> r == Failure("no voices available"))
      ensures Valid() && ready && text != [] ==> r.Success?
    {
      if !ready {
        return Failure("TTS service is not ready");
      }
      if text == [] {
        return Failure("text cannot be empty");
      }
      var name := RequestedVoice(voice, config.voice);
      var sel := ResolveVoice(name);
      if sel.None? {
        if Valid() {
          CatalogTable();
          assert false;
        }
        return Failure("no voices available");
      }
      if modelErr.Some? || piper.Failure? {
        var wav := GeneratePlaceholderWAV(text, voices[sel.value].gender, n, tone);
        return Success(wav[..]);
      }
      return Success(piper.value);
    }

    /** GetDefaultVoice. */
    function GetDefaultVoice(): string
      reads this
    {
      defaultVoice
    }

    /** SetDefaultVoice succeeds iff the table has the name; only then does
        the default change. */
    method SetDefaultVoice(name: string) returns (err: Option<string>)
      modifies this
      ensures err.None? <==> name in voices
      ensures err.Some? ==> err.value == "voice '" + name + "' not found"
      ensures GetDefaultVoice() == (if name in voices then name else old(defaultVoice))
      ensures ready == old(ready) && status == old(status) && config == old(config)
      ensures voices == old(voices) && infoVoices == old(infoVoices)
    {
      if name !in voices {
        return Some("voice '" + name + "' not found");
      }
      defaultVoice := name;
      return None;
    }

    /** GetAvailableVoices: every name of the table once, in no particular
        order (Go's map iteration order). */
    method GetAvailableVoices() returns (names: seq<string>)
      ensures forall k :: k in names <==> k in voices
      ensures |names| == |voices|
      ensures forall i, j :: 0 <= i < j < |names| ==> names[i] != names[j]
    {
      names := [];
      var remaining := voices.Keys;
      while remaining != {}
        invariant remaining <= voices.Keys
        invariant forall k :: k in names <==> k in voices && k !in remaining
        invariant forall i, j :: 0 <= i < j < |names| ==> names[i] != names[j]
        invariant |names| + |remaining| == |voices.Keys|
        decreases |remaining|
      {
        var k :| k in remaining;
        names := names + [k];
        remaining := remaining - {k};
      }
    }

    /** Shutdown: not ready, status "stopped"; nothing else changes. */
    method Shutdown() returns (err: Option<string>)
      modifies this
      ensures !ready && status == "stopped" && err.None?
      ensures config == old(config) && voices == old(voices) && infoVoices == old(infoVoices)
      ensures defaultVoice == old(defaultVoice)
    {
      ready := false;
      status := "stopped";
      return None;
    }
  }
}
