// Platform asset naming of the embedded-asset manager
// (backend/internal/embedded/assets.go): which binary names a platform uses,
// where archives live inside the embedded file system, and where binaries and
// models are placed under the manager's base directory.
module Assets {
  import opened Wrappers
  import opened Text

  // ---------------------------------------------------------------- paths

  /** `filepath.Join(dir, name)` for clean components: the two joined by a
      slash, except that an empty or "." directory disappears (Join cleans
      a leading "./"). */
  function JoinPath(dir: string, name: string): (p: string)
    ensures dir == "" || dir == "." ==> p == name
    ensures dir != "" && dir != "." ==> HasPrefix(p, dir + "/") && HasSuffix(p, name)
  {
    if dir == "" || dir == "." then name else dir + "/" + name
  }

  // ---------------------------------------------------------------- platform table

  datatype PlatformInfo = PlatformInfo(
    os: string, arch: string, whisperPath: string, piperPath: string,
    whisperModel: string, piperVoices: seq<string>)

  const PiperVoiceNames: seq<string> := ["en_US-amy-medium", "en_US-hfc_female-medium", "en_US-kristin-medium"]

  /** GetPlatformInfo with the OS and architecture as parameters: Windows
      binaries carry ".exe"; darwin, linux and every unsupported OS use the
      bare names. */
  function GetPlatformInfo(os: string, arch: string): (info: PlatformInfo)
    ensures info.os == os && info.arch == arch
    ensures info.whisperModel == "whisper-base.bin" && info.piperVoices == PiperVoiceNames
    ensures os == "windows" ==> info.whisperPath == "main.exe" && info.piperPath == "piper.exe"
    ensures os != "windows" ==> info.whisperPath == "main" && info.piperPath == "piper"
  {
    var exe := if os == "windows" then ".exe" else "";
    PlatformInfo(os, arch, "main" + exe, "piper" + exe, "whisper-base.bin", PiperVoiceNames)
  }

  // ---------------------------------------------------------------- archives

  /** The embedded path of the Whisper archive of a platform. */
  function WhisperArchive(os: string, arch: string): (p: string)
    ensures HasPrefix(p, "assets/whisper/whisper_") && HasSuffix(p, ".zip")
    ensures |p| == |"assets/whisper/whisper_"| + |os| + 1 + |arch| + |".zip"|
  {
    "assets/whisper/whisper_" + os + "_" + arch + ".zip"
  }

  /** An embedded archive and whether it is a zip (otherwise a tar.gz). */
  datatype Archive = Archive(path: string, isZip: bool)

  /** The embedded Piper archive of a platform: a zip on Windows, a tar.gz
      on darwin ("macos" in the name) and linux, and an empty archive name
      on any other OS. */
  function PiperArchive(os: string, arch: string): (a: Archive)
    ensures a.isZip <==> os == "windows"
    ensures os == "windows" ==> a.path == "assets/piper/piper_windows_" + arch + ".zip"
    ensures os == "darwin" ==> a.path == "assets/piper/piper_macos_" + arch + ".tar.gz"
    ensures os == "linux" ==> a.path == "assets/piper/piper_linux_" + arch + ".tar.gz"
    ensures os !in {"windows", "darwin", "linux"} ==> a.path == "assets/piper/"
  {
    var name :=
      if os == "windows" then "piper_windows_" + arch + ".zip"
      else if os == "darwin" then "piper_macos_" + arch + ".tar.gz"
      else if os == "linux" then "piper_linux_" + arch + ".tar.gz"
      else "";
    Archive("assets/piper/" + name, os == "windows")
  }

  /** Two strings joined by '_' determine their parts when the first holds
      no '_'. */
  lemma UnderscoreSplit(a: string, b: string, c: string, d: string)
    requires '_' !in a && '_' !in c
    requires a + "_" + b == c + "_" + d
    ensures a == c && b == d
  {
    var notUnderscore := (ch: char) => ch != '_';
    assert a + "_" + b == a + ("_" + b) && c + "_" + d == c + ("_" + d);
    TakeWhileOfRun(a, "_" + b, notUnderscore);
    TakeWhileOfRun(c, "_" + d, notUnderscore);
    var s := a + "_" + b;
    assert b == s[|a| + 1..] && d == s[|c| + 1..];
  }

  /** Platforms whose OS name holds no '_' (all of Go's GOOS values) have
      distinct Whisper archives. */
  lemma WhisperArchivesDistinct(os1: string, arch1: string, os2: string, arch2: string)
    requires '_' !in os1 && '_' !in os2
    requires WhisperArchive(os1, arch1) == WhisperArchive(os2, arch2)
    ensures os1 == os2 && arch1 == arch2
  {
    var p := "assets/whisper/whisper_";
    var s1, s2 := WhisperArchive(os1, arch1), WhisperArchive(os2, arch2);
    var m1, m2 := os1 + "_" + arch1, os2 + "_" + arch2;
    assert s1 == p + m1 + ".zip" && s2 == p + m2 + ".zip";
    assert m1 == s1[|p|..|s1| - 4];
    assert m2 == s2[|p|..|s2| - 4];
    UnderscoreSplit(os1, arch1, os2, arch2);
  }

  const WhisperNotEmbedded := "whisper archive not embedded for platform "
  const PiperNotEmbedded := "piper archive not embedded for platform "

  /** extractWhisperAssets: an error when the platform's archive is not in
      the embedded file system, otherwise the outcome of unzipping it. */
  function ExtractWhisperAssets(info: PlatformInfo, embedded: set<string>, unzip: Option<string>): (err: Option<string>)
    ensures WhisperArchive(info.os, info.arch) !in embedded ==>
      err == Some(WhisperNotEmbedded + info.os + "/" + info.arch)
    ensures WhisperArchive(info.os, info.arch) in embedded ==> err == unzip
  {
    if WhisperArchive(info.os, info.arch) !in embedded then Some(WhisperNotEmbedded + info.os + "/" + info.arch)
    else unzip
  }

  /** extractPiperAssets: an error when the archive is not embedded,
      otherwise the outcome of the zip or the tar.gz extractor. */
  function ExtractPiperAssets(info: PlatformInfo, embedded: set<string>, unzip: Option<string>, untar: Option<string>): (err: Option<string>)
    ensures PiperArchive(info.os, info.arch).path !in embedded ==>
      err == Some(PiperNotEmbedded + info.os + "/" + info.arch)
    ensures PiperArchive(info.os, info.arch).path in embedded ==>
      err == (if info.os == "windows" then unzip else untar)
  {
    var a := PiperArchive(info.os, info.arch);
    if a.path !in embedded then Some(PiperNotEmbedded + info.os + "/" + info.arch)
    else if a.isZip then unzip else untar
  }

  // ---------------------------------------------------------------- manager

  class AssetManager {
    const baseDir: string
    var cache: map<string, string>

    /** The cache is never written after construction. */
    predicate Valid()
      reads this
    {
      cache == map[]
    }

    /** NewAssetManager: the base directory and an empty cache. */
    constructor (baseDir: string)
      ensures this.baseDir == baseDir && Valid()
    {
      this.baseDir := baseDir;
      cache := map[];
    }

    /** GetAssetPath: a cache lookup, which misses for every name since the
        cache stays empty. */
    method GetAssetPath(name: string) returns (r: Option<string>)
      ensures r.Some? <==> name in cache
      ensures r.Some? ==> r.value == cache[name]
      ensures Valid() ==> r.None?
    {
      if name in cache {
        return Some(cache[name]);
      }
      return None;
    }

    function BinDir(): string { JoinPath(baseDir, "bin") }
    function ModelsDir(): string { JoinPath(baseDir, "models") }

    /** GetBinaryPath: "whisper" and "piper" become the platform's binary
        names under <base>/bin, any other name is used as it is. */
    function GetBinaryPath(os: string, name: string): (p: string)
      ensures name == "whisper" ==> p == JoinPath(BinDir(), if os == "windows" then "main.exe" else "main")
      ensures name == "piper" ==> p == JoinPath(BinDir(), if os == "windows" then "piper.exe" else "piper")
      ensures name != "whisper" && name != "piper" ==> p == JoinPath(BinDir(), name)
    {
      var info := GetPlatformInfo(os, "");
      if name == "whisper" then JoinPath(BinDir(), info.whisperPath)
      else if name == "piper" then JoinPath(BinDir(), info.piperPath)
      else JoinPath(BinDir(), name)
    }

    /** GetModelPath: "whisper" is the base model file, any other name is
        used as it is, under <base>/models. */
    function GetModelPath(name: string): (p: string)
      ensures p == JoinPath(ModelsDir(), if name == "whisper" then "whisper-base.bin" else name)
    {
      if name == "whisper" then JoinPath(ModelsDir(), "whisper-base.bin")
      else JoinPath(ModelsDir(), name)
    }

    /** GetVoiceModelPath: <base>/models/piper/<voice>.onnx. */
    function GetVoiceModelPath(voice: string): (p: string)
      ensures HasSuffix(p, voice + ".onnx")
    {
      JoinPath(JoinPath(ModelsDir(), "piper"), voice + ".onnx")
    }

    /** EnsureAssets: fails only when a base directory cannot be created;
        the three extraction steps run and their errors are dropped. */
    method EnsureAssets(os: string, arch: string, mkdirBin: Option<string>, mkdirModels: Option<string>,
                        embedded: set<string>, unzip: Option<string>, untar: Option<string>,
                        voiceModels: Option<string>)
      returns (err: Option<string>)
      ensures mkdirBin.Some? ==> err == Some("failed to create bin directory: " + mkdirBin.value)
      ensures mkdirBin.None? && mkdirModels.Some? ==> err == Some("failed to create models directory: " + mkdirModels.value)
      ensures err.None? <==> mkdirBin.None? && mkdirModels.None?
    {
      var info := GetPlatformInfo(os, arch);
      if mkdirBin.Some? {
        return Some("failed to create bin directory: " + mkdirBin.value);
      }
      if mkdirModels.Some? {
        return Some("failed to create models directory: " + mkdirModels.value);
      }
      var whisperErr := ExtractWhisperAssets(info, embedded, unzip);
      var piperErr := ExtractPiperAssets(info, embedded, unzip, untar);
      var voiceErr := voiceModels;
      return None;
    }
  }

  /** With the working directory as base, as the Piper and Whisper services
      create it, binaries land in "bin/". */
  lemma WorkingDirectoryBinaries(am: AssetManager, os: string)
    requires am.baseDir == "."
    ensures os == "windows" ==> am.GetBinaryPath(os, "piper") == "bin/piper.exe" && am.GetBinaryPath(os, "whisper") == "bin/main.exe"
    ensures os != "windows" ==> am.GetBinaryPath(os, "piper") == "bin/piper" && am.GetBinaryPath(os, "whisper") == "bin/main"
  {
    if os == "windows" {
      WindowsBinaries(am);
    } else {
      OtherBinaries(am, os);
    }
  }

  lemma WindowsBinaries(am: AssetManager)
    requires am.baseDir == "."
    ensures am.GetBinaryPath("windows", "piper") == "bin/piper.exe"
    ensures am.GetBinaryPath("windows", "whisper") == "bin/main.exe"
  {
    assert am.GetBinaryPath("windows", "piper") == JoinPath(am.BinDir(), "piper.exe");
    assert am.GetBinaryPath("windows", "whisper") == JoinPath(am.BinDir(), "main.exe");
    assert am.BinDir() == "bin";
    BinPath("piper.exe");
    BinPath("main.exe");
  }

  lemma OtherBinaries(am: AssetManager, os: string)
    requires am.baseDir == "." && os != "windows"
    ensures am.GetBinaryPath(os, "piper") == "bin/piper"
    ensures am.GetBinaryPath(os, "whisper") == "bin/main"
  {
    assert am.GetBinaryPath(os, "piper") == JoinPath(am.BinDir(), "piper");
    assert am.GetBinaryPath(os, "whisper") == JoinPath(am.BinDir(), "main");
    assert am.BinDir() == "bin";
    BinPath("piper");
    BinPath("main");
  }

  lemma BinPath(name: string)
    ensures JoinPath("bin", name) == "bin/" + name
  {
    assert "bin" + "/" == "bin/";
  }

  /** With the working directory as base, models land in "models/". */
  lemma WorkingDirectoryModels(am: AssetManager)
    requires am.baseDir == "."
    ensures am.GetModelPath("whisper") == "models/whisper-base.bin"
    ensures am.GetModelPath("piper") == "models/piper"
  {
    assert am.ModelsDir() == "models";
    assert am.GetModelPath("whisper") == JoinPath("models", "whisper-base.bin");
    assert am.GetModelPath("piper") == JoinPath("models", "piper");
    ModelsPath("whisper-base.bin");
    ModelsPath("piper");
  }

  lemma ModelsPath(name: string)
    ensures JoinPath("models", name) == "models/" + name
  {
    assert "models" + "/" == "models/";
  }

  /** ... and a voice model v in "models/piper/v.onnx". */
  lemma WorkingDirectoryVoiceModel(am: AssetManager, v: string)
    requires am.baseDir == "."
    ensures am.GetVoiceModelPath(v) == "models/piper/" + v + ".onnx"
  {
    assert am.ModelsDir() == "models";
    assert JoinPath("models", "piper") == "models/piper";
    assert am.GetVoiceModelPath(v) == "models/piper" + "/" + (v + ".onnx");
  }

  /** The name table is not injective: on every OS but Windows a binary
      literally called "main" resolves to the Whisper binary. */
  lemma MainAliasesWhisper(am: AssetManager, os: string)
    requires os != "windows"
    ensures am.GetBinaryPath(os, "main") == am.GetBinaryPath(os, "whisper")
  {
  }
}
