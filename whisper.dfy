// The Whisper speech-to-text service (backend/internal/whisper/stt.go): its
// configuration defaults, the ready flag and status of its lifecycle, the
// PCM decoder, the WAV file it hands to whisper.cpp, the whisper.cpp command
// line, the mapping of setup errors to a help message, and the retry
// schedule of its model download.
module Whisper {
  import opened Wrappers
  import opened Text
  import opened Pcm
  import opened Assets

  // ---------------------------------------------------------------- configuration

  datatype Config = Config(language: string, modelPath: string, sampleRate: int, voiceThreshold: real)

  /** The defaults NewSTTService writes into the configuration: a zero sample
      rate becomes 16000 and a zero voice threshold 0.02. */
  function WithDefaults(c: Config): (d: Config)
    ensures d.language == c.language && d.modelPath == c.modelPath
    ensures d.sampleRate != 0 && d.voiceThreshold != 0.0
    ensures c.sampleRate != 0 ==> d.sampleRate == c.sampleRate
    ensures c.voiceThreshold != 0.0 ==> d.voiceThreshold == c.voiceThreshold
  {
    c.(sampleRate := if c.sampleRate == 0 then 16000 else c.sampleRate,
       voiceThreshold := if c.voiceThreshold == 0.0 then 0.02 else c.voiceThreshold)
  }

  /** Defaulting twice is defaulting once, and a zero field becomes exactly
      the documented default. */
  lemma DefaultsIdempotent(c: Config)
    ensures WithDefaults(WithDefaults(c)) == WithDefaults(c)
    ensures c.sampleRate == 0 ==> WithDefaults(c).sampleRate == 16000
    ensures c.voiceThreshold == 0.0 ==> WithDefaults(c).voiceThreshold == 0.02
  {
  }

  // ---------------------------------------------------------------- messages

  const NotReady := "Whisper STT service is not ready"
  const EmptyAudio := "audio data cannot be empty"
  const OddBytes := "invalid audio data: odd number of bytes"
  const ModelNotFound := "whisper model not found at "
  const NoBinary := "no whisper " + "b" + "inary found - please install whisper.cpp"
  const SetupIncomplete := "STT setup incomplete - please download Whisper model and binary for real transcription"
  const DefaultModel := "models/whisper-base.bin"

  // ---------------------------------------------------------------- the host

  /** What transcribeWithWhisper finds on the machine: the OS, the paths that
      exist, the temporary directory, the two nanosecond stamps of the
      temporary file names, and the outcomes of creating the input file,
      running the binary and reading its output. */
  datatype Host = Host(
    os: string, files: set<string>, tmpDir: string,
    inputStamp: nat, outputStamp: nat,
    createErr: Option<string>, runErr: Option<string>, transcript: Result<string>)

  function InputFile(h: Host): string {
    JoinPath(h.tmpDir, "whisper_input_" + NatToString(h.inputStamp) + ".wav")
  }

  function OutputFile(h: Host): string {
    JoinPath(h.tmpDir, "whisper_output_" + NatToString(h.outputStamp) + ".txt")
  }

  /** The base name passed after "-of": the output file without ".txt". */
  function OutputBase(h: Host): string {
    TrimSuffix(OutputFile(h), ".txt")
  }

  /** whisper.cpp's "-otxt -of <base>" writes <base>.txt, which is exactly
      the file the service reads back. */
  lemma OutputBaseNamesOutputFile(h: Host)
    ensures OutputBase(h) + ".txt" == OutputFile(h)
  {
    var stem := "whisper_output_" + NatToString(h.outputStamp);
    JoinKeepsSuffix(h.tmpDir, stem, ".txt");
  }

  /** A joined path ends with the suffix its file name ends with. */
  lemma JoinKeepsSuffix(dir: string, stem: string, suffix: string)
    ensures HasSuffix(JoinPath(dir, stem + suffix), suffix)
  {
    var name := stem + suffix;
    var p := JoinPath(dir, name);
    assert name[|name| - |suffix|..] == suffix;
    if dir != "" && dir != "." {
      assert p == (dir + "/") + name;
      assert p[|p| - |suffix|..] == name[|name| - |suffix|..];
    }
  }

  // ---------------------------------------------------------------- the command line

  datatype Invocation = Invocation(binary: string, args: seq<string>)

  /** Whether a "-l" flag is passed: the language is set and is not "auto". */
  predicate PassesLanguage(language: string) {
    language != "" && language != "auto"
  }

  /** The whisper.cpp arguments: model, input, text output and output base,
      followed by the language only when one is chosen. */
  function WhisperArgs(model: string, input: string, outBase: string, language: string): (args: seq<string>)
    ensures |args| == 7 || |args| == 9
    ensures args[..7] == ["-m", model, "-f", input, "-otxt", "-of", outBase]
    ensures |args| == 9 <==> PassesLanguage(language)
    ensures |args| == 9 ==> args[7..] == ["-l", language]
  {
    var base := ["-m", model, "-f", input, "-otxt", "-of", outBase];
    if PassesLanguage(language) then base + ["-l", language] else base
  }

  /** "-l" occurs among the arguments exactly when the language is passed:
      no other argument is "-l", whatever the paths are. */
  lemma LanguageFlagIffChosen(model: string, input: string, outBase: string, language: string)
    requires model != "-l" && input != "-l" && outBase != "-l"
    ensures "-l" in WhisperArgs(model, input, outBase, language) <==> PassesLanguage(language)
  {
    var args := WhisperArgs(model, input, outBase, language);
    if PassesLanguage(language) {
      assert args[7..][0] == "-l";
      assert args[7] in args;
    } else {
      assert args == args[..7];
    }
  }

  // ---------------------------------------------------------------- binary search path

  /** The downloaded binaries tried, in order, when the embedded one is
      absent. */
  function FallbackBinaries(os: string): seq<string> {
    if os == "windows" then ["bin/whisper-cli.exe", "bin/whisper-command.exe", "bin/main.exe", "bin/whisper.exe"]
    else ["bin/whisper-cli", "bin/whisper-command", "bin/main", "bin/whisper"]
  }

  /** The index of the first path that exists. */
  function FirstExisting(paths: seq<string>, files: set<string>): (r: Option<nat>)
    ensures r.None? <==> forall i :: 0 <= i < |paths| ==> paths[i] !in files
    ensures r.Some? ==> (r.value < |paths| && paths[r.value] in files
      && forall j :: 0 <= j < r.value ==> paths[j] !in files)
    decreases |paths|
  {
    if paths == [] then None
    else if paths[0] in files then Some(0)
    else match FirstExisting(paths[1..], files)
      case None => None
      case Some(i) => Some(i + 1)
  }

  /** The loop over the candidate paths, stopping at the first that
      exists; "" when none does. */
  method FindBinary(paths: seq<string>, files: set<string>) returns (path: string)
    ensures FirstExisting(paths, files).None? ==> path == ""
    ensures FirstExisting(paths, files).Some? ==> path == paths[FirstExisting(paths, files).value]
  {
    path := "";
    var i := 0;
    while i < |paths|
      invariant 0 <= i <= |paths|
      invariant forall j :: 0 <= j < i ==> paths[j] !in files
    {
      if paths[i] in files {
        assert FirstExisting(paths, files) == Some(i);
        return paths[i];
      }
      i := i + 1;
    }
  }

  /** Every fallback candidate is a path under "bin/", so "" never names a
      found binary. */
  lemma FallbackNonEmpty(os: string)
    ensures forall i :: 0 <= i < |FallbackBinaries(os)| ==> FallbackBinaries(os)[i] != ""
  {
  }

  // ---------------------------------------------------------------- the WAV file

  /** The file writeWAVFile produces: the 44-byte header of n 16 kHz mono
      samples followed by the quantized samples, two bytes each. */
  function WavFile(samples: seq<real>): seq<Byte> {
    WavHeader(16000, |samples|) + SampleBytes(QuantizeAll(samples))
  }

  /** The header fields of the written file, read back: 16000 Hz, 32000
      bytes per second, and a RIFF and data size that count the samples. */
  lemma WavFileHeader(samples: seq<real>)
    requires 36 + 2 * |samples| < 4294967296
    ensures HasTags(WavFile(samples)[..44])
    ensures ParseWavHeader(WavFile(samples)[..44]) == WavFormat(
      36 + 2 * |samples|, 16, 1, 1, 16000, 32000, 2, 16, 2 * |samples|)
    ensures |WavFile(samples)| == 44 + 2 * |samples|
  {
    var n := |samples|;
    var hd, body := WavHeader(16000, n), SampleBytes(QuantizeAll(samples));
    assert WavFile(samples) == hd + body;
    assert (hd + body)[..44] == hd;
    WavHeaderFields(16000, n);
    SmallMod(36 + 2 * n);
    SmallMod(2 * n);
    SmallMod(16000);
    SmallMod(32000);
  }

  lemma SmallMod(x: nat)
    requires x < 4294967296
    ensures x % 4294967296 == x
  {
  }

  /** The header bytes in the order writeWAVFile writes them: the small
      fields as literal byte pairs and quadruples, the byte rate as
      rate * channels * bits / 8. */
  function HeaderAsWritten(n: nat): seq<Byte> {
    Ascii("RIFF") + LE32(36 + 2 * n) + Ascii("WAVE")
    + Ascii("fmt ") + [16, 0, 0, 0] + [1, 0] + [1, 0]
    + LE32(16000) + LE32(16000 * 1 * 16 / 8) + [2, 0] + [16, 0]
    + Ascii("data") + LE32(2 * n)
  }

  /** ... which are the canonical 16 kHz header. */
  lemma HeaderAsWrittenIsWavHeader(n: nat)
    ensures HeaderAsWritten(n) == WavHeader(16000, n)
  {
    assert LE32(16) == [16, 0, 0, 0];
    assert LE16(1) == [1, 0] && LE16(2) == [2, 0] && LE16(16) == [16, 0];
    assert 16000 * 1 * 16 / 8 == 2 * 16000;
  }

  /** One more sample appends its two bytes to the file. */
  lemma WavFileStep(samples: seq<real>, i: nat)
    requires i < |samples|
    ensures WavHeader(16000, |samples|) + SampleBytes(QuantizeAll(samples[..i + 1]))
      == WavHeader(16000, |samples|) + SampleBytes(QuantizeAll(samples[..i]))
         + [LowByte(Quantize(samples[i])), HighByte(Quantize(samples[i]))]
  {
    var v := Quantize(samples[i]);
    SampleBytesAppend(QuantizeAll(samples[..i]), v);
    assert QuantizeAll(samples[..i + 1]) == QuantizeAll(samples[..i]) + [v];
  }

  // ---------------------------------------------------------------- download retries

  /** The outcome of one download attempt: the request failed, the file
      could not be inspected afterwards, or a file of some size arrived. */
  datatype Attempt = RequestFailed(err: string) | StatFailed(err: string) | Fetched(size: nat)

  /** The error an attempt leaves behind; a file of at least 1000 bytes is a
      success. */
  function AttemptError(a: Attempt): (e: Option<string>)
    ensures e.None? <==> a.Fetched? && a.size >= 1000
  {
    match a
    case RequestFailed(err) => Some(err)
    case StatFailed(err) => Some("downloaded file verification failed: " + err)
    case Fetched(size) =>
      if size < 1000 then Some("downloaded file too small (" + NatToString(size) + " bytes), likely an error page")
      else None
  }

  /** 2^k. */
  function Pow2(k: nat): nat {
    if k == 0 then 1 else 2 * Pow2(k - 1)
  }

  /** The wait before attempt k + 2: 2, 4, 8, ... seconds. */
  function Backoff(k: nat): nat {
    2 * Pow2(k)
  }

  function Total(ws: seq<nat>): nat {
    if ws == [] then 0 else ws[0] + Total(ws[1..])
  }

  function Backoffs(m: nat): (ws: seq<nat>)
    ensures |ws| == m && forall i :: 0 <= i < m ==> ws[i] == Backoff(i)
  {
    seq(m, i requires 0 <= i < m => Backoff(i))
  }

  /** Each wait doubles the previous one. */
  lemma BackoffDoubles(k: nat)
    ensures Backoff(k + 1) == 2 * Backoff(k)
  {
  }

  /** m retries wait 2^(m+1) - 2 seconds altogether; the three attempts
      of the model download wait at most 2 + 4 = 6 seconds. */
  lemma {:induction false} TotalBackoff(m: nat)
    ensures Total(Backoffs(m)) == 2 * Pow2(m) - 2
    ensures Total(Backoffs(2)) == 6
    decreases m
  {
    if m > 0 {
      var ws := Backoffs(m);
      TotalBackoff(m - 1);
      TotalSnoc(Backoffs(m - 1), Backoff(m - 1));
      assert Backoffs(m - 1) + [Backoff(m - 1)] == ws;
    }
    TotalSnoc([2], 4);
    assert Backoffs(2) == [2] + [4];
  }

  lemma {:induction false} TotalSnoc(ws: seq<nat>, w: nat)
    ensures Total(ws + [w]) == Total(ws) + w
    decreases |ws|
  {
    if ws == [] {
      assert ws + [w] == [w];
    } else {
      assert (ws + [w])[1..] == ws[1..] + [w];
      TotalSnoc(ws[1..], w);
    }
  }

  /** Whether one of the first m attempts succeeds. */
  predicate SomeAttemptSucceeds(outcome: nat -> Attempt, m: int) {
    exists k :: 1 <= k <= m && AttemptError(outcome(k)).None?
  }

  /** The final error: the count of attempts and the last attempt's error,
      which fmt prints as "%!w(<nil>)" when no attempt was made. */
  function RetryFailure(maxRetries: int, last: Option<string>): string {
    "download failed after " + IntToString(maxRetries) + " attempts: "
    + (if last.Some? then last.value else "%!w(<nil>)")
  }

  /** downloadFileWithRetry, with the attempt outcomes as a parameter and
      the slept durations (seconds) as a result: attempts run in order
      until the first success and at most maxRetries times; before attempt
      k >= 2 the service waits Backoff(k - 2). */
  method DownloadFileWithRetry(url: string, path: string, maxRetries: int, outcome: nat -> Attempt)
    returns (err: Option<string>, attempts: nat, waits: seq<nat>)
    ensures attempts <= (if maxRetries > 0 then maxRetries else 0)
    ensures err.None? <==> SomeAttemptSucceeds(outcome, maxRetries)
    ensures err.None? ==> (attempts >= 1 && AttemptError(outcome(attempts)).None?
      && forall k :: 1 <= k < attempts ==> AttemptError(outcome(k)).Some?)
    ensures err.Some? ==> attempts == (if maxRetries > 0 then maxRetries else 0)
    ensures err.Some? ==> err.value == RetryFailure(maxRetries, if maxRetries > 0 then AttemptError(outcome(maxRetries)) else None)
    ensures waits == Backoffs(if attempts == 0 then 0 else attempts - 1)
  {
    var lastErr: Option<string> := None;
    waits := [];
    attempts := 0;
    var attempt := 1;
    while attempt <= maxRetries
      invariant 1 <= attempt && attempts == attempt - 1
      invariant attempts <= (if maxRetries > 0 then maxRetries else 0)
      invariant forall k :: 1 <= k < attempt ==> AttemptError(outcome(k)).Some?
      invariant lastErr == (if attempt == 1 then None else AttemptError(outcome(attempt - 1)))
      invariant waits == Backoffs(if attempts == 0 then 0 else attempts - 1)
      decreases maxRetries - attempt
    {
      if attempt > 1 {
        assert Backoffs(attempt - 2) + [Backoff(attempt - 2)] == Backoffs(attempt - 1);
        waits := waits + [Backoff(attempt - 2)];
      }
      attempts := attempt;
      match outcome(attempt) {
        case RequestFailed(e) =>
          lastErr := Some(e);
        case StatFailed(e) =>
          lastErr := Some("downloaded file verification failed: " + e);
        case Fetched(size) =>
          if size < 1000 {
            lastErr := Some("downloaded file too small (" + NatToString(size) + " bytes), likely an error page");
          } else {
            return None, attempts, waits;
          }
      }
      attempt := attempt + 1;
    }
    err := Some(RetryFailure(maxRetries, lastErr));
  }

  // ---------------------------------------------------------------- the service

  class STTService {
    var ready: bool
    var status: string
    var config: Config
    const assetManager: AssetManager

    /** The asset manager works in the current directory. */
    predicate Valid()
      reads this
    {
      assetManager.baseDir == "."
    }

    /** NewSTTService: the defaulted configuration, not ready,
        "initializing". */
    constructor (config: Config)
      ensures this.config == WithDefaults(config)
      ensures !ready && status == "initializing" && Valid()
    {
      this.config := WithDefaults(config);
      ready := false;
      status := "initializing";
      assetManager := new AssetManager(".");
    }

    predicate IsReady()
      reads this
    {
      ready
    }

    /** ensureModel: an empty model path becomes the base model; an existing
        model is kept; otherwise the models directory is created and the
        model downloaded, and a failure of either is reported. */
    method EnsureModel(files: set<string>, mkdirErr: Option<string>, downloadErr: Option<string>)
      returns (err: Option<string>)
      modifies this
      ensures config == old(config).(modelPath := if old(config.modelPath) == "" then DefaultModel else old(config.modelPath))
      ensures ready == old(ready) && status == old(status)
      ensures config.modelPath in files ==> err == None
      ensures config.modelPath !in files && mkdirErr.Some? ==>
        err == Some("failed to create models directory: " + mkdirErr.value)
      ensures config.modelPath !in files && mkdirErr.None? && downloadErr.Some? ==>
        err == Some("failed to download whisper model: " + downloadErr.value)
      ensures err.None? <==> config.modelPath in files || (mkdirErr.None? && downloadErr.None?)
    {
      if config.modelPath == "" {
        config := config.(modelPath := DefaultModel);
      }
      if config.modelPath in files {
        return None;
      }
      if mkdirErr.Some? {
        return Some("failed to create models directory: " + mkdirErr.value);
      }
      if downloadErr.Some? {
        return Some("failed to download whisper model: " + downloadErr.value);
      }
      return None;
    }

    /** Initialize: after a successful asset extraction the model path is
        the asset manager's Whisper model; the model is then ensured and
        its error dropped; the service always ends ready. */
    method Initialize(assetsErr: Option<string>, files: set<string>, mkdirErr: Option<string>, downloadErr: Option<string>)
      returns (err: Option<string>)
      requires Valid()
      modifies this
      ensures err == None && ready && status == "ready" && Valid()
      ensures config.modelPath == (if assetsErr.None? || old(config.modelPath) == "" then DefaultModel else old(config.modelPath))
      ensures config.language == old(config.language) && config.sampleRate == old(config.sampleRate)
      ensures config.voiceThreshold == old(config.voiceThreshold)
    {
      if assetsErr.None? {
        WorkingDirectoryModels(assetManager);
        config := config.(modelPath := assetManager.GetModelPath("whisper"));
      }
      var modelErr := EnsureModel(files, mkdirErr, downloadErr);
      ready := true;
      status := "ready";
      return None;
    }

    /** Shutdown: not ready, "stopped". */
    method Shutdown() returns (err: Option<string>)
      modifies this
      ensures !ready && status == "stopped" && err == None
      ensures config == old(config)
    {
      ready := false;
      status := "stopped";
      return None;
    }

    /** convertAudioToSamples: an odd byte count is rejected; otherwise
        sample i is the little-endian signed value of bytes 2i and 2i+1
        divided by 32768. */
    method ConvertAudioToSamples(data: seq<Byte>) returns (r: Result<seq<real>>)
      ensures |data| % 2 != 0 ==> r == Failure(OddBytes)
      ensures |data| % 2 == 0 ==> (r.Success? && |r.value| == |data| / 2
        && forall i :: 0 <= i < |data| / 2 ==> r.value[i] == Dequantize(DecodeLE16(data[2 * i], data[2 * i + 1])))
    {
      if |data| % 2 != 0 {
        return Failure(OddBytes);
      }
      var n := |data| / 2;
      var samples := new real[n];
      var i := 0;
      while i < n
        invariant 0 <= i <= n
        invariant forall k :: 0 <= k < i ==> samples[k] == Dequantize(DecodeLE16(data[2 * k], data[2 * k + 1]))
      {
        samples[i] := Dequantize(DecodeLE16(data[2 * i], data[2 * i + 1]));
        i := i + 1;
      }
      return Success(samples[..]);
    }

    /** writeWAVFile: the header field by field, then each sample clamped,
        scaled by 32767 and written as its low and high byte. */
    method WriteWAVFile(samples: seq<real>, createErr: Option<string>) returns (r: Result<seq<Byte>>)
      ensures createErr.Some? ==> r == Failure(createErr.value)
      ensures createErr.None? ==> r == Success(WavFile(samples))
    {
      if createErr.Some? {
        return Failure(createErr.value);
      }
      var n := |samples|;
      var file := HeaderAsWritten(n);
      HeaderAsWrittenIsWavHeader(n);
      var i := 0;
      while i < n
        invariant 0 <= i <= n
        invariant file == WavHeader(16000, n) + SampleBytes(QuantizeAll(samples[..i]))
      {
        var v := Quantize(samples[i]);
        WavFileStep(samples, i);
        file := file + [LowByte(v), HighByte(v)];
        i := i + 1;
      }
      assert samples[..n] == samples;
      return Success(file);
    }

    /** The binary transcribeWithWhisper runs: the embedded one when it
        exists, else the first fallback that exists, else "". */
    function Binary(h: Host): string
      reads this
    {
      var embedded := assetManager.GetBinaryPath(h.os, "whisper");
      if embedded in h.files then embedded
      else match FirstExisting(FallbackBinaries(h.os), h.files)
        case None => ""
        case Some(i) => FallbackBinaries(h.os)[i]
    }

    /** The outcome of transcribeWithWhisper on a host. */
    function WhisperResult(h: Host): Result<string>
      reads this
    {
      if config.modelPath !in h.files then Failure(ModelNotFound + config.modelPath)
      else if Binary(h) == "" then Failure(NoBinary)
      else if h.createErr.Some? then Failure("failed to write WAV file: " + h.createErr.value)
      else if h.runErr.Some? then Failure("whisper command failed: " + h.runErr.value)
      else if h.transcript.Failure? then Failure("failed to read transcription: " + h.transcript.error)
      else Success(Strip(h.transcript.value))
    }

    /** The command transcribeWithWhisper runs. */
    function Command(h: Host): Invocation
      reads this
    {
      Invocation(Binary(h), WhisperArgs(config.modelPath, InputFile(h), OutputBase(h), config.language))
    }

    /** transcribeWithWhisper: checks the model, finds a binary, writes the
        input WAV file, runs the binary and reads the stripped transcript.
        The binary runs only when the model and a binary exist and the
        input file was written, and the written file is `WavFile(samples)`. */
    method TranscribeWithWhisper(samples: seq<real>, h: Host) returns (r: Result<string>, run: Option<Invocation>, wav: Option<seq<Byte>>)
      ensures r == WhisperResult(h)
      ensures run.Some? <==> config.modelPath in h.files && Binary(h) != "" && h.createErr.None?
      ensures run.Some? ==> run.value == Command(h) && wav == Some(WavFile(samples))
      ensures r.Success? ==> Stripped(r.value)
    {
      if config.modelPath !in h.files {
        return Failure(ModelNotFound + config.modelPath), None, None;
      }
      var whisperPath: string;
      var embedded := assetManager.GetBinaryPath(h.os, "whisper");
      if embedded in h.files {
        whisperPath := embedded;
      } else {
        whisperPath := FindBinary(FallbackBinaries(h.os), h.files);
      }
      if whisperPath == "" {
        return Failure(NoBinary), None, None;
      }
      var written := WriteWAVFile(samples, h.createErr);
      if written.Failure? {
        return Failure("failed to write WAV file: " + written.error), None, None;
      }
      var args := WhisperArgs(config.modelPath, InputFile(h), OutputBase(h), config.language);
      run := Some(Invocation(whisperPath, args));
      wav := Some(written.value);
      if h.runErr.Some? {
        return Failure("whisper command failed: " + h.runErr.value), run, wav;
      }
      if h.transcript.Failure? {
        return Failure("failed to read transcription: " + h.transcript.error), run, wav;
      }
      r := Success(Strip(h.transcript.value));
    }

    /** TranscribeAudio: not ready, empty data and an odd byte count are
        errors; otherwise whisper's result, with setup errors (a missing
        model) turned into a help message and other errors wrapped. */
    method TranscribeAudio(data: seq<Byte>, h: Host) returns (r: Result<string>)
      ensures !ready ==> r == Failure(NotReady)
      ensures ready && data == [] ==> r == Failure(EmptyAudio)
      ensures ready && data != [] && |data| % 2 != 0 ==> r == Failure("failed to convert audio: " + OddBytes)
      ensures ready && data != [] && |data| % 2 == 0 ==> r == SetupMapping(WhisperResult(h))
    {
      if !IsReady() {
        return Failure(NotReady);
      }
      if |data| == 0 {
        return Failure(EmptyAudio);
      }
      var samples := ConvertAudioToSamples(data);
      if samples.Failure? {
        return Failure("failed to convert audio: " + samples.error);
      }
      assert |samples.value| > 0;
      var text, run, wav := TranscribeWithWhisper(samples.value, h);
      if text.Failure? {
        if Contains(text.error, "model not found") || Contains(text.error, "binary not found") {
          return Success(SetupIncomplete);
        }
        return Failure("transcription failed: " + text.error);
      }
      return text;
    }
  }

  /** The error mapping at the end of TranscribeAudio. */
  function SetupMapping(w: Result<string>): (r: Result<string>)
    ensures w.Success? ==> r == w
    ensures w.Failure? ==>
      (r.Success? <==> Contains(w.error, "model not found") || Contains(w.error, "binary not found"))
    ensures r.Success? && w.Failure? ==> r.value == SetupIncomplete
    ensures r.Failure? ==> w.Failure? && HasPrefix(r.error, "transcription failed: ")
  {
    if w.Success? then w
    else if Contains(w.error, "model not found") || Contains(w.error, "binary not found") then Success(SetupIncomplete)
    else Failure("transcription failed: " + w.error)
  }

  /** A missing model is a setup problem: TranscribeAudio answers with the
      help message and no error. */
  lemma MissingModelReportsSetup(svc: STTService, h: Host)
    requires svc.config.modelPath !in h.files
    ensures SetupMapping(svc.WhisperResult(h)) == Success(SetupIncomplete)
  {
    var p := svc.config.modelPath;
    ContainsAt("whisper ", "model not found", " at " + p);
    assert "whisper " + "model not found" + (" at " + p) == ModelNotFound + p;
  }

  /** The missing-binary message says "no whisper binary found", which
      contains neither "model not found" nor "binary not found": a missing
      binary is reported as a transcription error, not as incomplete
      setup. */
  lemma MissingBinaryIsError(svc: STTService, h: Host)
    requires svc.config.modelPath in h.files && svc.Binary(h) == ""
    ensures SetupMapping(svc.WhisperResult(h)) == Failure("transcription failed: " + NoBinary)
  {
    NoBinaryLacksSetupWords();
  }

  lemma NoBinaryLacksSetupWords()
    ensures !Contains(NoBinary, "model not found") && !Contains(NoBinary, "binary not found")
  {
    NoBinaryLacksModelWords();
    NoBinaryLacksBinaryWords();
  }

  lemma NoBinaryLacksModelWords()
    ensures !Contains(NoBinary, "model not found")
  {
    assert forall k :: 0 <= k < |NoBinary| ==> NoBinary[k] != 'm';
    NotContainsWithoutFirst(NoBinary, "model not found");
  }

  lemma NoBinaryLacksBinaryWords()
    ensures !Contains(NoBinary, "binary not found")
  {
    var a := "no whisper ";
    assert NoBinary == a + ("b" + BinaryFoundTail);
    ContainsSkip(a, "b" + BinaryFoundTail, "binary not found");
    BinaryFoundLacksBinaryWords();
  }

  const BinaryFoundTail := "inary found - please install whisper.cpp"

  /** The tail of the message from its only 'b' on does not hold
      "binary not found": it differs at the eighth character, and there is
      no later 'b'. */
  lemma BinaryFoundLacksBinaryWords()
    ensures !Contains("b" + BinaryFoundTail, "binary not found")
  {
    var rest := BinaryFoundTail;
    var b, sub := "b" + rest, "binary not found";
    var w := b[..16];
    assert w[7] == b[7] == rest[6] == 'f';
    assert sub[7] == 'n';
    assert !HasPrefix(b, sub);
    assert b[1..] == rest;
    assert forall k :: 0 <= k < |rest| ==> rest[k] != 'b';
    NotContainsWithoutFirst(rest, sub);
  }

  /** When the model and a binary exist and the file is written, the
      command runs and its transcript is read, the transcript passes through
      TranscribeAudio stripped of surrounding white space. */
  lemma TranscriptPassesThrough(svc: STTService, h: Host)
    requires svc.config.modelPath in h.files && svc.Binary(h) != ""
    requires h.createErr.None? && h.runErr.None? && h.transcript.Success?
    ensures SetupMapping(svc.WhisperResult(h)) == Success(Strip(h.transcript.value))
  {
  }
}
