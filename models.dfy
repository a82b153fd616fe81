// The model manager (backend/internal/models/manager.go): it creates and
// initialises the enabled services in the order STT, TTS, embeddings,
// shuts down every service it holds while collecting their errors, and
// reports which services are ready.
module Models {
  import opened Wrappers
  import opened Text
  import AppConfig
  import Whisper
  import Piper
  import MiniLM

  /** What the Whisper service's initialisation meets on the machine. */
  datatype SttHost = SttHost(assetsErr: Option<string>, files: set<string>,
                             mkdirErr: Option<string>, downloadErr: Option<string>)

  /** What the Piper service's initialisation meets on the machine. */
  datatype TtsHost = TtsHost(os: string, assetsErr: Option<string>, binaryExists: bool, depsExist: bool,
                             mkdirErr: Option<string>, downloadOk: bool)

  const SttConfig := Whisper.Config("en", "models/whisper-base.bin", 16000, 0.02)
  const TtsConfig := Piper.Config("", "models/piper", "en_US-amy-medium", 1.0)

  /** The shutdown errors, labelled by service, in the order the services
      are stopped. */
  function ShutdownErrors(stt: Option<string>, tts: Option<string>, emb: Option<string>): (errs: seq<string>)
    ensures |errs| == (if stt.Some? then 1 else 0) + (if tts.Some? then 1 else 0) + (if emb.Some? then 1 else 0)
    ensures stt.Some? ==> errs[0] == "STT shutdown error: " + stt.value
    ensures emb.Some? ==> errs[|errs| - 1] == "embeddings shutdown error: " + emb.value
  {
    (if stt.Some? then ["STT shutdown error: " + stt.value] else [])
    + (if tts.Some? then ["TTS shutdown error: " + tts.value] else [])
    + (if emb.Some? then ["embeddings shutdown error: " + emb.value] else [])
  }

  /** fmt's %v of an error list: the messages between brackets, separated
      by spaces. */
  function ShutdownReport(errs: seq<string>): (r: Option<string>)
    ensures r.None? <==> errs == []
    ensures r.Some? ==> HasPrefix(r.value, "shutdown errors: [") && HasSuffix(r.value, "]")
  {
    if errs == [] then None else Some("shutdown errors: [" + Join(errs, " ") + "]")
  }

  /** Shutdown reports an error exactly when at least one service failed,
      and lists one message per failing service. */
  lemma ShutdownReportsFailures(stt: Option<string>, tts: Option<string>, emb: Option<string>)
    ensures ShutdownReport(ShutdownErrors(stt, tts, emb)).Some? <==> stt.Some? || tts.Some? || emb.Some?
    ensures |ShutdownErrors(stt, tts, emb)| ==
      (if stt.Some? then 1 else 0) + (if tts.Some? then 1 else 0) + (if emb.Some? then 1 else 0)
  {
  }

  class Manager {
    const config: AppConfig.Config
    var stt: Whisper.STTService?
    var tts: Piper.TTSService?
    var emb: MiniLM.EmbeddingService?

    /** NewManager: the configuration and no services. */
    constructor (config: AppConfig.Config)
      ensures this.config == config && stt == null && tts == null && emb == null
    {
      this.config := config;
      stt, tts, emb := null, null, null;
    }

    function GetSTTService(): Whisper.STTService? reads this { stt }
    function GetTTSService(): Piper.TTSService? reads this { tts }
    function GetEmbeddingService(): MiniLM.EmbeddingService? reads this { emb }

    /** GetStatus: a service is reported ready exactly when it exists and is
        ready. */
    function GetStatus(): (s: map<string, bool>)
      reads this, stt, tts, emb
      ensures s.Keys == {"stt", "tts", "embeddings"}
      ensures s["stt"] <==> stt != null && stt.ready
      ensures s["tts"] <==> tts != null && tts.ready
      ensures s["embeddings"] <==> emb != null && emb.ready
    {
      map["stt" := stt != null && stt.IsReady(),
          "tts" := tts != null && tts.IsReady(),
          "embeddings" := emb != null && emb.IsReady()]
    }

    /** Initialize: a service is created, stored and initialised for each
        enabled feature only, STT first, then TTS, then embeddings (fixed
        configurations, the embeddings one with dimension 384 and the
        configured MiniLM path). Every service initialises without error,
        so no later service is ever skipped. */
    method Initialize(sh: SttHost, th: TtsHost) returns (err: Option<string>)
      modifies this
      ensures err.None?
      ensures (stt != null) == config.stt && (tts != null) == config.tts && (emb != null) == config.embeddings
      ensures stt != null ==> fresh(stt) && stt.ready && stt.config.language == "en" && stt.config.sampleRate == 16000
      ensures tts != null ==> fresh(tts) && tts.ready && tts.config.voice == "en_US-amy-medium"
      ensures emb != null ==> fresh(emb) && emb.ready && emb.config == MiniLM.Config(config.minilmPath, 384)
      ensures GetStatus() == map["stt" := config.stt, "tts" := config.tts, "embeddings" := config.embeddings]
    {
      if config.stt {
        stt := new Whisper.STTService(SttConfig);
        var e := stt.Initialize(sh.assetsErr, sh.files, sh.mkdirErr, sh.downloadErr);
      } else {
        stt := null;
      }
      if config.tts {
        tts := new Piper.TTSService(TtsConfig);
        var e := tts.Initialize(th.os, th.assetsErr, th.binaryExists, th.depsExist, th.mkdirErr, th.downloadOk);
      } else {
        tts := null;
      }
      if config.embeddings {
        emb := new MiniLM.EmbeddingService(MiniLM.Config(config.minilmPath, 384));
        var e := emb.Initialize();
      } else {
        emb := null;
      }
      return None;
    }

    /** Shutdown: every service held is stopped, whatever an earlier one
        returned, and the collected errors are reported together. */
    method Shutdown() returns (err: Option<string>)
      modifies stt, tts, emb
      ensures stt != null ==> !stt.ready && stt.status == "stopped"
      ensures tts != null ==> !tts.ready && tts.status == "stopped"
      ensures emb != null ==> !emb.ready && emb.status == "stopped"
      ensures err.None?
      ensures GetStatus() == map["stt" := false, "tts" := false, "embeddings" := false]
    {
      var r1, r2, r3: Option<string> := None, None, None;
      if stt != null {
        r1 := stt.Shutdown();
      }
      if tts != null {
        r2 := tts.Shutdown();
      }
      if emb != null {
        r3 := emb.Shutdown();
      }
      err := ShutdownReport(ShutdownErrors(r1, r2, r3));
    }
  }
}
