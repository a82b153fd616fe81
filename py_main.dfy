// The FastAPI application of the Python backend (python/main.py): the
// registry of running services filled at startup and emptied at shutdown,
// the health and model-status endpoints, and the download endpoints that
// install a service's package and start it afterwards.
module PyMain {
  import opened Wrappers
  import opened Installer
  import PyStt
  import PyTts
  import PyEmbeddings

  const ServiceNames: seq<string> := ["stt", "tts", "embeddings"]

  /** Whether a name is one of the three services. */
  predicate IsServiceName(name: string) {
    name == "stt" || name == "tts" || name == "embeddings"
  }

  /** The package each service needs. */
  function PackageOf(name: string): (p: string)
    ensures p in AiPackages
  {
    if name == "stt" then "faster-whisper"
    else if name == "tts" then "kokoro"
    else "sentence-transformers"
  }

  const ServicePackages: set<string> := {"faster-whisper", "kokoro", "sentence-transformers"}

  predicate NoDuplicates(s: seq<string>) {
    forall i, j :: 0 <= i < j < |s| ==> s[i] != s[j]
  }

  /** `services[name] = service`: a new name goes to the end, a known one
      keeps its place. */
  function Register(registry: seq<string>, name: string): (r: seq<string>)
    ensures name in r && forall n :: n in r <==> n in registry || n == name
    ensures name in registry ==> r == registry
    ensures name !in registry ==> r == registry + [name]
    ensures NoDuplicates(registry) ==> NoDuplicates(r)
    ensures |r| >= |registry| && r[..|registry|] == registry
  {
    if name in registry then registry else registry + [name]
  }

  /** Registers a name only when its service started. */
  function RegisterIf(registry: seq<string>, name: string, ok: bool): seq<string> {
    if ok then Register(registry, name) else registry
  }

  lemma RegisterIfMembers(registry: seq<string>, name: string, ok: bool)
    ensures forall n :: n in RegisterIf(registry, name, ok) <==> n in registry || (n == name && ok)
  {
  }

  /** One entry of the model-status answer. */
  datatype ServiceInfo =
    | SttInfo(stt: PyStt.ModelInfo)
    | TtsInfo(tts: PyTts.ModelInfo)
    | EmbeddingsInfo(embeddings: PyEmbeddings.ModelInfo)

  datatype Health = Health(status: string, services: seq<(string, bool)>, version: string)

  datatype DownloadState = DownloadState(installed: bool, downloading: bool)

  datatype DownloadStatus = DownloadStatus(stt: DownloadState, tts: DownloadState, embeddings: DownloadState)

  datatype DownloadResponse =
    | InvalidService(error: string)
    | Downloaded(success: bool, message: string)

  const InvalidServiceMessage := "Invalid service. Must be 'stt', 'tts', or 'embeddings'"

  /** The message of a finished download. */
  function DownloadMessage(service: string, success: bool): string {
    "Model " + service + " " + (if success then "installed successfully" else "installation failed")
  }

  class Backend {
    const stt: PyStt.STTService
    const tts: PyTts.TTSService
    const embeddings: PyEmbeddings.EmbeddingsService
    const installer: RuntimeInstaller
    const enableStt: bool
    const enableTts: bool
    const enableEmbeddings: bool
    /** The names in `services`, in insertion order. */
    var registry: seq<string>
    var downloadingStt: bool
    var downloadingTts: bool
    var downloadingEmbeddings: bool

    /** Every part is in its own valid state, and the registry holds
        service names, each at most once. */
    predicate Valid()
      reads this, stt, tts, embeddings, installer
    {
      stt.Valid() && tts.Valid() && embeddings.Valid() && installer.Valid()
      && NoDuplicates(registry) && (forall n :: n in registry ==> IsServiceName(n))
    }

    /** The module-level state: the three services, the installer, the
        feature settings, an empty registry and no download running. */
    constructor (stt: PyStt.STTService, tts: PyTts.TTSService, embeddings: PyEmbeddings.EmbeddingsService,
                 installer: RuntimeInstaller, enableStt: bool, enableTts: bool, enableEmbeddings: bool)
      requires stt.Valid() && tts.Valid() && embeddings.Valid() && installer.Valid()
      ensures this.stt == stt && this.tts == tts && this.embeddings == embeddings && this.installer == installer
      ensures this.enableStt == enableStt && this.enableTts == enableTts && this.enableEmbeddings == enableEmbeddings
      ensures registry == [] && !downloadingStt && !downloadingTts && !downloadingEmbeddings
      ensures Valid()
    {
      this.stt := stt;
      this.tts := tts;
      this.embeddings := embeddings;
      this.installer := installer;
      this.enableStt := enableStt;
      this.enableTts := enableTts;
      this.enableEmbeddings := enableEmbeddings;
      registry := [];
      downloadingStt := false;
      downloadingTts := false;
      downloadingEmbeddings := false;
    }

    /** `await service.is_ready()` for a registered name. */
    predicate ServiceReady(name: string)
      reads this, stt, tts, embeddings
    {
      if name == "stt" then stt.IsReady()
      else if name == "tts" then tts.IsReady()
      else embeddings.IsReady()
    }

    /** `await service.get_model_info()` for a registered name. */
    function ServiceInfoOf(name: string): (info: ServiceInfo)
      reads this, stt, tts, embeddings
      ensures name == "stt" ==> info == SttInfo(stt.GetModelInfo())
      ensures name == "tts" ==> info == TtsInfo(tts.GetModelInfo())
      ensures name != "stt" && name != "tts" ==> info == EmbeddingsInfo(embeddings.GetModelInfo())
    {
      if name == "stt" then SttInfo(stt.GetModelInfo())
      else if name == "tts" then TtsInfo(tts.GetModelInfo())
      else EmbeddingsInfo(embeddings.GetModelInfo())
    }

    /** The start of lifespan: the bulk install runs exactly when none of
        the three service packages is marked, and its failure is not an
        error; then each enabled service is initialized and registered when
        that succeeds. As a consequence, speech-to-text (whose own import
        test always fails) starts only when its package was marked before or
        the bulk install succeeded. */
    method Startup(bulkPipOk: bool, hs: PyStt.SttHost, ht: PyTts.TtsHost, he: PyEmbeddings.EmbHost)
      returns (bulk: bool, sttOk: bool, ttsOk: bool, embeddingsOk: bool)
      requires Valid()
      modifies this, stt, tts, embeddings, installer
      ensures Valid()
      ensures bulk <==>
        !old(installer.IsPackageInstalled("faster-whisper"))
        && !old(installer.IsPackageInstalled("sentence-transformers"))
        && !old(installer.IsPackageInstalled("kokoro"))
      ensures !enableStt ==> !sttOk
      ensures enableStt ==>
        (sttOk <==> (old(installer.IsPackageInstalled("faster-whisper")) || (bulk && bulkPipOk))
                    && (old(stt.initialized) || hs.created))
      ensures !enableTts ==> !ttsOk
      ensures enableTts ==>
        var marked := old(installer.IsPackageInstalled("kokoro")) || (bulk && bulkPipOk);
        (ttsOk <==> (marked || EnsureSucceeds(Some(ht.test), ht.pipOk)) && (!marked || ht.importNow)
                    && (old(tts.initialized) || ht.created))
      ensures !enableEmbeddings ==> !embeddingsOk
      ensures enableEmbeddings ==>
        (embeddingsOk <==> he.available && (old(embeddings.initialized) || he.created.Some?))
      ensures sttOk ==> stt.IsReady()
      ensures ttsOk ==> tts.IsReady()
      ensures embeddingsOk ==> embeddings.IsReady()
      ensures registry == RegisterIf(RegisterIf(RegisterIf(old(registry), "stt", sttOk), "tts", ttsOk), "embeddings", embeddingsOk)
      ensures forall n :: n in registry <==>
        n in old(registry) || (n == "stt" && sttOk) || (n == "tts" && ttsOk) || (n == "embeddings" && embeddingsOk)
      ensures downloadingStt == old(downloadingStt) && downloadingTts == old(downloadingTts)
      ensures downloadingEmbeddings == old(downloadingEmbeddings)
      ensures !enableStt ==> stt.model == old(stt.model) && stt.initialized == old(stt.initialized)
      ensures !enableTts ==> tts.pipeline == old(tts.pipeline) && tts.initialized == old(tts.initialized)
      ensures !enableEmbeddings ==> embeddings.model == old(embeddings.model)
    {
      bulk := BulkInstall(bulkPipOk);
      sttOk, ttsOk, embeddingsOk := StartServices(hs, ht, he);
    }

    /** The service half of lifespan: speech-to-text, text-to-speech and
        embeddings are started in that order, each registered when it
        initialized. */
    method StartServices(hs: PyStt.SttHost, ht: PyTts.TtsHost, he: PyEmbeddings.EmbHost)
      returns (sttOk: bool, ttsOk: bool, embeddingsOk: bool)
      requires Valid()
      modifies this, stt, tts, embeddings, installer
      ensures Valid()
      ensures !enableStt ==> !sttOk
      ensures enableStt ==>
        (sttOk <==> old(installer.IsPackageInstalled("faster-whisper")) && (old(stt.initialized) || hs.created))
      ensures !enableTts ==> !ttsOk
      ensures enableTts ==>
        var marked := old(installer.IsPackageInstalled("kokoro"));
        (ttsOk <==> (marked || EnsureSucceeds(Some(ht.test), ht.pipOk)) && (!marked || ht.importNow)
                    && (old(tts.initialized) || ht.created))
      ensures !enableEmbeddings ==> !embeddingsOk
      ensures enableEmbeddings ==>
        (embeddingsOk <==> he.available && (old(embeddings.initialized) || he.created.Some?))
      ensures sttOk ==> stt.IsReady()
      ensures ttsOk ==> tts.IsReady()
      ensures embeddingsOk ==> embeddings.IsReady()
      ensures registry == RegisterIf(RegisterIf(RegisterIf(old(registry), "stt", sttOk), "tts", ttsOk), "embeddings", embeddingsOk)
      ensures forall n :: n in registry <==>
        n in old(registry) || (n == "stt" && sttOk) || (n == "tts" && ttsOk) || (n == "embeddings" && embeddingsOk)
      ensures downloadingStt == old(downloadingStt) && downloadingTts == old(downloadingTts)
      ensures downloadingEmbeddings == old(downloadingEmbeddings)
      ensures !enableStt ==> stt.model == old(stt.model) && stt.initialized == old(stt.initialized)
      ensures !enableTts ==> tts.pipeline == old(tts.pipeline) && tts.initialized == old(tts.initialized)
      ensures !enableEmbeddings ==> embeddings.model == old(embeddings.model)
    {
      sttOk := StartStt(hs);
      ghost var afterStt := registry;
      ttsOk := StartTts(ht);
      ghost var afterTts := registry;
      embeddingsOk := StartEmbeddings(he);
      RegisterIfMembers(old(registry), "stt", sttOk);
      RegisterIfMembers(afterStt, "tts", ttsOk);
      RegisterIfMembers(afterTts, "embeddings", embeddingsOk);
    }

    /** The bulk install of lifespan: it runs exactly when none of the three
        service packages is marked, and on success marks them all. */
    method BulkInstall(bulkPipOk: bool) returns (bulk: bool)
      requires installer.Valid()
      modifies installer
      ensures installer.Valid()
      ensures bulk <==>
        !old(installer.IsPackageInstalled("faster-whisper"))
        && !old(installer.IsPackageInstalled("sentence-transformers"))
        && !old(installer.IsPackageInstalled("kokoro"))
      ensures forall p :: p in ServicePackages ==>
        (installer.IsPackageInstalled(p) <==> old(installer.IsPackageInstalled(p)) || (bulk && bulkPipOk))
    {
      bulk := !installer.IsPackageInstalled("faster-whisper")
        && !installer.IsPackageInstalled("sentence-transformers")
        && !installer.IsPackageInstalled("kokoro");
      if bulk {
        var installedAll := installer.InstallAiDependencies(bulkPipOk);
      }
    }

    /** The speech-to-text step of lifespan. */
    method StartStt(hs: PyStt.SttHost) returns (ok: bool)
      requires Valid()
      modifies this, stt, installer
      ensures Valid()
      ensures installer.installed == old(installer.installed)
      ensures downloadingStt == old(downloadingStt) && downloadingTts == old(downloadingTts)
      ensures downloadingEmbeddings == old(downloadingEmbeddings)
      ensures !enableStt ==> !ok && stt.model == old(stt.model) && stt.initialized == old(stt.initialized)
      ensures enableStt ==>
        (ok <==> old(installer.IsPackageInstalled("faster-whisper")) && (old(stt.initialized) || hs.created))
      ensures ok ==> stt.IsReady()
      ensures registry == if ok then Register(old(registry), "stt") else old(registry)
    {
      ok := false;
      if enableStt {
        ok := stt.Initialize(installer, hs);
        if ok {
          registry := Register(registry, "stt");
        }
      }
    }

    /** The text-to-speech step of lifespan. */
    method StartTts(ht: PyTts.TtsHost) returns (ok: bool)
      requires Valid()
      modifies this, tts, installer
      ensures Valid()
      ensures installer.installed == old(installer.installed) || installer.installed == old(installer.installed)["kokoro" := true]
      ensures downloadingStt == old(downloadingStt) && downloadingTts == old(downloadingTts)
      ensures downloadingEmbeddings == old(downloadingEmbeddings)
      ensures !enableTts ==> !ok && tts.pipeline == old(tts.pipeline) && tts.initialized == old(tts.initialized)
      ensures enableTts ==>
        var marked := old(installer.IsPackageInstalled("kokoro"));
        (ok <==> (marked || EnsureSucceeds(Some(ht.test), ht.pipOk)) && (!marked || ht.importNow)
                 && (old(tts.initialized) || ht.created))
      ensures ok ==> tts.IsReady()
      ensures registry == if ok then Register(old(registry), "tts") else old(registry)
    {
      ok := false;
      if enableTts {
        ok := tts.Initialize(installer, ht);
        if ok {
          registry := Register(registry, "tts");
        }
      }
    }

    /** The embeddings step of lifespan. */
    method StartEmbeddings(he: PyEmbeddings.EmbHost) returns (ok: bool)
      requires Valid()
      modifies this, embeddings
      ensures Valid()
      ensures downloadingStt == old(downloadingStt) && downloadingTts == old(downloadingTts)
      ensures downloadingEmbeddings == old(downloadingEmbeddings)
      ensures !enableEmbeddings ==> !ok && embeddings.model == old(embeddings.model)
      ensures enableEmbeddings ==>
        (ok <==> he.available && (old(embeddings.initialized) || he.created.Some?))
      ensures ok ==> embeddings.IsReady()
      ensures registry == if ok then Register(old(registry), "embeddings") else old(registry)
    {
      ok := false;
      if enableEmbeddings {
        ok := embeddings.Initialize(he);
        if ok {
          registry := Register(registry, "embeddings");
        }
      }
    }

    /** The end of lifespan: every registered service is cleaned up, the
        others are left alone, and the registry is emptied. */
    method Shutdown()
      requires Valid()
      modifies this, stt, tts, embeddings
      ensures Valid() && registry == []
      ensures forall n :: n in old(registry) ==> !ServiceReady(n)
      ensures "stt" !in old(registry) ==> unchanged(stt)
      ensures "tts" !in old(registry) ==> unchanged(tts)
      ensures "embeddings" !in old(registry) ==> unchanged(embeddings)
      ensures downloadingStt == old(downloadingStt) && downloadingTts == old(downloadingTts)
      ensures downloadingEmbeddings == old(downloadingEmbeddings)
    {
      var names := registry;
      var i := 0;
      while i < |names|
        invariant 0 <= i <= |names| && names == old(registry) && registry == old(registry)
        invariant forall k :: 0 <= k < |names| ==> IsServiceName(names[k])
        invariant stt.Valid() && tts.Valid() && embeddings.Valid()
        invariant forall k :: 0 <= k < i ==> !ServiceReady(names[k])
        invariant "stt" !in names[..i] ==> unchanged(stt)
        invariant "tts" !in names[..i] ==> unchanged(tts)
        invariant "embeddings" !in names[..i] ==> unchanged(embeddings)
        invariant downloadingStt == old(downloadingStt) && downloadingTts == old(downloadingTts)
        invariant downloadingEmbeddings == old(downloadingEmbeddings)
      {
        assert names[..i + 1] == names[..i] + [names[i]];
        CleanupService(names[i]);
        i := i + 1;
      }
      assert names[..i] == names;
      registry := [];
    }

    /** `await service.cleanup()` for a registered name: only that service
        changes, and it is no longer ready. */
    method CleanupService(name: string)
      requires IsServiceName(name) && stt.Valid() && tts.Valid() && embeddings.Valid()
      modifies stt, tts, embeddings
      ensures stt.Valid() && tts.Valid() && embeddings.Valid()
      ensures !ServiceReady(name)
      ensures name != "stt" ==> unchanged(stt)
      ensures name != "tts" ==> unchanged(tts)
      ensures name != "embeddings" ==> unchanged(embeddings)
    {
      if name == "stt" {
        stt.Cleanup();
      } else if name == "tts" {
        tts.Cleanup();
      } else {
        embeddings.Cleanup();
      }
    }

    /** health_check: always "healthy", version "1.0.0", and each
        registered service's readiness in registry order. */
    method HealthCheck() returns (h: Health)
      ensures h.status == "healthy" && h.version == "1.0.0"
      ensures |h.services| == |registry|
      ensures forall i :: 0 <= i < |registry| ==> h.services[i] == (registry[i], ServiceReady(registry[i]))
    {
      var status: seq<(string, bool)> := [];
      var i := 0;
      while i < |registry|
        invariant 0 <= i <= |registry| && |status| == i
        invariant forall k :: 0 <= k < i ==> status[k] == (registry[k], ServiceReady(registry[k]))
      {
        status := status + [(registry[i], ServiceReady(registry[i]))];
        i := i + 1;
      }
      return Health("healthy", status, "1.0.0");
    }

    /** model_status: each registered service's model information in
        registry order. */
    method ModelStatus() returns (r: seq<(string, ServiceInfo)>)
      ensures |r| == |registry|
      ensures forall i :: 0 <= i < |registry| ==> r[i] == (registry[i], ServiceInfoOf(registry[i]))
    {
      r := [];
      var i := 0;
      while i < |registry|
        invariant 0 <= i <= |registry| && |r| == i
        invariant forall k :: 0 <= k < i ==> r[k] == (registry[k], ServiceInfoOf(registry[k]))
      {
        r := r + [(registry[i], ServiceInfoOf(registry[i]))];
        i := i + 1;
      }
    }

    /** model_download_status: each service's package mark and download
        flag. */
    function GetDownloadStatus(): (s: DownloadStatus)
      reads this, installer
      ensures s.stt == DownloadState(installer.IsPackageInstalled("faster-whisper"), downloadingStt)
      ensures s.tts == DownloadState(installer.IsPackageInstalled("kokoro"), downloadingTts)
      ensures s.embeddings == DownloadState(installer.IsPackageInstalled("sentence-transformers"), downloadingEmbeddings)
    {
      DownloadStatus(
        DownloadState(installer.IsPackageInstalled("faster-whisper"), downloadingStt),
        DownloadState(installer.IsPackageInstalled("kokoro"), downloadingTts),
        DownloadState(installer.IsPackageInstalled("sentence-transformers"), downloadingEmbeddings))
    }

    /** download_model: a name other than the three is refused and nothing
        changes. Otherwise the service's package is ensured with a plain
        import test while its flag is raised; the answer is the installer's.
        After a success, an enabled service that is not registered is
        initialized and registered whether or not initialization succeeds.
        Every download flag is down afterwards. */
    method DownloadModel(service: string, test: ImportTest, file: Option<seq<string>>, pipOk: bool,
                         hs: PyStt.SttHost, ht: PyTts.TtsHost, he: PyEmbeddings.EmbHost)
      returns (resp: DownloadResponse)
      requires Valid() && !downloadingStt && !downloadingTts && !downloadingEmbeddings
      modifies this, stt, tts, embeddings, installer
      ensures Valid()
      ensures !downloadingStt && !downloadingTts && !downloadingEmbeddings
      ensures !IsServiceName(service) ==>
        resp == InvalidService(InvalidServiceMessage)
        && registry == old(registry) && installer.installed == old(installer.installed)
      ensures IsServiceName(service) ==>
        var success := old(installer.IsPackageInstalled(PackageOf(service))) || EnsureSucceeds(Some(test), pipOk);
        var enabled := if service == "stt" then enableStt else if service == "tts" then enableTts else enableEmbeddings;
        resp == Downloaded(success, DownloadMessage(service, success))
        && (success ==> installer.IsPackageInstalled(PackageOf(service)))
        && registry == (if success && enabled && service !in old(registry) then old(registry) + [service] else old(registry))
    {
      if !IsServiceName(service) {
        return InvalidService(InvalidServiceMessage);
      }
      var success: bool;
      if service == "stt" {
        success := DownloadStt(test, file, pipOk, hs);
      } else if service == "tts" {
        success := DownloadTts(test, file, pipOk, ht);
      } else {
        success := DownloadEmbeddings(test, file, pipOk, he);
      }
      return Downloaded(success, DownloadMessage(service, success));
    }

    /** The "stt" branch of download_model. */
    method DownloadStt(test: ImportTest, file: Option<seq<string>>, pipOk: bool, hs: PyStt.SttHost)
      returns (success: bool)
      requires Valid()
      modifies this, stt, installer
      ensures Valid()
      ensures !downloadingStt && downloadingTts == old(downloadingTts) && downloadingEmbeddings == old(downloadingEmbeddings)
      ensures success <==> old(installer.IsPackageInstalled("faster-whisper")) || EnsureSucceeds(Some(test), pipOk)
      ensures success ==> installer.IsPackageInstalled("faster-whisper")
      ensures registry == if success && enableStt && "stt" !in old(registry) then old(registry) + ["stt"] else old(registry)
    {
      downloadingStt := true;
      var pip;
      success, pip := installer.EnsurePackageInstalled("faster-whisper", Some(test), file, pipOk);
      downloadingStt := false;
      if success && enableStt && "stt" !in registry {
        var started := stt.Initialize(installer, hs);
        registry := registry + ["stt"];
      }
    }

    /** The "tts" branch of download_model. */
    method DownloadTts(test: ImportTest, file: Option<seq<string>>, pipOk: bool, ht: PyTts.TtsHost)
      returns (success: bool)
      requires Valid()
      modifies this, tts, installer
      ensures Valid()
      ensures !downloadingTts && downloadingStt == old(downloadingStt) && downloadingEmbeddings == old(downloadingEmbeddings)
      ensures success <==> old(installer.IsPackageInstalled("kokoro")) || EnsureSucceeds(Some(test), pipOk)
      ensures success ==> installer.IsPackageInstalled("kokoro")
      ensures registry == if success && enableTts && "tts" !in old(registry) then old(registry) + ["tts"] else old(registry)
    {
      downloadingTts := true;
      var pip;
      success, pip := installer.EnsurePackageInstalled("kokoro", Some(test), file, pipOk);
      downloadingTts := false;
      if success && enableTts && "tts" !in registry {
        var started := tts.Initialize(installer, ht);
        registry := registry + ["tts"];
      }
    }

    /** The "embeddings" branch of download_model. */
    method DownloadEmbeddings(test: ImportTest, file: Option<seq<string>>, pipOk: bool, he: PyEmbeddings.EmbHost)
      returns (success: bool)
      requires Valid()
      modifies this, embeddings, installer
      ensures Valid()
      ensures !downloadingEmbeddings && downloadingStt == old(downloadingStt) && downloadingTts == old(downloadingTts)
      ensures success <==> old(installer.IsPackageInstalled("sentence-transformers")) || EnsureSucceeds(Some(test), pipOk)
      ensures success ==> installer.IsPackageInstalled("sentence-transformers")
      ensures registry ==
        if success && enableEmbeddings && "embeddings" !in old(registry) then old(registry) + ["embeddings"] else old(registry)
    {
      downloadingEmbeddings := true;
      var pip;
      success, pip := installer.EnsurePackageInstalled("sentence-transformers", Some(test), file, pipOk);
      downloadingEmbeddings := false;
      if success && enableEmbeddings && "embeddings" !in registry {
        var started := embeddings.Initialize(he);
        registry := registry + ["embeddings"];
      }
    }
  }
}
