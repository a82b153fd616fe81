// The speech-to-text HTTP handler (backend/internal/api/stt.go): the
// availability checks that precede any reading of the request, the JSON
// branch that encodes float samples as 16-bit little-endian PCM, and the
// mapping of the service's result to a response.
module ApiStt {
  import opened Wrappers
  import opened Pcm
  import Whisper

  /** The request body as the handler sees it: a JSON body that did or did
      not decode into its sample list, or a multipart form whose reading
      failed at some step or produced the uploaded bytes. */
  datatype Body =
    | Json(samples: Option<seq<real>>)
    | FormUnparsable
    | FormWithoutFile
    | FileUnreadable
    | Upload(bytes: seq<Byte>)

  /** The response: an HTTP error with its message, or the transcript with
      the fixed placeholder confidence and duration. */
  datatype Response =
    | Error(status: nat, message: string)
    | Transcribed(text: string, confidence: real, duration: real)

  const Disabled := "STT service is disabled"
  const NotReady := "STT service is not ready"
  const BadJson := "Invalid JSON request body"
  const NoAudio := "Audio data is required"

  /** The JSON-branch encoder: a buffer of two bytes per sample, each
      sample clamped to [-1, 1], scaled by 32767, truncated to an int16 and
      stored low byte first. */
  method EncodeSamples(samples: seq<real>) returns (bytes: seq<Byte>)
    ensures |bytes| == 2 * |samples|
    ensures bytes == SampleBytes(QuantizeAll(samples))
  {
    var audio := new Byte[2 * |samples|](_ => 0);
    var i := 0;
    while i < |samples|
      invariant 0 <= i <= |samples|
      invariant forall k :: 0 <= k < i ==>
        audio[2 * k] == LowByte(Quantize(samples[k])) && audio[2 * k + 1] == HighByte(Quantize(samples[k]))
    {
      var s16 := Quantize(samples[i]);
      audio[i * 2] := LowByte(s16);
      audio[i * 2 + 1] := HighByte(s16);
      i := i + 1;
    }
    bytes := audio[..];
    SampleBytesUnique(bytes, QuantizeAll(samples));
  }

  /** The Whisper decoder reads back exactly the int16 the encoder stored,
      for every sample, and so the float it sees is that int16 / 32768. */
  lemma EncodeDecodeRoundTrip(samples: seq<real>)
    ensures var b := SampleBytes(QuantizeAll(samples));
      forall k :: 0 <= k < |samples| ==> DecodeLE16(b[2 * k], b[2 * k + 1]) == Quantize(samples[k])
  {
    SampleBytesRoundTrip(QuantizeAll(samples));
  }

  /** Samples that agree after clamping encode identically: every sample
      above 1.0 encodes as 1.0 does and every sample below -1.0 as -1.0. */
  lemma EncodingSaturates(xs: seq<real>, ys: seq<real>)
    requires |xs| == |ys|
    requires forall k :: 0 <= k < |xs| ==> Clamp(xs[k]) == Clamp(ys[k])
    ensures SampleBytes(QuantizeAll(xs)) == SampleBytes(QuantizeAll(ys))
  {
    assert QuantizeAll(xs) == QuantizeAll(ys);
  }

  /** TranscribeAudio of the handler: 503 when the feature is off or the
      service is absent or not ready, before the body is looked at; for
      JSON, 400 on a body that does not decode and on an empty sample list;
      for a form, 400 or 500 on the reading errors; otherwise the bytes are
      handed to the service and its error becomes a 500. */
  method TranscribeAudio(sttEnabled: bool, svc: Whisper.STTService?, body: Body, h: Whisper.Host)
    returns (resp: Response, forwarded: Option<seq<Byte>>)
    ensures !sttEnabled ==> resp == Error(503, Disabled) && forwarded.None?
    ensures sttEnabled && (svc == null || !svc.ready) ==> resp == Error(503, NotReady) && forwarded.None?
    ensures sttEnabled && svc != null && svc.ready ==> (
      match body
      case Json(None) => resp == Error(400, BadJson) && forwarded.None?
      case Json(Some(xs)) =>
        if xs == [] then resp == Error(400, NoAudio) && forwarded.None?
        else (forwarded == Some(SampleBytes(QuantizeAll(xs)))
              && resp == Respond(Whisper.SetupMapping(svc.WhisperResult(h))))
      case FormUnparsable => resp == Error(400, "Failed to parse multipart form") && forwarded.None?
      case FormWithoutFile =>
        resp == Error(400, "Failed to get audio file (expected 'file' or 'audio' field)") && forwarded.None?
      case FileUnreadable => resp == Error(500, "Failed to read audio file") && forwarded.None?
      case Upload(bytes) =>
        forwarded == Some(bytes)
        && (bytes == [] ==> resp == Respond(Failure(Whisper.EmptyAudio)))
        && (|bytes| % 2 != 0 ==> resp == Respond(Failure("failed to convert audio: " + Whisper.OddBytes)))
        && (bytes != [] && |bytes| % 2 == 0 ==> resp == Respond(Whisper.SetupMapping(svc.WhisperResult(h)))))
  {
    if !sttEnabled {
      return Error(503, Disabled), None;
    }
    if svc == null || !svc.IsReady() {
      return Error(503, NotReady), None;
    }
    var err, audio := ReadBody(body);
    if err.Some? {
      return err.value, None;
    }
    resp := Forward(svc, audio, h);
    forwarded := Some(audio);
  }

  /** Reads the request body: the error reply of a body that cannot be
      read, or else the PCM bytes to transcribe. */
  method ReadBody(body: Body) returns (err: Option<Response>, audio: seq<Byte>)
    ensures match body
      case Json(None) => err == Some(Error(400, BadJson))
      case Json(Some(xs)) =>
        if xs == [] then err == Some(Error(400, NoAudio))
        else err.None? && audio == SampleBytes(QuantizeAll(xs)) && audio != [] && |audio| % 2 == 0
      case FormUnparsable => err == Some(Error(400, "Failed to parse multipart form"))
      case FormWithoutFile => err == Some(Error(400, "Failed to get audio file (expected 'file' or 'audio' field)"))
      case FileUnreadable => err == Some(Error(500, "Failed to read audio file"))
      case Upload(bytes) => err.None? && audio == bytes
  {
    audio := [];
    match body {
      case Json(parsed) =>
        if parsed.None? {
          return Some(Error(400, BadJson)), [];
        }
        if |parsed.value| == 0 {
          return Some(Error(400, NoAudio)), [];
        }
        audio := EncodeSamples(parsed.value);
        err := None;
      case FormUnparsable =>
        err := Some(Error(400, "Failed to parse multipart form"));
      case FormWithoutFile =>
        err := Some(Error(400, "Failed to get audio file (expected 'file' or 'audio' field)"));
      case FileUnreadable =>
        err := Some(Error(500, "Failed to read audio file"));
      case Upload(bytes) =>
        err := None;
        audio := bytes;
    }
  }

  /** Hands the audio to a ready service and replies with its result. */
  method Forward(svc: Whisper.STTService, audio: seq<Byte>, h: Whisper.Host) returns (resp: Response)
    requires svc.ready
    ensures audio == [] ==> resp == Respond(Failure(Whisper.EmptyAudio))
    ensures |audio| % 2 != 0 ==> resp == Respond(Failure("failed to convert audio: " + Whisper.OddBytes))
    ensures audio != [] && |audio| % 2 == 0 ==> resp == Respond(Whisper.SetupMapping(svc.WhisperResult(h)))
  {
    var text := svc.TranscribeAudio(audio, h);
    if text.Failure? {
      return Error(500, "Transcription failed: " + text.error);
    }
    resp := Transcribed(text.value, 0.95, 1.0);
  }

  /** The reply to the service's result. */
  function Respond(r: Result<string>): Response {
    if r.Failure? then Error(500, "Transcription failed: " + r.error)
    else Transcribed(r.value, 0.95, 1.0)
  }
}
