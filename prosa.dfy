/**
 * The transport client for the Prosa speech API (prosa/prosa.py): the JSON
 * envelopes of the STT and TTS endpoints, the `x-api-key` header, and the
 * gating of a job's result on `status == "complete"`.
 *
 * The HTTP call itself is lifted out: a `Network` object records every
 * request it is given and answers with a fixed (unknown) function of the
 * request, whose failure stands for a network error, a non-JSON body or any
 * other exception raised by `requests.post(...).json()`.
 */
module Prosa {
  import opened Wrappers
  import opened PyJson
  import Base64

  const SttUrl := "https://api.prosa.ai/v2/speech/stt"
  const TtsUrl := "https://api.prosa.ai/v2/speech/tts"

  /** Defaults of `create_transcription` and `get_speech`. */
  const DefaultSttModel := "stt-general"
  const DefaultTtsModel := "tts-dimas-formal"
  const DefaultAudioFormat := "mp3"

  /** A POST with a JSON body and the `x-api-key` header (`None` when the key is `None`). */
  datatype HttpRequest = HttpRequest(url: string, apiKey: Option<string>, body: Json)

  /**
   * The provider, seen from the client: it logs requests and answers them.
   * A failed answer is usually `TransportError` (the POST or `response.json()`
   * raised), but `respond` may return any exception.
   */
  class Network {
    const respond: HttpRequest -> Result<Json, PyError>
    var sent: seq<HttpRequest>

    constructor (respond: HttpRequest -> Result<Json, PyError>)
      ensures this.respond == respond && sent == []
    {
      this.respond := respond;
      sent := [];
    }

    /** `requests.post(url, json=body, headers=...).json()`. */
    method Post(req: HttpRequest) returns (r: Result<Json, PyError>)
      modifies this
      ensures sent == old(sent) + [req]
      ensures r == respond(req)
    {
      sent := sent + [req];
      r := respond(req);
    }
  }

  /** `j` is exactly `{"config": {"model": model, "wait": wait}, "request": {"data": data}}`. */
  ghost predicate IsSttPayload(j: Json, data: string, model: string, wait: bool) {
    && Keys(j) == {"config", "request"}
    && At(j, ["config"]).Success? && Keys(At(j, ["config"]).value) == {"model", "wait"}
    && At(j, ["request"]).Success? && Keys(At(j, ["request"]).value) == {"data"}
    && At(j, ["config", "model"]) == Success(JStr(model))
    && At(j, ["config", "wait"]) == Success(JBool(wait))
    && At(j, ["request", "data"]) == Success(JStr(data))
  }

  /**
   * `j` is exactly
   * `{"config": {"model": model, "wait": wait, "audio_format": format}, "request": {"text": text}}`.
   */
  ghost predicate IsTtsPayload(j: Json, text: string, format: string, model: string, wait: bool) {
    && Keys(j) == {"config", "request"}
    && At(j, ["config"]).Success? && Keys(At(j, ["config"]).value) == {"model", "wait", "audio_format"}
    && At(j, ["request"]).Success? && Keys(At(j, ["request"]).value) == {"text"}
    && At(j, ["config", "model"]) == Success(JStr(model))
    && At(j, ["config", "wait"]) == Success(JBool(wait))
    && At(j, ["config", "audio_format"]) == Success(JStr(format))
    && At(j, ["request", "text"]) == Success(JStr(text))
  }

  /** A path of one key is a single subscript. */
  lemma AtOne(j: Json, k: string)
    ensures At(j, [k]) == Member(j, k)
  {
    assert [k][1..] == [];
  }

  /** A path of two keys is two subscripts in a row. */
  lemma AtTwo(j: Json, k1: string, k2: string)
    ensures At(j, [k1, k2]) ==
      match Member(j, k1) case Failure(e) => Failure(e) case Success(c) => Member(c, k2)
  {
    assert [k1, k2][1..] == [k2];
    if Member(j, k1).Success? {
      AtOne(Member(j, k1).value, k2);
    }
  }

  /** The STT body built by `_submit_stt_request`. */
  function SttPayload(data: string, model: string, wait: bool): (j: Json)
    ensures IsSttPayload(j, data, model, wait)
  {
    var j := JObj(map["config" := JObj(map["model" := JStr(model), "wait" := JBool(wait)]),
                      "request" := JObj(map["data" := JStr(data)])]);
    AtOne(j, "config"); AtOne(j, "request");
    AtTwo(j, "config", "model"); AtTwo(j, "config", "wait"); AtTwo(j, "request", "data");
    j
  }

  /** The TTS body built by `_submit_tts_request`. */
  function TtsPayload(text: string, format: string, model: string, wait: bool): (j: Json)
    ensures IsTtsPayload(j, text, format, model, wait)
  {
    var j := JObj(map["config" := JObj(map["model" := JStr(model), "wait" := JBool(wait),
                                           "audio_format" := JStr(format)]),
                      "request" := JObj(map["text" := JStr(text)])]);
    AtOne(j, "config"); AtOne(j, "request");
    AtTwo(j, "config", "model"); AtTwo(j, "config", "wait");
    AtTwo(j, "config", "audio_format"); AtTwo(j, "request", "text");
    j
  }

  /** Nothing but the built body has the STT shape: the body is exactly that envelope. */
  lemma SttPayloadExact(j: Json, data: string, model: string, wait: bool)
    requires IsSttPayload(j, data, model, wait)
    ensures j == SttPayload(data, model, wait)
  {
    AtOne(j, "config"); AtOne(j, "request");
    AtTwo(j, "config", "model"); AtTwo(j, "config", "wait"); AtTwo(j, "request", "data");
    var c, r := j.fields["config"], j.fields["request"];
    assert c.fields == map["model" := JStr(model), "wait" := JBool(wait)];
    assert r.fields == map["data" := JStr(data)];
    assert j.fields == map["config" := c, "request" := r];
  }

  /** Nothing but the built body has the TTS shape. */
  lemma TtsPayloadExact(j: Json, text: string, format: string, model: string, wait: bool)
    requires IsTtsPayload(j, text, format, model, wait)
    ensures j == TtsPayload(text, format, model, wait)
  {
    AtOne(j, "config"); AtOne(j, "request");
    AtTwo(j, "config", "model"); AtTwo(j, "config", "wait");
    AtTwo(j, "config", "audio_format"); AtTwo(j, "request", "text");
    var c, r := j.fields["config"], j.fields["request"];
    assert c.fields == map["model" := JStr(model), "wait" := JBool(wait), "audio_format" := JStr(format)];
    assert r.fields == map["text" := JStr(text)];
    assert j.fields == map["config" := c, "request" := r];
  }

  /** The job finished: `job["status"] == "complete"` holds without raising. */
  predicate Completed(job: Json) {
    job.JObj? && "status" in job.fields && job.fields["status"] == JStr("complete")
  }

  /**
   * `create_transcription` after the request: `job["result"]` for a complete
   * job, `None` (here `JNull`) for any other status, and the `KeyError` or
   * `TypeError` of `job["status"]` when the response has no status.
   */
  function TranscriptionOf(job: Json): (r: Result<Json, PyError>)
    ensures !job.JObj? ==> r == Failure(TypeError)
    ensures job.JObj? && "status" !in job.fields ==> r == Failure(KeyError("status"))
    ensures Completed(job) && "result" in job.fields ==> r == Success(job.fields["result"])
    ensures Completed(job) && "result" !in job.fields ==> r == Failure(KeyError("result"))
    ensures job.JObj? && "status" in job.fields && !Completed(job) ==> r == Success(JNull)
  {
    match Member(job, "status")
    case Failure(e) => Failure(e)
    case Success(status) =>
      if status == JStr("complete") then Member(job, "result") else Success(JNull)
  }

  /**
   * `get_speech` after the request: `base64.b64decode(job["result"]["data"])`
   * for a complete job, `None` for any other status. Missing keys, a value
   * that is not a dictionary, data that is not a string, and text that is not
   * base64 raise.
   */
  function SpeechOf(job: Json): (r: Result<Option<seq<Base64.byte>>, PyError>)
    ensures !job.JObj? ==> r == Failure(TypeError)
    ensures job.JObj? && "status" !in job.fields ==> r == Failure(KeyError("status"))
    ensures r == Success(None) <==> job.JObj? && "status" in job.fields && !Completed(job)
    ensures r.Success? && r.value.Some? <==>
      Completed(job) && At(job, ["result", "data"]).Success? && At(job, ["result", "data"]).value.JStr?
      && Base64.Decode(At(job, ["result", "data"]).value.s).Some?
    ensures r.Success? && r.value.Some? ==>
      Base64.Decode(At(job, ["result", "data"]).value.s) == Some(r.value.value)
    ensures Completed(job) && At(job, ["result", "data"]).Failure? ==>
      r == Failure(At(job, ["result", "data"]).error)
    ensures Completed(job) && At(job, ["result", "data"]).Success? && !At(job, ["result", "data"]).value.JStr? ==>
      r == Failure(TypeError)
    ensures
      (Completed(job) && At(job, ["result", "data"]).Success? && At(job, ["result", "data"]).value.JStr?
       && Base64.Decode(At(job, ["result", "data"]).value.s).None?) ==> r == Failure(DecodeError)
  {
    match Member(job, "status")
    case Failure(e) => Failure(e)
    case Success(status) =>
      if status != JStr("complete") then Success(None)
      else match At(job, ["result", "data"])
        case Failure(e) => Failure(e)
        case Success(data) =>
          if !data.JStr? then Failure(TypeError)
          else match Base64.Decode(data.s)
            case None => Failure(DecodeError)
            case Some(audio) => Success(Some(audio))
  }

  /** `create_transcription` on what `requests.post(...).json()` gave: its exception, or the gate. */
  function TranscriptionOfResponse(resp: Result<Json, PyError>): Result<Json, PyError> {
    match resp
    case Failure(e) => Failure(e)
    case Success(job) => TranscriptionOf(job)
  }

  /** `get_speech` on what `requests.post(...).json()` gave: its exception, or the gate. */
  function SpeechOfResponse(resp: Result<Json, PyError>): Result<Option<seq<Base64.byte>>, PyError> {
    match resp
    case Failure(e) => Failure(e)
    case Success(job) => SpeechOf(job)
  }

  /** A complete job whose `result.data` is the encoding of some audio yields that audio. */
  lemma SpeechOfEncoded(audio: seq<Base64.byte>, extra: map<string, Json>)
    ensures SpeechOf(JObj(extra + map["status" := JStr("complete"),
                                      "result" := JObj(map["data" := JStr(Base64.Encode(audio))])]))
            == Success(Some(audio))
  {
    var job := JObj(extra + map["status" := JStr("complete"),
                                "result" := JObj(map["data" := JStr(Base64.Encode(audio))])]);
    AtTwo(job, "result", "data");
    Base64.DecodeEncode(audio);
  }

  /** `Prosa.STT`: a client bound to one API key. */
  datatype SttClient = SttClient(sttApiKey: Option<string>) {

    /** The request `_submit_stt_request` posts for the given audio file contents. */
    function Request(audio: seq<Base64.byte>, model: string, wait: bool): (r: HttpRequest)
      ensures r.url == SttUrl && r.apiKey == sttApiKey
      ensures IsSttPayload(r.body, Base64.Encode(audio), model, wait)
    {
      HttpRequest(SttUrl, sttApiKey, SttPayload(Base64.Encode(audio), model, wait))
    }

    /** `create_transcription`: one request, then the status gate. */
    method CreateTranscription(net: Network, audio: seq<Base64.byte>,
                               model: string := DefaultSttModel, wait: bool := true)
      returns (r: Result<Json, PyError>)
      modifies net
      ensures net.sent == old(net.sent) + [Request(audio, model, wait)]
      ensures r == TranscriptionOfResponse(net.respond(Request(audio, model, wait)))
    {
      var job := net.Post(Request(audio, model, wait));
      match job
      case Failure(e) => r := Failure(e);
      case Success(j) => r := TranscriptionOf(j);
    }
  }

  /** The `data` field of an STT request decodes to the audio it was built from. */
  lemma SttRequestCarriesAudio(c: SttClient, audio: seq<Base64.byte>, model: string, wait: bool)
    ensures At(c.Request(audio, model, wait).body, ["request", "data"]).Success?
    ensures Base64.Decode(At(c.Request(audio, model, wait).body, ["request", "data"]).value.s)
            == Some(audio)
  {
    Base64.DecodeEncode(audio);
  }

  /** `Prosa.TTS`: a client bound to one API key. */
  datatype TtsClient = TtsClient(ttsApiKey: Option<string>) {

    /** The request `_submit_tts_request` posts. */
    function Request(text: string, audioFormat: string, model: string, wait: bool): (r: HttpRequest)
      ensures r.url == TtsUrl && r.apiKey == ttsApiKey
      ensures IsTtsPayload(r.body, text, audioFormat, model, wait)
    {
      HttpRequest(TtsUrl, ttsApiKey, TtsPayload(text, audioFormat, model, wait))
    }

    /** `get_speech`: one request, then the status gate and the base64 decoding. */
    method GetSpeech(net: Network, text: string, audioFormat: string := DefaultAudioFormat,
                     model: string := DefaultTtsModel, wait: bool := true)
      returns (r: Result<Option<seq<Base64.byte>>, PyError>)
      modifies net
      ensures net.sent == old(net.sent) + [Request(text, audioFormat, model, wait)]
      ensures r == SpeechOfResponse(net.respond(Request(text, audioFormat, model, wait)))
    {
      var job := net.Post(Request(text, audioFormat, model, wait));
      match job
      case Failure(e) => r := Failure(e);
      case Success(j) => r := SpeechOf(j);
    }
  }
}
