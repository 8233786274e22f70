/**
 * The Prosa speech-to-text adapter (prosa/stt.py): construction with its API
 * key check and language fallback, the per-call option override, and
 * `recognize`, which turns one buffered utterance into exactly one final
 * transcript event.
 *
 * The adapter's fields are assigned once, in `__init__`, and never changed, so
 * an adapter is a value here; construction is a function that either yields
 * the adapter or the `ValueError` it raises.
 */
module ProsaStt {
  import opened Wrappers
  import opened PyJson
  import Base64
  import opened Audio
  import opened Prosa

  /** The variable the key check consults. */
  const KeyVariable := "Prosa_STT_API_KEY"
  /** The variable consulted once more when the stored key is assigned. */
  const StoredKeyVariable := "PROSA_STT_API_KEY"
  /** The model forced for a language other than Indonesian. */
  const FallbackModel := "stt-general"

  /** `STTOptions`. */
  datatype SttOptions = SttOptions(
    language: Option<string>,
    model: string,
    wait: bool,
    speakerCount: int,
    includeFiller: bool,
    includePartialResults: bool,
    autoPunctuation: bool,
    enableSpokenNumerals: bool,
    enableSpeechInsights: bool,
    enableVoiceInsights: bool)

  /** `stt.STTCapabilities` as passed to the base class. */
  datatype SttCapabilities = SttCapabilities(streaming: bool, interimResults: bool)

  /** `ValueError("Prosa API key is required")`. */
  datatype ConfigError = MissingApiKey

  datatype SpeechEventType = StartOfSpeech | InterimTranscript | FinalTranscript | EndOfSpeech

  /**
   * `stt.SpeechData`. The text is whatever truthy value the provider put at
   * `transcript` (a string in every well-formed response), or `""`.
   */
  datatype SpeechData = SpeechData(text: Json, language: string)

  datatype SpeechEvent = SpeechEvent(kind: SpeechEventType, alternatives: seq<SpeechData>)

  /**
   * The libraries `recognize` calls, whose code is not part of this model:
   * LiveKit's `merge_frames` (which can raise, typically `LibraryError`) and Python's `wave` writer,
   * given channels, sample width, frame rate and frames.
   */
  datatype SttLibraries = SttLibraries(
    merge: seq<AudioFrame> -> Result<AudioFrame, PyError>,
    wav: (int, int, int, seq<Base64.byte>) -> seq<Base64.byte>)

  /** The languages the Indonesian models accept. */
  predicate SupportedLanguage(language: Option<string>) {
    language == Some("id-ID") || language == Some("id")
  }

  /** `STT` after construction. */
  datatype Stt = Stt(capabilities: SttCapabilities, apiKey: Option<string>, opts: SttOptions,
                     client: SttClient)
  {
    /** `_sanitize_options`: a copy of the stored options whose language a truthy override replaces. */
    function SanitizeOptions(language: Option<string>): (r: SttOptions)
      ensures r.(language := opts.language) == opts
      ensures TruthyStr(language) ==> r.language == language
      ensures !TruthyStr(language) ==> r.language == opts.language
    {
      opts.(language := OrElse(language, opts.language))
    }

    /** The WAV file `recognize` builds around the merged buffer (16-bit samples). */
    function WavFile(libs: SttLibraries, merged: AudioFrame): seq<Base64.byte> {
      libs.wav(merged.numChannels, 2, merged.sampleRate, merged.data)
    }

    /** The request `recognize` sends: the WAV bytes with the stored model and wait flag. */
    function RecognizeRequest(libs: SttLibraries, merged: AudioFrame): (r: HttpRequest)
      ensures r.url == SttUrl && r.apiKey == client.sttApiKey
      ensures IsSttPayload(r.body, Base64.Encode(WavFile(libs, merged)), opts.model, opts.wait)
    {
      client.Request(WavFile(libs, merged), opts.model, opts.wait)
    }

    /**
     * `recognize`: merge the buffer, wrap it in WAV, transcribe it with the
     * stored model and wait flag, and report the transcript. A failure of
     * `merge_frames` raises before any request; a failure of the request or of
     * the status gate propagates; everything else yields one event.
     */
    method Recognize(net: Network, libs: SttLibraries, buffer: seq<AudioFrame>,
                     language: Option<string> := None)
      returns (r: Result<SpeechEvent, PyError>)
      modifies net
      ensures libs.merge(buffer).Failure? ==>
        r == Failure(libs.merge(buffer).error) && net.sent == old(net.sent)
      ensures libs.merge(buffer).Success? ==>
        net.sent == old(net.sent) + [RecognizeRequest(libs, libs.merge(buffer).value)]
      ensures libs.merge(buffer).Success? ==>
        var t := TranscriptionOfResponse(net.respond(RecognizeRequest(libs, libs.merge(buffer).value)));
        r == match t case Failure(e) => Failure(e) case Success(j) => Success(TranscriptEvent(j, language))
    {
      var config := SanitizeOptions(language);
      var merged := libs.merge(buffer);
      if merged.Failure? {
        return Failure(merged.error);
      }
      var bytesData := WavFile(libs, merged.value);
      var transcription := client.CreateTranscription(net, bytesData, model := opts.model, wait := opts.wait);
      match transcription
      case Failure(e) => r := Failure(e);
      case Success(j) => r := Success(TranscriptEvent(j, language));
    }
  }

  /**
   * `STT.__init__`. Construction fails only when neither the argument nor
   * `Prosa_STT_API_KEY` gives a key; an unsupported language is accepted and
   * forces the fallback model.
   */
  function NewStt(env: map<string, string>,
                  model: string := "stt-general",
                  language: Option<string> := Some("id-ID"),
                  wait: bool := true,
                  speakerCount: int := 1,
                  includeFiller: bool := false,
                  includePartialResults: bool := false,
                  autoPunctuation: bool := false,
                  enableSpokenNumerals: bool := false,
                  enableSpeechInsights: bool := false,
                  enableVoiceInsights: bool := false,
                  apiKey: Option<string> := None,
                  client: Option<SttClient> := None): (r: Result<Stt, ConfigError>)
    ensures r.Failure? <==> !TruthyStr(apiKey) && KeyVariable !in env
    ensures r.Failure? ==> r.error == MissingApiKey
    ensures r.Success? ==> r.value.opts.model == (if SupportedLanguage(language) then model else FallbackModel)
    ensures r.Success? ==>
      var o := r.value.opts;
      && o.language == language && o.wait == wait && o.speakerCount == speakerCount
      && o.includeFiller == includeFiller && o.includePartialResults == includePartialResults
      && o.autoPunctuation == autoPunctuation && o.enableSpokenNumerals == enableSpokenNumerals
      && o.enableSpeechInsights == enableSpeechInsights && o.enableVoiceInsights == enableVoiceInsights
    ensures r.Success? ==>
      r.value.apiKey == OrElse(OrEnv(apiKey, env, KeyVariable), EnvGet(env, StoredKeyVariable))
    ensures r.Success? ==>
      r.value.client == if client.Some? then client.value else SttClient(r.value.apiKey)
    ensures r.Success? ==> r.value.capabilities == SttCapabilities(false, includePartialResults)
  {
    var resolved := OrEnv(apiKey, env, KeyVariable);
    if resolved.None? then Failure(MissingApiKey)
    else
      var storedModel := if !SupportedLanguage(language) then FallbackModel else model;
      var storedKey := OrElse(resolved, EnvGet(env, StoredKeyVariable));
      Success(Stt(
        SttCapabilities(false, includePartialResults),
        storedKey,
        SttOptions(language, storedModel, wait, speakerCount, includeFiller, includePartialResults,
                   autoPunctuation, enableSpokenNumerals, enableSpeechInsights, enableVoiceInsights),
        if client.Some? then client.value else SttClient(storedKey)))
  }

  /** The provider's transcription holds `v` at `["data"][0]["transcript"]`. */
  ghost predicate HasTranscript(t: Json, v: Json) {
    && t.JObj? && "data" in t.fields
    && t.fields["data"].JArr? && t.fields["data"].items != []
    && t.fields["data"].items[0].JObj? && "transcript" in t.fields["data"].items[0].fields
    && t.fields["data"].items[0].fields["transcript"] == v
  }

  /** `transcription["data"][0]["transcript"]`, or the exception it raises. */
  function TranscriptOf(t: Json): (r: Result<Json, PyError>)
    ensures r.Success? ==> HasTranscript(t, r.value)
    ensures forall v :: HasTranscript(t, v) ==> r == Success(v)
  {
    match Member(t, "data")
    case Failure(e) => Failure(e)
    case Success(data) =>
      match First(data)
      case Failure(e) => Failure(e)
      case Success(item) => Member(item, "transcript")
  }

  /**
   * The event `recognize` returns for a transcription: the `try`/`except`
   * turns every failed lookup into `None`, and `or ""` turns every falsy
   * transcript into the empty string.
   */
  function TranscriptEvent(t: Json, language: Option<string>): (e: SpeechEvent)
    ensures e.kind == FinalTranscript && |e.alternatives| == 1
    ensures e.alternatives[0].language == if TruthyStr(language) then language.value else ""
    ensures forall v :: HasTranscript(t, v) && Truthy(v) ==> e.alternatives[0].text == v
    ensures (forall v :: HasTranscript(t, v) ==> !Truthy(v)) ==> e.alternatives[0].text == JStr("")
  {
    var text := match TranscriptOf(t) case Success(v) => v case Failure(_) => JNull;
    SpeechEvent(FinalTranscript, [SpeechData(if Truthy(text) then text else JStr(""),
                                             if TruthyStr(language) then language.value else "")])
  }

  /** An empty-string key argument counts as no argument, whatever the other arguments. */
  lemma EmptyKeyArgumentIsAbsent(env: map<string, string>, model: string, language: Option<string>,
                                 wait: bool, speakerCount: int, includeFiller: bool,
                                 includePartialResults: bool, autoPunctuation: bool,
                                 enableSpokenNumerals: bool, enableSpeechInsights: bool,
                                 enableVoiceInsights: bool, client: Option<SttClient>)
    ensures NewStt(env, model, language, wait, speakerCount, includeFiller, includePartialResults,
                   autoPunctuation, enableSpokenNumerals, enableSpeechInsights, enableVoiceInsights,
                   Some(""), client) ==
            NewStt(env, model, language, wait, speakerCount, includeFiller, includePartialResults,
                   autoPunctuation, enableSpokenNumerals, enableSpeechInsights, enableVoiceInsights,
                   None, client)
  {
  }

  /**
   * The check rejects only a missing key: a key variable set to `""` passes
   * it, and the stored key is then read from `PROSA_STT_API_KEY`, which may
   * be unset, leaving the client with no key at all.
   */
  lemma EmptyEnvironmentKeyPassesCheck()
    ensures var r := NewStt(map[KeyVariable := ""]);
      r.Success? && r.value.apiKey == None && r.value.client == SttClient(None)
  {
  }

  /**
   * An unsupported language is never an error: once a key is found, the
   * adapter is built with `stt-general` as its model and the language and
   * every other option stored as given.
   */
  lemma UnsupportedLanguageFallsBack(env: map<string, string>, model: string, language: string,
                                     wait: bool, speakerCount: int, includeFiller: bool,
                                     includePartialResults: bool, autoPunctuation: bool,
                                     enableSpokenNumerals: bool, enableSpeechInsights: bool,
                                     enableVoiceInsights: bool, apiKey: Option<string>,
                                     client: Option<SttClient>)
    requires language != "id-ID" && language != "id"
    requires TruthyStr(apiKey) || KeyVariable in env
    ensures var r := NewStt(env, model, Some(language), wait, speakerCount, includeFiller,
                            includePartialResults, autoPunctuation, enableSpokenNumerals,
                            enableSpeechInsights, enableVoiceInsights, apiKey, client);
      && r.Success?
      && r.value.opts == SttOptions(Some(language), FallbackModel, wait, speakerCount, includeFiller,
                                    includePartialResults, autoPunctuation, enableSpokenNumerals,
                                    enableSpeechInsights, enableVoiceInsights)
  {
  }

  /**
   * The request `recognize` sends depends on the stored model, wait flag and
   * client only: the override and every other option never reach it.
   */
  lemma RequestIgnoresOtherOptions(s1: Stt, s2: Stt, libs: SttLibraries, merged: AudioFrame)
    requires s1.client == s2.client && s1.opts.model == s2.opts.model && s1.opts.wait == s2.opts.wait
    ensures s1.RecognizeRequest(libs, merged) == s2.RecognizeRequest(libs, merged)
  {
  }

  /** No transcription (`None`) and an empty `data` list both give the empty text. */
  lemma NoTranscriptGivesEmptyText(language: Option<string>, rest: map<string, Json>)
    ensures TranscriptEvent(JNull, language).alternatives[0].text == JStr("")
    ensures TranscriptEvent(JObj(rest["data" := JArr([])]), language).alternatives[0].text == JStr("")
  {
  }
}
