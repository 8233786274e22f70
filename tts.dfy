/**
 * The Prosa text-to-speech adapter (prosa/tts.py): construction with its API
 * key check, one stream per `synthesize` call, and the stream's task, which
 * makes one speech request, decodes the MP3 it gets back, re-chunks the PCM
 * into frames of the runtime's size and appends every frame, then the flushed
 * remainder, to the stream's event channel.
 */
module ProsaTts {
  import opened Wrappers
  import opened PyJson
  import Base64
  import opened Audio
  import opened Prosa

  const SampleRate := 44100
  const NumChannels := 1
  const KeyVariable := "PROSA_TTS_API_KEY"

  /** `_TTSOptions`. Pitch and tempo are only stored. */
  datatype TtsOptions = TtsOptions(model: string, wait: bool, pitch: real, tempo: real,
                                   audioFormat: string)

  datatype TtsCapabilities = TtsCapabilities(streaming: bool)

  /** `ValueError("Prosa TTS API key is required")`. */
  datatype ConfigError = MissingApiKey

  /** `tts.SynthesizedAudio`: one frame tagged with its request and segment. */
  datatype SynthesizedAudio = SynthesizedAudio(requestId: string, segmentId: string, frame: AudioFrame)

  /**
   * LiveKit's `AudioByteStream`, whose code is not part of this model: an
   * opaque state created from a sample rate and a channel count, `write`,
   * which takes bytes and returns the frames completed so far with the next
   * state, and `flush`, which returns the frames holding the remainder.
   */
  datatype Rechunker<!S> = Rechunker(
    start: (int, int) -> S,
    write: (S, seq<Base64.byte>) -> (S, seq<AudioFrame>),
    flush: S -> seq<AudioFrame>)

  /**
   * The audio libraries the stream drives: `decode_chunk` of a fresh
   * `Mp3StreamDecoder` applied to what `get_speech` returned (which can be
   * `None`), whose exceptions are typically `LibraryError`, and the re-chunker.
   */
  datatype TtsLibraries<!S> = TtsLibraries(
    decode: Option<seq<Base64.byte>> -> Result<seq<AudioFrame>, PyError>,
    rechunker: Rechunker<S>)

  /** What `_audio_data` holds: unset before the task, then the `get_speech` result. */
  datatype Speech = NotFetched | Fetched(audio: Option<seq<Base64.byte>>)

  /** Writing `chunks` one after another, from state `s`: the final state and all frames returned. */
  function Feed<S>(rc: Rechunker<S>, s: S, chunks: seq<seq<Base64.byte>>): (S, seq<AudioFrame>)
    decreases |chunks|
  {
    if chunks == [] then (s, [])
    else
      var (s1, out) := Feed(rc, s, chunks[..|chunks| - 1]);
      var (s2, more) := rc.write(s1, chunks[|chunks| - 1]);
      (s2, out + more)
  }

  /** Writing one more chunk extends the fold by that write. */
  lemma FeedSnoc<S>(rc: Rechunker<S>, s: S, chunks: seq<seq<Base64.byte>>, c: seq<Base64.byte>)
    ensures Feed(rc, s, chunks + [c]) ==
      (rc.write(Feed(rc, s, chunks).0, c).0, Feed(rc, s, chunks).1 + rc.write(Feed(rc, s, chunks).0, c).1)
  {
    assert (chunks + [c])[..|chunks|] == chunks;
  }

  /**
   * Read from the front: the first chunk is written first, to the given
   * state, and the rest are written to the state it leaves.
   */
  lemma {:induction false} FeedFront<S>(rc: Rechunker<S>, s: S, c: seq<Base64.byte>,
                                        chunks: seq<seq<Base64.byte>>)
    ensures var (s1, out) := rc.write(s, c);
      Feed(rc, s, [c] + chunks) == (Feed(rc, s1, chunks).0, out + Feed(rc, s1, chunks).1)
    decreases |chunks|
  {
    var (s1, out) := rc.write(s, c);
    if chunks == [] {
      assert [c] + chunks == [c];
      assert [c][..0] == [];
      assert Feed(rc, s, [c]) == (s1, [] + out);
      assert [] + out == out;
      assert Feed(rc, s1, chunks) == (s1, []);
      assert out + [] == out;
    } else {
      var init, last := chunks[..|chunks| - 1], chunks[|chunks| - 1];
      assert ([c] + chunks)[..|chunks|] == [c] + init;
      assert ([c] + chunks)[|chunks|] == last;
      FeedFront(rc, s, c, init);
      var (a, o) := Feed(rc, s1, init);
      var (b, m) := rc.write(a, last);
      assert Feed(rc, s1, chunks) == (b, o + m);
      assert Feed(rc, s, [c] + chunks) == (b, (out + o) + m);
      assert (out + o) + m == out + (o + m);
    }
  }

  /** One turn of the outer loop of the task: the fold over the decoded frames grows by one write. */
  lemma PumpStep<S>(rc: Rechunker<S>, frames: seq<AudioFrame>, i: nat, fed: seq<seq<Base64.byte>>)
    requires i < |frames| && fed == DataOf(frames[..i])
    ensures fed + [frames[i].data] == DataOf(frames[..i + 1])
    ensures var before := Feed(rc, rc.start(SampleRate, NumChannels), fed);
      var step := rc.write(before.0, frames[i].data);
      Feed(rc, rc.start(SampleRate, NumChannels), fed + [frames[i].data]) == (step.0, before.1 + step.1)
  {
    DataOfSnoc(frames, i);
    FeedSnoc(rc, rc.start(SampleRate, NumChannels), fed, frames[i].data);
  }

  /** The frames of a fresh 44100 Hz mono re-chunker fed `chunks` and then flushed. */
  function Stream<S>(rc: Rechunker<S>, chunks: seq<seq<Base64.byte>>): seq<AudioFrame> {
    var (s, out) := Feed(rc, rc.start(SampleRate, NumChannels), chunks);
    out + rc.flush(s)
  }

  lemma DataOfSnoc(frames: seq<AudioFrame>, i: nat)
    requires i < |frames|
    ensures DataOf(frames[..i + 1]) == DataOf(frames[..i]) + [frames[i].data]
  {
    assert frames[..i + 1] == frames[..i] + [frames[i]];
  }

  /**
   * A byte-conserving re-chunker: what one write returns plus what a flush
   * would then return is what a flush would have returned before the write,
   * followed by the bytes written; a fresh re-chunker holds nothing. This is
   * the property LiveKit's `AudioByteStream` is meant to have; it is an
   * assumption of the lemmas that use it, never of the adapter.
   */
  ghost predicate Conserves<S(!new)>(rc: Rechunker<S>) {
    && Bytes(rc.flush(rc.start(SampleRate, NumChannels))) == []
    && forall s: S, c: seq<Base64.byte> {:trigger StepConserves(rc, s, c)} :: StepConserves(rc, s, c)
  }

  /** One write followed by a flush holds what a flush before it held, then the bytes written. */
  ghost predicate StepConserves<S>(rc: Rechunker<S>, s: S, c: seq<Base64.byte>) {
    Bytes(rc.write(s, c).1) + Bytes(rc.flush(rc.write(s, c).0)) == Bytes(rc.flush(s)) + c
  }

  lemma {:induction false} FeedConserves<S(!new)>(rc: Rechunker<S>, s: S, chunks: seq<seq<Base64.byte>>)
    requires Conserves(rc)
    ensures Bytes(Feed(rc, s, chunks).1) + Bytes(rc.flush(Feed(rc, s, chunks).0))
            == Bytes(rc.flush(s)) + Flatten(chunks)
    decreases |chunks|
  {
    if chunks != [] {
      var init, c := chunks[..|chunks| - 1], chunks[|chunks| - 1];
      var before := Feed(rc, s, init);
      var step := rc.write(before.0, c);
      assert init + [c] == chunks;
      FeedSnoc(rc, s, init, c);
      assert StepConserves(rc, before.0, c);
      FeedConserves(rc, s, init);
      BytesAppend(before.1, step.1);
      FlattenSnoc(init, c);
      Regroup(Bytes(before.1), Bytes(step.1), Bytes(rc.flush(step.0)), Bytes(rc.flush(before.0)),
              Bytes(rc.flush(s)), Flatten(init), c);
    }
  }

  /** The bookkeeping step of `FeedConserves`: two conservation facts chained. */
  lemma Regroup(out: seq<Base64.byte>, more: seq<Base64.byte>, left2: seq<Base64.byte>,
                left1: seq<Base64.byte>, left0: seq<Base64.byte>, before: seq<Base64.byte>,
                c: seq<Base64.byte>)
    requires more + left2 == left1 + c
    requires out + left1 == left0 + before
    ensures (out + more) + left2 == left0 + (before + c)
  {
    calc {
      (out + more) + left2;
      out + (more + left2);
      out + (left1 + c);
      (out + left1) + c;
      (left0 + before) + c;
    }
  }

  /** Through a conserving re-chunker, the stream's frames hold exactly the bytes written, in order. */
  lemma StreamConserves<S(!new)>(rc: Rechunker<S>, chunks: seq<seq<Base64.byte>>)
    requires Conserves(rc)
    ensures Bytes(Stream(rc, chunks)) == Flatten(chunks)
  {
    var (s, out) := Feed(rc, rc.start(SampleRate, NumChannels), chunks);
    FeedConserves(rc, rc.start(SampleRate, NumChannels), chunks);
    BytesAppend(out, rc.flush(s));
  }

  /** Every frame wrapped as an event carrying the one request and segment id. */
  function Tag(requestId: string, segmentId: string, frames: seq<AudioFrame>): (r: seq<SynthesizedAudio>)
    ensures |r| == |frames|
    decreases |frames|
  {
    if frames == [] then []
    else Tag(requestId, segmentId, frames[..|frames| - 1])
         + [SynthesizedAudio(requestId, segmentId, frames[|frames| - 1])]
  }

  /** Event `i` carries frame `i` and the two ids. */
  lemma {:induction false} TagAt(requestId: string, segmentId: string, frames: seq<AudioFrame>, i: nat)
    requires i < |frames|
    ensures Tag(requestId, segmentId, frames)[i] == SynthesizedAudio(requestId, segmentId, frames[i])
    decreases |frames|
  {
    if i < |frames| - 1 {
      TagAt(requestId, segmentId, frames[..|frames| - 1], i);
    }
  }

  /** Every event of a tagged sequence carries the same request and segment ids. */
  lemma TagIds(requestId: string, segmentId: string, frames: seq<AudioFrame>)
    ensures forall e :: e in Tag(requestId, segmentId, frames) ==>
      e.requestId == requestId && e.segmentId == segmentId
    ensures Frames(Tag(requestId, segmentId, frames)) == frames
  {
    var t := Tag(requestId, segmentId, frames);
    forall i | 0 <= i < |t| ensures t[i] == SynthesizedAudio(requestId, segmentId, frames[i]) {
      TagAt(requestId, segmentId, frames, i);
    }
  }

  lemma {:induction false} TagAppend(requestId: string, segmentId: string, a: seq<AudioFrame>, b: seq<AudioFrame>)
    ensures Tag(requestId, segmentId, a + b) == Tag(requestId, segmentId, a) + Tag(requestId, segmentId, b)
    decreases |b|
  {
    if b == [] {
      assert a + b == a;
    } else {
      var b' := b[..|b| - 1];
      assert (a + b)[..|a + b| - 1] == a + b';
      assert (a + b)[|a + b| - 1] == b[|b| - 1];
      TagAppend(requestId, segmentId, a, b');
    }
  }

  /** The frames carried by some events. */
  function Frames(events: seq<SynthesizedAudio>): (r: seq<AudioFrame>)
    ensures |r| == |events|
    ensures forall i :: 0 <= i < |events| ==> r[i] == events[i].frame
  {
    seq(|events|, i requires 0 <= i < |events| => events[i].frame)
  }

  /**
   * Through a conserving re-chunker, the payloads of the events one stream
   * emits, concatenated, are exactly the PCM bytes the decoder produced.
   */
  lemma EmittedAudioIsDecodedAudio<S(!new)>(requestId: string, segmentId: string, rc: Rechunker<S>,
                                      decoded: seq<AudioFrame>)
    requires Conserves(rc)
    ensures Bytes(Frames(Tag(requestId, segmentId, Stream(rc, DataOf(decoded))))) == Bytes(decoded)
  {
    TagIds(requestId, segmentId, Stream(rc, DataOf(decoded)));
    StreamConserves(rc, DataOf(decoded));
    FlattenDataOf(decoded);
  }

  /** One stream: the `ChunkedStream` of one `synthesize` call. */
  class ChunkedStream {
    const client: TtsClient
    const opts: TtsOptions
    const text: string
    /** `self._audio_data`. */
    var audioData: Speech
    /** The frames sent into `self._event_ch`, in order. */
    var events: seq<SynthesizedAudio>

    constructor (client: TtsClient, text: string, opts: TtsOptions)
      ensures this.client == client && this.text == text && this.opts == opts
      ensures audioData == NotFetched && events == []
    {
      this.client, this.opts, this.text := client, opts, text;
      audioData := NotFetched;
      events := [];
    }

    /** `send_nowait` of every frame, in order, each tagged with the two ids. */
    method Send(requestId: string, segmentId: string, frames: seq<AudioFrame>)
      modifies this`events
      ensures events == old(events) + Tag(requestId, segmentId, frames)
    {
      var k := 0;
      while k < |frames|
        invariant 0 <= k <= |frames|
        invariant events == old(events) + Tag(requestId, segmentId, frames[..k])
      {
        TagAppend(requestId, segmentId, frames[..k], [frames[k]]);
        assert frames[..k + 1] == frames[..k] + [frames[k]];
        events := events + [SynthesizedAudio(requestId, segmentId, frames[k])];
        k := k + 1;
      }
      assert frames[..|frames|] == frames;
    }

    /**
     * The two loops of `_main_task`: every decoded frame's bytes written to a
     * fresh re-chunker in order, each write's frames sent as they come, then
     * the flushed frames.
     */
    method Pump<S>(rc: Rechunker<S>, frames: seq<AudioFrame>, requestId: string, segmentId: string)
      modifies this`events
      ensures events == old(events) + Tag(requestId, segmentId, Stream(rc, DataOf(frames)))
    {
      var state := rc.start(SampleRate, NumChannels);
      ghost var fed: seq<seq<Base64.byte>> := [];
      ghost var sent: seq<AudioFrame> := [];
      var i := 0;
      while i < |frames|
        invariant 0 <= i <= |frames|
        invariant fed == DataOf(frames[..i])
        invariant state == Feed(rc, rc.start(SampleRate, NumChannels), fed).0
        invariant sent == Feed(rc, rc.start(SampleRate, NumChannels), fed).1
        invariant events == old(events) + Tag(requestId, segmentId, sent)
      {
        var written := rc.write(state, frames[i].data);
        var next, out := written.0, written.1;
        Send(requestId, segmentId, out);
        TagAppend(requestId, segmentId, sent, out);
        PumpStep(rc, frames, i, fed);
        fed, sent, state := fed + [frames[i].data], sent + out, next;
        i := i + 1;
      }
      assert frames[..|frames|] == frames;
      var tail := rc.flush(state);
      Send(requestId, segmentId, tail);
      TagAppend(requestId, segmentId, sent, tail);
      assert sent + tail == Stream(rc, DataOf(frames));
    }

    /** The one request the task makes: the stored text, format, model and wait flag. */
    function SpeechRequest(): (r: HttpRequest)
      ensures r.url == TtsUrl && r.apiKey == client.ttsApiKey
      ensures IsTtsPayload(r.body, text, opts.audioFormat, opts.model, opts.wait)
    {
      client.Request(text, opts.audioFormat, opts.model, opts.wait)
    }

    /**
     * `_main_task`, with the two ids drawn once at the start given as
     * arguments. One request; then, unless it or the decoder raised, the
     * re-chunked frames of every decoded frame in order, then the flush, all
     * appended to the channel. A failure appends nothing.
     */
    method MainTask<S>(net: Network, libs: TtsLibraries<S>, requestId: string, segmentId: string)
      returns (outcome: Outcome<PyError>)
      modifies this, net
      ensures net.sent == old(net.sent) + [SpeechRequest()]
      ensures SpeechOfResponse(net.respond(SpeechRequest())).Failure? ==>
        && outcome == Fail(SpeechOfResponse(net.respond(SpeechRequest())).error)
        && audioData == old(audioData) && events == old(events)
      ensures SpeechOfResponse(net.respond(SpeechRequest())).Success? ==>
        audioData == Fetched(SpeechOfResponse(net.respond(SpeechRequest())).value)
      ensures SpeechOfResponse(net.respond(SpeechRequest())).Success? ==>
        var decoded := libs.decode(SpeechOfResponse(net.respond(SpeechRequest())).value);
        && (decoded.Failure? ==> outcome == Fail(decoded.error) && events == old(events))
        && (decoded.Success? ==>
              && outcome == Pass
              && events == old(events) + Tag(requestId, segmentId,
                                             Stream(libs.rechunker, DataOf(decoded.value))))
    {
      var speech := client.GetSpeech(net, text, audioFormat := opts.audioFormat, model := opts.model,
                                     wait := opts.wait);
      if speech.Failure? {
        return Fail(speech.error);
      }
      audioData := Fetched(speech.value);
      var decoded := libs.decode(speech.value);
      if decoded.Failure? {
        return Fail(decoded.error);
      }
      Pump(libs.rechunker, decoded.value, requestId, segmentId);
      outcome := Pass;
    }
  }

  /** `TTS` after construction. */
  datatype Tts = Tts(capabilities: TtsCapabilities, sampleRate: int, numChannels: int,
                     apiKey: string, opts: TtsOptions, client: TtsClient)
  {
    /** `synthesize`: a new stream on the same client and options; nothing is requested yet. */
    method Synthesize(text: string) returns (s: ChunkedStream)
      ensures fresh(s)
      ensures s.client == client && s.opts == opts && s.text == text
      ensures s.audioData == NotFetched && s.events == []
    {
      s := new ChunkedStream(client, text, opts);
    }
  }

  /**
   * `TTS.__init__`. Construction fails only when neither the argument nor
   * `PROSA_TTS_API_KEY` gives a key; the output format is 44100 Hz mono.
   */
  function NewTts(env: map<string, string>,
                  model: string := "tts-dimas-formal",
                  wait: bool := true,
                  pitch: real := 0.0,
                  tempo: real := 1.0,
                  audioFormat: string := "mp3",
                  apiKey: Option<string> := None,
                  client: Option<TtsClient> := None): (r: Result<Tts, ConfigError>)
    ensures r.Failure? <==> !TruthyStr(apiKey) && KeyVariable !in env
    ensures r.Failure? ==> r.error == MissingApiKey
    ensures r.Success? ==> Some(r.value.apiKey) == OrEnv(apiKey, env, KeyVariable)
    ensures r.Success? ==>
      && r.value.opts.model == model && r.value.opts.wait == wait && r.value.opts.pitch == pitch
      && r.value.opts.tempo == tempo && r.value.opts.audioFormat == audioFormat
    ensures r.Success? ==>
      r.value.client == if client.Some? then client.value else TtsClient(Some(r.value.apiKey))
    ensures r.Success? ==>
      r.value.sampleRate == 44100 && r.value.numChannels == 1 && !r.value.capabilities.streaming
  {
    match OrEnv(apiKey, env, KeyVariable)
    case None => Failure(MissingApiKey)
    case Some(key) =>
      Success(Tts(TtsCapabilities(false), SampleRate, NumChannels, key,
                  TtsOptions(model, wait, pitch, tempo, audioFormat),
                  if client.Some? then client.value else TtsClient(Some(key))))
  }

  /** An empty-string key argument counts as no argument. */
  lemma EmptyKeyArgumentIsAbsent(env: map<string, string>, model: string, wait: bool, pitch: real,
                                 tempo: real, audioFormat: string, client: Option<TtsClient>)
    ensures NewTts(env, model, wait, pitch, tempo, audioFormat, Some(""), client) ==
            NewTts(env, model, wait, pitch, tempo, audioFormat, None, client)
  {
  }

  /** Only a missing key is rejected: a key variable set to `""` is accepted and stored. */
  lemma EmptyEnvironmentKeyAccepted()
    ensures NewTts(map[KeyVariable := ""]).Success?
    ensures NewTts(map[KeyVariable := ""]).value.apiKey == ""
  {
  }
}
