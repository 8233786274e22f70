# Prosa speech adapters, modelled in Dafny

This project models the Prosa adapter layer of a LiveKit voice assistant. The layer has three parts:

- **Transport client** (`prosa/prosa.py`). It builds the JSON envelopes for Prosa's STT and TTS endpoints and sends the API key in the `x-api-key` header. It base64-encodes the outbound audio and decodes the returned audio (RFC 4648, section 4). It only returns a job's result when `status == "complete"`.
- **STT adapter** (`prosa/stt.py`). Construction resolves the API key and applies the language fallback. `_sanitize_options` handles the per-call language override. `recognize` merges the buffered frames and wraps them in WAV. It then asks for a transcription with the stored model and wait flag, and always turns a successful call into one `FINAL_TRANSCRIPT` event with one alternative.
- **TTS adapter** (`prosa/tts.py`). Construction resolves the API key. `synthesize` creates a fresh stream. The stream's `_main_task` makes one speech request and decodes the MP3. It feeds each decoded frame's bytes to the re-chunker (LiveKit's `AudioByteStream`) in order and appends every frame it returns to the event channel. The flushed frames come last, and every event carries one request id and one segment id.

Modules (one per file): `Wrappers` (Option, Result, Outcome), `PyJson` (JSON values, Python truthiness, subscript errors), `Base64`, `Audio` (PCM frames), `Prosa` (transport client), `ProsaStt`, `ProsaTts`.

How the model works:

- **The network is an object.** `Prosa.Network` logs every request in `sent` and answers with a fixed function `respond`. That function's failure stands for a network error or an invalid JSON body.
- **Libraries whose code is not here are parameters.** `merge_frames`, the `wave` writer, `Mp3StreamDecoder.decode_chunk` and `AudioByteStream` are function-valued parameters. Every property then holds for any implementation of them. The re-chunker is an opaque state type `S` with `start`, `write` and `flush`.
- **The adapters are values.** An `STT` or `TTS` adapter only assigns its fields in `__init__`, so it is a datatype. Construction is a function that returns the adapter or the `ValueError`.
- **The stream is a class.** A `ChunkedStream` updates `_audio_data` and its event channel. It is therefore a class whose `events` field only grows.

Behaviour of the code a reader might not expect:

- The transcript is read at `job["result"]["data"][0]["transcript"]`, inside the job's `result`.
- A response without `status` raises `KeyError`. A complete TTS job whose `result.data` is missing, is not a string or is not base64 also raises.
- An unsupported STT language is never an error. It silently forces the model to `stt-general`.
- The key check rejects only a missing key (`None`). A key variable set to `""` passes. The STT adapter then takes its stored key from a second variable, `PROSA_STT_API_KEY`, which may be unset. `ProsaStt.EmptyEnvironmentKeyPassesCheck` shows this case.
- The STT request carries the `wait` flag stored at construction, whatever it was.

## Model

| member | source | states |
|---|---|---|
| `Base64.Encode` | prosa/prosa.py:16 | the encoding of n bytes has 4·⌈n/3⌉ characters, each from the RFC 4648 alphabet or the pad `=` |
| `Base64.Decode` | prosa/prosa.py:64 | a successful decoding of k bytes came from text of 4·⌈k/3⌉ characters |
| `Base64.DecodeEncode` | prosa/prosa.py:16 | decoding the encoding of any byte string gives that byte string back |
| `Base64.EncodeInjective` | prosa/prosa.py:16 | distinct byte strings have distinct encodings |
| `Prosa.Network.Post` | prosa/prosa.py:28-32 | a post appends exactly its request to the log and returns the provider's answer to it |
| `Prosa.SttPayload` | prosa/prosa.py:18-26 | the STT body has exactly the keys config and request, config exactly model and wait, request exactly data, with the given values |
| `Prosa.SttPayloadExact` | prosa/prosa.py:18-26 | any JSON of that shape is the built STT body, so the shape determines the body |
| `Prosa.TtsPayload` | prosa/prosa.py:43-52 | the TTS body has exactly config {model, wait, audio_format} and request {text}, with the given values |
| `Prosa.TtsPayloadExact` | prosa/prosa.py:43-52 | any JSON of that shape is the built TTS body |
| `Prosa.TranscriptionOf` | prosa/prosa.py:34-37 | a complete job gives its result; any other status gives None; a job without status, or a complete job without result, raises KeyError; a job that is not a dictionary raises TypeError |
| `Prosa.SpeechOf` | prosa/prosa.py:60-71 | a complete job gives audio exactly when result.data is base64 text, and then gives its decoding; exactly the jobs with another status give None; a missing status or result.data raises its KeyError or TypeError, data that is not a string raises TypeError, and text that does not decode raises DecodeError |
| `Prosa.SpeechOfEncoded` | prosa/prosa.py:63-64 | a complete job whose result.data encodes some audio gives exactly that audio |
| `Prosa.SttClient.Request` | prosa/prosa.py:14-30 | the STT request goes to the STT URL with the client's key as x-api-key, and its body is the envelope of the base64 text of the audio |
| `Prosa.SttRequestCarriesAudio` | prosa/prosa.py:15-24 | the request's data field decodes to the audio bytes |
| `Prosa.SttClient.CreateTranscription` | prosa/prosa.py:34-37 | exactly one request is sent, and the result is the status gate applied to the answer |
| `Prosa.TtsClient.Request` | prosa/prosa.py:42-56 | the TTS request goes to the TTS URL with the client's key as x-api-key, and its body is the envelope of the text, format, model and wait |
| `Prosa.TtsClient.GetSpeech` | prosa/prosa.py:60-71 | exactly one request is sent, and the result is the status gate plus base64 decoding of the answer |
| `PyJson.OrEnv` | prosa/stt.py:69 | `a or os.environ.get(name)` is None exactly when the argument is None or "" and the variable is unset |
| `ProsaStt.NewStt` | prosa/stt.py:40-93 | construction fails exactly when no key is found; the model is the given one for id-ID or id and stt-general otherwise; every other option is stored as given; the stored key and client follow lines 79 and 93; interim results follow include_partial_results |
| `ProsaStt.EmptyKeyArgumentIsAbsent` | prosa/stt.py:69-71 | for every environment and every other argument, an empty-string key argument behaves exactly like no argument |
| `ProsaStt.EmptyEnvironmentKeyPassesCheck` | prosa/stt.py:69-79 | with Prosa_STT_API_KEY set to "" construction succeeds and the stored key is None |
| `ProsaStt.UnsupportedLanguageFallsBack` | prosa/stt.py:69-91 | for every argument list with a key (truthy argument or environment variable) and an unsupported language, construction succeeds and stores the options exactly as given except the model, which becomes stt-general |
| `ProsaStt.Stt.SanitizeOptions` | prosa/stt.py:138-141 | the copy equals the stored options except language, which is the override when truthy and the stored language otherwise |
| `ProsaStt.Stt.RecognizeRequest` | prosa/stt.py:100-120 | the request carries the WAV bytes of the merged buffer with the stored model and wait flag and the client's key |
| `ProsaStt.RequestIgnoresOtherOptions` | prosa/stt.py:116-120 | two adapters with equal client, model and wait send equal requests, whatever their other options |
| `ProsaStt.Stt.Recognize` | prosa/stt.py:95-135 | a merge failure raises before any request; otherwise exactly one request is sent, the gate's error propagates, and a successful gate yields the transcript event |
| `ProsaStt.TranscriptOf` | prosa/stt.py:122-126 | the lookup succeeds exactly when `["data"][0]["transcript"]` exists, and then yields that value |
| `ProsaStt.TranscriptEvent` | prosa/stt.py:122-135 | one FINAL_TRANSCRIPT event with exactly one alternative; its text is the transcript when present and truthy and "" otherwise; its language is the truthy override or "", never the stored language |
| `ProsaStt.NoTranscriptGivesEmptyText` | prosa/stt.py:122-133 | a None transcription and an empty data list both give the empty text |
| `ProsaTts.NewTts` | prosa/tts.py:30-69 | construction fails exactly when no key is found; model, wait, pitch, tempo and audio format are stored as given; the output is 44100 Hz mono and not streaming |
| `ProsaTts.EmptyKeyArgumentIsAbsent` | prosa/tts.py:57-59 | for every environment and every other argument, an empty-string key argument behaves exactly like no argument |
| `ProsaTts.EmptyEnvironmentKeyAccepted` | prosa/tts.py:57-59 | PROSA_TTS_API_KEY set to "" is accepted and stored |
| `ProsaTts.Tts.Synthesize` | prosa/tts.py:71-72 | each call returns a fresh stream on the adapter's client and options and the given text, with nothing requested or emitted |
| `ProsaTts.ChunkedStream.constructor` | prosa/tts.py:76-83 | a new stream holds the client, text and options, with no audio and no events |
| `ProsaTts.ChunkedStream.SpeechRequest` | prosa/tts.py:98-103 | the one request carries the stored text, audio format, model and wait, and neither pitch nor tempo |
| `ProsaTts.ChunkedStream.MainTask` | prosa/tts.py:86-123 | exactly one request is sent; a failed request or decode raises and emits nothing; otherwise the events are those already sent followed by the tagged stream of the decoded frames |
| `ProsaTts.ChunkedStream.Pump` | prosa/tts.py:109-123 | the events gain exactly the re-chunker's frames for each decoded frame's bytes, in decode order, then the flushed frames, all tagged |
| `ProsaTts.ChunkedStream.Send` | prosa/tts.py:112-116 | send_nowait of a list appends exactly those frames, in order, tagged with the two ids |
| `ProsaTts.Tag` | prosa/tts.py:112-123 | tagging keeps one event per frame |
| `ProsaTts.TagAt` | prosa/tts.py:112-123 | event i carries frame i and the stream's request and segment ids |
| `ProsaTts.TagIds` | prosa/tts.py:88-123 | every event of a stream carries the same request_id and segment_id, and the events' frames are exactly the frames tagged |
| `ProsaTts.FeedFront` | prosa/tts.py:109-111 | the writes happen front to back: the first chunk is written to the fresh state and the rest to the state it leaves |
| `ProsaTts.FeedConserves` | prosa/tts.py:109-111 | a byte-conserving re-chunker's output plus its remainder is its initial remainder followed by all bytes written |
| `ProsaTts.StreamConserves` | prosa/tts.py:109-123 | through a byte-conserving re-chunker, the stream's frames hold exactly the written bytes in order, with none dropped or duplicated |
| `ProsaTts.EmittedAudioIsDecodedAudio` | prosa/tts.py:106-123 | through a byte-conserving re-chunker, the emitted payloads concatenated are exactly the decoded PCM |

## Left out

- HTTP (`requests.post`, `response.json()`) and the unused `aiohttp` import: network I/O. The provider's answer is the value `Network.respond` gives for the request. Identical requests therefore get identical answers.
- Whether the `requests` library drops a `None`-valued `x-api-key` header: library behaviour. The request records the key object as Python passes it.
- Staging the WAV bytes through `prosa/output.wav`: disk I/O. The same bytes are passed directly.
- The WAV container, `merge_frames`, `Mp3StreamDecoder` and `AudioByteStream`: their code is not part of this model. They are uninterpreted parameters. Errors raised by the WAV writer are not modelled.
- Base64.Decode: accepts only alphabet characters, with `=` only in the canonical positions of the last quantum. Python's default `b64decode` is more lenient in three ways. It discards characters outside the alphabet. It tolerates excess `=` (`"QUJD="` gives `ABC`). It stops after the first pad that completes a quantum and ignores the rest (`"QQ==QUJD"` gives `A`). The model reports a `DecodeError` for all of these instead.
- `ProsaTts.StreamConserves`, `ProsaTts.FeedConserves`, `ProsaTts.EmittedAudioIsDecodedAudio`: they assume the re-chunker conserves bytes. `AudioByteStream`'s code is not available to prove it, and the assumption is never made of the adapter itself.
- The second `flush` being an error: the adapter calls `flush` once, and the re-chunker's own state rules are not modelled.
- Asynchrony, cancellation, channel closing and `utils.log_exceptions`. The task runs to completion and a raised exception becomes `Outcome.Fail`. The two `utils.shortuuid()` ids are arguments, one pair per task.
- JSON floating-point numbers: numbers are integers, so `0.0` being falsy is not covered. Pitch and tempo are stored as reals and never used.
- `ProsaStt.SpeechData`: the text has type `Json`, not `str`. Python stores whatever truthy value the provider sent at `transcript`.
- Indexing a dictionary with `0` raises `KeyError(0)`. The model reports it as `KeyError("0")`.
- The result of `_sanitize_options` inside `recognize` is computed and never used, as in the source. `print` and logger calls are left out.
- `function_context.py` (pandas lookup tools) and `main.py` (process and LiveKit wiring): outside the adapter layer.
