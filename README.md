# Uplift HTTP TTS adapter — a Dafny model

This project models `UpliftHttpTtsService`, the Pipecat text-to-speech service that sends text
to Uplift's HTTP synthesis endpoint and republishes the returned audio as pipeline frames.

- **Settings.** The adapter holds an API key, a base URL, a sample rate and a settings record
  (voice id, output format). The effective voice and format come from the optional `InputParams`
  when those fields are set, and from the constructor arguments otherwise.
- **Session ownership.** The adapter holds an HTTP session. It closes that session on cleanup only
  if it created the session itself.
- **Synthesis.** `run_tts` does the following:
  - caps the text at 2500 characters;
  - posts it;
  - on a 200 response, yields a started frame, the audio in fixed-size chunks and a stopped frame;
  - strips the 44-byte header first when the format name starts with `WAV_`;
  - on any failure, yields one error frame and also pushes the same message through `push_error`.

The model has three modules:

- `AudioText` (audio_text.dfy) holds the pure slicing rules as functions with lemmas: `Truncate`,
  `StripHeader`, `Chunks`, and Python's `str()` of the status code (`NatToString`).
- `TtsFrames` (frames.dfy) holds the frame datatype and the response datatype. It also holds
  `Synthesis`, the frame sequence one call yields as a function of what the HTTP exchange gave
  back, and the lemmas about that sequence:
  - the success shape;
  - exactly one error, with no stopped frame, on every failure;
  - the markers if-and-only-if;
  - the message formats and their injectivity.
- `UpliftTts` (service.dfy) holds settings resolution and the `ClientSession` stand-in. It also
  holds the class `UpliftHttpTtsService`, with:
  - fields for the settings;
  - the voice registered with the base service;
  - the session and the ownership flag;
  - the `push_error` log, the warning log and (ghost) the texts given to the usage metric.

  Its methods are the constructor, the two setters, `Cleanup`, `Enter`/`Exit` and `RunTts`.
  `RunTts` is proved equal to `Synthesis`. The part after the POST (`Respond`) is proved equal
  to `Synthesis` with a session present, and its chunk loop (`AudioLoop`) is proved equal to
  the `Chunks` specification. The constructor's keyword arguments carry the source's defaults.

Inputs from outside the adapter are parameters:

- The HTTP exchange is a `Resp` value: either `Http(status, body, text)` or `Raised(message)`.
  `body` is what `response.read()` returns and `text` is what `response.text()` returns. `Raised`
  stands for an exception raised by the request or by reading the response.
- The base service's `chunk_size` is a parameter of `RunTts`.

Two exceptions that arise in this file's own code are modelled with Python's exact messages:

- After `cleanup` has cleared an owned session, `self._session.post` raises an `AttributeError`.
  The result is `"TTS generation error: 'NoneType' object has no attribute 'post'"`.
- A chunk size of 0 makes `range()` raise, after the started frame has been yielded. The result is
  `[Started, Error("TTS generation error: range() arg 3 must not be zero")]`.

Points where the model follows the code:

- The started frame is yielded only after a 200 response has been read. A non-200 response, or
  an exception before that point, yields the single error frame and nothing else.
- An empty API key raises `ValueError("Missing Uplift API key")`. It is modelled as
  `Err(MissingApiKey)`, not as a distinct configuration-error kind.
- When `params` is omitted, the default `InputParams()` has `output_format = "WAV_22050_16"`, and
  it overrides the constructor's `output_format` argument (`DefaultParamsOverrideFormat`). Python's
  `or` also treats an empty string as absent (`OrElse`).
- The usage metric receives the truncated text, which is the same text that is sent.

## Model

| member | source | states |
|---|---|---|
| AudioText.Truncate | src/pipecat_upliftai/tts.py:236-241 | the sent text has at most 2500 characters and is a prefix of the input; it equals the input when the input has at most 2500 characters, and has exactly 2500 otherwise |
| AudioText.TruncateIdempotent | src/pipecat_upliftai/tts.py:236-241 | truncating an already truncated text changes nothing |
| AudioText.StripHeader | src/pipecat_upliftai/tts.py:279-286 | for a format starting with `WAV_`, the content is the body with its 44-byte header removed, or empty for a body of 44 bytes or fewer; for any other format, the content is the whole body |
| AudioText.StripHeaderIsSuffix | src/pipecat_upliftai/tts.py:281-286 | the emitted content is always a suffix of the response body |
| AudioText.Chunks | src/pipecat_upliftai/tts.py:288-293 | every chunk is non-empty and at most `size` bytes; every chunk but the last has exactly `size` bytes |
| AudioText.FlattenChunks | src/pipecat_upliftai/tts.py:290-291 | the chunks, concatenated in order, equal the content exactly |
| AudioText.ChunkCount | src/pipecat_upliftai/tts.py:290 | the number of chunks is ceil(len(content) / size) |
| AudioText.NatToString | src/pipecat_upliftai/tts.py:263 | `str(status)` is a non-empty string of decimal digits with no leading zero |
| AudioText.ParseNatToString | src/pipecat_upliftai/tts.py:263 | reading the digits back gives the status, so the rendering is faithful |
| TtsFrames.HttpErrorMessageInjective | src/pipecat_upliftai/tts.py:261-263 | the HTTP error message determines both the status code and the body text it embeds |
| TtsFrames.ErrorKindsDistinct | src/pipecat_upliftai/tts.py:263 | an HTTP error message never equals a generation error message (line 302), so the two failure kinds stay apart |
| TtsFrames.AudioFramesShape | src/pipecat_upliftai/tts.py:294-297 | k-th audio frame carries k-th chunk, the sample rate and 1 channel; no error; payload is the chunks concatenated |
| TtsFrames.SuccessSequence | src/pipecat_upliftai/tts.py:273-299 | status 200 with a positive chunk size gives exactly started, ceil(len/N) audio frames of at most N bytes (all but the last exactly N) whose bytes concatenate to the stripped content, then stopped; no error is reported |
| TtsFrames.EmptyContentSequence | src/pipecat_upliftai/tts.py:281-299 | empty content gives exactly [Started, Stopped] |
| TtsFrames.FailureSequence | src/pipecat_upliftai/tts.py:258-309 | every failure yields exactly one error frame, as the last frame, with no audio and no stopped frame; a failure before a 200 response has been read yields only that frame |
| TtsFrames.FailureMessages | src/pipecat_upliftai/tts.py:261-271 | the error frame carries the no-session message, `"TTS generation error: " + e`, the HTTP error message with status and body text, or the zero-step message after Started |
| TtsFrames.MarkersIff | src/pipecat_upliftai/tts.py:258-309 | stopped appears iff the call succeeds, iff no error is reported; started appears iff a 200 response was read, and it is then first |
| TtsFrames.WavSingleChunkScenario | src/pipecat_upliftai/tts.py:273-299 | a 4096-byte WAV response with chunk size 4096 yields [Started, Audio(the 4052 bytes after the header, 22050, 1), Stopped] |
| TtsFrames.OverloadedScenario | src/pipecat_upliftai/tts.py:261-271 | a 503 response with text "server overloaded" yields only Error("Uplift HTTP TTS error: 503 - server overloaded") |
| UpliftTts.OrElse | src/pipecat_upliftai/tts.py:126 | Python `x or y` on an optional string: a non-empty `x` wins; an absent or empty `x` gives `y` |
| UpliftTts.ResolveSettings | src/pipecat_upliftai/tts.py:115-137 | the effective voice is the argument or the override's voice; the effective format is the argument, the default format, or the override's format |
| UpliftTts.DefaultParamsOverrideFormat | src/pipecat_upliftai/tts.py:73 | without `params`, the voice is the argument, but the format is always "WAV_22050_16", whatever `output_format` was passed |
| UpliftTts.ParamsPrecedence | src/pipecat_upliftai/tts.py:126-137 | with `params`, a non-empty field overrides the argument; an absent or empty field defers to it |
| UpliftTts.FormatWarnings | src/pipecat_upliftai/tts.py:127-131 | a warning is issued exactly when the format is not one of the seven known formats |
| UpliftTts.VoiceWarnings | src/pipecat_upliftai/tts.py:140-144 | a warning is issued exactly when the voice is not one of the four known voices |
| UpliftTts.TruncationWarnings | src/pipecat_upliftai/tts.py:236-240 | a warning is issued exactly when the text is longer than 2500 characters |
| UpliftTts.DefaultConstruction | src/pipecat_upliftai/tts.py:79-84 | with every keyword left at its default, the settings are voice "v_8eelc901" and format "WAV_22050_16", both known, so no warning is logged |
| UpliftTts.RequestFor | src/pipecat_upliftai/tts.py:247-260 | the request goes to the base URL, with `Authorization: Bearer <api key>` and `Content-Type: application/json`; its payload carries the given text and the settings' voice and format |
| UpliftTts.RequestTextBounded | src/pipecat_upliftai/tts.py:236-256 | the payload text has at most 2500 characters, is a prefix of the caller's text, and equals it iff the text had at most 2500 characters |
| UpliftTts.AudioLoop | src/pipecat_upliftai/tts.py:288-297 | the loop over `range(0, len(content), N)` yields exactly one audio frame per chunk of `Chunks(content, N)`, in order |
| UpliftTts.Respond | src/pipecat_upliftai/tts.py:258-309 | with a session present, the frames are exactly `Synthesis` of the response and chunk size; when the call succeeds, no error is reported |
| UpliftTts.UpliftHttpTtsService.Init | src/pipecat_upliftai/tts.py:75-152 | keyword arguments default as in the source; owns the session iff none given (a fresh, open one); settings are the resolved ones; base voice matches; warnings for unknown format then voice; logs start empty |
| UpliftTts.UpliftHttpTtsService.Create | src/pipecat_upliftai/tts.py:75-152 | keyword arguments default as in the source; an empty API key gives the error "Missing Uplift API key" and no adapter; any other key gives a fresh valid adapter as `Init` describes (settings, session ownership, warnings, and empty error and usage-metric logs), with unknown voices and formats accepted |
| UpliftTts.UpliftHttpTtsService.CreateWithDefaults | src/pipecat_upliftai/tts.py:75-152 | a call with only the API key fails iff the key is empty; otherwise the adapter has the default URL, sample rate 22050, voice "v_8eelc901" (also registered with the base service), format "WAV_22050_16", a fresh open session of its own, no warning or error, and an empty usage-metric log |
| UpliftTts.UpliftHttpTtsService.SetVoiceId | src/pipecat_upliftai/tts.py:175-189 | only the settings' voice changes; the base-service voice becomes the same value; the format is unchanged; an unknown voice is accepted with a warning |
| UpliftTts.UpliftHttpTtsService.SetOutputFormat | src/pipecat_upliftai/tts.py:191-206 | only the settings' format changes; the voice and the base-service voice are unchanged; an unknown format is accepted with a warning |
| UpliftTts.UpliftHttpTtsService.Cleanup | src/pipecat_upliftai/tts.py:216-221 | an owned, present session is closed and cleared; otherwise nothing changes and an external session is untouched; afterwards no owned open session remains, so a second call is a no-op |
| UpliftTts.UpliftHttpTtsService.Enter | src/pipecat_upliftai/tts.py:208-210 | returns the adapter itself |
| UpliftTts.UpliftHttpTtsService.Exit | src/pipecat_upliftai/tts.py:212-214 | never suppresses the exception, and its effect is exactly `Cleanup`'s (the shared `CleanedUp` postcondition) |
| UpliftTts.UpliftHttpTtsService.RunTts | src/pipecat_upliftai/tts.py:223-309 | frames are `Synthesis` of the current format, sample rate, session presence, response and chunk size; the push_error log gains exactly the yielded error messages; the request holds the truncated text when a session is present; a truncation warning for long text; the truncated text is metered exactly on a 200 response |

## Left out

- The HTTP request itself is not modelled: the network, the JSON encoding and aiohttp. The
  exchange's outcome is the `Resp` input. Decoding the body into text is also part of that input
  (`Resp.text`).
- The async generator's laziness and suspension points are not modelled. `RunTts` returns the
  whole frame sequence. Settings cannot change while a call is in flight in this model.
- Exceptions raised partway through the chunk loop are not modelled. The same goes for exceptions
  raised by the metric hooks, by `push_error` or by the consumer. A `Raised` response covers
  exceptions from the request and from reading the response. Those happen before any frame is
  yielded.
- Logging at debug, info and error level is not modelled: these are observability side effects.
  Warning-level diagnostics are kept as the `warnings` log.
- `start_ttfb_metrics`, `stop_ttfb_metrics`, the `@traced_tts` decorator, `can_generate_metrics`
  and `start` are not modelled. They are observability hooks that only log or call the base
  class. The usage metric is recorded as the ghost log `meteredTexts`.
- Most of the base `TTSService` is not modelled, because it is external code:
  - `chunk_size` is a `nat` parameter of `RunTts`. A negative chunk size, which would yield no
    audio in Python, is not modelled.
  - `sample_rate` is taken as fixed at construction.
  - `set_voice` is recorded as the `voice` field.
  - `push_error` is an append to the `errors` log.
  - `**kwargs` passed to the base class are not modelled.
- A caller-supplied session that its owner has already closed is not checked by `RunTts`. aiohttp's
  `post` then raises `RuntimeError("Session is closed")`, so such a call must be given the response
  `Raised("Session is closed")`.
- `aiohttp.ClientSession` is reduced to a `closed` flag. Closing is awaited in the source; the
  model treats it as one step.
- UpliftTts.UpliftHttpTtsService.Create: does not state that no session is allocated when the
  key is empty. The error path returns no adapter, but Dafny has no direct way to say "nothing
  was allocated".
- example.py and src/pipecat_upliftai/__init__.py are not part of this model. The first is
  pipeline wiring with no logic of its own; the second only re-exports the class and a version
  string.
- Character counting uses Dafny's `char` (Unicode scalar values), not Python's code points. The
  two differ only on lone surrogates.
