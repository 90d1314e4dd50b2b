/** The Uplift HTTP TTS adapter: settings resolution at construction, the voice and format
    setters, session ownership and cleanup, and the synthesis call. */
module UpliftTts {
  import opened AudioText
  import opened TtsFrames

  datatype Option<T> = None | Some(value: T)

  datatype Result<T> = Ok(value: T) | Err(error: string)

  const AvailableVoices: seq<string> := ["v_8eelc901", "v_kwmp7zxt", "v_yypgzenx", "v_30s70t3a"]
  const AvailableFormats: seq<string> :=
    ["WAV_22050_16", "WAV_22050_32", "MP3_22050_32", "MP3_22050_64", "MP3_22050_128",
     "OGG_22050_16", "ULAW_8000_8"]

  const DefaultBaseUrl: string := "https://api.upliftai.org/v1/synthesis/text-to-speech"
  const DefaultVoiceId: string := "v_8eelc901"
  const DefaultOutputFormat: string := "WAV_22050_16"
  const DefaultSampleRate: nat := 22050
  const MissingApiKey: string := "Missing Uplift API key"
  const JsonContentType: string := "application/json"

  /** `InputParams`: optional overrides of the voice and the output format. */
  datatype InputParams = InputParams(voiceId: Option<string>, outputFormat: Option<string>)

  /** `InputParams()`: note that its output format is not absent but "WAV_22050_16". */
  const DefaultParams: InputParams := InputParams(None, Some(DefaultOutputFormat))

  /** The `_settings` record. */
  datatype Settings = Settings(voiceId: string, outputFormat: string)

  /** The diagnostics the adapter logs at warning level. */
  datatype Warning =
    | UnknownFormat(outputFormat: string)
    | UnknownVoice(voiceId: string)
    | TextTruncated(length: nat)

  /** The JSON body of the synthesis request. */
  datatype Payload = Payload(text: string, voiceId: string, outputFormat: string)

  /** What the adapter hands to `session.post`: the URL, the two headers and the JSON body. */
  datatype Request = Request(url: string, authorization: string, contentType: string, payload: Payload)

  /** Python's `x or fallback` for an `Optional[str]`: the empty string is falsy too. */
  function OrElse(x: Option<string>, fallback: string): (r: string)
    ensures x.Some? && x.value != "" ==> r == x.value
    ensures x == None || x == Some("") ==> r == fallback
  {
    if x.Some? && x.value != "" then x.value else fallback
  }

  /** The effective settings: `params or InputParams()`, then each field of the parameters
      takes precedence over the corresponding constructor argument unless it is absent or empty. */
  function ResolveSettings(voiceId: string, outputFormat: string, params: Option<InputParams>): (s: Settings)
    ensures s.voiceId == voiceId || (params.Some? && params.value.voiceId == Some(s.voiceId))
    ensures s.outputFormat == outputFormat || s.outputFormat == DefaultOutputFormat ||
            (params.Some? && params.value.outputFormat == Some(s.outputFormat))
  {
    var p := if params.Some? then params.value else DefaultParams;
    Settings(OrElse(p.voiceId, voiceId), OrElse(p.outputFormat, outputFormat))
  }

  /** Without `params`, the voice is the constructor's, but the format is always "WAV_22050_16":
      the default `InputParams` overrides the `output_format` argument. */
  lemma DefaultParamsOverrideFormat(voiceId: string, outputFormat: string)
    ensures ResolveSettings(voiceId, outputFormat, None) == Settings(voiceId, DefaultOutputFormat)
  {
  }

  /** With `params`, a non-empty field wins over the argument and an absent or empty one defers to it. */
  lemma ParamsPrecedence(voiceId: string, outputFormat: string, params: InputParams)
    ensures var s := ResolveSettings(voiceId, outputFormat, Some(params));
            (params.voiceId.Some? && params.voiceId.value != "" ==> s.voiceId == params.voiceId.value) &&
            (params.voiceId == None || params.voiceId == Some("") ==> s.voiceId == voiceId) &&
            (params.outputFormat.Some? && params.outputFormat.value != "" ==>
               s.outputFormat == params.outputFormat.value) &&
            (params.outputFormat == None || params.outputFormat == Some("") ==> s.outputFormat == outputFormat)
  {
  }

  /** With every default, the adapter uses voice "v_8eelc901" and format "WAV_22050_16", both known,
      so construction logs no warning. */
  lemma DefaultConstruction()
    ensures var s := ResolveSettings(DefaultVoiceId, DefaultOutputFormat, None);
            s == Settings(DefaultVoiceId, DefaultOutputFormat) &&
            FormatWarnings(s.outputFormat) + VoiceWarnings(s.voiceId) == []
  {
  }

  function FormatWarnings(outputFormat: string): (w: seq<Warning>)
    ensures w == [] <==> outputFormat in AvailableFormats
  {
    if outputFormat in AvailableFormats then [] else [UnknownFormat(outputFormat)]
  }

  function VoiceWarnings(voiceId: string): (w: seq<Warning>)
    ensures w == [] <==> voiceId in AvailableVoices
  {
    if voiceId in AvailableVoices then [] else [UnknownVoice(voiceId)]
  }

  function TruncationWarnings(text: string): (w: seq<Warning>)
    ensures w == [] <==> |text| <= MaxTextLength
  {
    if |text| > MaxTextLength then [TextTruncated(|text|)] else []
  }

  /** The request built from the (already truncated) text and the current settings. */
  function RequestFor(apiKey: string, baseUrl: string, text: string, settings: Settings): (r: Request)
    ensures r.payload.text == text && r.url == baseUrl
    ensures |r.authorization| == 7 + |apiKey| && r.authorization[..7] == "Bearer " && r.authorization[7..] == apiKey
    ensures r.contentType == JsonContentType
    ensures r.payload.voiceId == settings.voiceId && r.payload.outputFormat == settings.outputFormat
  {
    Request(baseUrl, "Bearer " + apiKey, JsonContentType, Payload(text, settings.voiceId, settings.outputFormat))
  }

  /** The text of every request has at most 2500 characters and is a prefix of the caller's text. */
  lemma RequestTextBounded(apiKey: string, baseUrl: string, text: string, settings: Settings)
    ensures var sent := RequestFor(apiKey, baseUrl, Truncate(text), settings).payload.text;
            |sent| <= MaxTextLength && sent <= text && (|text| <= MaxTextLength <==> sent == text)
  {
  }

  lemma ChunkLoopStep(content: seq<byte>, i: nat, size: nat, emitted: seq<seq<byte>>)
    requires size > 0 && i < |content|
    requires emitted + Chunks(content[Min(i, |content|)..], size) == Chunks(content, size)
    ensures (emitted + [content[i..Min(i + size, |content|)]]) + Chunks(content[Min(i + size, |content|)..], size)
            == Chunks(content, size)
  {
    ChunksAt(content, i, size);
  }

  /** The chunk loop of `run_tts`: one `TTSAudioRawFrame(chunk, sample_rate, 1)` for each
      `content[i:i + size]`, `i` in `range(0, len(content), size)`. */
  method AudioLoop(content: seq<byte>, size: nat, sampleRate: nat) returns (audio: seq<Frame>)
    requires size > 0
    ensures audio == AudioFrames(Chunks(content, size), sampleRate)
  {
    audio := [];
    ghost var emitted: seq<seq<byte>> := [];
    var i := 0;
    while i < |content|
      invariant audio == AudioFrames(emitted, sampleRate)
      invariant emitted + Chunks(content[Min(i, |content|)..], size) == Chunks(content, size)
      decreases |content| - i
    {
      var chunk := content[i..Min(i + size, |content|)];
      if chunk == [] {
        break;
      }
      ChunkLoopStep(content, i, size, emitted);
      AudioFramesAppendOne(emitted, chunk, sampleRate);
      audio := audio + [Audio(chunk, sampleRate, 1)];
      emitted := emitted + [chunk];
      i := i + size;
    }
    assert content[Min(i, |content|)..] == [];
    assert emitted + [] == emitted == Chunks(content, size);
  }

  /** The part of `run_tts` after the POST has been issued: the error frame of a raised call or
      of a non-200 status, otherwise the started marker, the audio chunks and the stopped marker
      (with `range()`'s zero-step error in place of the chunks when the chunk size is 0). */
  method Respond(outputFormat: string, sampleRate: nat, resp: Resp, chunkSize: nat) returns (frames: seq<Frame>)
    ensures frames == Synthesis(outputFormat, sampleRate, true, resp, chunkSize)
    ensures Succeeds(true, resp, chunkSize) ==> ErrorMessages(frames) == []
  {
    match resp
    case Raised(raised) =>
      frames := [Error(GenerationErrorMessage(raised))];
    case Http(status, body, errorText) =>
      if status != HttpOk {
        frames := [Error(HttpErrorMessage(status, errorText))];
        return;
      }
      frames := [Started];
      if chunkSize == 0 {
        frames := frames + [Error(GenerationErrorMessage(ZeroStepRaise))];
        return;
      }
      var content := StripHeader(outputFormat, body);
      var audio := AudioLoop(content, chunkSize, sampleRate);
      frames := frames + audio;
      frames := frames + [Stopped];
      SuccessReportsNoError(outputFormat, sampleRate, resp, chunkSize);
  }

  /** An `aiohttp.ClientSession`, reduced to whether it has been closed. */
  class ClientSession {
    var closed: bool

    constructor ()
      ensures !closed
    {
      closed := false;
    }

    method Close()
      modifies this
      ensures closed
    {
      closed := true;
    }
  }

  class UpliftHttpTtsService {
    const apiKey: string
    const baseUrl: string
    const sampleRate: nat
    /** `_settings` */
    var settings: Settings
    /** The voice registered with the base service through `set_voice`. */
    var voice: string
    /** `_session`; null once `cleanup` has closed an owned session. */
    var session: ClientSession?
    /** `_created_session`: the adapter created the session itself and must close it. */
    var createdSession: bool
    /** The messages sent through `push_error`, oldest first. */
    var errors: seq<string>
    /** The warnings logged, oldest first. */
    var warnings: seq<Warning>
    /** The texts passed to `start_tts_usage_metrics`, oldest first. */
    ghost var meteredTexts: seq<string>

    ghost predicate Valid()
      reads this
    {
      apiKey != "" && voice == settings.voiceId &&
      (!createdSession ==> session != null)
    }

    /** The adapter still holds a session it created and has to close. */
    predicate OwnsPresentSession()
      reads this
    {
      createdSession && session != null
    }

    /** The part of `__init__` after the API-key check. */
    constructor Init(nameonly apiKey: string,
                     nameonly baseUrl: string := DefaultBaseUrl,
                     nameonly voiceId: string := DefaultVoiceId,
                     nameonly outputFormat: string := DefaultOutputFormat,
                     nameonly sampleRate: nat := DefaultSampleRate,
                     nameonly aiohttpSession: ClientSession? := null,
                     nameonly params: Option<InputParams> := None)
      requires apiKey != ""
      ensures Valid()
      ensures this.apiKey == apiKey && this.baseUrl == baseUrl && this.sampleRate == sampleRate
      ensures createdSession <==> aiohttpSession == null
      ensures aiohttpSession != null ==> session == aiohttpSession
      ensures aiohttpSession == null ==> session != null && fresh(session) && !session.closed
      ensures settings == ResolveSettings(voiceId, outputFormat, params)
      ensures voice == settings.voiceId
      ensures warnings == FormatWarnings(settings.outputFormat) + VoiceWarnings(settings.voiceId)
      ensures errors == [] && meteredTexts == []
    {
      this.apiKey := apiKey;
      this.baseUrl := baseUrl;
      this.sampleRate := sampleRate;
      var p := if params.Some? then params.value else DefaultParams;
      if aiohttpSession == null {
        session := new ClientSession();
        createdSession := true;
      } else {
        session := aiohttpSession;
        createdSession := false;
      }
      var finalOutputFormat := OrElse(p.outputFormat, outputFormat);
      var logged := FormatWarnings(finalOutputFormat);
      var resolved := Settings(OrElse(p.voiceId, voiceId), finalOutputFormat);
      settings := resolved;
      logged := logged + VoiceWarnings(resolved.voiceId);
      warnings := logged;
      voice := resolved.voiceId;
      errors := [];
      meteredTexts := [];
    }

    /** `__init__`: an empty API key raises `ValueError("Missing Uplift API key")` before any
        session is created; otherwise the adapter is set up as `Init` describes. Unknown voices
        and formats are accepted with a warning. The keyword-only arguments have the source's defaults. */
    static method Create(nameonly apiKey: string,
                         nameonly baseUrl: string := DefaultBaseUrl,
                         nameonly voiceId: string := DefaultVoiceId,
                         nameonly outputFormat: string := DefaultOutputFormat,
                         nameonly sampleRate: nat := DefaultSampleRate,
                         nameonly aiohttpSession: ClientSession? := null,
                         nameonly params: Option<InputParams> := None)
      returns (r: Result<UpliftHttpTtsService>)
      ensures r.Err? <==> apiKey == ""
      ensures r.Err? ==> r.error == MissingApiKey
      ensures r.Ok? ==>
                var s := r.value;
                fresh(s) && s.Valid() &&
                s.apiKey == apiKey && s.baseUrl == baseUrl && s.sampleRate == sampleRate &&
                (s.createdSession <==> aiohttpSession == null) &&
                (aiohttpSession != null ==> s.session == aiohttpSession) &&
                (aiohttpSession == null ==> s.session != null && fresh(s.session) && !s.session.closed) &&
                s.settings == ResolveSettings(voiceId, outputFormat, params) &&
                s.warnings == FormatWarnings(s.settings.outputFormat) + VoiceWarnings(s.settings.voiceId) &&
                s.errors == [] && s.meteredTexts == []
    {
      if apiKey == "" {
        return Err(MissingApiKey);
      }
      var s := new UpliftHttpTtsService.Init(apiKey := apiKey, baseUrl := baseUrl, voiceId := voiceId,
                                             outputFormat := outputFormat, sampleRate := sampleRate,
                                             aiohttpSession := aiohttpSession, params := params);
      return Ok(s);
    }

    /** `UpliftHttpTTSService(api_key=apiKey)` with every other argument left at its default. */
    static method CreateWithDefaults(apiKey: string) returns (r: Result<UpliftHttpTtsService>)
      ensures r.Err? <==> apiKey == ""
      ensures r.Ok? ==>
                var s := r.value;
                fresh(s) && s.Valid() &&
                s.baseUrl == DefaultBaseUrl && s.sampleRate == DefaultSampleRate &&
                s.settings == Settings(DefaultVoiceId, DefaultOutputFormat) && s.voice == DefaultVoiceId &&
                s.createdSession && s.session != null && fresh(s.session) && !s.session.closed &&
                s.warnings == [] && s.errors == [] && s.meteredTexts == []
    {
      r := Create(apiKey := apiKey);
      DefaultConstruction();
    }

    /** `set_voice_id`: records the voice in the settings and registers it with the base service;
        an unknown voice is accepted with a warning. */
    method SetVoiceId(voiceId: string)
      requires Valid()
      modifies this`settings, this`voice, this`warnings
      ensures Valid()
      ensures settings == old(settings).(voiceId := voiceId)
      ensures voice == voiceId
      ensures warnings == old(warnings) + VoiceWarnings(voiceId)
    {
      warnings := warnings + VoiceWarnings(voiceId);
      settings := settings.(voiceId := voiceId);
      voice := voiceId;
    }

    /** `set_output_format`: changes only the output format; an unknown format is accepted
        with a warning. */
    method SetOutputFormat(outputFormat: string)
      requires Valid()
      modifies this`settings, this`warnings
      ensures Valid()
      ensures settings == old(settings).(outputFormat := outputFormat)
      ensures warnings == old(warnings) + FormatWarnings(outputFormat)
    {
      warnings := warnings + FormatWarnings(outputFormat);
      settings := settings.(outputFormat := outputFormat);
    }

    /** The effect of `cleanup`, where `s` is the session held before it: an owned, present session
        is closed and cleared; otherwise the session and its object are untouched. Either way the
        adapter no longer holds a session it has to close. */
    twostate predicate CleanedUp(s: ClientSession?)
      reads this, s
    {
      !OwnsPresentSession() &&
      (old(OwnsPresentSession()) ==> session == null && s != null && s.closed) &&
      (!old(OwnsPresentSession()) ==> session == s && (s != null ==> unchanged(s)))
    }

    /** `cleanup`: closes and clears the session only when the adapter created it and it is still
        present. Afterwards the adapter owns no open session, so a second call changes nothing;
        a session supplied from outside is never closed. */
    method Cleanup()
      requires Valid()
      modifies this`session, session
      ensures Valid()
      ensures CleanedUp(old(session))
    {
      if createdSession && session != null {
        session.Close();
        session := null;
      }
    }

    /** `__aenter__` returns the adapter itself. */
    method Enter() returns (r: UpliftHttpTtsService)
      ensures r == this
    {
      r := this;
    }

    /** `__aexit__` always runs `cleanup`, whether or not the scope raised, and does not
        suppress the exception (it returns None). */
    method Exit(raised: Option<string>) returns (suppress: bool)
      requires Valid()
      modifies this`session, session
      ensures Valid()
      ensures !suppress
      ensures CleanedUp(old(session))
    {
      Cleanup();
      suppress := false;
    }

    /** `run_tts`: truncates the text, builds the request (when a session is present), dispatches on
        what the exchange `resp` gave back, strips the WAV header and yields the audio in chunks of
        `chunkSize` bytes, the base service's `chunk_size`. Every error is both pushed through
        `push_error` and yielded. */
    method RunTts(text: string, resp: Resp, chunkSize: nat) returns (frames: seq<Frame>, request: Option<Request>)
      requires Valid()
      modifies this`errors, this`warnings, this`meteredTexts
      ensures Valid()
      ensures frames == Synthesis(settings.outputFormat, sampleRate, session != null, resp, chunkSize)
      ensures errors == old(errors) + ErrorMessages(frames)
      ensures request == if session != null then Some(RequestFor(apiKey, baseUrl, Truncate(text), settings)) else None
      ensures warnings == old(warnings) + TruncationWarnings(text)
      ensures meteredTexts == old(meteredTexts) +
                (if session != null && resp.Http? && resp.status == HttpOk then [Truncate(text)] else [])
    {
      var sent := text;
      if |sent| > MaxTextLength {
        warnings := warnings + [TextTruncated(|sent|)];
        sent := Truncate(sent);
      }
      if session == null {
        var message := GenerationErrorMessage(NoSessionRaise);
        errors := errors + [message];
        frames := [Error(message)];
        request := None;
        return;
      }
      request := Some(RequestFor(apiKey, baseUrl, sent, settings));
      if resp.Http? && resp.status == HttpOk {
        meteredTexts := meteredTexts + [sent];
      }
      frames := Respond(settings.outputFormat, sampleRate, resp, chunkSize);
      errors := errors + ErrorMessages(frames);
    }
  }
}
