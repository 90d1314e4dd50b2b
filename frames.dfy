/** The frames one `run_tts` call yields, as a function of the HTTP exchange it sees,
    and the properties of that frame sequence. */
module TtsFrames {
  import opened AudioText

  /** The four pipeline frames the adapter produces: `TTSStartedFrame`,
      `TTSAudioRawFrame(audio, sample_rate, num_channels)`, `TTSStoppedFrame`, `ErrorFrame(error)`. */
  datatype Frame =
    | Started
    | Audio(audio: seq<byte>, sampleRate: nat, numChannels: nat)
    | Stopped
    | Error(message: string)

  /** What the HTTP exchange gives back: a response with its status, its raw bytes
      (`await response.read()`) and their decoding as text (`await response.text()`),
      or an exception raised by the request or by reading the response. */
  datatype Resp =
    | Http(status: nat, body: seq<byte>, text: string)
    | Raised(message: string)

  const HttpOk: nat := 200
  const HttpErrorPrefix: string := "Uplift HTTP TTS error: "
  const GenerationErrorPrefix: string := "TTS generation error: "
  /** `str(e)` of the AttributeError raised by `self._session.post` once `cleanup` has cleared the session. */
  const NoSessionRaise: string := "'NoneType' object has no attribute 'post'"
  /** `str(e)` of the ValueError raised by `range(0, n, 0)` when the chunk size is zero. */
  const ZeroStepRaise: string := "range() arg 3 must not be zero"

  /** `f"Uplift HTTP TTS error: {response.status} - {error_text}"` */
  function HttpErrorMessage(status: nat, text: string): string
  {
    HttpErrorPrefix + NatToString(status) + " - " + text
  }

  /** `f"TTS generation error: {str(e)}"` */
  function GenerationErrorMessage(raised: string): string
  {
    GenerationErrorPrefix + raised
  }

  lemma SpaceAfter(a: string, x: string)
    ensures (a + [' '] + x)[|a|] == ' '
  {
  }

  lemma {:induction false} DigitsThenSpace(a: string, b: string, x: string, y: string)
    requires AllDigits(a) && AllDigits(b)
    requires a + [' '] + x == b + [' '] + y
    ensures a == b && x == y
  {
    var s := a + [' '] + x;
    if |a| < |b| {
      SpaceAfter(a, x);
      assert false;
    } else if |b| < |a| {
      SpaceAfter(b, y);
      assert false;
    }
    assert a == s[..|a|] == b;
    assert x == s[|a| + 1..] == y;
  }

  /** The HTTP error message determines both the status and the body text it embeds. */
  lemma {:induction false} HttpErrorMessageInjective(s1: nat, t1: string, s2: nat, t2: string)
    requires HttpErrorMessage(s1, t1) == HttpErrorMessage(s2, t2)
    ensures s1 == s2 && t1 == t2
  {
    var p := HttpErrorPrefix;
    var a, b := NatToString(s1), NatToString(s2);
    var m1, m2 := HttpErrorMessage(s1, t1), HttpErrorMessage(s2, t2);
    assert m1 == p + (a + [' '] + ("- " + t1));
    assert m2 == p + (b + [' '] + ("- " + t2));
    assert m1[|p|..] == a + [' '] + ("- " + t1);
    assert m2[|p|..] == b + [' '] + ("- " + t2);
    DigitsThenSpace(a, b, "- " + t1, "- " + t2);
    NatToStringInjective(s1, s2);
    assert t1 == ("- " + t1)[2..];
    assert t2 == ("- " + t2)[2..];
  }

  /** A non-200 response and an exception never produce the same message. */
  lemma ErrorKindsDistinct(status: nat, text: string, raised: string)
    ensures HttpErrorMessage(status, text) != GenerationErrorMessage(raised)
  {
    assert HttpErrorMessage(status, text)[0] == 'U';
    assert GenerationErrorMessage(raised)[0] == 'T';
  }

  /** One `TTSAudioRawFrame(chunk, sample_rate, 1)` per chunk, in order. */
  function AudioFrames(chunks: seq<seq<byte>>, sampleRate: nat): seq<Frame>
  {
    if chunks == [] then [] else [Audio(chunks[0], sampleRate, 1)] + AudioFrames(chunks[1..], sampleRate)
  }

  /** The messages of the error frames, in order: what a consumer of the stream sees as failures. */
  function ErrorMessages(frames: seq<Frame>): seq<string>
  {
    if frames == [] then []
    else (if frames[0].Error? then [frames[0].message] else []) + ErrorMessages(frames[1..])
  }

  /** The audio bytes carried by the frames, concatenated in order. */
  function AudioPayload(frames: seq<Frame>): seq<byte>
  {
    if frames == [] then []
    else (if frames[0].Audio? then frames[0].audio else []) + AudioPayload(frames[1..])
  }

  /** The call reaches the end of the chunk loop and yields the stopped frame. */
  predicate Succeeds(hasSession: bool, resp: Resp, chunkSize: nat)
  {
    hasSession && resp.Http? && resp.status == HttpOk && chunkSize > 0
  }

  /** The frames `run_tts` yields, given whether a session is present, the current output format,
      the sample rate, what the HTTP exchange gave back and the base service's chunk size. */
  function Synthesis(outputFormat: string, sampleRate: nat, hasSession: bool, resp: Resp, chunkSize: nat)
    : seq<Frame>
  {
    if !hasSession then
      [Error(GenerationErrorMessage(NoSessionRaise))]
    else
      match resp
      case Raised(raised) => [Error(GenerationErrorMessage(raised))]
      case Http(status, body, text) =>
        if status != HttpOk then
          [Error(HttpErrorMessage(status, text))]
        else if chunkSize == 0 then
          [Started, Error(GenerationErrorMessage(ZeroStepRaise))]
        else
          [Started] + AudioFrames(Chunks(StripHeader(outputFormat, body), chunkSize), sampleRate) + [Stopped]
  }

  lemma {:induction false} ErrorMessagesAppend(a: seq<Frame>, b: seq<Frame>)
    ensures ErrorMessages(a + b) == ErrorMessages(a) + ErrorMessages(b)
    decreases |a|
  {
    if a != [] {
      assert (a + b)[1..] == a[1..] + b;
      ErrorMessagesAppend(a[1..], b);
    } else {
      assert a + b == b;
    }
  }

  lemma {:induction false} AudioPayloadAppend(a: seq<Frame>, b: seq<Frame>)
    ensures AudioPayload(a + b) == AudioPayload(a) + AudioPayload(b)
    decreases |a|
  {
    if a != [] {
      assert (a + b)[1..] == a[1..] + b;
      AudioPayloadAppend(a[1..], b);
    } else {
      assert a + b == b;
    }
  }

  /** Audio frames carry exactly the chunks, each with the sample rate and one channel,
      and nothing but audio. */
  lemma {:induction false} AudioFramesShape(chunks: seq<seq<byte>>, sampleRate: nat)
    ensures var frames := AudioFrames(chunks, sampleRate);
            |frames| == |chunks| &&
            (forall k :: 0 <= k < |frames| ==> frames[k] == Audio(chunks[k], sampleRate, 1)) &&
            ErrorMessages(frames) == [] &&
            AudioPayload(frames) == Flatten(chunks)
    decreases |chunks|
  {
    if chunks != [] {
      AudioFramesShape(chunks[1..], sampleRate);
      var frames := AudioFrames(chunks, sampleRate);
      var tail := AudioFrames(chunks[1..], sampleRate);
      assert frames == [Audio(chunks[0], sampleRate, 1)] + tail;
      assert frames[1..] == tail;
      forall k | 0 <= k < |frames| ensures frames[k] == Audio(chunks[k], sampleRate, 1) {
        if k > 0 { assert frames[k] == tail[k - 1]; }
      }
    }
  }

  lemma AudioFramesAppendOne(chunks: seq<seq<byte>>, chunk: seq<byte>, sampleRate: nat)
    ensures AudioFrames(chunks + [chunk], sampleRate) == AudioFrames(chunks, sampleRate) + [Audio(chunk, sampleRate, 1)]
  {
    AudioFramesShape(chunks + [chunk], sampleRate);
    AudioFramesShape(chunks, sampleRate);
  }

  /** A successful call yields the started frame, then one audio frame per chunk of the content
      (each at most `chunkSize` bytes, all but the last exactly `chunkSize`, ceil(len/chunkSize) of
      them, each with the sample rate and one channel, together exactly the content), then the
      stopped frame, and reports no error. */
  lemma SuccessSequence(outputFormat: string, sampleRate: nat, resp: Resp, chunkSize: nat)
    requires Succeeds(true, resp, chunkSize)
    ensures var frames := Synthesis(outputFormat, sampleRate, true, resp, chunkSize);
            var content := StripHeader(outputFormat, resp.body);
            var chunks := Chunks(content, chunkSize);
            |frames| == |chunks| + 2 &&
            |chunks| == (|content| + chunkSize - 1) / chunkSize &&
            frames[0] == Started && frames[|frames| - 1] == Stopped &&
            (forall k :: 1 <= k < |frames| - 1 ==>
               frames[k] == Audio(chunks[k - 1], sampleRate, 1) &&
               0 < |frames[k].audio| <= chunkSize &&
               (k < |frames| - 2 ==> |frames[k].audio| == chunkSize)) &&
            AudioPayload(frames) == content &&
            ErrorMessages(frames) == []
  {
    var content := StripHeader(outputFormat, resp.body);
    var chunks := Chunks(content, chunkSize);
    var audio := AudioFrames(chunks, sampleRate);
    var frames := Synthesis(outputFormat, sampleRate, true, resp, chunkSize);
    assert frames == [Started] + audio + [Stopped];
    AudioFramesShape(chunks, sampleRate);
    ChunkCount(content, chunkSize);
    FlattenChunks(content, chunkSize);
    forall k | 1 <= k < |frames| - 1 ensures frames[k] == Audio(chunks[k - 1], sampleRate, 1) {
      assert frames[k] == audio[k - 1];
    }
    ErrorMessagesAppend([Started] + audio, [Stopped]);
    ErrorMessagesAppend([Started], audio);
    AudioPayloadAppend([Started] + audio, [Stopped]);
    AudioPayloadAppend([Started], audio);
  }

  /** The part of the success shape the `push_error` log depends on: no error is reported. */
  lemma SuccessReportsNoError(outputFormat: string, sampleRate: nat, resp: Resp, chunkSize: nat)
    requires Succeeds(true, resp, chunkSize)
    ensures ErrorMessages(Synthesis(outputFormat, sampleRate, true, resp, chunkSize)) == []
  {
    SuccessSequence(outputFormat, sampleRate, resp, chunkSize);
  }

  /** A WAV response of at most 44 bytes, or an empty non-WAV body, yields only the two markers. */
  lemma EmptyContentSequence(outputFormat: string, sampleRate: nat, resp: Resp, chunkSize: nat)
    requires Succeeds(true, resp, chunkSize)
    requires StripHeader(outputFormat, resp.body) == []
    ensures Synthesis(outputFormat, sampleRate, true, resp, chunkSize) == [Started, Stopped]
  {
    assert AudioFrames([], sampleRate) == [];
  }

  /** Every failure yields exactly one error frame, as the last frame, with no audio and
      no stopped frame; a failure before a 200 response has been read yields that error frame alone. */
  lemma {:induction false} FailureSequence(outputFormat: string, sampleRate: nat, hasSession: bool,
                                            resp: Resp, chunkSize: nat)
    requires !Succeeds(hasSession, resp, chunkSize)
    ensures var frames := Synthesis(outputFormat, sampleRate, hasSession, resp, chunkSize);
            |ErrorMessages(frames)| == 1 &&
            frames[|frames| - 1] == Error(ErrorMessages(frames)[0]) &&
            Stopped !in frames &&
            AudioPayload(frames) == [] &&
            (!(hasSession && resp.Http? && resp.status == HttpOk) ==> |frames| == 1)
  {
    var frames := Synthesis(outputFormat, sampleRate, hasSession, resp, chunkSize);
    if hasSession && resp.Http? && resp.status == HttpOk {
      var m := GenerationErrorMessage(ZeroStepRaise);
      assert frames == [Started, Error(m)];
      assert frames[1..] == [Error(m)];
      assert frames[1..][1..] == [];
      assert ErrorMessages(frames[1..]) == [m];
      assert AudioPayload(frames[1..]) == [];
    } else {
      assert |frames| == 1 && frames[0].Error? && frames[1..] == [];
    }
  }

  /** The four failure messages. */
  lemma FailureMessages(outputFormat: string, sampleRate: nat, resp: Resp, chunkSize: nat)
    ensures Synthesis(outputFormat, sampleRate, false, resp, chunkSize)
            == [Error(GenerationErrorMessage(NoSessionRaise))]
    ensures resp.Raised? ==>
              Synthesis(outputFormat, sampleRate, true, resp, chunkSize)
              == [Error(GenerationErrorMessage(resp.message))]
    ensures resp.Http? && resp.status != HttpOk ==>
              Synthesis(outputFormat, sampleRate, true, resp, chunkSize)
              == [Error(HttpErrorMessage(resp.status, resp.text))]
    ensures resp.Http? && resp.status == HttpOk && chunkSize == 0 ==>
              Synthesis(outputFormat, sampleRate, true, resp, chunkSize)
              == [Started, Error(GenerationErrorMessage(ZeroStepRaise))]
  {
  }

  /** The stopped frame appears exactly when the call succeeds, and then no error is reported;
      the started frame appears exactly when a 200 response was read, and then it comes first. */
  lemma MarkersIff(outputFormat: string, sampleRate: nat, hasSession: bool, resp: Resp, chunkSize: nat)
    ensures var frames := Synthesis(outputFormat, sampleRate, hasSession, resp, chunkSize);
            (Stopped in frames <==> Succeeds(hasSession, resp, chunkSize)) &&
            (ErrorMessages(frames) == [] <==> Succeeds(hasSession, resp, chunkSize)) &&
            (Started in frames <==> hasSession && resp.Http? && resp.status == HttpOk) &&
            (Started in frames ==> frames[0] == Started)
  {
    var frames := Synthesis(outputFormat, sampleRate, hasSession, resp, chunkSize);
    if Succeeds(hasSession, resp, chunkSize) {
      SuccessSequence(outputFormat, sampleRate, resp, chunkSize);
      assert frames[|frames| - 1] == Stopped;
    } else {
      FailureSequence(outputFormat, sampleRate, hasSession, resp, chunkSize);
      if hasSession && resp.Http? && resp.status == HttpOk {
        assert frames == [Started, Error(GenerationErrorMessage(ZeroStepRaise))];
      }
    }
  }

  /** A 4096-byte WAV response (44-byte header, 4052 audio bytes) with a chunk size of 4096
      yields one audio frame holding the 4052 bytes. */
  lemma WavSingleChunkScenario(body: seq<byte>)
    requires |body| == 4096
    ensures Synthesis("WAV_22050_16", 22050, true, Http(200, body, ""), 4096)
            == [Started, Audio(body[44..], 22050, 1), Stopped]
  {
    var content := StripHeader("WAV_22050_16", body);
    assert StartsWith("WAV_22050_16", WavPrefix);
    assert |content| == 4052;
    assert Chunks(content, 4096) == [content];
    assert AudioFrames([content], 22050) == [Audio(content, 22050, 1)] + AudioFrames([], 22050);
  }

  /** A 503 response with body text "server overloaded" yields only the error frame. */
  lemma OverloadedScenario(body: seq<byte>)
    ensures Synthesis("WAV_22050_16", 22050, true, Http(503, body, "server overloaded"), 4096)
            == [Error("Uplift HTTP TTS error: 503 - server overloaded")]
  {
    assert NatToString(503) == "503";
    assert HttpErrorMessage(503, "server overloaded") == "Uplift HTTP TTS error: 503 - server overloaded";
  }
}
