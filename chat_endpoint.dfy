/**
 * The two chat endpoints.  Each checks the limiter under the caller's user key
 * before any provider call; a rejected caller gets 429.  The whole-completion
 * endpoint turns any service failure into 500.  The streaming endpoint frames
 * every forwarded event as a server-sent event `data: <json>\n\n` and ends the
 * stream with exactly one terminal frame: `data: [DONE]\n\n` after a normal end,
 * or one error frame after a failure.  JSON serialisation is the parameter
 * `dumps`; the provider call is a parameter too.
 */
module ChatEndpoint {
  import opened Wrappers
  import opened ChatModels
  import opened Upstream
  import RateLimiting
  import RateLimitMiddleware
  import LLMService

  /** What an endpoint answers: a body, or an HTTP error with its status and detail. */
  datatype HttpResult<T> = Ok(body: T) | HttpError(status: int, detail: string)

  /** A streamed answer: media type, headers, and the frames of the body in order. */
  datatype StreamingResponse = StreamingResponse(mediaType: string, headers: seq<(string, string)>, frames: seq<string>)

  /** The partition key of an authenticated caller. */
  function UserKey(userId: string): (key: string)
    ensures |key| >= 5 && key[..5] == "user:" && key[5..] == userId
  {
    "user:" + userId
  }

  /** Caller buckets and client-address buckets never share a key. */
  lemma UserKeysNeverMeetClientKeys(userId: string, client: Option<string>)
    ensures UserKey(userId) != RateLimitMiddleware.ClientKey(client)
  {
    assert UserKey(userId)[0] == 'u';
    assert RateLimitMiddleware.ClientKey(client)[0] == 'i';
  }

  // ---------------------------------------------------------------------------
  // Server-sent event framing

  /** One server-sent event carrying `payload`. */
  function DataFrame(payload: string): string
  {
    "data: " + payload + "\n\n"
  }

  /** The frame that ends a stream that finished normally. */
  const DoneFrame: string := "data: [DONE]\n\n"

  /** The body of the frame that ends a stream that failed. */
  const StreamErrorJson: Json :=
    Obj([("error", Obj([("message", Str("Stream error occurred")), ("type", Str("server_error"))]))])

  function ErrorFrame(dumps: Json -> string): string
  {
    DataFrame(dumps(StreamErrorJson))
  }

  /**
   * The frames of a stream: one frame per yielded event, in order, then `[DONE]`
   * when the service ended normally or the error frame when it raised.
   */
  function StreamFrames(s: ServiceStream, dumps: Json -> string): (frames: seq<string>)
    ensures |frames| == |s.events| + 1
    ensures forall i :: 0 <= i < |s.events| ==> frames[i] == DataFrame(dumps(EventJson(s.events[i])))
    ensures frames[|s.events|] == if s.error.None? then DoneFrame else ErrorFrame(dumps)
  {
    seq(|s.events|, i requires 0 <= i < |s.events| => DataFrame(dumps(EventJson(s.events[i]))))
      + [if s.error.None? then DoneFrame else ErrorFrame(dumps)]
  }

  /** Emit the frames of a stream one by one, then its terminal frame. */
  method GenerateStream(s: ServiceStream, dumps: Json -> string) returns (frames: seq<string>)
    ensures frames == StreamFrames(s, dumps)
  {
    frames := [];
    var i := 0;
    while i < |s.events|
      invariant 0 <= i <= |s.events|
      invariant |frames| == i
      invariant forall j :: 0 <= j < i ==> frames[j] == DataFrame(dumps(EventJson(s.events[j])))
    {
      frames := frames + [DataFrame(dumps(EventJson(s.events[i])))];
      i := i + 1;
    }
    if s.error.None? {
      frames := frames + [DoneFrame];
    } else {
      frames := frames + [ErrorFrame(dumps)];
    }
  }

  /**
   * What the framing needs of the serialiser: every object serialises to text
   * starting with `{`, and distinct values serialise differently.
   */
  ghost predicate SoundSerializer(dumps: Json -> string)
  {
    && (forall j: Json :: j.Obj? ==> |dumps(j)| > 0 && dumps(j)[0] == '{')
    && (forall a: Json, b: Json :: dumps(a) == dumps(b) ==> a == b)
  }

  /** The number of frames equal to `f`. */
  function Occurrences(frames: seq<string>, f: string): nat
    decreases |frames|
  {
    if frames == [] then 0 else (if frames[0] == f then 1 else 0) + Occurrences(frames[1..], f)
  }

  /** Two frames are equal exactly when their payloads are. */
  lemma DataFrameInjective(a: string, b: string)
    ensures DataFrame(a) == DataFrame(b) <==> a == b
  {
    if DataFrame(a) == DataFrame(b) {
      assert |a| == |b|;
      assert a == DataFrame(a)[6..6 + |a|];
      assert b == DataFrame(b)[6..6 + |b|];
    }
  }

  /** Under a sound serialiser the two terminal frames differ. */
  lemma TerminalFramesDiffer(dumps: Json -> string)
    requires SoundSerializer(dumps)
    ensures DoneFrame != ErrorFrame(dumps)
  {
    assert DoneFrame == DataFrame("[DONE]");
    assert dumps(StreamErrorJson)[0] == '{';
    assert dumps(StreamErrorJson) != "[DONE]";
    DataFrameInjective("[DONE]", dumps(StreamErrorJson));
  }

  /** No event frame is a terminal frame. */
  lemma EventFrameIsNotTerminal(e: StreamEvent, dumps: Json -> string)
    requires SoundSerializer(dumps)
    ensures DataFrame(dumps(EventJson(e))) != DoneFrame
    ensures DataFrame(dumps(EventJson(e))) != ErrorFrame(dumps)
  {
    var payload := dumps(EventJson(e));
    assert payload[0] == '{';
    assert payload != "[DONE]";
    assert DoneFrame == DataFrame("[DONE]");
    DataFrameInjective(payload, "[DONE]");
    assert EventJson(e) != StreamErrorJson;
    assert payload != dumps(StreamErrorJson);
    DataFrameInjective(payload, dumps(StreamErrorJson));
  }

  /** Frames made only of events contain neither terminal frame. */
  lemma {:induction false} EventFramesHaveNoTerminal(events: seq<StreamEvent>, dumps: Json -> string)
    requires SoundSerializer(dumps)
    ensures var frames := StreamFrames(ServiceStream(events, None), dumps)[..|events|];
      Occurrences(frames, DoneFrame) == 0 && Occurrences(frames, ErrorFrame(dumps)) == 0
    decreases |events|
  {
    var frames := StreamFrames(ServiceStream(events, None), dumps)[..|events|];
    if events != [] {
      EventFrameIsNotTerminal(events[0], dumps);
      EventFramesHaveNoTerminal(events[1..], dumps);
      assert frames[1..] == StreamFrames(ServiceStream(events[1..], None), dumps)[..|events| - 1];
    }
  }

  lemma {:induction false} OccurrencesAppend(a: seq<string>, b: seq<string>, f: string)
    ensures Occurrences(a + b, f) == Occurrences(a, f) + Occurrences(b, f)
    decreases |a|
  {
    if a == [] {
      assert a + b == b;
    } else {
      assert (a + b)[0] == a[0];
      assert (a + b)[1..] == a[1..] + b;
      OccurrencesAppend(a[1..], b, f);
    }
  }

  /**
   * Every stream ends with exactly one terminal frame, and it is the last frame:
   * one `[DONE]` and no error frame after a normal end, one error frame and no
   * `[DONE]` after a failure.
   */
  lemma ExactlyOneTerminal(s: ServiceStream, dumps: Json -> string)
    requires SoundSerializer(dumps)
    ensures var frames := StreamFrames(s, dumps);
      && Occurrences(frames, DoneFrame) == (if s.error.None? then 1 else 0)
      && Occurrences(frames, ErrorFrame(dumps)) == (if s.error.Some? then 1 else 0)
      && frames[|frames| - 1] in {DoneFrame, ErrorFrame(dumps)}
  {
    var frames := StreamFrames(s, dumps);
    var body := frames[..|s.events|];
    assert body == StreamFrames(ServiceStream(s.events, None), dumps)[..|s.events|];
    EventFramesHaveNoTerminal(s.events, dumps);
    assert frames == body + [frames[|s.events|]];
    OccurrencesAppend(body, [frames[|s.events|]], DoneFrame);
    OccurrencesAppend(body, [frames[|s.events|]], ErrorFrame(dumps));
    TerminalFramesDiffer(dumps);
  }

  /** A failure keeps the frames already emitted and replaces `[DONE]` by the error frame. */
  lemma FailureKeepsEmittedFrames(events: seq<StreamEvent>, error: string, dumps: Json -> string)
    ensures StreamFrames(ServiceStream(events, Some(error)), dumps)
            == StreamFrames(ServiceStream(events, None), dumps)[..|events|] + [ErrorFrame(dumps)]
  {
  }

  // ---------------------------------------------------------------------------
  // The endpoints

  const StreamHeaders: seq<(string, string)> :=
    [("Cache-Control", "no-cache"), ("Connection", "keep-alive"), ("X-Accel-Buffering", "no")]

  /**
   * The whole-completion endpoint: the limiter is consulted once under the
   * caller's key; a rejected caller gets 429 and no call reaches the provider; an
   * admitted caller's request makes exactly one provider call, and the caller gets
   * the service's response, or 500 when the service fails.
   */
  method ChatCompletions(limiter: RateLimiting.RateLimiter, service: LLMService.LLMService, client: ProviderClient,
                         userId: string, request: ChatRequest, now: real)
    returns (result: HttpResult<LLMService.DictResponse>, admitted: bool)
    requires limiter.Valid()
    modifies limiter, limiter.redis, client
    ensures limiter.Valid()
    ensures admitted == old(limiter.Admits(UserKey(userId), 1, now))
    ensures limiter.Consulted(UserKey(userId), 1, now, admitted)
    ensures !admitted ==> client.sent == old(client.sent) && result == HttpError(429, "Rate limit exceeded")
    ensures admitted ==>
              && client.sent == old(client.sent) + [Defaulted(request, service.defaultModel, service.maxTokens, false)]
              && result == match service.CreateChatCompletion(request, client.complete)
                           case Success(d) => Ok(d)
                           case Failure(_) => HttpError(500, "Internal server error")
  {
    var key := UserKey(userId);
    admitted := limiter.IsAllowed(key, 1, now);
    if !admitted {
      return HttpError(429, "Rate limit exceeded"), false;
    }
    var response := service.RequestCompletion(client, request);
    match response
    case Success(d) =>
      result := Ok(d);
    case Failure(_) =>
      result := HttpError(500, "Internal server error");
  }

  /**
   * The streaming endpoint: the limiter is consulted once under the caller's key;
   * a rejected caller gets 429 and no stream is opened; an admitted caller's
   * request is marked as streaming, exactly one provider stream is opened, and
   * the stream is framed as server-sent events.
   */
  method ChatCompletionsStream(limiter: RateLimiting.RateLimiter, service: LLMService.LLMService, client: ProviderClient,
                               userId: string, request: ChatRequest, dumps: Json -> string, now: real)
    returns (result: HttpResult<StreamingResponse>, admitted: bool)
    requires limiter.Valid()
    modifies limiter, limiter.redis, client
    ensures limiter.Valid()
    ensures admitted == old(limiter.Admits(UserKey(userId), 1, now))
    ensures limiter.Consulted(UserKey(userId), 1, now, admitted)
    ensures !admitted ==> client.sent == old(client.sent) && result == HttpError(429, "Rate limit exceeded")
    ensures admitted ==>
              var streaming := request.(stream := Some(true));
              && client.sent == old(client.sent) + [Defaulted(streaming, service.defaultModel, service.maxTokens, true)]
              && result == Ok(StreamingResponse("text/event-stream", StreamHeaders,
                                                StreamFrames(service.CreateChatCompletionStream(streaming, client.open), dumps)))
  {
    var key := UserKey(userId);
    admitted := limiter.IsAllowed(key, 1, now);
    if !admitted {
      return HttpError(429, "Rate limit exceeded"), false;
    }
    var streaming := request.(stream := Some(true));
    var events := service.RequestCompletionStream(client, streaming);
    var frames := GenerateStream(events, dumps);
    result := Ok(StreamingResponse("text/event-stream", StreamHeaders, frames));
  }

  /**
   * The streamed text "Hel", "lo" and a final chunk that finishes with "stop"
   * reach the client as four frames: two content events, one finish event and
   * `[DONE]`.
   */
  lemma HelloStreamFrames(id: string, created: int, model: string, dumps: Json -> string)
    ensures var chunks := [
        Chunk(id, "chat.completion.chunk", created, model, [StreamChoice(0, Some("Hel"), None)]),
        Chunk(id, "chat.completion.chunk", created, model, [StreamChoice(0, Some("lo"), None)]),
        Chunk(id, "chat.completion.chunk", created, model, [StreamChoice(0, None, Some("stop"))])];
      var frames := StreamFrames(Relay(UpstreamStream(chunks, None), LLMService.StreamErrorMessage), dumps);
      && |frames| == 4
      && frames[0] == DataFrame(dumps(EventJson(StreamEvent(id, "chat.completion.chunk", created, model, 0, Some("Hel"), None))))
      && frames[1] == DataFrame(dumps(EventJson(StreamEvent(id, "chat.completion.chunk", created, model, 0, Some("lo"), None))))
      && frames[2] == DataFrame(dumps(EventJson(StreamEvent(id, "chat.completion.chunk", created, model, 0, None, Some("stop")))))
      && frames[3] == DoneFrame
  {
    HelloExample(id, created, model);
  }
}
