/**
 * What both completion services share: the parameters sent to the provider and
 * how a request's missing or falsy fields are defaulted, the provider's stream
 * chunks and completions, and the translation of each chunk into the events the
 * relay forwards.  The two service classes repeat this logic line for line; it is
 * stated once here and used by both.
 */
module Upstream {
  import opened Wrappers
  import opened ChatModels

  // ---------------------------------------------------------------------------
  // Parameters and their defaults

  /** The parameters of one call to the provider. */
  datatype CompletionParams = CompletionParams(
    model: string,
    messages: seq<ChatMessage>,
    temperature: real,
    maxTokens: int,
    topP: real,
    frequencyPenalty: real,
    presencePenalty: real,
    stream: bool,
    user: Option<string>)

  /** Python's `x or default` on an optional string: absent or empty gives the default. */
  function OrString(x: Option<string>, default: string): string
  {
    if x.Some? && x.value != "" then x.value else default
  }

  /** Python's `x or default` on an optional number: absent or zero gives the default. */
  function OrReal(x: Option<real>, default: real): real
  {
    if x.Some? && x.value != 0.0 then x.value else default
  }

  /** Python's `x or default` on an optional integer: absent or zero gives the default. */
  function OrInt(x: Option<int>, default: int): int
  {
    if x.Some? && x.value != 0 then x.value else default
  }

  /**
   * The parameters sent for `request`: each sampling control falls back to its
   * default when absent or falsy (model: the service's default model;
   * temperature 0.7; token limit: the configured one; top-p 1.0; penalties 0.0).
   */
  function Defaulted(request: ChatRequest, defaultModel: string, defaultMaxTokens: int, stream: bool): (p: CompletionParams)
    ensures p.messages == request.messages && p.user == request.user && p.stream == stream
    ensures request.model.None? ==> p.model == defaultModel
    ensures request.model.Some? && request.model.value != "" ==> p.model == request.model.value
    ensures request.temperature.None? ==> p.temperature == 0.7
    ensures request.temperature.Some? && request.temperature.value != 0.0 ==> p.temperature == request.temperature.value
    ensures request.maxTokens.None? ==> p.maxTokens == defaultMaxTokens
    ensures request.maxTokens.Some? && request.maxTokens.value != 0 ==> p.maxTokens == request.maxTokens.value
    ensures request.topP.None? ==> p.topP == 1.0
    ensures request.topP.Some? && request.topP.value != 0.0 ==> p.topP == request.topP.value
    ensures p.frequencyPenalty == request.frequencyPenalty.GetOr(0.0)
    ensures p.presencePenalty == request.presencePenalty.GetOr(0.0)
  {
    CompletionParams(
      OrString(request.model, defaultModel),
      request.messages,
      OrReal(request.temperature, 0.7),
      OrInt(request.maxTokens, defaultMaxTokens),
      OrReal(request.topP, 1.0),
      OrReal(request.frequencyPenalty, 0.0),
      OrReal(request.presencePenalty, 0.0),
      stream,
      request.user)
  }

  /** A request that sets nothing but its messages and user gets every default. */
  lemma AllAbsentGivesDefaults(messages: seq<ChatMessage>, user: Option<string>, defaultModel: string,
                               defaultMaxTokens: int, stream: bool)
    ensures Defaulted(ChatRequest(messages, None, None, None, None, None, None, None, user), defaultModel, defaultMaxTokens, stream)
            == CompletionParams(defaultModel, messages, 0.7, defaultMaxTokens, 1.0, 0.0, 0.0, stream, user)
  {
  }

  /**
   * A valid request yields parameters inside the provider's ranges, with a
   * non-empty model, a positive token limit, and a temperature and top-p that
   * are never zero.
   */
  lemma DefaultedWithinRange(request: ChatRequest, defaultModel: string, defaultMaxTokens: int, stream: bool)
    requires ValidRequest(request) && defaultModel != "" && defaultMaxTokens > 0
    ensures var p := Defaulted(request, defaultModel, defaultMaxTokens, stream);
      && p.model != ""
      && 0.0 < p.temperature <= 2.0
      && p.maxTokens > 0
      && 0.0 < p.topP <= 1.0
      && -2.0 <= p.frequencyPenalty <= 2.0
      && -2.0 <= p.presencePenalty <= 2.0
  {
  }

  /**
   * Falsy values count as absent: an explicit temperature or top-p of 0.0 and an
   * empty model name are replaced by the defaults, exactly as if left out.
   */
  lemma FalsyValuesAreReplaced(request: ChatRequest, defaultModel: string, defaultMaxTokens: int, stream: bool)
    ensures var p := Defaulted(request, defaultModel, defaultMaxTokens, stream);
      && (request.temperature == Some(0.0) ==> p.temperature == 0.7)
      && (request.topP == Some(0.0) ==> p.topP == 1.0)
      && (request.model == Some("") ==> p.model == defaultModel)
      && p == Defaulted(request.(temperature := if request.temperature == Some(0.0) then None else request.temperature,
                                 topP := if request.topP == Some(0.0) then None else request.topP,
                                 model := if request.model == Some("") then None else request.model),
                        defaultModel, defaultMaxTokens, stream)
  {
  }

  /** The request that asks for exactly the given parameters. */
  function AsRequest(p: CompletionParams): ChatRequest
  {
    ChatRequest(p.messages, Some(p.model), Some(p.temperature), Some(p.maxTokens), Some(p.topP),
                Some(p.frequencyPenalty), Some(p.presencePenalty), Some(p.stream), p.user)
  }

  /** Defaulting is idempotent: asking again for the parameters that were sent sends them unchanged. */
  lemma DefaultingIsIdempotent(request: ChatRequest, defaultModel: string, defaultMaxTokens: int, stream: bool)
    ensures var p := Defaulted(request, defaultModel, defaultMaxTokens, stream);
      Defaulted(AsRequest(p), defaultModel, defaultMaxTokens, stream) == p
  {
  }

  // ---------------------------------------------------------------------------
  // Streamed chunks and the events they become

  /** One choice of a streamed chunk: its index, the new content (if any) and the finish reason (if any). */
  datatype StreamChoice = StreamChoice(index: int, content: Option<string>, finishReason: Option<string>)

  /** One chunk of the provider's stream. */
  datatype Chunk = Chunk(id: string, objectType: string, created: int, model: string, choices: seq<StreamChoice>)

  /**
   * One event the relay forwards: the chunk's header fields and a single choice
   * whose delta is `{"content": c}` (`delta == Some(c)`) or empty (`delta == None`).
   */
  datatype StreamEvent = StreamEvent(
    id: string,
    objectType: string,
    created: int,
    model: string,
    index: int,
    delta: Option<string>,
    finishReason: Option<string>)

  /** Python truthiness of an optional string. */
  predicate Truthy(s: Option<string>)
  {
    s.Some? && s.value != ""
  }

  /**
   * The events of one chunk: nothing without choices; otherwise, from the first
   * choice only, a content event when it carries content (even empty), then a
   * finish event with an empty delta when its finish reason is truthy.
   */
  function ChunkEvents(c: Chunk): (events: seq<StreamEvent>)
    ensures c.choices == [] ==> events == []
    ensures c.choices != [] ==>
              |events| == (if c.choices[0].content.Some? then 1 else 0) + (if Truthy(c.choices[0].finishReason) then 1 else 0)
    ensures forall e :: e in events ==>
              && e.id == c.id && e.objectType == c.objectType && e.created == c.created && e.model == c.model
              && e.index == c.choices[0].index
    ensures forall i :: 0 <= i < |events| ==>
              (events[i].delta.Some? <==> i == 0 && c.choices[0].content.Some?)
    ensures forall e :: e in events && e.delta.Some? ==>
              e.delta == c.choices[0].content && e.finishReason == c.choices[0].finishReason
    ensures forall e :: e in events && e.delta.None? ==>
              e.finishReason == c.choices[0].finishReason && Truthy(e.finishReason)
  {
    if c.choices == [] then []
    else
      var choice := c.choices[0];
      var content :=
        if choice.content.Some? then
          [StreamEvent(c.id, c.objectType, c.created, c.model, choice.index, choice.content, choice.finishReason)]
        else [];
      var finish :=
        if Truthy(choice.finishReason) then
          [StreamEvent(c.id, c.objectType, c.created, c.model, choice.index, None, choice.finishReason)]
        else [];
      content + finish
  }

  /** The events of a stream of chunks, chunk after chunk. */
  function Translate(chunks: seq<Chunk>): (events: seq<StreamEvent>)
    ensures |events| <= 2 * |chunks|
    decreases |chunks|
  {
    if chunks == [] then [] else ChunkEvents(chunks[0]) + Translate(chunks[1..])
  }

  /** Translation is chunk by chunk: the events of a concatenation are the concatenation of the events. */
  lemma {:induction false} TranslateAppend(a: seq<Chunk>, b: seq<Chunk>)
    ensures Translate(a + b) == Translate(a) + Translate(b)
    decreases |a|
  {
    if a == [] {
      assert a + b == b;
    } else {
      assert (a + b)[0] == a[0];
      assert (a + b)[1..] == a[1..] + b;
      TranslateAppend(a[1..], b);
      assert Translate(a + b) == ChunkEvents(a[0]) + Translate(a[1..] + b);
    }
  }

  /** Only the first choice of a chunk matters: choices after it are ignored. */
  lemma LaterChoicesIgnored(c: Chunk, extra: seq<StreamChoice>)
    requires c.choices != []
    ensures ChunkEvents(c.(choices := c.choices + extra)) == ChunkEvents(c)
  {
    assert (c.choices + extra)[0] == c.choices[0];
  }

  /** The text the events carry, in order. */
  function EventText(events: seq<StreamEvent>): string
    decreases |events|
  {
    if events == [] then ""
    else (if events[0].delta.Some? then events[0].delta.value else "") + EventText(events[1..])
  }

  /** The text the provider streamed in the first choice of each chunk, in order. */
  function StreamedText(chunks: seq<Chunk>): string
    decreases |chunks|
  {
    if chunks == [] then ""
    else
      (if chunks[0].choices != [] && chunks[0].choices[0].content.Some? then chunks[0].choices[0].content.value else "")
      + StreamedText(chunks[1..])
  }

  lemma {:induction false} EventTextAppend(a: seq<StreamEvent>, b: seq<StreamEvent>)
    ensures EventText(a + b) == EventText(a) + EventText(b)
    decreases |a|
  {
    if a == [] {
      assert a + b == b;
    } else {
      assert (a + b)[0] == a[0];
      assert (a + b)[1..] == a[1..] + b;
      EventTextAppend(a[1..], b);
    }
  }

  /** The relayed events carry exactly the text the provider streamed, in the same order. */
  lemma {:induction false} TranslatePreservesText(chunks: seq<Chunk>)
    ensures EventText(Translate(chunks)) == StreamedText(chunks)
    decreases |chunks|
  {
    if chunks != [] {
      var first := ChunkEvents(chunks[0]);
      EventTextAppend(first, Translate(chunks[1..]));
      TranslatePreservesText(chunks[1..]);
      if chunks[0].choices != [] {
        var choice := chunks[0].choices[0];
        if choice.content.Some? {
          assert first[1..] == [] || first[1..] == [first[1]];
          assert EventText(first) == choice.content.value;
        } else {
          assert first == [] || first == [first[0]];
          assert EventText(first) == "";
        }
      }
    }
  }

  /** The number of finish events (those with an empty delta). */
  function FinishEvents(events: seq<StreamEvent>): nat
    decreases |events|
  {
    if events == [] then 0 else (if events[0].delta.None? then 1 else 0) + FinishEvents(events[1..])
  }

  /** The number of chunks whose first choice has a truthy finish reason. */
  function FinishingChunks(chunks: seq<Chunk>): nat
    decreases |chunks|
  {
    if chunks == [] then 0
    else (if chunks[0].choices != [] && Truthy(chunks[0].choices[0].finishReason) then 1 else 0) + FinishingChunks(chunks[1..])
  }

  lemma {:induction false} FinishEventsAppend(a: seq<StreamEvent>, b: seq<StreamEvent>)
    ensures FinishEvents(a + b) == FinishEvents(a) + FinishEvents(b)
    decreases |a|
  {
    if a == [] {
      assert a + b == b;
    } else {
      assert (a + b)[0] == a[0];
      assert (a + b)[1..] == a[1..] + b;
      FinishEventsAppend(a[1..], b);
    }
  }

  /** Each chunk that finishes produces exactly one finish event, and no other chunk does. */
  lemma {:induction false} TranslateFinishCount(chunks: seq<Chunk>)
    ensures FinishEvents(Translate(chunks)) == FinishingChunks(chunks)
    decreases |chunks|
  {
    if chunks != [] {
      var first := ChunkEvents(chunks[0]);
      FinishEventsAppend(first, Translate(chunks[1..]));
      TranslateFinishCount(chunks[1..]);
      if |first| == 2 {
        assert first[1..][1..] == [];
      } else if |first| == 1 {
        assert first[1..] == [];
      }
    }
  }

  /**
   * The streamed text "Hel", "lo" followed by a chunk that only finishes with
   * "stop" becomes two content events and one finish event.
   */
  lemma HelloExample(id: string, created: int, model: string)
    ensures var chunks := [
        Chunk(id, "chat.completion.chunk", created, model, [StreamChoice(0, Some("Hel"), None)]),
        Chunk(id, "chat.completion.chunk", created, model, [StreamChoice(0, Some("lo"), None)]),
        Chunk(id, "chat.completion.chunk", created, model, [StreamChoice(0, None, Some("stop"))])];
      Translate(chunks) == [
        StreamEvent(id, "chat.completion.chunk", created, model, 0, Some("Hel"), None),
        StreamEvent(id, "chat.completion.chunk", created, model, 0, Some("lo"), None),
        StreamEvent(id, "chat.completion.chunk", created, model, 0, None, Some("stop"))]
  {
    var chunks := [
        Chunk(id, "chat.completion.chunk", created, model, [StreamChoice(0, Some("Hel"), None)]),
        Chunk(id, "chat.completion.chunk", created, model, [StreamChoice(0, Some("lo"), None)]),
        Chunk(id, "chat.completion.chunk", created, model, [StreamChoice(0, None, Some("stop"))])];
    var last := chunks[1..][1..];
    assert last[1..] == [];
    assert Translate(last) == ChunkEvents(last[0]);
    assert Translate(chunks[1..]) == ChunkEvents(chunks[1]) + Translate(last);
  }

  // ---------------------------------------------------------------------------
  // JSON values of the forwarded events

  /** A JSON value; objects keep their keys in insertion order. */
  datatype Json = Null | Int(i: int) | Str(s: string) | Arr(items: seq<Json>) | Obj(fields: seq<(string, Json)>)

  function OptionalString(s: Option<string>): Json
  {
    if s.Some? then Str(s.value) else Null
  }

  /** The dictionary an event is yielded as. */
  function EventJson(e: StreamEvent): Json
  {
    Obj([("id", Str(e.id)), ("object", Str(e.objectType)), ("created", Int(e.created)), ("model", Str(e.model)),
         ("choices", Arr([Obj([("index", Int(e.index)),
                               ("delta", Obj(if e.delta.Some? then [("content", Str(e.delta.value))] else [])),
                               ("finish_reason", OptionalString(e.finishReason))])]))])
  }

  /** The dictionary form of an event loses nothing: distinct events give distinct dictionaries. */
  lemma EventJsonInjective(a: StreamEvent, b: StreamEvent)
    requires EventJson(a) == EventJson(b)
    ensures a == b
  {
    var ca := EventJson(a).fields[4].1.items[0].fields;
    var cb := EventJson(b).fields[4].1.items[0].fields;
    assert ca == cb;
    assert ca[1].1 == cb[1].1;
    if a.delta.Some? || b.delta.Some? {
      assert ca[1].1.fields[0].1 == cb[1].1.fields[0].1;
    }
    assert ca[2].1 == cb[2].1;
  }

  // ---------------------------------------------------------------------------
  // Provider outcomes

  datatype UpstreamMessage = UpstreamMessage(role: string, content: Option<string>)

  datatype UpstreamChoice = UpstreamChoice(index: int, message: UpstreamMessage, finishReason: Option<string>)

  datatype Usage = Usage(promptTokens: int, completionTokens: int, totalTokens: int)

  /** A whole (non-streamed) completion; the provider may leave out the usage. */
  datatype Completion = Completion(
    id: string,
    objectType: string,
    created: int,
    model: string,
    choices: seq<UpstreamChoice>,
    usage: Option<Usage>)

  /** Why a provider call failed: an error the provider's client reports, or anything else. */
  datatype UpstreamFailure = ApiError(message: string) | OtherError(message: string)

  /** A provider stream: the chunks it delivered, then either its normal end or a failure. */
  datatype UpstreamStream = UpstreamStream(chunks: seq<Chunk>, failure: Option<UpstreamFailure>)

  /** What a service's stream gives its caller: the events it yielded, then the error it raised, if any. */
  datatype ServiceStream = ServiceStream(events: seq<StreamEvent>, error: Option<string>)

  /**
   * The provider's client: what it answers for given parameters, and the record
   * of the parameters of every call made through it, in order.
   */
  class ProviderClient {
    const complete: CompletionParams -> Result<Completion, UpstreamFailure>
    const open: CompletionParams -> UpstreamStream
    ghost var sent: seq<CompletionParams>

    constructor (complete: CompletionParams -> Result<Completion, UpstreamFailure>, open: CompletionParams -> UpstreamStream)
      ensures this.complete == complete && this.open == open && sent == []
    {
      this.complete := complete;
      this.open := open;
      sent := [];
    }

    /** One whole-completion call: the outcome is the provider's answer, and the call is recorded. */
    method Create(p: CompletionParams) returns (outcome: Result<Completion, UpstreamFailure>)
      modifies this
      ensures sent == old(sent) + [p]
      ensures outcome == complete(p)
    {
      sent := sent + [p];
      outcome := complete(p);
    }

    /** Opening one stream: the stream is the provider's, and the call is recorded. */
    method CreateStream(p: CompletionParams) returns (stream: UpstreamStream)
      modifies this
      ensures sent == old(sent) + [p]
      ensures stream == open(p)
    {
      sent := sent + [p];
      stream := open(p);
    }
  }

  /** Token usage with every count 0 when the provider left usage out. */
  function UsageOrZero(u: Option<Usage>): ChatUsage
  {
    match u
    case None => ChatUsage(0, 0, 0)
    case Some(usage) => ChatUsage(usage.promptTokens, usage.completionTokens, usage.totalTokens)
  }

  /**
   * A service's stream over a provider stream: the translated events of every
   * delivered chunk, then, if the provider failed, a single error whose message
   * `describe` gives.
   */
  function Relay(s: UpstreamStream, describe: UpstreamFailure -> string): (r: ServiceStream)
    ensures |r.events| <= 2 * |s.chunks|
    ensures r.error.Some? <==> s.failure.Some?
    ensures s.failure.Some? ==> r.error.value == describe(s.failure.value)
  {
    ServiceStream(Translate(s.chunks), if s.failure.Some? then Some(describe(s.failure.value)) else None)
  }
}
