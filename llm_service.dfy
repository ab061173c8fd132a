/**
 * The completion service the chat endpoints use.  It talks to Perplexity when a
 * Perplexity key is configured and to OpenAI otherwise, defaults the request's
 * parameters like the OpenAI service, returns whole completions as a plain
 * dictionary (no validation), and raises every failure again under one prefix.
 */
module LLMService {
  import opened Wrappers
  import opened ChatModels
  import opened Upstream
  import OpenAIService

  /** Which provider the client is configured for (API key and base URL). */
  datatype Provider = Perplexity | OpenAI

  /** A choice of the dictionary response; the content is copied as is, possibly absent. */
  datatype DictChoice = DictChoice(index: int, role: string, content: Option<string>, finishReason: Option<string>)

  /** The dictionary a whole completion is returned as. */
  datatype DictResponse = DictResponse(
    id: string,
    objectType: string,
    created: int,
    model: string,
    choices: seq<DictChoice>,
    usage: ChatUsage)

  /** The provider the service uses: Perplexity iff its key is set (non-empty). */
  function ProviderFor(perplexityApiKey: string): Provider
  {
    if perplexityApiKey != "" then Perplexity else OpenAI
  }

  /**
   * The default model: the configured one when it is set, otherwise the
   * provider's own fallback, `sonar-medium-online` or `gpt-4o-mini`.
   */
  function DefaultModelFor(perplexityApiKey: string, defaultModelSetting: string): (m: string)
    ensures m != ""
    ensures defaultModelSetting != "" ==> m == defaultModelSetting
    ensures defaultModelSetting == "" && ProviderFor(perplexityApiKey) == Perplexity ==> m == "sonar-medium-online"
    ensures defaultModelSetting == "" && ProviderFor(perplexityApiKey) == OpenAI ==> m == "gpt-4o-mini"
  {
    if perplexityApiKey != "" then
      (if defaultModelSetting != "" then defaultModelSetting else "sonar-medium-online")
    else
      (if defaultModelSetting != "" then defaultModelSetting else "gpt-4o-mini")
  }

  /**
   * The dictionary built from a completion: choices map one to one, keeping index,
   * role, content and finish reason; usage counts are 0 when usage is absent.
   */
  function ToDict(c: Completion): (d: DictResponse)
    ensures d.id == c.id && d.objectType == c.objectType && d.created == c.created && d.model == c.model
    ensures |d.choices| == |c.choices|
    ensures forall i :: 0 <= i < |c.choices| ==>
              d.choices[i] == DictChoice(c.choices[i].index, c.choices[i].message.role,
                                         c.choices[i].message.content, c.choices[i].finishReason)
    ensures c.usage.None? ==> d.usage == ChatUsage(0, 0, 0)
    ensures c.usage.Some? ==>
              d.usage == ChatUsage(c.usage.value.promptTokens, c.usage.value.completionTokens, c.usage.value.totalTokens)
  {
    var choices := seq(|c.choices|, i requires 0 <= i < |c.choices| =>
      DictChoice(c.choices[i].index, c.choices[i].message.role, c.choices[i].message.content, c.choices[i].finishReason));
    DictResponse(c.id, c.objectType, c.created, c.model, choices, UsageOrZero(c.usage))
  }

  /** The dictionary form of a validated response. */
  function DictOf(r: ChatResponse): DictResponse
  {
    DictResponse(r.id, r.objectType, r.created, r.model,
                 seq(|r.choices|, i requires 0 <= i < |r.choices| =>
                   DictChoice(r.choices[i].index, r.choices[i].message.role,
                              Some(r.choices[i].message.content), r.choices[i].finishReason)),
                 r.usage)
  }

  /**
   * The two services return the same data: whenever a completion validates as a
   * `ChatResponse`, the dictionary this service returns is that response's
   * dictionary form.
   */
  lemma DictAgreesWithChatResponse(c: Completion)
    requires OpenAIService.ToChatResponse(c).Some?
    ensures ToDict(c) == DictOf(OpenAIService.ToChatResponse(c).value)
  {
    var r := OpenAIService.ToChatResponse(c).value;
    var d := ToDict(c);
    var e := DictOf(r);
    assert |d.choices| == |e.choices|;
    forall i | 0 <= i < |d.choices|
      ensures d.choices[i] == e.choices[i]
    {
      assert c.choices[i].message.content.Some?;
    }
    assert d.choices == e.choices;
  }

  /** The message of the exception a failed whole completion is raised again as. */
  function CompletionErrorMessage(f: UpstreamFailure): string
  {
    "LLM API error: " + f.message
  }

  /** The message of the exception a failed stream is raised again as. */
  function StreamErrorMessage(f: UpstreamFailure): string
  {
    "LLM streaming error: " + f.message
  }

  /** The service, configured with its provider, default model and default token limit. */
  class LLMService {
    const provider: Provider
    const defaultModel: string
    const maxTokens: int

    /** Choose the provider and the default model from the configured keys and settings. */
    constructor (perplexityApiKey: string, defaultModelSetting: string, maxTokensSetting: int)
      ensures provider == ProviderFor(perplexityApiKey)
      ensures defaultModel == DefaultModelFor(perplexityApiKey, defaultModelSetting)
      ensures maxTokens == maxTokensSetting
    {
      if perplexityApiKey != "" {
        provider := Perplexity;
        defaultModel := if defaultModelSetting != "" then defaultModelSetting else "sonar-medium-online";
      } else {
        provider := OpenAI;
        defaultModel := if defaultModelSetting != "" then defaultModelSetting else "gpt-4o-mini";
      }
      maxTokens := maxTokensSetting;
    }

    /**
     * One whole completion: the provider is called once with the defaulted,
     * non-streaming parameters; its completion is returned as a dictionary, and
     * any failure becomes one `LLM API error`.
     */
    function CreateChatCompletion(request: ChatRequest, complete: CompletionParams -> Result<Completion, UpstreamFailure>)
      : (r: Result<DictResponse, string>)
      ensures var sent := Defaulted(request, defaultModel, maxTokens, false);
        && (complete(sent).Success? ==> r == Success(ToDict(complete(sent).value)))
        && (complete(sent).Failure? ==> r == Failure("LLM API error: " + complete(sent).error.message))
    {
      match complete(Defaulted(request, defaultModel, maxTokens, false))
      case Success(c) => Success(ToDict(c))
      case Failure(f) => Failure(CompletionErrorMessage(f))
    }

    /**
     * A streamed completion: the provider is opened once with the defaulted,
     * streaming parameters; every delivered chunk is translated into events, in
     * order, and any failure ends the stream with one `LLM streaming error`.
     */
    function CreateChatCompletionStream(request: ChatRequest, open: CompletionParams -> UpstreamStream): (r: ServiceStream)
      ensures var upstream := open(Defaulted(request, defaultModel, maxTokens, true));
        && r.events == Translate(upstream.chunks)
        && (r.error.Some? <==> upstream.failure.Some?)
        && (upstream.failure.Some? ==> r.error == Some("LLM streaming error: " + upstream.failure.value.message))
    {
      Relay(open(Defaulted(request, defaultModel, maxTokens, true)), StreamErrorMessage)
    }

    /**
     * Ask the provider for one whole completion through `client`: exactly one call,
     * with the defaulted non-streaming parameters, is made, and the answer is the
     * one `CreateChatCompletion` describes.
     */
    method RequestCompletion(client: ProviderClient, request: ChatRequest) returns (r: Result<DictResponse, string>)
      modifies client
      ensures client.sent == old(client.sent) + [Defaulted(request, defaultModel, maxTokens, false)]
      ensures r == CreateChatCompletion(request, client.complete)
    {
      var outcome := client.Create(Defaulted(request, defaultModel, maxTokens, false));
      match outcome
      case Success(c) =>
        r := Success(ToDict(c));
      case Failure(f) =>
        r := Failure(CompletionErrorMessage(f));
    }

    /**
     * Open one provider stream through `client`: exactly one call, with the
     * defaulted streaming parameters, is made, and the events and error are those
     * `CreateChatCompletionStream` describes.
     */
    method RequestCompletionStream(client: ProviderClient, request: ChatRequest) returns (r: ServiceStream)
      modifies client
      ensures client.sent == old(client.sent) + [Defaulted(request, defaultModel, maxTokens, true)]
      ensures r == CreateChatCompletionStream(request, client.open)
    {
      var upstream := client.CreateStream(Defaulted(request, defaultModel, maxTokens, true));
      r := Relay(upstream, StreamErrorMessage);
    }
  }

  /**
   * Both services stream the same events for the same provider stream; they
   * differ only in the wording of the error they raise.
   */
  lemma StreamsAgreeWithOpenAIService(s: OpenAIService.OpenAIService, t: LLMService, request: ChatRequest,
                                      open: CompletionParams -> UpstreamStream)
    requires s.defaultModel == t.defaultModel && s.maxTokens == t.maxTokens
    ensures s.CreateChatCompletionStream(request, open).events == t.CreateChatCompletionStream(request, open).events
    ensures s.CreateChatCompletionStream(request, open).error.Some? <==> t.CreateChatCompletionStream(request, open).error.Some?
  {
  }
}
