/**
 * The OpenAI completion service: it defaults the request's parameters, calls the
 * provider, and maps a whole completion to a validated `ChatResponse` or a stream
 * of chunks to forwarded events.  Every failure is raised again as one exception
 * whose message names the kind of failure.  The provider call is a parameter.
 */
module OpenAIService {
  import opened Wrappers
  import opened ChatModels
  import opened Upstream

  /** Stands for the text of the validation error raised when a completion does not fit `ChatResponse`. */
  const ValidationErrorText: string := "validation error for ChatResponse"

  /**
   * The `ChatResponse` built from a completion: choices map one to one, keeping
   * index, role, content and finish reason, and usage counts are 0 when the
   * provider left usage out.  Building it fails validation (no response) when a
   * choice's message has no content.
   */
  function ToChatResponse(c: Completion): (r: Option<ChatResponse>)
    ensures r.Some? <==> forall i :: 0 <= i < |c.choices| ==> c.choices[i].message.content.Some?
    ensures r.Some? ==>
              && r.value.id == c.id && r.value.objectType == c.objectType
              && r.value.created == c.created && r.value.model == c.model
              && |r.value.choices| == |c.choices|
              && (forall i :: 0 <= i < |c.choices| ==>
                    r.value.choices[i] == ChatChoice(c.choices[i].index,
                                                     ChatMessage(c.choices[i].message.role, c.choices[i].message.content.value, None),
                                                     c.choices[i].finishReason))
    ensures r.Some? && c.usage.None? ==> r.value.usage == ChatUsage(0, 0, 0)
    ensures r.Some? && c.usage.Some? ==>
              r.value.usage == ChatUsage(c.usage.value.promptTokens, c.usage.value.completionTokens, c.usage.value.totalTokens)
  {
    if forall i :: 0 <= i < |c.choices| ==> c.choices[i].message.content.Some? then
      var choices := seq(|c.choices|, i requires 0 <= i < |c.choices| =>
        ChatChoice(c.choices[i].index,
                   ChatMessage(c.choices[i].message.role, c.choices[i].message.content.value, None),
                   c.choices[i].finishReason));
      Some(ChatResponse(c.id, c.objectType, c.created, c.model, choices, UsageOrZero(c.usage)))
    else
      None
  }

  /** The message of the exception a failed whole completion is raised again as. */
  function CompletionErrorMessage(f: UpstreamFailure): string
  {
    match f
    case ApiError(m) => "OpenAI API error: " + m
    case OtherError(m) => "Chat completion failed: " + m
  }

  /** The message of the exception a failed stream is raised again as. */
  function StreamErrorMessage(f: UpstreamFailure): string
  {
    match f
    case ApiError(m) => "OpenAI streaming error: " + m
    case OtherError(m) => "Streaming failed: " + m
  }

  /** The service, configured with a default model and a default token limit. */
  class OpenAIService {
    const defaultModel: string
    const maxTokens: int

    constructor (defaultModelSetting: string, maxTokensSetting: int)
      ensures defaultModel == defaultModelSetting && maxTokens == maxTokensSetting
    {
      defaultModel := defaultModelSetting;
      maxTokens := maxTokensSetting;
    }

    /**
     * One whole completion: the provider is called once with the defaulted,
     * non-streaming parameters; its completion becomes a `ChatResponse`, and a
     * provider failure or a completion that does not validate becomes one error.
     */
    function CreateChatCompletion(request: ChatRequest, complete: CompletionParams -> Result<Completion, UpstreamFailure>)
      : (r: Result<ChatResponse, string>)
      ensures var sent := Defaulted(request, defaultModel, maxTokens, false);
        && (complete(sent).Failure? ==> r == Failure(CompletionErrorMessage(complete(sent).error)))
        && (complete(sent).Success? && ToChatResponse(complete(sent).value).Some? ==>
              r == Success(ToChatResponse(complete(sent).value).value))
        && (complete(sent).Success? && ToChatResponse(complete(sent).value).None? ==>
              r == Failure("Chat completion failed: " + ValidationErrorText))
    {
      match complete(Defaulted(request, defaultModel, maxTokens, false))
      case Failure(f) => Failure(CompletionErrorMessage(f))
      case Success(c) =>
        match ToChatResponse(c)
        case Some(response) => Success(response)
        case None => Failure("Chat completion failed: " + ValidationErrorText)
    }

    /**
     * A streamed completion: the provider is opened once with the defaulted,
     * streaming parameters; every delivered chunk is translated into events, in
     * order, and a provider failure ends the stream with one wrapped error.
     */
    function CreateChatCompletionStream(request: ChatRequest, open: CompletionParams -> UpstreamStream): (r: ServiceStream)
      ensures var upstream := open(Defaulted(request, defaultModel, maxTokens, true));
        && r.events == Translate(upstream.chunks)
        && (r.error.Some? <==> upstream.failure.Some?)
        && (upstream.failure.Some? ==> r.error == Some(StreamErrorMessage(upstream.failure.value)))
    {
      Relay(open(Defaulted(request, defaultModel, maxTokens, true)), StreamErrorMessage)
    }
  }
}
