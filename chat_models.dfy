/**
 * The value types of the chat API: a request with its sampling controls (each
 * optional, with a default and a range), and the response with its choices and
 * token usage.
 */
module ChatModels {
  import opened Wrappers

  datatype ChatMessage = ChatMessage(role: string, content: string, name: Option<string>)

  /** A completion request.  Only `messages` is required; every other field may be absent. */
  datatype ChatRequest = ChatRequest(
    messages: seq<ChatMessage>,
    model: Option<string>,
    temperature: Option<real>,
    maxTokens: Option<int>,
    topP: Option<real>,
    frequencyPenalty: Option<real>,
    presencePenalty: Option<real>,
    stream: Option<bool>,
    user: Option<string>)

  datatype ChatChoice = ChatChoice(index: int, message: ChatMessage, finishReason: Option<string>)

  datatype ChatUsage = ChatUsage(promptTokens: int, completionTokens: int, totalTokens: int)

  datatype ChatResponse = ChatResponse(
    id: string,
    objectType: string,
    created: int,
    model: string,
    choices: seq<ChatChoice>,
    usage: ChatUsage)

  /** An optional number is absent or lies in `[lo, hi]`. */
  predicate WithinOrAbsent(x: Option<real>, lo: real, hi: real)
  {
    x.None? || lo <= x.value <= hi
  }

  /** The field constraints a request must meet to be accepted. */
  predicate ValidRequest(r: ChatRequest)
  {
    && WithinOrAbsent(r.temperature, 0.0, 2.0)
    && (r.maxTokens.None? || r.maxTokens.value > 0)
    && WithinOrAbsent(r.topP, 0.0, 1.0)
    && WithinOrAbsent(r.frequencyPenalty, -2.0, 2.0)
    && WithinOrAbsent(r.presencePenalty, -2.0, 2.0)
  }

  /**
   * The request built from `messages` alone: temperature 0.7, top-p 1.0, both
   * penalties 0.0, no streaming, and no model, token limit or user.  It is valid.
   */
  function RequestWithDefaults(messages: seq<ChatMessage>): (r: ChatRequest)
    ensures ValidRequest(r)
    ensures r.messages == messages
  {
    ChatRequest(messages, None, Some(0.7), None, Some(1.0), Some(0.0), Some(0.0), Some(false), None)
  }
}
