# AI chat relay server — admission control and streaming relay

A model of the AI chat relay server's core. Authenticated callers send chat-completion requests. The server forwards them to an upstream language-model provider (Perplexity when its key is configured, OpenAI otherwise) and relays the answer. The answer is either one JSON document or a stream of server-sent events.

Traffic is admitted by token buckets:
- an HTTP middleware keys buckets by client address (`ip:<host>`);
- each chat endpoint keys buckets by user (`user:<id>`).

The buckets live either in a shared store of hashes (`bucket:<key>` with fields `tokens` and `last_refill`) or in an in-process table.

The project is organised by source file:

| file | module | models |
|---|---|---|
| `wrappers.dfy` | `Wrappers` | `Option` and `Result` |
| `rate_limiter.dfy` | `RateLimiting` | the bucket arithmetic as functions, both stores, and the limiter as a class with the shared-store client and the in-process table as fields |
| `rate_limit_middleware.dfy` | `RateLimitMiddleware` | the gate in front of every route |
| `chat_models.dfy` | `ChatModels` | request and response types and the request field constraints |
| `upstream.dfy` | `Upstream` | what both services share: parameter defaulting with Python `or`, chunk-to-event translation, the JSON form of events, provider outcomes |
| `openai_service.dfy` | `OpenAIService` | the OpenAI service (validated `ChatResponse`, error wording by failure kind) |
| `llm_service.dfy` | `LLMService` | the service the endpoints use (provider and default-model choice, plain dictionary response, one error prefix) |
| `chat_endpoint.dfy` | `ChatEndpoint` | both endpoints and the server-sent-event framing loop |

Things outside the model are parameters:
- the current time is the parameter `now` (seconds, `real`);
- the provider is a client object. It answers each call through a function from the defaulted parameters to the outcome: a completion or a failure, or a stream of chunks that ends normally or with a failure. It also records the parameters of every call made, so the model can state which calls happened;
- JSON serialisation is the function parameter `dumps`.

Where the written specification and the code differ, the model follows the code:
- **Clock going backwards.** The code does not clamp elapsed time at 0. `RateLimiting.BackwardClockGoesNegative` shows the consequence, and the bounds lemmas assume checks arrive in time order.
- **Rejected check on the shared store.** A rejected check writes nothing back to the shared store. Only the in-process table records the refill on rejection.
- **Store choice.** The store is chosen once when `initialize` runs. There is no per-call fallback and no re-probe.

## Model

| member | source | states |
|---|---|---|
| RateLimiting.RefillRate | app/core/rate_limiter.py:64 | the refill rate is non-negative and refills exactly `capacity` tokens over one window |
| RateLimiting.Refill | app/core/rate_limiter.py:102-106 | the refilled count never exceeds capacity and is either capacity or the old count plus elapsed time times rate (no clamp of elapsed time) |
| RateLimiting.Admit | app/core/rate_limiter.py:102-114 | a check admits iff the refilled count covers the cost, keeps the bucket's capacity and rate, and records `now` as the refill time; the full law is `AdmissionRule` |
| RateLimiting.MemoryStep | app/core/rate_limiter.py:87-114 | the reference for one in-process check: the table gains at most the checked key, and the decision is that of the key's bucket (a new full one on first use); frame, first use and bounds are `MemoryStepFrame`, `FirstCheckStartsFull` and `MemoryStepKeepsBounds` |
| RateLimiting.StoredBucket | app/core/rate_limiter.py:53-60 | the bucket read from a hash: a missing hash is full and refilled now, present fields are read as stored; missing-field defaults are `MissingFieldsDefaults` |
| RateLimiting.RedisStep | app/core/rate_limiter.py:47-85 | a rejected check leaves the store unchanged; an admitted one creates or updates only `bucket:<key>` and records `now` as its refill time; every other hash is unchanged |
| RateLimiting.RefillInBounds | app/core/rate_limiter.py:102-106 | refilling a bucket in bounds never loses tokens and never exceeds capacity |
| RateLimiting.BackwardClockGoesNegative | app/core/rate_limiter.py:102-106 | with a clock earlier than the last refill, an empty bucket refills to a negative count |
| RateLimiting.IdleWindowRefillsToCapacity | app/core/rate_limiter.py:94-106 | a bucket idle for a whole window is exactly full again |
| RateLimiting.RefillAtLastRefill | app/core/rate_limiter.py:102-107 | a check at the instant of the last refill adds no tokens |
| RateLimiting.AdmissionRule | app/core/rate_limiter.py:109-114 | admitted iff the refilled count covers the cost; an admitted check takes exactly the cost, a rejected one keeps the refilled count; the refill time becomes now |
| RateLimiting.AdmitKeepsBounds | app/core/rate_limiter.py:99-114 | one check with a non-negative cost keeps a bucket between 0 and capacity |
| RateLimiting.FirstCheckStartsFull | app/core/rate_limiter.py:91-97 | an unseen key starts from a full bucket: admitted iff capacity covers the cost |
| RateLimiting.MemoryStepFrame | app/core/rate_limiter.py:87-114 | a check touches only its own key's bucket and records `now` |
| RateLimiting.MemoryStepKeepsBounds | app/core/rate_limiter.py:87-114 | a check in time order keeps every bucket of the table in bounds |
| RateLimiting.Run | app/core/rate_limiter.py:87-114 | a sequence of checks gives one decision per check, loses no bucket, and creates a bucket for every key checked |
| RateLimiting.RunKeepsBounds | app/core/rate_limiter.py:87-114 | over any chronological sequence of checks every bucket stays between 0 and capacity |
| RateLimiting.BurstFrom | app/core/rate_limiter.py:102-114 | at the instant of the last refill, with `k` whole tokens, the first `k` unit checks are admitted and the rest rejected |
| RateLimiting.BurstAtOneInstant | app/core/rate_limiter.py:87-114 | for an unseen key exactly `capacity` unit checks at one instant are admitted and the next is rejected |
| RateLimiting.RedisFirstCheck | app/core/rate_limiter.py:55-83 | a missing hash reads as a full bucket; an admitted first check creates it with the remaining tokens and `now` |
| RateLimiting.MissingFieldsDefaults | app/core/rate_limiter.py:55-57 | in an existing hash a missing token count reads as 0 and a missing refill time as now |
| RateLimiting.RedisStepKeepsBounds | app/core/rate_limiter.py:47-85 | a shared-store check in time order with a non-negative cost keeps every hash holding both fields, a count between 0 and capacity, and a refill time no later than now |
| RateLimiting.RedisAgreesWithMemory | app/core/rate_limiter.py:47-114 | from the same bucket state both stores make the same decision, and an admitted check leaves the shared hash encoding the in-process bucket |
| RateLimiting.RedisStore.constructor | app/core/rate_limiter.py:34 | a new store holds no hashes |
| RateLimiting.RateLimiter.constructor | app/core/rate_limiter.py:27-29 | a new limiter has no shared-store client and an empty table |
| RateLimiting.RateLimiter.Initialize | app/core/rate_limiter.py:31-38 | the client is kept iff the probe succeeds, otherwise the limiter stays on the in-process table; the table is unchanged |
| RateLimiting.RateLimiter.IsAllowed | app/core/rate_limiter.py:40-45 | the decision is the one the store in use gives; exactly that store moves by one step and the other is untouched; the bounds of whichever store is in use are preserved |
| RateLimiting.RateLimiter.RedisRateLimit | app/core/rate_limiter.py:47-85 | the new store contents and decision are those of one shared-store step |
| RateLimiting.RateLimiter.MemoryRateLimit | app/core/rate_limiter.py:87-114 | the new table and decision are those of one in-process step; the client is unchanged |
| RateLimiting.QuotaExample | app/core/rate_limiter.py:87-114 | with 3 per 60 s, four checks at once give admitted ×3 then rejected, and one a window later is admitted |
| RateLimitMiddleware.IsExempt | app/middleware/rate_limiting.py:29 | exemption is exact membership in the three paths; `ExtendedExemptPathIsChecked` and `DetailedHealthIsChecked` show longer paths are checked |
| RateLimitMiddleware.ClientKey | app/middleware/rate_limiting.py:34-35 | the key is `ip:` followed by the client host, or `unknown` |
| RateLimitMiddleware.TooManyRequests | app/middleware/rate_limiting.py:39-46 | the rejection answer is 429 with a 60-second retry hint in the body and the `Retry-After` header |
| RateLimitMiddleware.Handle | app/middleware/rate_limiting.py:21-50 | non-HTTP and exempt requests are forwarded and leave the limiter untouched; any other request consults the limiter once under its client key and is forwarded iff admitted, else answered 429 |
| RateLimitMiddleware.ExtendedExemptPathIsChecked | app/middleware/rate_limiting.py:29 | exemption is by exact path: a longer path starting with an exempt one is checked |
| RateLimitMiddleware.DetailedHealthIsChecked | app/middleware/rate_limiting.py:29 | `/api/v1/health/detailed` is rate limited |
| RateLimitMiddleware.ClientKeysDistinguishHosts | app/middleware/rate_limiting.py:34-35 | distinct hosts never share a bucket |
| RateLimitMiddleware.MissingClientSharesUnknownBucket | app/middleware/rate_limiting.py:34 | a request without a client shares the bucket of host `unknown` |
| ChatModels.ValidRequest | app/models/chat.py:21-25 | the field constraints: temperature in [0, 2], token limit positive, top-p in [0, 1], penalties in [-2, 2], each when present; `RequestWithDefaults` and `DefaultedWithinRange` use it |
| ChatModels.RequestWithDefaults | app/models/chat.py:17-27 | the request made of messages and the field defaults satisfies every field constraint |
| Upstream.Defaulted | app/services/openai_service.py:32-42 | messages, user and the requested stream flag pass through; an absent model, temperature, token limit or top-p becomes the default model, 0.7, the configured limit or 1.0, and a present non-zero (non-empty) one is kept; each penalty is the given one or 0.0 |
| Upstream.AllAbsentGivesDefaults | app/services/openai_service.py:32-42 | a request with every optional field absent is sent with the default model, temperature 0.7, the configured token limit, top-p 1.0 and both penalties 0.0 |
| Upstream.DefaultedWithinRange | app/services/openai_service.py:32-42 | a valid request yields a non-empty model, a positive token limit, and temperature, top-p and penalties inside the provider's ranges, with temperature and top-p never 0 |
| Upstream.FalsyValuesAreReplaced | app/services/openai_service.py:33-37 | a temperature or top-p of 0.0 and an empty model are replaced by the defaults, exactly as if absent |
| Upstream.DefaultingIsIdempotent | app/services/openai_service.py:32-42 | defaulting the parameters that were sent sends them unchanged |
| Upstream.ChunkEvents | app/services/openai_service.py:92-126 | a chunk without choices yields nothing; otherwise only the first choice counts: a content event when content is present, then a finish event with an empty delta when the finish reason is truthy, all carrying the chunk's header fields |
| Upstream.Translate | app/services/openai_service.py:92-126 | a stream yields at most two events per chunk |
| Upstream.TranslateAppend | app/services/openai_service.py:92 | translation is chunk by chunk |
| Upstream.LaterChoicesIgnored | app/services/openai_service.py:94 | choices after the first never affect the events |
| Upstream.TranslatePreservesText | app/services/openai_service.py:92-110 | the relayed events carry exactly the provider's first-choice text, in order |
| Upstream.TranslateFinishCount | app/services/openai_service.py:113-126 | each finishing chunk produces exactly one finish event |
| Upstream.HelloExample | app/services/openai_service.py:92-126 | "Hel", "lo", then a finish with "stop" become two content events and one finish event |
| Upstream.EventJson | app/services/openai_service.py:96-126 | the dictionary an event is yielded as: header fields and one choice with index, a `content` delta or an empty delta, and the finish reason; `EventJsonInjective` shows it loses nothing |
| Upstream.EventJsonInjective | app/services/openai_service.py:96-126 | distinct events yield distinct dictionaries |
| Upstream.ProviderClient.constructor | app/services/perplexityai_service.py:14-23 | a new client has made no calls |
| Upstream.ProviderClient.Create | app/services/perplexityai_service.py:29-39 | one whole-completion call returns the provider's answer and is recorded once |
| Upstream.ProviderClient.CreateStream | app/services/perplexityai_service.py:68-78 | opening a stream returns the provider's stream and is recorded once |
| Upstream.Relay | app/services/openai_service.py:79-133 | a service stream has at most two events per delivered chunk and raises exactly when the provider failed, with the message the service words; the events are the translation, as the services state |
| OpenAIService.ToChatResponse | app/services/openai_service.py:44-65 | a response exists iff every choice has content; its choices map one to one, and its usage is the provider's or all zeros |
| OpenAIService.OpenAIService.constructor | app/services/openai_service.py:21-27 | the default model and token limit are the configured ones |
| OpenAIService.OpenAIService.CreateChatCompletion | app/services/openai_service.py:29-72 | one provider call with defaulted non-streaming parameters; a provider error becomes `OpenAI API error: …`, any other failure, including validation, becomes `Chat completion failed: …` |
| OpenAIService.OpenAIService.CreateChatCompletionStream | app/services/openai_service.py:74-133 | one provider stream with defaulted streaming parameters; the events are the translation of the delivered chunks, and a failure ends the stream with one `OpenAI streaming error: …` or `Streaming failed: …` |
| LLMService.DefaultModelFor | app/services/perplexityai_service.py:13-24 | the default model is never empty: the configured one when set, else `sonar-medium-online` for Perplexity and `gpt-4o-mini` for OpenAI |
| LLMService.ToDict | app/services/perplexityai_service.py:40-61 | the dictionary copies the header fields, maps choices one to one keeping possibly absent content, and zeroes absent usage |
| LLMService.DictAgreesWithChatResponse | app/services/perplexityai_service.py:40-61 | when a completion validates, the dictionary equals the validated response's dictionary form |
| LLMService.LLMService.constructor | app/services/perplexityai_service.py:11-25 | the provider is Perplexity iff its key is set, and the default model is chosen accordingly |
| LLMService.LLMService.CreateChatCompletion | app/services/perplexityai_service.py:27-64 | one provider call with defaulted non-streaming parameters; success gives the dictionary and every failure becomes `LLM API error: …` |
| LLMService.LLMService.CreateChatCompletionStream | app/services/perplexityai_service.py:66-114 | the events are the translation of the delivered chunks, and any failure ends the stream with one `LLM streaming error: …` |
| LLMService.LLMService.RequestCompletion | app/services/perplexityai_service.py:27-64 | exactly one provider call is made, with the defaulted non-streaming parameters, and the answer is the one `CreateChatCompletion` gives |
| LLMService.LLMService.RequestCompletionStream | app/services/perplexityai_service.py:66-114 | exactly one provider stream is opened, with the defaulted streaming parameters, and the events and error are those `CreateChatCompletionStream` gives |
| LLMService.StreamsAgreeWithOpenAIService | app/services/perplexityai_service.py:66-114 | with the same configuration both services stream the same events and fail on the same streams |
| ChatEndpoint.UserKey | app/api/v1/endpoints/chat.py:31 | the key is `user:` followed by the user id |
| ChatEndpoint.UserKeysNeverMeetClientKeys | app/api/v1/endpoints/chat.py:31 | user buckets and client-address buckets never share a key |
| ChatEndpoint.StreamFrames | app/api/v1/endpoints/chat.py:72-85 | one `data: <json>` frame per event in order, then `[DONE]` after a normal end or the error frame after a failure |
| ChatEndpoint.GenerateStream | app/api/v1/endpoints/chat.py:72-85 | the frames the loop emits are the stream's frames |
| ChatEndpoint.DataFrameInjective | app/api/v1/endpoints/chat.py:75 | two frames are equal exactly when their payloads are |
| ChatEndpoint.TerminalFramesDiffer | app/api/v1/endpoints/chat.py:76-85 | `[DONE]` and the error frame are different frames |
| ChatEndpoint.EventFrameIsNotTerminal | app/api/v1/endpoints/chat.py:75-76 | an event frame is never a terminal frame |
| ChatEndpoint.EventFramesHaveNoTerminal | app/api/v1/endpoints/chat.py:74-75 | the event frames contain no terminal frame |
| ChatEndpoint.ExactlyOneTerminal | app/api/v1/endpoints/chat.py:72-85 | every stream holds exactly one terminal frame and it comes last: `[DONE]` iff the stream ended normally, the error frame iff it failed |
| ChatEndpoint.FailureKeepsEmittedFrames | app/api/v1/endpoints/chat.py:73-85 | a failure keeps the frames already sent and replaces `[DONE]` by the error frame |
| ChatEndpoint.ChatCompletions | app/api/v1/endpoints/chat.py:23-51 | the limiter is consulted once under the user key; a rejected caller gets 429 and the provider client records no call; an admitted caller causes exactly one provider call and gets the service's response, or 500 if it fails |
| ChatEndpoint.ChatCompletionsStream | app/api/v1/endpoints/chat.py:54-105 | the limiter is consulted once under the user key; a rejected caller gets 429 and the provider client records no call; an admitted caller's request is marked streaming, exactly one provider stream is opened, and the answer is `text/event-stream` with the three no-buffering headers and the stream's frames |
| ChatEndpoint.HelloStreamFrames | app/api/v1/endpoints/chat.py:72-85 | "Hel", "lo", finish "stop" reach the client as two content frames, one finish frame and `[DONE]` |

## Left out

- Networking, the shared store's client library, key expiry (`expire` of twice the window), pipelining and store errors. The shared store is a map of hashes. The text round trip of field values (`str` then `float`) is taken as exact.
- Concurrency and cancellation. Two checks of one key run one after the other in the model. The shared-store read and write are not atomic in the code, so concurrent checks can both be admitted; the model does not capture that race.
- The wall clock (`time.time()`) is the parameter `now`. Token counts are `real`, not floating point, so rounding is not modelled.
- `json.dumps` is the parameter `dumps`. The terminal-frame lemmas assume it is injective and that objects serialise starting with `{`.
- Authentication (`get_current_user`) and the user id's origin: the endpoints take the user id as given.
- Request-body validation by the web framework. `ChatModels.ValidRequest` states the field constraints; the endpoints take their request as given.
- Response validation by the web framework against `ChatResponse` after the whole-completion endpoint returns. For example, a choice with absent content fails there.
- The streaming endpoint's 500 path. The only steps that can raise before the response is built are limiter errors, and store errors are not modelled.
- `get_available_models`, `health_check` and the `/models` route: not part of the admission and relay core.
- Logging.
- Application startup. Nothing calls `initialize` there, so a running server uses the in-process table; `RateLimiting.RateLimiter.Initialize` models what the call would do.
- The in-process table stores bucket values and the limiter replaces a key's bucket. The code mutates the bucket object in place; since no one else holds it, no aliasing is lost.
- Upstream.Translate: states only the bound of two events per chunk. The exact contents are stated per chunk by `Upstream.ChunkEvents` and over the stream by the text and finish-count lemmas.
- ChatEndpoint.ChatCompletions and ChatEndpoint.ChatCompletionsStream: the provider client's call record shows that a rejected caller causes no provider call. It does not timestamp the limiter check against the call, so the order within an admitted request is the order of the method body only.
- The streaming endpoint's laziness: the service stream is consumed as the response body is sent, after the endpoint returns. The model opens and frames the whole stream inside the endpoint.
