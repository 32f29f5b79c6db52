# API Testing Hub backend — a verified model of its core

The backend has two halves. One is a safety-checked HTTP proxy: a client
describes a request (method, URL, headers, query parameters, body,
timeout), the request is validated, sent once, and the outcome comes
back as an `ApiExecutionResponse` record. The other is an AI
documentation pipeline: a request or response is turned into a prompt,
sent to a chat-completion API with bounded retries, and the answer,
which is always a string, is cached per endpoint and turned into an HTTP
reply by the controller.

The Dafny model has one module per core Java class:

- **Shared modules.** `Wrappers` models Java `null` as `Option`. `JavaStrings` models the `String` methods the code relies on:
  - `trim`, `isEmpty`, `toUpperCase` and `toLowerCase`;
  - `startsWith` and `contains`;
  - decimal printing;
  - `hashCode`, with 32-bit wrap-around;
  - `Objects.hash`.

  `Dto` transcribes the two records.
- **Proxy half.** `RequestValidator`, `ApiRequestExceptions`, `ApiRequestMapper`, `ApiResponseMapper` and `ApiRequestService`.
- **AI half.**
  - `JsonTree` is Jackson's node tree with its `get`, `path`, `has`, `isEmpty` and `asText` behaviour.
  - `ClientService` holds the retry loop and message classification.
  - `PromptService` is prompt filling.
  - `AiDocumentation` is the cached operations: a class with three map fields.
  - `AiDocumentationController` is the status rule.

Library code the model does not define is passed in as a function parameter:
- `java.net.URL` protocol parsing;
- `UriComponentsBuilder.toUriString`;
- the HTTP client;
- the HEAD probe;
- Jackson parsing;
- Jackson map serialisation;
- `String.format`;
- the upstream AI server.

The clock, the request id and the messages of the JVM's `NullPointerException`s (one per null-dereference site) are passed in as values.

## Model

| member | source | states |
|---|---|---|
| ApiRequestExceptions.WithMessage | src/main/java/com/apitestinghub/exception/ApiRequestException.java:9-12 | message-only constructor: no cause, status BAD_REQUEST (400) |
| ApiRequestExceptions.WithStatus | src/main/java/com/apitestinghub/exception/ApiRequestException.java:14-17 | message+status constructor keeps the given status |
| ApiRequestExceptions.WithCause | src/main/java/com/apitestinghub/exception/ApiRequestException.java:19-22 | message+cause constructor records the cause and sets INTERNAL_SERVER_ERROR (500) |
| ApiRequestExceptions.WithCauseAndStatus | src/main/java/com/apitestinghub/exception/ApiRequestException.java:24-27 | message+cause+status constructor keeps cause and status |
| ApiRequestExceptions.GetHttpStatus | src/main/java/com/apitestinghub/exception/ApiRequestException.java:29-31 | returns exactly the stored status |
| ApiRequestExceptions.DefaultStatusFollowsCause | src/main/java/com/apitestinghub/exception/ApiRequestException.java:9-27 | the two defaulting constructors give different statuses; each equals its explicit-status twin at its default status |
| RequestValidator.ValidateMethod | src/main/java/com/apitestinghub/util/RequestValidator.java:56-65 | a null or blank method fails with "HTTP is required "; any other failure is "Invalid HTTP method: " + method + the allowed list; every failure is BAD_REQUEST |
| RequestValidator.MethodAcceptedIffWhitelisted | src/main/java/com/apitestinghub/util/RequestValidator.java:20-27 | a present method passes iff it equals one of the seven whitelisted names ignoring case |
| RequestValidator.LowerCaseGetIsAccepted | src/main/java/com/apitestinghub/util/RequestValidator.java:62-64 | "get" passes, because the whitelist is matched on the upper-cased method |
| RequestValidator.TraceIsRejected | src/main/java/com/apitestinghub/util/RequestValidator.java:62-64 | "TRACE" fails |
| RequestValidator.ValidateUrl | src/main/java/com/apitestinghub/util/RequestValidator.java:67-90 | a null or blank URL fails with "URL is required"; an unparseable one with "Invalid URL format: " + reason; a lower-cased protocol in {file, ftp, javascript, data} with "Unsafe protocol: " + protocol; any other failure with "Only HTTP and HTTPS protocols are allowed"; every failure is BAD_REQUEST |
| RequestValidator.ProtocolAcceptedIffHttp | src/main/java/com/apitestinghub/util/RequestValidator.java:77-86 | the protocol checks pass iff the protocol is http or https in any case; the unsafe list only selects the message |
| RequestValidator.SafeUrlIffHttpScheme | src/main/java/com/apitestinghub/util/RequestValidator.java:47-54 | `isSafeUrl` holds iff the URL is present, not blank, parses, and its protocol is http or https ignoring case |
| RequestValidator.IsSafeUrl | src/main/java/com/apitestinghub/util/RequestValidator.java:47-54 | true exactly when the URL check alone returns normally |
| RequestValidator.ValidateTimeout | src/main/java/com/apitestinghub/util/RequestValidator.java:92-105 | passes iff absent or 1..300000; every value <= 0 fails with "Timeout must be a positive integer", every value > 300000 with "Timeout must be less than 5 minutes"; failures are BAD_REQUEST |
| RequestValidator.TimeoutBounds | src/main/java/com/apitestinghub/util/RequestValidator.java:92-105 | absent, 1 and 300000 pass; 0 and 300001 fail with their two messages |
| RequestValidator.ValidateRequest | src/main/java/com/apitestinghub/util/RequestValidator.java:36-45 | a null method fails first with "Request cannot be null"; then the first failing check of method, URL and timeout decides the error; every failure is BAD_REQUEST |
| RequestValidator.NonHttpSchemeRejected | src/main/java/com/apitestinghub/util/RequestValidator.java:42-44 | an unsafe URL fails the whole request, and with a valid method the URL check's error is the one reported |
| RequestValidator.RequestValidIffEachCheckPasses | src/main/java/com/apitestinghub/util/RequestValidator.java:36-45 | a request passes iff method, URL and timeout each pass |
| ApiRequestMapper.ApplyDefaults | src/main/java/com/apitestinghub/mapper/ApiRequestMapper.java:11-23 | null headers and params become empty, null timeout 30000, null followRedirects true; all other components as given |
| ApiRequestMapper.ApplyDefaultsIdempotent | src/main/java/com/apitestinghub/mapper/ApiRequestMapper.java:11-23 | defaulting twice equals once; a request is a fixed point iff no defaulted component is null |
| ApiRequestMapper.GetTimeoutMs | src/main/java/com/apitestinghub/mapper/ApiRequestMapper.java:25-27 | the given timeout, or 30000 |
| ApiRequestMapper.ShouldFollowRedirects | src/main/java/com/apitestinghub/mapper/ApiRequestMapper.java:29-31 | the given flag, or true |
| ApiRequestMapper.GetHeaders | src/main/java/com/apitestinghub/mapper/ApiRequestMapper.java:33-35 | the given headers, or the empty map |
| ApiRequestMapper.GetQueryParams | src/main/java/com/apitestinghub/mapper/ApiRequestMapper.java:37-39 | the given query parameters, or the empty map |
| ApiRequestMapper.GettersAgreeWithApplyDefaults | src/main/java/com/apitestinghub/mapper/ApiRequestMapper.java:25-39 | each getter equals the corresponding component of `applyDefaults` |
| ApiRequestMapper.MissingIsExplicitDefault | src/main/java/com/apitestinghub/mapper/ApiRequestMapper.java:16-21 | leaving a component null defaults exactly as giving its default explicitly |
| ApiResponseMapper.IsSuccessStatusCode | src/main/java/com/apitestinghub/mapper/ApiResponseMapper.java:58-60 | success is exactly the 2xx series: the status divided by 100 is 2 |
| ApiResponseMapper.MapFromResponseEntity | src/main/java/com/apitestinghub/mapper/ApiResponseMapper.java:15-26 | components copied from the response; time and request id passed through; success iff 200 <= status < 300 |
| ApiResponseMapper.MapFromException | src/main/java/com/apitestinghub/mapper/ApiResponseMapper.java:28-41 | status, text, headers and body from the error; success false whatever the status |
| ApiResponseMapper.ErrorIsResponseWithoutSuccess | src/main/java/com/apitestinghub/mapper/ApiResponseMapper.java:15-41 | an error maps like an equal response with success forced false, so the two differ exactly for a 2xx status |
| ApiResponseMapper.MapFromGeneralException | src/main/java/com/apitestinghub/mapper/ApiResponseMapper.java:43-56 | status 500, "Internal Server Error", empty headers, body "Request failed: " + message, success false |
| ApiResponseMapper.ApplyDefaults | src/main/java/com/apitestinghub/mapper/ApiResponseMapper.java:62-73 | only null headers (to empty) and a null timestamp (to now) change |
| ApiResponseMapper.ApplyDefaultsIdempotent | src/main/java/com/apitestinghub/mapper/ApiResponseMapper.java:62-73 | idempotent whatever instant the second call sees; fixed point iff headers and timestamp are present |
| ApiResponseMapper.MappedResponsesAreDefaulted | src/main/java/com/apitestinghub/mapper/ApiResponseMapper.java:15-73 | every record the three mappings build is already a fixed point of `applyDefaults` |
| ApiRequestService.UriComponentsBuilder.FromUriString | src/main/java/com/apitestinghub/service/ApiRequestService.java:84 | a builder over the URL with no query parameters |
| ApiRequestService.UriComponentsBuilder.QueryParam | src/main/java/com/apitestinghub/service/ApiRequestService.java:85 | appends one parameter, keeping the earlier ones in order |
| ApiRequestService.UriComponentsBuilder.ToUriString | src/main/java/com/apitestinghub/service/ApiRequestService.java:86 | the rendering of the source URL with exactly the parameters added so far |
| ApiRequestService.FullUrl | src/main/java/com/apitestinghub/service/ApiRequestService.java:80-87 | the request URL itself without parameters, the rendering of URL and parameters otherwise |
| ApiRequestService.BuildUrlWithParams | src/main/java/com/apitestinghub/service/ApiRequestService.java:80-87 | the URL itself when there are no parameters; otherwise the builder's rendering of the URL with all parameters, in map order |
| ApiRequestService.Outbound | src/main/java/com/apitestinghub/service/ApiRequestService.java:89-96 | upper-cased method, full URL, given or empty headers, body or "" |
| ApiRequestService.ExecuteRequest | src/main/java/com/apitestinghub/service/ApiRequestService.java:48-60 | validation failure is thrown before any call; else the outbound request is sent; a response maps by `mapFromResponseEntity` and an HTTP error by `mapFromException`, both with the request id; any other failure is `ApiRequestException("Request failed: "+msg, 500)` |
| ApiRequestService.InvalidRequestMakesNoCall | src/main/java/com/apitestinghub/service/ApiRequestService.java:48-55 | an invalid request's outcome is the same whatever the client would answer, and carries BAD_REQUEST |
| ApiRequestService.CompletedSuccessMeansTwoXx | src/main/java/com/apitestinghub/service/ApiRequestService.java:98-106 | a response record carries the request id and elapsed time, and reports success iff the call answered normally with a 2xx status |
| ApiRequestService.TransportFailureIsServerError | src/main/java/com/apitestinghub/service/ApiRequestService.java:108-113 | a called request ends as an error signal iff the call failed without an HTTP status; that signal has status 500 |
| ApiRequestService.TimeoutAndRedirectsNotConsulted | src/main/java/com/apitestinghub/service/ApiRequestService.java:89-96 | with valid timeouts, changing timeout and followRedirects changes nothing in the execution |
| ApiRequestService.NoParamsKeepsUrl | src/main/java/com/apitestinghub/service/ApiRequestService.java:81-82 | with null or empty query parameters, the request URL goes out unchanged |
| ApiRequestService.ValidateUrl | src/main/java/com/apitestinghub/service/ApiRequestService.java:65-76 | true iff the URL is safe and the HEAD probe answers 2xx |
| ApiRequestService.UnsafeUrlIsNotProbed | src/main/java/com/apitestinghub/service/ApiRequestService.java:66-68 | an unsafe URL yields false whatever the probe would answer |
| JsonTree.Json.Get | src/main/java/com/apitestinghub/service/ai/ClientService.java:137 | `get(name)`: a member of an object, otherwise null (Jackson library semantics, at its call site) |
| JsonTree.Json.Path | src/main/java/com/apitestinghub/service/ai/ClientService.java:142 | `path(name)`: as `get`, with the missing node for null (Jackson library semantics, at its call site) |
| JsonTree.Json.At | src/main/java/com/apitestinghub/service/ai/ClientService.java:148 | `get(0)`: an array element in range, otherwise null (Jackson library semantics, at its call site) |
| JsonTree.Json.Has | src/main/java/com/apitestinghub/service/ai/ClientService.java:136 | `has(name)`: true exactly for an object holding that member, whatever its value (Jackson library semantics, at its call site) |
| JsonTree.Json.IsEmpty | src/main/java/com/apitestinghub/service/ai/ClientService.java:143 | `isEmpty()`: true unless the node is an array with elements or an object with members (Jackson library semantics, at its call site) |
| JsonTree.Json.AsText | src/main/java/com/apitestinghub/service/ai/ClientService.java:148 | `asText()`: a text node's text, a number's literal, "null" for JSON null, "" for containers and the missing node (Jackson library semantics, at its call site) |
| JsonTree.NonEmptyIsPopulatedContainer | src/main/java/com/apitestinghub/service/ai/ClientService.java:143 | `isEmpty()` fails exactly for a non-empty array or object |
| JsonTree.PathThroughMissing | src/main/java/com/apitestinghub/service/ai/ClientService.java:148 | `path` chains through a missing member to the missing node, whose text is "" |
| ClientService.BuildApiRequest | src/main/java/com/apitestinghub/service/ai/ClientService.java:64-85 | exactly two messages, system prompt then the prompt as the user's; model and token limit from configuration; no streaming |
| ClientService.IsRetryableError | src/main/java/com/apitestinghub/service/ai/ClientService.java:97-103 | only HTTP errors are retried; every 5xx is; among 4xx only 429 is |
| ClientService.RetryableIffOverloaded | src/main/java/com/apitestinghub/service/ai/ClientService.java:97-103 | retryable iff an HTTP error with status >= 500 or 429 |
| ClientService.HandleHttpError | src/main/java/com/apitestinghub/service/ai/ClientService.java:105-130 | 429, 401, 403 and 404 give their fixed messages; any other status gives "API error (n): msg" |
| ClientService.ExtractContentFromResponse | src/main/java/com/apitestinghub/service/ai/ClientService.java:132-162 | error payload gives "API Error: "+message, or "Error parsing AI response: " + the JVM message of that null dereference without one; choices without element 0 give the same prefix + the JVM message of the other null dereference; empty choices give "No response…"; trimmed first content, or "Empty response…"; parse failure gives "Error parsing AI response: "+msg |
| ClientService.WellFormedCompletion | src/main/java/com/apitestinghub/service/ai/ClientService.java:142-156 | a non-blank content of a well-formed completion comes back trimmed |
| ClientService.ErrorPayload | src/main/java/com/apitestinghub/service/ai/ClientService.java:136-140 | "error" object with message gives "API Error: "+message; one without a message takes the parse-error path |
| ClientService.NullSitesReportedApart | src/main/java/com/apitestinghub/service/ai/ClientService.java:137-148 | an error object without message and choices given as an object are reported with different texts whenever the JVM words the two null dereferences differently |
| ClientService.ChoicesAsObject | src/main/java/com/apitestinghub/service/ai/ClientService.java:142-148 | a non-empty object as choices passes the emptiness test and ends on the parse-error path |
| ClientService.Conclude | src/main/java/com/apitestinghub/service/ai/ClientService.java:58-61 | an unretried attempt: no value for an empty body, extracted content, `handleHttpError` for an HTTP error, AI_ERROR_MESSAGE otherwise |
| ClientService.CallFrom | src/main/java/com/apitestinghub/service/ai/ClientService.java:57-61 | at most four attempts; all but the last are retryable failures; a retryable last attempt means four attempts and AI_ERROR_MESSAGE, otherwise the last attempt concludes the call |
| ClientService.RetryDelayMs | src/main/java/com/apitestinghub/service/ai/ClientService.java:87-89 | every nominal wait lies between 1 s and 10 s |
| ClientService.BackoffSchedule | src/main/java/com/apitestinghub/service/ai/ClientService.java:88 | the three waits are 1, 2 and 4 seconds |
| ClientService.ExecuteAiRequest | src/main/java/com/apitestinghub/service/ai/ClientService.java:47-62 | sends the built payload; its result and attempt count are those of `CallOutcome` over the server's answers to that payload, with one nominal wait per retry |
| ClientService.CallOutcome | src/main/java/com/apitestinghub/service/ai/ClientService.java:56-61 | one to four attempts; all but the last are retryable failures; exhaustion gives AI_ERROR_MESSAGE after four, otherwise the last attempt concludes the call |
| ClientService.PersistentOverloadIsUnavailable | src/main/java/com/apitestinghub/service/ai/ClientService.java:57-61 | four retryable failures end in AI_ERROR_MESSAGE after four attempts |
| ClientService.FirstNonRetryableDecides | src/main/java/com/apitestinghub/service/ai/ClientService.java:57-61 | a first attempt that is not retryable alone decides the call |
| ClientService.RecoversAfterTransientOverload | src/main/java/com/apitestinghub/service/ai/ClientService.java:57-58 | two overloads then a reply give that reply's content after three attempts |
| ClientService.NoValueIffEmptyReply | src/main/java/com/apitestinghub/service/ai/ClientService.java:56-58 | the call has no value iff its last attempt was a 2xx with an empty body |
| ClientService.RateLimitBranchUnreachable | src/main/java/com/apitestinghub/service/ai/ClientService.java:108-111 | the rate-limit message only arises as model content, never from an error |
| ClientService.CallResultTaxonomy | src/main/java/com/apitestinghub/service/ai/ClientService.java:57-61 | every value is AI_ERROR_MESSAGE, an extraction result or a `handleHttpError` message |
| PromptService.FormatBody | src/main/java/com/apitestinghub/service/ai/PromptService.java:64-68 | null or blank gives "(empty)"; up to 5000 characters unchanged; longer gives its first 4997 characters + "..."; never longer than 5000 |
| PromptService.FormatBodyIdempotent | src/main/java/com/apitestinghub/service/ai/PromptService.java:64-68 | abbreviating an abbreviated body changes nothing |
| PromptService.FormatMap | src/main/java/com/apitestinghub/service/ai/PromptService.java:54-62 | null or empty map gives "{}", otherwise its JSON text |
| PromptService.MissingIsEmpty | src/main/java/com/apitestinghub/service/ai/PromptService.java:54-65 | a null map prints like an empty one, a null body like a blank one |
| PromptService.DescriptionArgs | src/main/java/com/apitestinghub/service/ai/PromptService.java:42-46 | the description prompt's arguments are method, URL, headers, query parameters, body, in that order |
| PromptService.AnalysisArgs | src/main/java/com/apitestinghub/service/ai/PromptService.java:48-52 | the analysis prompt's arguments are status, status text, headers, body, time, in that order |
| PromptService.BuildDocumentationPrompt | src/main/java/com/apitestinghub/service/ai/PromptService.java:34-40 | the documentation prompt's arguments are the description arguments followed by the analysis arguments |
| PromptService.BuildDescriptionPrompt | src/main/java/com/apitestinghub/service/ai/PromptService.java:42-46 | the description template filled with the description arguments |
| PromptService.BuildAnalysisPrompt | src/main/java/com/apitestinghub/service/ai/PromptService.java:48-52 | the analysis template filled with the analysis arguments |
| PromptService.DescriptionIgnoresSessionAndTransportSettings | src/main/java/com/apitestinghub/service/ai/PromptService.java:42-46 | session id, timeout and followRedirects do not reach the description prompt |
| AiDocumentation.EndpointKey | src/main/java/com/apitestinghub/service/ai/DocumentationService.java:32 | the key of the documentation and description caches (also line 47): the printed URL, one underscore, the printed method, a null printing as "null" |
| AiDocumentation.AnalysisKey | src/main/java/com/apitestinghub/service/ai/DocumentationService.java:62 | the analysis key: decimal status, underscore, decimal time, underscore, decimal `Objects.hash` of the body |
| AiDocumentation.IsCacheable | src/main/java/com/apitestinghub/service/ai/DocumentationService.java:33 | the write gate of all three caches (also lines 48 and 63): a result is stored iff it is present and "error" occurs at no position of it |
| AiDocumentation.AfterCall | src/main/java/com/apitestinghub/service/ai/DocumentationService.java:31-33 | a hit or a refused result leaves the cache unchanged; otherwise exactly the one key is written; the gate invariant is kept |
| AiDocumentation.DocumentationService.constructor | src/main/java/com/apitestinghub/service/ai/DocumentationService.java:25-29 | three empty caches |
| AiDocumentation.DocumentationService.GenerateDocumentation | src/main/java/com/apitestinghub/service/ai/DocumentationService.java:31-44 | hit gives the cached value with no call; miss makes one call with the documentation prompt and label and stores the result through the gate; other caches unchanged |
| AiDocumentation.DocumentationService.GenerateApiDescription | src/main/java/com/apitestinghub/service/ai/DocumentationService.java:46-59 | same, with the description prompt and cache |
| AiDocumentation.DocumentationService.AnalyzeResponse | src/main/java/com/apitestinghub/service/ai/DocumentationService.java:61-75 | same, with the analysis prompt and cache, keyed by status, time and body hash |
| AiDocumentation.DescribeTwice | src/main/java/com/apitestinghub/service/ai/DocumentationService.java:46-48 | a second description request after a stored one returns the same value without a call |
| AiDocumentation.EndpointKeyInjective | src/main/java/com/apitestinghub/service/ai/DocumentationService.java:32 | with no '_' in the method, equal keys mean equal URL and method |
| AiDocumentation.EndpointKeyCollision | src/main/java/com/apitestinghub/service/ai/DocumentationService.java:32 | "a_b"/"c" and "a"/"b_c" share a key |
| AiDocumentation.DocumentationKeyIgnoresResponse | src/main/java/com/apitestinghub/service/ai/DocumentationService.java:32 | the key ignores headers, params and body (and the response is no argument of it) |
| AiDocumentation.AnalysisKeyInjective | src/main/java/com/apitestinghub/service/ai/DocumentationService.java:62 | equal analysis keys mean equal status, time and body hash |
| AiDocumentation.AnalysisKeyCollision | src/main/java/com/apitestinghub/service/ai/DocumentationService.java:62 | bodies "Aa" and "BB" share an analysis key |
| AiDocumentation.GateAsWritten | src/main/java/com/apitestinghub/service/ai/DocumentationService.java:33 | nothing is stored for a null result; a string is stored iff "error" occurs nowhere in it |
| AiDocumentation.ApiErrorMessagesAreCached | src/main/java/com/apitestinghub/service/ai/DocumentationService.java:33 | "API Error: "+m is stored iff m holds no "error" |
| AiDocumentation.UnavailableMessageIsCached | src/main/java/com/apitestinghub/service/ai/DocumentationService.java:33 | AI_ERROR_MESSAGE passes the gate and is stored |
| AiDocumentation.StatusErrorMessageIsRefused | src/main/java/com/apitestinghub/service/ai/DocumentationService.java:33 | every "API error (n): …" message is refused by the gate |
| AiDocumentationController.IsErrorResponse | src/main/java/com/apitestinghub/controller/AiDocumentationController.java:112-119 | holds iff the result starts with one of the six listed prefixes (case-sensitive) |
| AiDocumentationController.BuildResponse | src/main/java/com/apitestinghub/controller/AiDocumentationController.java:105-119 | body unchanged; status 429 iff the result starts with one of the six prefixes, else 200 |
| AiDocumentationController.HandleError | src/main/java/com/apitestinghub/controller/AiDocumentationController.java:121-125 | status 500, body "Internal server error: " + message |
| AiDocumentationController.HealthCheck | src/main/java/com/apitestinghub/controller/AiDocumentationController.java:98-103 | status 200 with the healthy message |
| AiDocumentationController.Respond | src/main/java/com/apitestinghub/controller/AiDocumentationController.java:49-53 | a value goes through `buildResponse`; an empty result makes the `doOnSuccess` logger dereference the null entity, and `handleError` answers that exception with 500; so status 500 iff the result is empty |
| AiDocumentationController.EmptyReplyIsServerError | src/main/java/com/apitestinghub/controller/AiDocumentationController.java:49-53 | an empty 2xx body from the model API reaches the endpoint as 500 "Internal server error: " + the JVM message |
| AiDocumentationController.StatusErrorMessageIsOk | src/main/java/com/apitestinghub/controller/AiDocumentationController.java:112-119 | "API error (n): …" is returned with 200 |
| AiDocumentationController.NotFoundMessageIsOk | src/main/java/com/apitestinghub/controller/AiDocumentationController.java:112-119 | the 404 message is returned with 200 |
| AiDocumentationController.FailureMessagesAreThrottled | src/main/java/com/apitestinghub/controller/AiDocumentationController.java:112-119 | unavailable, rate-limit, authentication, forbidden, "API Error" and parse-error messages get 429 |
| AiDocumentationController.NoContentMessagesAreOk | src/main/java/com/apitestinghub/controller/AiDocumentationController.java:112-119 | "No response…" and "Empty response…" get 200 |
| AiDocumentationController.GateAndStatusDisagree | src/main/java/com/apitestinghub/controller/AiDocumentationController.java:112-119 | the unavailable message and "API Error" answers are stored yet get 429; "API error (n)" answers are refused yet get 200 |

## Behaviour worth noting

- A transport failure in `executeRequest` is signalled as an `ApiRequestException` with status 500, carrying "Request failed: " + the failure's message. `mapFromGeneralException` is never called.
- The request's `timeoutMs` is validated and `followRedirects` has a default, but neither is used when the request is sent.
- The cache write gate is `contains("error")`, which is case-sensitive. It is not the controller's prefix list. So the retry-exhausted fallback is stored, and so is "API Error: " + m whenever m itself contains no "error", while "API error (n): …" never is.
- An empty 2xx reply from the model API makes the service yield no value, and the controller then answers 500: its `doOnSuccess` logger dereferences the missing entity.
- Retry exhaustion raises Reactor's exhaustion error, which is not a `WebClientResponseException`. A persistent 5xx or 429 therefore ends in AI_ERROR_MESSAGE, and `handleHttpError`'s 429 branch cannot be reached.

## Left out

- Asynchrony, concurrent callers and cache stampedes are not modelled: `Mono` is treated as a single synchronous result. An empty `Mono` is `None`.
- Backoff jitter and real waiting are left out; only the nominal delays are modelled.
- The Caffeine cache is not part of this model:
  - size and expiry;
  - `weakKeys`, which compares keys by identity. The model's maps compare keys by value, so a hit in the model need not be a hit in the real cache.
- Logging, `System.currentTimeMillis`, `LocalDateTime.now` and `UUID.randomUUID` are not modelled; elapsed time, instants and request ids are parameters.
- Strings are sequences of characters, not of UTF-16 code units. Case mapping is ASCII only.
- `Set.of` has no fixed iteration order. The allowed-methods text in the error message uses the declaration order.
- Locale-dependent digits in `String.format("%d")` are not modelled; digits are ASCII.
- The temperature, top_p and penalty values are left out because they are floating point.
- `toSingleValueMap` keeps only the first value of each response header name, so later values of a repeated header are lost; the model takes the headers as already single-valued entries and does not model that loss.
- Binary and POJO Jackson nodes are left out.
- The JVM's `NullPointerException` messages are configuration values, one per dereference site (the error object's missing message, the missing first choice, and the controller's null entity); their wording is not modelled.
- `ApiRequestService.ExecuteRequest`: does not model URI template expansion in `.uri(url)`. When there are no query parameters, a URL that passes validation but holds a template variable such as `{id}` makes the expansion throw `IllegalArgumentException` synchronously. `executeRequest` then throws that exception to its caller instead of signalling "Request failed: …". A synchronous exception from `UriComponentsBuilder.fromUriString` is not modelled either. `HttpMethod.valueOf` accepts every validated method.
- `ApiRequestService.ValidateUrl`: does not model URI template expansion in `.uri(url)`. A safe URL holding a template variable makes `validateUrl` throw synchronously instead of returning false, because `onErrorReturn(false)` never sees the exception.
- `ApiRequestService.BuildUrlWithParams`: requires a present URL. It is private and is only called after validation has rejected a null URL.
- `AiDocumentationController.HandleError`: the only error modelled reaching it is the null dereference after an empty result (see `Respond`). A synchronous failure while building a prompt escapes before `onErrorResume` is attached and is handled by the framework, which is not part of this model.
- These files are not part of this model; they are configuration or thin framework glue:
  - `WebClientConfig.java` (transport pools and timeouts);
  - `CorsConfig.java`;
  - `OpenApiConfig.java`;
  - `CacheConfiguration.java`;
  - `ApiRequestController.java`, which maps any error to an empty 400.
- Jakarta validation annotations and the unused `DocumentationRequest` record are left out.
