/**
 * ClientService: one chat-completion call to the model API, retried on
 * overload, whose every outcome ends in a string (or, for an empty 2xx
 * body, in no value).  The upstream server and Jackson's parser are
 * parameters; time, logging and the floating-point sampling settings are
 * left out.
 */
module ClientService {
  import opened Wrappers
  import opened JavaStrings
  import opened JsonTree

  const AiErrorMessage: string := "AI service temporarily unavailable. " + "Please try again later."
  const RateLimitMessage: string := "Rate limit exceeded. " + "Please wait before making more requests."
  const AuthenticationMessage: string := "Authentication failed. " + "Please check your GitHub Models API token."
  const ForbiddenMessage: string := "Access forbidden. " + "Please check your GitHub Models token permissions."
  const NotFoundMessage: string := "GitHub Models API endpoint not found. " + "Please check configuration."
  const NoChoicesMessage: string := "No response generated by AI model"
  const EmptyContentMessage: string := "Empty response from AI model"
  const ApiErrorPrefix: string := "API Error: "
  const ParseErrorPrefix: string := "Error parsing AI response: "

  const SystemPrompt: string :=
    "You are a professional API documentation expert and analyst. " +
    "Provide clear, comprehensive, and actionable insights. " +
    "Focus on practical information that developers can immediately use. " +
    "Be concise but thorough, and structure your responses clearly."

  /** `Retry.backoff(3, 1 s).maxBackoff(10 s)`. */
  const MaxRetries: nat := 3
  const MaxAttempts: nat := MaxRetries + 1
  const FirstBackoffMs: int := 1000
  const MaxBackoffMs: int := 10000

  /**
   * The two places where `extractContentFromResponse` dereferences a Java
   * null: `asText()` on the absent message of an error object, and `path`
   * on the absent element 0 of the choices.
   */
  datatype NullSite = MissingErrorMessage | MissingFirstChoice

  /** The message of the `NullPointerException` the JVM raises at each site; the JVM words the two differently. */
  type NullMessages = NullSite -> string

  /** The injected settings: model name, token limit, and the JVM's null-dereference messages. */
  datatype ClientConfig = ClientConfig(model: string, maxTokens: int, nullPointerMessage: NullMessages)

  datatype ChatMessage = ChatMessage(role: string, content: string)

  /** The request body, without its floating-point sampling settings. */
  datatype ChatPayload = ChatPayload(model: string, messages: seq<ChatMessage>, maxTokens: int, stream: bool)

  /** `buildApiRequest`: the system prompt, then the prompt as the user's message. */
  function BuildApiRequest(config: ClientConfig, prompt: string): (p: ChatPayload)
    ensures |p.messages| == 2
    ensures p.messages[0] == ChatMessage("system", SystemPrompt)
    ensures p.messages[1] == ChatMessage("user", prompt)
    ensures p.model == config.model && p.maxTokens == config.maxTokens && !p.stream
  {
    ChatPayload(config.model, [ChatMessage("system", SystemPrompt), ChatMessage("user", prompt)], config.maxTokens, false)
  }

  /** A failed attempt: an HTTP error status with the exception's message, or any other failure. */
  datatype Failure = HttpFailure(status: int, message: Option<string>) | OtherFailure

  /** One attempt's outcome: a 2xx reply with its body (absent when empty), or a failure. */
  datatype Attempt = Reply(body: Option<string>) | Fail(failure: Failure)

  /** The outcome of attempt number k (from 0) of posting one payload. */
  type Upstream = nat -> Attempt

  /** The model API: for each payload posted, the outcomes of the successive attempts. */
  type Server = ChatPayload -> Upstream

  /** What Jackson's `readTree` gives for a body: a tree, or the message of the exception it throws. */
  datatype JsonParse = Parsed(root: Json) | Unparseable(message: Option<string>)

  type JsonParser = string -> JsonParse

  /** `isRetryableError`: a server error or 429 reported as an HTTP error; nothing else. */
  predicate IsRetryableError(f: Failure)
    ensures IsRetryableError(f) ==> f.HttpFailure?
    ensures f.HttpFailure? && f.status / 100 >= 5 ==> IsRetryableError(f)
    ensures f.HttpFailure? && f.status / 100 == 4 ==> (IsRetryableError(f) <==> f.status == 429)
  {
    f.HttpFailure? && (f.status >= 500 || f.status == 429)
  }

  predicate IsRetryableAttempt(a: Attempt) {
    a.Fail? && IsRetryableError(a.failure)
  }

  /** `handleHttpError`: a fixed message for 429, 401, 403 and 404, the status and message otherwise. */
  function HandleHttpError(status: int, message: Option<string>): (r: string)
    ensures status == 429 ==> r == RateLimitMessage
    ensures status == 401 ==> r == AuthenticationMessage
    ensures status == 403 ==> r == ForbiddenMessage
    ensures status == 404 ==> r == NotFoundMessage
    ensures status !in {429, 401, 403, 404} ==> r == "API error (" + IntToString(status) + "): " + Show(message)
  {
    if status == 429 then RateLimitMessage
    else if status == 401 then AuthenticationMessage
    else if status == 403 then ForbiddenMessage
    else if status == 404 then NotFoundMessage
    else "API error (" + IntToString(status) + "): " + Show(message)
  }

  /** What a reply's content may be: one of the fixed messages, a message under one of the two prefixes, or trimmed non-empty text. */
  predicate IsExtractionResult(r: string) {
    r == NoChoicesMessage || r == EmptyContentMessage ||
    StartsWith(r, ApiErrorPrefix) || StartsWith(r, ParseErrorPrefix) ||
    (r != [] && Trim(r) == r)
  }

  /** `choices.get(0).path("message").path("content").asText().trim()`, for a first choice that exists. */
  function ContentOf(choice: Json): string {
    Trim(choice.Path("message").Path("content").AsText())
  }

  /** `extractContentFromResponse`. */
  function ExtractContentFromResponse(parsed: JsonParse, nullPointerMessage: NullMessages): (r: string)
    ensures IsExtractionResult(r)
    ensures parsed.Unparseable? ==> r == ParseErrorPrefix + Show(parsed.message)
    ensures parsed.Parsed? && parsed.root.Has("error") ==>
              (parsed.root.Get("error").value.Has("message") ==>
                 r == ApiErrorPrefix + parsed.root.Get("error").value.Get("message").value.AsText()) &&
              (!parsed.root.Get("error").value.Has("message") ==> r == ParseErrorPrefix + nullPointerMessage(MissingErrorMessage))
    ensures parsed.Parsed? && !parsed.root.Has("error") && parsed.root.Path("choices").IsEmpty() ==> r == NoChoicesMessage
    ensures parsed.Parsed? && !parsed.root.Has("error") && parsed.root.Path("choices").JArray? &&
            |parsed.root.Path("choices").items| > 0 ==>
              (var content := ContentOf(parsed.root.Path("choices").items[0]);
               r == if content == [] then EmptyContentMessage else content)
    ensures (parsed.Parsed? && !parsed.root.Has("error") && !parsed.root.Path("choices").IsEmpty() &&
             parsed.root.Path("choices").At(0).None?) ==>
              r == ParseErrorPrefix + nullPointerMessage(MissingFirstChoice)
  {
    match parsed
    case Unparseable(message) => ParseErrorPrefix + Show(message)
    case Parsed(root) =>
      if root.Has("error") then
        match root.Get("error").value.Get("message")
        case Some(message) => ApiErrorPrefix + message.AsText()
        case None => ParseErrorPrefix + nullPointerMessage(MissingErrorMessage)
      else
        var choices := root.Path("choices");
        if choices.IsEmpty() then NoChoicesMessage
        else
          match choices.At(0)
          case None => ParseErrorPrefix + nullPointerMessage(MissingFirstChoice)
          case Some(first) =>
            var content := ContentOf(first);
            if content == [] then EmptyContentMessage else content
  }

  /** How an attempt that is not retried ends the call. */
  function Conclude(a: Attempt, parse: JsonParser, nullPointerMessage: NullMessages): (r: Option<string>)
    ensures r.None? <==> a == Reply(None)
    ensures a.Reply? && a.body.Some? ==> r == Some(ExtractContentFromResponse(parse(a.body.value), nullPointerMessage))
    ensures a.Fail? && a.failure.HttpFailure? ==> r == Some(HandleHttpError(a.failure.status, a.failure.message))
    ensures a == Fail(OtherFailure) ==> r == Some(AiErrorMessage)
  {
    match a
    case Reply(None) => None
    case Reply(Some(body)) => Some(ExtractContentFromResponse(parse(body), nullPointerMessage))
    case Fail(HttpFailure(status, message)) => Some(HandleHttpError(status, message))
    case Fail(OtherFailure) => Some(AiErrorMessage)
  }

  /** The result of a call and how many attempts it took. */
  datatype CallTrace = CallTrace(result: Option<string>, attempts: nat)

  /**
   * The call from attempt k on, as the retry operator runs it: a retryable
   * failure is retried while fewer than three retries were made, and after
   * that ends in the exhaustion error, which only the final fallback catches.
   */
  function CallFrom(upstream: Upstream, parse: JsonParser, nullPointerMessage: NullMessages, k: nat): (t: CallTrace)
    requires k <= MaxRetries
    decreases MaxRetries - k
    ensures k < t.attempts <= MaxAttempts
    ensures forall i :: k <= i < t.attempts - 1 ==> IsRetryableAttempt(upstream(i))
    ensures IsRetryableAttempt(upstream(t.attempts - 1)) ==> t.attempts == MaxAttempts && t.result == Some(AiErrorMessage)
    ensures !IsRetryableAttempt(upstream(t.attempts - 1)) ==> t.result == Conclude(upstream(t.attempts - 1), parse, nullPointerMessage)
  {
    var a := upstream(k);
    if !IsRetryableAttempt(a) then CallTrace(Conclude(a, parse, nullPointerMessage), k + 1)
    else if k == MaxRetries then CallTrace(Some(AiErrorMessage), k + 1)
    else CallFrom(upstream, parse, nullPointerMessage, k + 1)
  }

  /** The whole call. */
  function CallOutcome(upstream: Upstream, parse: JsonParser, nullPointerMessage: NullMessages): (t: CallTrace)
    ensures 0 < t.attempts <= MaxAttempts
    ensures forall i :: 0 <= i < t.attempts - 1 ==> IsRetryableAttempt(upstream(i))
    ensures IsRetryableAttempt(upstream(t.attempts - 1)) ==> t.attempts == MaxAttempts && t.result == Some(AiErrorMessage)
    ensures !IsRetryableAttempt(upstream(t.attempts - 1)) ==> t.result == Conclude(upstream(t.attempts - 1), parse, nullPointerMessage)
  {
    CallFrom(upstream, parse, nullPointerMessage, 0)
  }

  /** The nominal wait before retry k (from 0): doubling from one second, capped at ten; jitter is left out. */
  function RetryDelayMs(k: nat): (d: int)
    ensures FirstBackoffMs <= d <= MaxBackoffMs
  {
    var d := FirstBackoffMs * Pow2(k);
    Pow2Positive(k);
    if d < MaxBackoffMs then d else MaxBackoffMs
  }

  function Pow2(k: nat): nat {
    if k == 0 then 1 else 2 * Pow2(k - 1)
  }

  lemma {:induction false} Pow2Positive(k: nat)
    ensures Pow2(k) >= 1
  {
    if k > 0 {
      Pow2Positive(k - 1);
    }
  }

  /**
   * `executeAiRequest`: posts the payload until an attempt is not a
   * retryable failure or the retries run out.  Returns the result, the
   * payload, the number of attempts and the waits between them.
   */
  method ExecuteAiRequest(config: ClientConfig, prompt: string, server: Server, parse: JsonParser)
    returns (result: Option<string>, payload: ChatPayload, attempts: nat, delays: seq<int>)
    ensures payload == BuildApiRequest(config, prompt)
    ensures CallTrace(result, attempts) == CallOutcome(server(payload), parse, config.nullPointerMessage)
    ensures |delays| == attempts - 1
    ensures forall k :: 0 <= k < |delays| ==> delays[k] == RetryDelayMs(k)
  {
    payload := BuildApiRequest(config, prompt);
    var upstream := server(payload);
    var totalRetries: nat := 0;
    delays := [];
    while true
      invariant totalRetries <= MaxRetries
      invariant CallFrom(upstream, parse, config.nullPointerMessage, totalRetries) == CallOutcome(upstream, parse, config.nullPointerMessage)
      invariant |delays| == totalRetries
      invariant forall k :: 0 <= k < |delays| ==> delays[k] == RetryDelayMs(k)
      decreases MaxRetries - totalRetries
    {
      var outcome := upstream(totalRetries);
      if !IsRetryableAttempt(outcome) {
        result := Conclude(outcome, parse, config.nullPointerMessage);
        attempts := totalRetries + 1;
        return;
      }
      if totalRetries == MaxRetries {
        result := Some(AiErrorMessage);
        attempts := totalRetries + 1;
        return;
      }
      delays := delays + [RetryDelayMs(totalRetries)];
      totalRetries := totalRetries + 1;
    }
  }

  // ---------------------------------------------------------------- properties

  /** The waits are 1, 2 and 4 seconds; none reaches the ten-second cap. */
  lemma BackoffSchedule()
    ensures RetryDelayMs(0) == 1000 && RetryDelayMs(1) == 2000 && RetryDelayMs(2) == 4000
  {
    assert Pow2(2) == 4;
  }

  /** Exactly the server errors and 429 are retried. */
  lemma RetryableIffOverloaded(f: Failure)
    ensures IsRetryableError(f) <==> exists s, m :: f == HttpFailure(s, m) && (s >= 500 || s == 429)
  {
    if IsRetryableError(f) {
      assert f == HttpFailure(f.status, f.message);
    }
  }

  /** A server that keeps failing with an overload status is asked four times and the call ends as unavailable. */
  lemma PersistentOverloadIsUnavailable(upstream: Upstream, parse: JsonParser, npe: NullMessages)
    requires forall i: nat :: i < MaxAttempts ==> IsRetryableAttempt(upstream(i))
    ensures CallOutcome(upstream, parse, npe) == CallTrace(Some(AiErrorMessage), MaxAttempts)
  {
  }

  /** A first attempt that is not a retryable failure decides the call alone. */
  lemma FirstNonRetryableDecides(upstream: Upstream, parse: JsonParser, npe: NullMessages)
    requires !IsRetryableAttempt(upstream(0))
    ensures CallOutcome(upstream, parse, npe) == CallTrace(Conclude(upstream(0), parse, npe), 1)
  {
  }

  /** Transient overload followed by a reply yields that reply's content. */
  lemma RecoversAfterTransientOverload(upstream: Upstream, parse: JsonParser, npe: NullMessages, body: string)
    requires IsRetryableAttempt(upstream(0)) && IsRetryableAttempt(upstream(1))
    requires upstream(2) == Reply(Some(body))
    ensures CallOutcome(upstream, parse, npe) == CallTrace(Some(ExtractContentFromResponse(parse(body), npe)), 3)
  {
  }

  /** The call has no value exactly when its last attempt was a reply with an empty body. */
  lemma NoValueIffEmptyReply(upstream: Upstream, parse: JsonParser, npe: NullMessages)
    ensures var t := CallOutcome(upstream, parse, npe);
            t.result.None? <==> upstream(t.attempts - 1) == Reply(None)
  {
  }

  /**
   * The rate-limit message of `handleHttpError` is never produced by an
   * error: a 429 is retryable, so it is retried and its exhaustion is not
   * an HTTP error.  That text can only be content the model replied with.
   */
  lemma RateLimitBranchUnreachable(upstream: Upstream, parse: JsonParser, npe: NullMessages)
    ensures var t := CallOutcome(upstream, parse, npe);
            t.result == Some(RateLimitMessage) ==> upstream(t.attempts - 1).Reply?
  {
    var t := CallOutcome(upstream, parse, npe);
    var a := upstream(t.attempts - 1);
    if a.Fail? && a.failure.HttpFailure? && !IsRetryableAttempt(a) {
      assert a.failure.status != 429;
      DistinctFailureMessages(a.failure.status, a.failure.message);
    }
  }

  /** The fixed messages differ from each other and from every "API error (n)" message. */
  lemma DistinctFailureMessages(status: int, message: Option<string>)
    requires status != 429
    ensures HandleHttpError(status, message) != RateLimitMessage
  {
    var r := HandleHttpError(status, message);
    if status !in {429, 401, 403, 404} {
      assert r[0] == 'A' && RateLimitMessage[0] == 'R';
    }
  }

  /** Every value of a call is one of the messages above or text the model replied with. */
  lemma CallResultTaxonomy(upstream: Upstream, parse: JsonParser, npe: NullMessages)
    ensures var t := CallOutcome(upstream, parse, npe);
            t.result.Some? ==> t.result.value == AiErrorMessage || IsExtractionResult(t.result.value) ||
                               exists s, m :: t.result.value == HandleHttpError(s, m)
  {
    var t := CallOutcome(upstream, parse, npe);
    var a := upstream(t.attempts - 1);
    if t.result.Some? && !IsRetryableAttempt(a) && a.Fail? && a.failure.HttpFailure? {
      assert t.result.value == HandleHttpError(a.failure.status, a.failure.message);
    }
  }

  /** A well-formed completion yields its first choice's content, trimmed. */
  lemma WellFormedCompletion(content: string, npe: NullMessages)
    requires !IsBlank(content)
    ensures var choice := JObject(map["message" := JObject(map["content" := JText(content)])]);
            ExtractContentFromResponse(Parsed(JObject(map["choices" := JArray([choice])])), npe) == Trim(content)
  {
    var inner := JObject(map["content" := JText(content)]);
    var choice := JObject(map["message" := inner]);
    var root := JObject(map["choices" := JArray([choice])]);
    assert "error" != "choices";
    assert !root.Has("error");
    assert root.Path("choices") == JArray([choice]);
    assert choice.Path("message") == inner;
    assert inner.Path("content") == JText(content);
    assert ContentOf(choice) == Trim(content);
  }

  /** An error payload yields its message under the API error prefix; one without a message takes the null-pointer path. */
  lemma ErrorPayload(message: string, npe: NullMessages)
    ensures ExtractContentFromResponse(Parsed(JObject(map["error" := JObject(map["message" := JText(message)])])), npe) ==
            ApiErrorPrefix + message
    ensures ExtractContentFromResponse(Parsed(JObject(map["error" := JText(message)])), npe) == ParseErrorPrefix + npe(MissingErrorMessage)
  {
    var e1 := JObject(map["error" := JObject(map["message" := JText(message)])]);
    assert e1.Has("error");
    var e2 := JObject(map["error" := JText(message)]);
    assert e2.Has("error");
  }

  /** Choices given as a non-empty object pass the emptiness test but have no element 0: the null-pointer path. */
  lemma ChoicesAsObject(key: string, value: Json, npe: NullMessages)
    ensures ExtractContentFromResponse(Parsed(JObject(map["choices" := JObject(map[key := value])])), npe) == ParseErrorPrefix + npe(MissingFirstChoice)
  {
    var root := JObject(map["choices" := JObject(map[key := value])]);
    assert !root.Has("error");
    assert root.Path("choices") == JObject(map[key := value]);
    assert |map[key := value]| == 1;
  }

  /** The two null dereferences are reported apart whenever the JVM words them apart. */
  lemma NullSitesReportedApart(message: string, key: string, value: Json, npe: NullMessages)
    requires npe(MissingErrorMessage) != npe(MissingFirstChoice)
    ensures ExtractContentFromResponse(Parsed(JObject(map["error" := JText(message)])), npe) !=
            ExtractContentFromResponse(Parsed(JObject(map["choices" := JObject(map[key := value])])), npe)
  {
    ErrorPayload(message, npe);
    ChoicesAsObject(key, value, npe);
    assert (ParseErrorPrefix + npe(MissingErrorMessage))[|ParseErrorPrefix|..] == npe(MissingErrorMessage);
    assert (ParseErrorPrefix + npe(MissingFirstChoice))[|ParseErrorPrefix|..] == npe(MissingFirstChoice);
  }
}
