/**
 * AiDocumentationController: turns the string an AI operation ends in
 * into an HTTP reply, with status 429 for the strings that start like
 * one of the client's failure messages.
 */
module AiDocumentationController {
  import opened Wrappers
  import opened JavaStrings
  import opened ClientService
  import opened AiDocumentation

  const HealthyMessage: string := "AI Documentation service is healthy and ready"
  const InternalErrorPrefix: string := "Internal server error: "

  /** The prefixes `isErrorResponse` tests, in its order. */
  const ErrorPrefixes: seq<string> := ["Rate limit", "AI service", "Error", "API Error", "Authentication failed", "Access forbidden"]

  /** A `ResponseEntity<String>`. */
  datatype HttpReply = HttpReply(status: int, body: string)

  /** `isErrorResponse`: a case-sensitive prefix test. */
  predicate IsErrorResponse(result: string)
    ensures IsErrorResponse(result) <==> exists p :: p in ErrorPrefixes && StartsWith(result, p)
  {
    StartsWith(result, "Rate limit") || StartsWith(result, "AI service") || StartsWith(result, "Error") ||
    StartsWith(result, "API Error") || StartsWith(result, "Authentication failed") || StartsWith(result, "Access forbidden")
  }

  /** `buildResponse`: the result as the body, with 429 for an error string and 200 otherwise. */
  function BuildResponse(result: string): (reply: HttpReply)
    ensures reply.body == result
    ensures reply.status == 429 <==> exists p :: p in ErrorPrefixes && StartsWith(result, p)
    ensures reply.status == 429 || reply.status == 200
  {
    if IsErrorResponse(result) then HttpReply(429, result) else HttpReply(200, result)
  }

  /** `handleError`: any failure signalled by an operation, as a 500 naming its message. */
  function HandleError(message: Option<string>): (reply: HttpReply)
    ensures reply.status == 500
    ensures StartsWith(reply.body, InternalErrorPrefix) && reply.body[|InternalErrorPrefix|..] == Show(message)
  {
    HttpReply(500, InternalErrorPrefix + Show(message))
  }

  /** `healthCheck`. */
  function HealthCheck(): (reply: HttpReply)
    ensures reply.status == 200 && reply.body == HealthyMessage
  {
    HttpReply(200, HealthyMessage)
  }

  /**
   * An endpoint's reply to an operation's outcome.  An empty outcome skips
   * `buildResponse`; the `doOnSuccess` logger then calls `getStatusCode()`
   * on the null entity, and the `NullPointerException` this raises, whose
   * JVM message is `nullMessage`, is answered by `handleError`.
   */
  function Respond(outcome: Option<string>, nullMessage: string): (reply: HttpReply)
    ensures outcome.Some? ==> reply == BuildResponse(outcome.value)
    ensures outcome.None? ==> reply == HandleError(Some(nullMessage))
    ensures reply.status == 500 <==> outcome.None?
  {
    match outcome
    case None => HandleError(Some(nullMessage))
    case Some(result) => BuildResponse(result)
  }

  // ---------------------------------------------------------------- properties

  /** Every "API error (n): …" message from the client is reported with status 200: its "error" is lower case. */
  lemma StatusErrorMessageIsOk(status: int, message: Option<string>)
    requires status !in {429, 401, 403, 404}
    ensures BuildResponse(HandleHttpError(status, message)).status == 200
  {
    var r := HandleHttpError(status, message);
    assert r[0] == 'A' && r[1] == 'P' && r[4] == 'e';
    MismatchRulesOutPrefix(r, "Rate limit", 0);
    MismatchRulesOutPrefix(r, "AI service", 1);
    MismatchRulesOutPrefix(r, "Error", 0);
    MismatchRulesOutPrefix(r, "API Error", 4);
    MismatchRulesOutPrefix(r, "Authentication failed", 1);
    MismatchRulesOutPrefix(r, "Access forbidden", 1);
  }

  /** The not-found message is reported with status 200. */
  lemma NotFoundMessageIsOk()
    ensures BuildResponse(NotFoundMessage).status == 200
  {
    var r := NotFoundMessage;
    assert r[0] == 'G';
    FirstCharRulesOutPrefix(r, "Rate limit");
    FirstCharRulesOutPrefix(r, "AI service");
    FirstCharRulesOutPrefix(r, "Error");
    FirstCharRulesOutPrefix(r, "API Error");
    FirstCharRulesOutPrefix(r, "Authentication failed");
    FirstCharRulesOutPrefix(r, "Access forbidden");
  }

  /** The client's other failure messages are reported with status 429. */
  lemma FailureMessagesAreThrottled(message: string)
    ensures BuildResponse(AiErrorMessage).status == 429
    ensures BuildResponse(RateLimitMessage).status == 429
    ensures BuildResponse(AuthenticationMessage).status == 429
    ensures BuildResponse(ForbiddenMessage).status == 429
    ensures BuildResponse(ApiErrorPrefix + message).status == 429
    ensures BuildResponse(ParseErrorPrefix + message).status == 429
  {
    assert StartsWith(AiErrorMessage, "AI service");
    assert StartsWith(RateLimitMessage, "Rate limit");
    assert StartsWith(AuthenticationMessage, "Authentication failed");
    assert StartsWith(ForbiddenMessage, "Access forbidden");
    assert StartsWith(ApiErrorPrefix + message, "API Error");
    assert StartsWith(ParseErrorPrefix + message, "Error");
  }

  /** The two reply-shape messages are not errors and are reported with status 200. */
  lemma NoContentMessagesAreOk()
    ensures BuildResponse(NoChoicesMessage).status == 200
    ensures BuildResponse(EmptyContentMessage).status == 200
  {
    var n, e := NoChoicesMessage, EmptyContentMessage;
    assert n[0] == 'N' && e[0] == 'E' && e[1] == 'm';
    FirstCharRulesOutPrefix(n, "Rate limit");
    FirstCharRulesOutPrefix(n, "AI service");
    FirstCharRulesOutPrefix(n, "Error");
    FirstCharRulesOutPrefix(n, "API Error");
    FirstCharRulesOutPrefix(n, "Authentication failed");
    FirstCharRulesOutPrefix(n, "Access forbidden");
    FirstCharRulesOutPrefix(e, "Rate limit");
    FirstCharRulesOutPrefix(e, "AI service");
    MismatchRulesOutPrefix(e, "Error", 1);
    FirstCharRulesOutPrefix(e, "API Error");
    FirstCharRulesOutPrefix(e, "Authentication failed");
    FirstCharRulesOutPrefix(e, "Access forbidden");
  }

  /**
   * The cache gate and the status rule disagree: the unavailable message
   * and an "API Error: …" answer are reported as 429 and yet stored, so a
   * later hit repeats them; an "API error (n): …" answer is reported as 200
   * and yet refused.
   */
  lemma GateAndStatusDisagree(message: string, status: int, cause: Option<string>)
    requires !Contains(message, "error")
    requires status !in {429, 401, 403, 404}
    ensures IsCacheable(Some(AiErrorMessage)) && BuildResponse(AiErrorMessage).status == 429
    ensures IsCacheable(Some(ApiErrorPrefix + message)) && BuildResponse(ApiErrorPrefix + message).status == 429
    ensures !IsCacheable(Some(HandleHttpError(status, cause))) && BuildResponse(HandleHttpError(status, cause)).status == 200
  {
    UnavailableMessageIsCached();
    ApiErrorMessagesAreCached(message);
    FailureMessagesAreThrottled(message);
    StatusErrorMessageIsOk(status, cause);
    StatusErrorMessageIsRefused(status, cause);
  }

  /** A 2xx reply with an empty body from the model API ends, at the endpoint, in a 500 naming the null dereference. */
  lemma EmptyReplyIsServerError(upstream: Upstream, parse: JsonParser, npe: NullMessages, nullMessage: string)
    requires upstream(0) == Reply(None)
    ensures Respond(CallOutcome(upstream, parse, npe).result, nullMessage) ==
            HttpReply(500, InternalErrorPrefix + nullMessage)
  {
    FirstNonRetryableDecides(upstream, parse, npe);
  }
}
