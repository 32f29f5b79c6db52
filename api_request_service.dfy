/**
 * ApiRequestService: the proxy executor.  A request is validated, its URL
 * is built from its query parameters, one HTTP call is made, and the
 * outcome of that call is routed to a response record or an error signal.
 * The HTTP client, the clock and the request-id generator are parameters.
 */
module ApiRequestService {
  import opened Wrappers
  import opened JavaStrings
  import opened Dto
  import opened ApiRequestExceptions
  import RequestValidator
  import ApiRequestMapper
  import opened ApiResponseMapper

  /** `UriComponentsBuilder.toUriString()` of a base URI and its added query parameters, which the model does not define. */
  type UriRenderer = (string, Entries) -> string

  /** `UriComponentsBuilder`, reduced to the base URI it was made from and the query parameters added so far, in order. */
  class UriComponentsBuilder {
    const source: string
    var queryParams: Entries

    /** `UriComponentsBuilder.fromUriString(uri)`. */
    constructor FromUriString(uri: string)
      ensures source == uri && queryParams == []
    {
      source := uri;
      queryParams := [];
    }

    /** `queryParam(name, value)`: appends one parameter. */
    method QueryParam(name: string, value: string)
      modifies this
      ensures queryParams == old(queryParams) + [(name, value)]
    {
      queryParams := queryParams + [(name, value)];
    }

    /** `toUriString()`. */
    function ToUriString(render: UriRenderer): (uri: string)
      reads this
      ensures uri == render(source, queryParams)
    {
      render(source, queryParams)
    }
  }

  /** The URL `buildUrlWithParams` produces: the request URL itself when there are no query parameters. */
  function FullUrl(url: string, params: Entries, render: UriRenderer): (full: string)
    ensures params == [] ==> full == url
    ensures params != [] ==> full == render(url, params)
  {
    if params == [] then url else render(url, params)
  }

  /** `buildUrlWithParams`: only reached after validation, so the URL is present. */
  method BuildUrlWithParams(request: ApiRequest, render: UriRenderer) returns (fullUrl: string)
    requires request.url.Some?
    ensures fullUrl == FullUrl(request.url.value, ApiRequestMapper.GetQueryParams(request), render)
  {
    var params := ApiRequestMapper.GetQueryParams(request);
    if params == [] {
      return request.url.value;
    }
    var builder := new UriComponentsBuilder.FromUriString(request.url.value);
    var i := 0;
    while i < |params|
      invariant 0 <= i <= |params|
      invariant builder.source == request.url.value
      invariant builder.queryParams == params[..i]
    {
      builder.QueryParam(params[i].0, params[i].1);
      i := i + 1;
    }
    assert params[..i] == params;
    fullUrl := builder.ToUriString(render);
  }

  /** What `sendHttpRequest` hands to the HTTP client. */
  datatype OutboundRequest = OutboundRequest(verb: string, url: string, headers: Entries, body: string)

  /**
   * The outcome of the one HTTP call: a response, an error status that
   * `retrieve()` turned into a `WebClientResponseException`, or any other
   * failure with its message.
   */
  datatype HttpOutcome =
    | Response(entity: ResponseEntity)
    | HttpError(error: WebClientResponseException)
    | Transport(message: Option<string>)

  /** The HTTP client. */
  type HttpClient = OutboundRequest -> HttpOutcome

  /**
   * What `executeRequest` ends in: thrown by validation before any call,
   * a response record, or an `ApiRequestException` signalled after the call.
   */
  datatype Execution =
    | Rejected(exception: ApiRequestException)
    | Completed(sent: OutboundRequest, response: ApiExecutionResponse)
    | Failed(sent: OutboundRequest, exception: ApiRequestException)
  {
    predicate Called() { !Rejected? }
  }

  /** `sendHttpRequest`'s choice of arguments: upper-cased method, the full URL, defaulted headers, body or "". */
  function Outbound(request: ApiRequest, render: UriRenderer): (o: OutboundRequest)
    requires request.httpMethod.Some? && request.url.Some?
    ensures o.verb == ToUpper(request.httpMethod.value)
    ensures o.url == FullUrl(request.url.value, ApiRequestMapper.GetQueryParams(request), render)
    ensures request.headers.Some? ==> o.headers == request.headers.value
    ensures request.headers.None? ==> o.headers == []
    ensures request.body.Some? ==> o.body == request.body.value
    ensures request.body.None? ==> o.body == ""
  {
    OutboundRequest(ToUpper(request.httpMethod.value),
                    FullUrl(request.url.value, ApiRequestMapper.GetQueryParams(request), render),
                    ApiRequestMapper.GetHeaders(request),
                    request.body.GetOr(""))
  }

  /** `executeRequest`, with the request id, the elapsed time and the current instant supplied. */
  function ExecuteRequest(request: ApiRequest, parse: RequestValidator.UrlParser, render: UriRenderer, client: HttpClient,
                          requestId: string, elapsedMs: int, now: Timestamp): (e: Execution)
    ensures e.Rejected? <==> RequestValidator.ValidateRequest(request, parse).Err?
    ensures e.Rejected? ==> e.exception == RequestValidator.ValidateRequest(request, parse).exception
    ensures e.Called() ==> request.httpMethod.Some? && request.url.Some? && e.sent == Outbound(request, render)
    ensures e.Called() && client(e.sent).Response? ==>
              e == Completed(e.sent, MapFromResponseEntity(client(e.sent).entity, elapsedMs, Some(requestId), now))
    ensures e.Called() && client(e.sent).HttpError? ==>
              e == Completed(e.sent, MapFromException(client(e.sent).error, elapsedMs, Some(requestId), now))
    ensures e.Called() && client(e.sent).Transport? ==>
              e == Failed(e.sent, WithStatus("Request failed: " + Show(client(e.sent).message), InternalServerError))
  {
    match RequestValidator.ValidateRequest(request, parse)
    case Err(exception) => Rejected(exception)
    case Ok =>
      assert request.httpMethod.Some?;
      var sent := Outbound(request, render);
      match client(sent)
      case Response(entity) => Completed(sent, MapFromResponseEntity(entity, elapsedMs, Some(requestId), now))
      case HttpError(error) => Completed(sent, MapFromException(error, elapsedMs, Some(requestId), now))
      case Transport(message) => Failed(sent, WithStatus("Request failed: " + Show(message), InternalServerError))
  }

  /** What the HEAD probe of `validateUrl` yields: a status, or any failure. */
  datatype ProbeOutcome = Answered(status: int) | ProbeFailed

  /** `validateUrl`: the safety check, then a 2xx answer to a HEAD request. */
  function ValidateUrl(url: Option<string>, parse: RequestValidator.UrlParser, probe: string -> ProbeOutcome): (valid: bool)
    ensures valid <==> RequestValidator.IsSafeUrl(url, parse) && probe(url.value).Answered? &&
                       200 <= probe(url.value).status < 300
  {
    if !RequestValidator.IsSafeUrl(url, parse) then false
    else
      match probe(url.value)
      case Answered(status) => 200 <= status < 300
      case ProbeFailed => false
  }

  // ---------------------------------------------------------------- properties

  /** An invalid request makes no call: its outcome is the same whatever the client would have answered. */
  lemma InvalidRequestMakesNoCall(request: ApiRequest, parse: RequestValidator.UrlParser, render: UriRenderer,
                                  c1: HttpClient, c2: HttpClient, id: string, t: int, now: Timestamp)
    requires RequestValidator.ValidateRequest(request, parse).Err?
    ensures ExecuteRequest(request, parse, render, c1, id, t, now) == ExecuteRequest(request, parse, render, c2, id, t, now)
    ensures ExecuteRequest(request, parse, render, c1, id, t, now).exception.httpStatus == BadRequest
  {
  }

  /** A response record reports success only for a 2xx status, and always carries the request id. */
  lemma CompletedSuccessMeansTwoXx(request: ApiRequest, parse: RequestValidator.UrlParser, render: UriRenderer,
                                   client: HttpClient, id: string, t: int, now: Timestamp)
    ensures var e := ExecuteRequest(request, parse, render, client, id, t, now);
            e.Completed? ==> e.response.requestId == Some(id) && e.response.responseTimeMs == t &&
                             (e.response.success ==> 200 <= e.response.statusCode < 300) &&
                             (e.response.success <==> client(e.sent).Response? && IsSuccessStatusCode(client(e.sent).entity.status))
  {
  }

  /** A failure other than an HTTP status is an exception with status 500, never a response record. */
  lemma TransportFailureIsServerError(request: ApiRequest, parse: RequestValidator.UrlParser, render: UriRenderer,
                                      client: HttpClient, id: string, t: int, now: Timestamp)
    ensures var e := ExecuteRequest(request, parse, render, client, id, t, now);
            e.Called() ==> (e.Failed? <==> client(e.sent).Transport?)
    ensures var e := ExecuteRequest(request, parse, render, client, id, t, now);
            e.Failed? ==> GetHttpStatus(e.exception) == InternalServerError
  {
  }

  /** Timeout and redirect settings only decide validation; for valid settings the same request goes out. */
  lemma TimeoutAndRedirectsNotConsulted(request: ApiRequest, timeoutMs: Option<int>, follow: Option<bool>,
                                        parse: RequestValidator.UrlParser, render: UriRenderer,
                                        client: HttpClient, id: string, t: int, now: Timestamp)
    requires RequestValidator.ValidateTimeout(timeoutMs).Ok? && RequestValidator.ValidateTimeout(request.timeoutMs).Ok?
    ensures ExecuteRequest(request.(timeoutMs := timeoutMs, followRedirects := follow), parse, render, client, id, t, now) ==
            ExecuteRequest(request, parse, render, client, id, t, now)
  {
    var other := request.(timeoutMs := timeoutMs, followRedirects := follow);
    assert RequestValidator.ValidateRequest(other, parse).Ok? == RequestValidator.ValidateRequest(request, parse).Ok?;
    if RequestValidator.ValidateRequest(request, parse).Ok? {
      assert Outbound(other, render) == Outbound(request, render);
    }
  }

  /** With no query parameters the request URL is used unchanged. */
  lemma NoParamsKeepsUrl(request: ApiRequest, render: UriRenderer)
    requires request.httpMethod.Some? && request.url.Some?
    requires request.queryParams.None? || request.queryParams == Some([])
    ensures Outbound(request, render).url == request.url.value
  {
  }

  /** An unsafe URL is rejected without a probe: the answer is false whatever the probe would give. */
  lemma UnsafeUrlIsNotProbed(url: Option<string>, parse: RequestValidator.UrlParser, p1: string -> ProbeOutcome, p2: string -> ProbeOutcome)
    requires !RequestValidator.IsSafeUrl(url, parse)
    ensures !ValidateUrl(url, parse, p1) && ValidateUrl(url, parse, p1) == ValidateUrl(url, parse, p2)
  {
  }
}
