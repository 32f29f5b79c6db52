/** ApiRequestMapper: fills in the defaults of the optional request components. */
module ApiRequestMapper {
  import opened Wrappers
  import opened Dto

  /** The timeout used when a request gives none. */
  const DefaultTimeoutMs: int := 30000

  /** No optional component that has a default is null. */
  predicate IsDefaulted(request: ApiRequest) {
    request.headers.Some? && request.queryParams.Some? &&
    request.timeoutMs.Some? && request.followRedirects.Some?
  }

  /** `applyDefaults`: empty maps, 30000 ms and follow-redirects for what is null; everything else as given. */
  function ApplyDefaults(request: ApiRequest): (r: ApiRequest)
    ensures IsDefaulted(r)
    ensures r.httpMethod == request.httpMethod && r.url == request.url
    ensures r.body == request.body && r.sessionId == request.sessionId
    ensures request.headers.Some? ==> r.headers == request.headers
    ensures request.headers.None? ==> r.headers == Some([])
    ensures request.queryParams.Some? ==> r.queryParams == request.queryParams
    ensures request.queryParams.None? ==> r.queryParams == Some([])
    ensures request.timeoutMs.Some? ==> r.timeoutMs == request.timeoutMs
    ensures request.timeoutMs.None? ==> r.timeoutMs == Some(DefaultTimeoutMs)
    ensures request.followRedirects.Some? ==> r.followRedirects == request.followRedirects
    ensures request.followRedirects.None? ==> r.followRedirects == Some(true)
  {
    ApiRequest(
      request.httpMethod,
      request.url,
      Some(request.headers.GetOr([])),
      Some(request.queryParams.GetOr([])),
      request.body,
      request.sessionId,
      Some(request.timeoutMs.GetOr(DefaultTimeoutMs)),
      Some(request.followRedirects.GetOr(true)))
  }

  /** `getTimeoutMs`. */
  function GetTimeoutMs(request: ApiRequest): (t: int)
    ensures request.timeoutMs.Some? ==> t == request.timeoutMs.value
    ensures request.timeoutMs.None? ==> t == DefaultTimeoutMs
  {
    request.timeoutMs.GetOr(DefaultTimeoutMs)
  }

  /** `shouldFollowRedirects`. */
  function ShouldFollowRedirects(request: ApiRequest): (follow: bool)
    ensures request.followRedirects.Some? ==> follow == request.followRedirects.value
    ensures request.followRedirects.None? ==> follow
  {
    request.followRedirects.GetOr(true)
  }

  /** `getHeaders`. */
  function GetHeaders(request: ApiRequest): (headers: Entries)
    ensures request.headers.Some? ==> headers == request.headers.value
    ensures request.headers.None? ==> headers == []
  {
    request.headers.GetOr([])
  }

  /** `getQueryParams`. */
  function GetQueryParams(request: ApiRequest): (params: Entries)
    ensures request.queryParams.Some? ==> params == request.queryParams.value
    ensures request.queryParams.None? ==> params == []
  {
    request.queryParams.GetOr([])
  }

  // ---------------------------------------------------------------- properties

  /** Defaulting twice is defaulting once, and it changes exactly the requests with a missing default. */
  lemma ApplyDefaultsIdempotent(request: ApiRequest)
    ensures ApplyDefaults(ApplyDefaults(request)) == ApplyDefaults(request)
    ensures ApplyDefaults(request) == request <==> IsDefaulted(request)
  {
  }

  /** Each getter reads the corresponding component of the defaulted request. */
  lemma GettersAgreeWithApplyDefaults(request: ApiRequest)
    ensures Some(GetTimeoutMs(request)) == ApplyDefaults(request).timeoutMs
    ensures Some(ShouldFollowRedirects(request)) == ApplyDefaults(request).followRedirects
    ensures Some(GetHeaders(request)) == ApplyDefaults(request).headers
    ensures Some(GetQueryParams(request)) == ApplyDefaults(request).queryParams
  {
  }

  /** Leaving a component out is the same as giving its default explicitly. */
  lemma MissingIsExplicitDefault(request: ApiRequest)
    ensures ApplyDefaults(request.(headers := None)) == ApplyDefaults(request.(headers := Some([])))
    ensures ApplyDefaults(request.(queryParams := None)) == ApplyDefaults(request.(queryParams := Some([])))
    ensures ApplyDefaults(request.(timeoutMs := None)) == ApplyDefaults(request.(timeoutMs := Some(DefaultTimeoutMs)))
    ensures ApplyDefaults(request.(followRedirects := None)) == ApplyDefaults(request.(followRedirects := Some(true)))
  {
  }
}
