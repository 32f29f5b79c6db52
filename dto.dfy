/** The two records exchanged with callers: a request description and an execution result. */
module Dto {
  import opened Wrappers

  /** A Java `Map<String, String>`, as its entries in iteration order. */
  type Entries = seq<(string, string)>

  /** `LocalDateTime`, taken as an opaque instant supplied by the caller. */
  type Timestamp = int

  /** `record ApiRequest`: every reference-typed component may be null. */
  datatype ApiRequest = ApiRequest(
    httpMethod: Option<string>,   // `method()`; `method` is a Dafny keyword
    url: Option<string>,
    headers: Option<Entries>,
    queryParams: Option<Entries>,
    body: Option<string>,
    sessionId: Option<string>,
    timeoutMs: Option<int>,
    followRedirects: Option<bool>)

  /** `record ApiExecutionResponse`. */
  datatype ApiExecutionResponse = ApiExecutionResponse(
    statusCode: int,
    statusText: Option<string>,
    headers: Option<Entries>,
    body: Option<string>,
    responseTimeMs: int,
    timestamp: Option<Timestamp>,
    requestId: Option<string>,
    success: bool)
}
