/** ApiResponseMapper: builds `ApiExecutionResponse` records from a response, an HTTP error or another failure. */
module ApiResponseMapper {
  import opened Wrappers
  import opened Dto
  import opened JavaStrings

  /** A `ResponseEntity<String>`: status, the status as `HttpStatusCode.toString()` renders it, single-valued headers, body. */
  datatype ResponseEntity = ResponseEntity(status: int, statusCodeText: string, headers: Entries, body: Option<string>)

  /** A `WebClientResponseException`: an error status with its reason phrase, headers and body text. */
  datatype WebClientResponseException = WebClientResponseException(status: int, statusText: string, headers: Entries, body: string)

  /** `isSuccessStatusCode`: the 2xx range. */
  predicate IsSuccessStatusCode(statusCode: int)
    ensures IsSuccessStatusCode(statusCode) <==> statusCode / 100 == 2
  {
    200 <= statusCode < 300
  }

  /** `mapFromResponseEntity`: every component comes from the response, success is the 2xx rule. */
  function MapFromResponseEntity(entity: ResponseEntity, responseTimeMs: int, requestId: Option<string>, now: Timestamp): (r: ApiExecutionResponse)
    ensures r.statusCode == entity.status && r.statusText == Some(entity.statusCodeText)
    ensures r.headers == Some(entity.headers) && r.body == entity.body
    ensures r.responseTimeMs == responseTimeMs && r.requestId == requestId && r.timestamp == Some(now)
    ensures r.success <==> 200 <= entity.status < 300
  {
    ApiExecutionResponse(entity.status, Some(entity.statusCodeText), Some(entity.headers), entity.body,
                         responseTimeMs, Some(now), requestId, IsSuccessStatusCode(entity.status))
  }

  /** `mapFromException`: the error's status, text, headers and body, and never success. */
  function MapFromException(error: WebClientResponseException, responseTimeMs: int, requestId: Option<string>, now: Timestamp): (r: ApiExecutionResponse)
    ensures r.statusCode == error.status && r.statusText == Some(error.statusText)
    ensures r.headers == Some(error.headers) && r.body == Some(error.body)
    ensures r.responseTimeMs == responseTimeMs && r.requestId == requestId && r.timestamp == Some(now)
    ensures !r.success
  {
    ApiExecutionResponse(error.status, Some(error.statusText), Some(error.headers), Some(error.body),
                         responseTimeMs, Some(now), requestId, false)
  }

  /** `mapFromGeneralException`: a fixed 500 record whose body names the failure. */
  function MapFromGeneralException(message: Option<string>, responseTimeMs: int, requestId: Option<string>, now: Timestamp): (r: ApiExecutionResponse)
    ensures r.statusCode == 500 && r.statusText == Some("Internal Server Error")
    ensures r.headers == Some([]) && r.body == Some("Request failed: " + Show(message))
    ensures r.responseTimeMs == responseTimeMs && r.requestId == requestId && r.timestamp == Some(now)
    ensures !r.success
  {
    ApiExecutionResponse(500, Some("Internal Server Error"), Some([]), Some("Request failed: " + Show(message)),
                         responseTimeMs, Some(now), requestId, false)
  }

  /** `applyDefaults`: empty headers and the current time for what is null; everything else as given. */
  function ApplyDefaults(response: ApiExecutionResponse, now: Timestamp): (r: ApiExecutionResponse)
    ensures r.headers.Some? && r.timestamp.Some?
    ensures response.headers.Some? ==> r.headers == response.headers
    ensures response.headers.None? ==> r.headers == Some([])
    ensures response.timestamp.Some? ==> r.timestamp == response.timestamp
    ensures response.timestamp.None? ==> r.timestamp == Some(now)
    ensures r.(headers := response.headers, timestamp := response.timestamp) == response
  {
    response.(headers := Some(response.headers.GetOr([])),
              timestamp := Some(response.timestamp.GetOr(now)))
  }

  // ---------------------------------------------------------------- properties

  /** An HTTP error maps like a response with the same status, text, headers and body, except that it is never a success. */
  lemma ErrorIsResponseWithoutSuccess(error: WebClientResponseException, t: int, id: Option<string>, now: Timestamp)
    ensures MapFromException(error, t, id, now) ==
            MapFromResponseEntity(ResponseEntity(error.status, error.statusText, error.headers, Some(error.body)), t, id, now).(success := false)
    ensures IsSuccessStatusCode(error.status) ==>
            MapFromException(error, t, id, now) !=
            MapFromResponseEntity(ResponseEntity(error.status, error.statusText, error.headers, Some(error.body)), t, id, now)
  {
  }

  /** Defaulting twice is defaulting once, whatever instant the second call sees; the records each mapping builds are left unchanged. */
  lemma ApplyDefaultsIdempotent(response: ApiExecutionResponse, now: Timestamp, later: Timestamp)
    ensures ApplyDefaults(ApplyDefaults(response, now), later) == ApplyDefaults(response, now)
    ensures ApplyDefaults(response, later) == response <==> response.headers.Some? && response.timestamp.Some?
  {
  }

  /** Every record built by a mapping is already defaulted. */
  lemma MappedResponsesAreDefaulted(entity: ResponseEntity, error: WebClientResponseException, message: Option<string>,
                                    t: int, id: Option<string>, now: Timestamp, later: Timestamp)
    ensures ApplyDefaults(MapFromResponseEntity(entity, t, id, now), later) == MapFromResponseEntity(entity, t, id, now)
    ensures ApplyDefaults(MapFromException(error, t, id, now), later) == MapFromException(error, t, id, now)
    ensures ApplyDefaults(MapFromGeneralException(message, t, id, now), later) == MapFromGeneralException(message, t, id, now)
  {
    ApplyDefaultsIdempotent(MapFromResponseEntity(entity, t, id, now), now, later);
    ApplyDefaultsIdempotent(MapFromException(error, t, id, now), now, later);
    ApplyDefaultsIdempotent(MapFromGeneralException(message, t, id, now), now, later);
  }
}
