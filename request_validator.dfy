/**
 * RequestValidator: rejects a request before any network call, with an
 * `ApiRequestException` whose status is BAD_REQUEST.  Java's `void` method
 * that throws becomes a function returning `Ok` or `Err(exception)`.
 */
module RequestValidator {
  import opened Wrappers
  import opened JavaStrings
  import opened Dto
  import opened ApiRequestExceptions

  const AllowedMethods: seq<string> := ["GET", "POST", "PUT", "DELETE", "PATCH", "HEAD", "OPTIONS"]
  const UnsafeProtocols: seq<string> := ["file", "ftp", "javascript", "data"]

  /** "5 minutes max". */
  const MaxTimeoutMs: int := 300000

  /**
   * `ALLOWED_METHODS.toString()` as the error message prints it.  `Set.of`
   * has no fixed iteration order; the model writes the declaration order.
   */
  const AllowedMethodsText: string := "[GET, POST, PUT, DELETE, PATCH, HEAD, OPTIONS]"

  /** What `new URL(s)` yields: the protocol it recognised, or a `MalformedURLException` message. */
  datatype UrlParse = Protocol(name: string) | Malformed(reason: string)

  /** `java.net.URL` parsing, which the model does not define. */
  type UrlParser = string -> UrlParse

  /** The outcome of a check that returns normally or throws. */
  datatype Check = Ok | Err(exception: ApiRequestException)

  /** `validateMethod`: present, not blank, and whitelisted once upper-cased. */
  function ValidateMethod(verb: Option<string>): (c: Check)
    ensures c.Err? ==> c.exception.httpStatus == BadRequest
    ensures verb.None? || IsBlank(verb.value) ==> c == Err(WithMessage("HTTP is required "))
    ensures verb.Some? && !IsBlank(verb.value) && c.Err? ==>
              c == Err(WithMessage("Invalid HTTP method: " + verb.value + ". Allowed methods: " + AllowedMethodsText))
  {
    if verb.None? || IsBlank(verb.value) then
      Err(WithMessage("HTTP is required "))
    else if ToUpper(verb.value) !in AllowedMethods then
      Err(WithMessage("Invalid HTTP method: " + verb.value + ". Allowed methods: " + AllowedMethodsText))
    else
      Ok
  }

  /** `validateUrl`: present and not blank, parseable, not an unsafe protocol, and http or https. */
  function ValidateUrl(url: Option<string>, parse: UrlParser): (c: Check)
    ensures c.Err? ==> c.exception.httpStatus == BadRequest
    ensures url.None? || IsBlank(url.value) ==> c == Err(WithMessage("URL is required"))
    ensures url.Some? && !IsBlank(url.value) && parse(url.value).Malformed? ==>
              c == Err(WithMessage("Invalid URL format: " + parse(url.value).reason))
    ensures url.Some? && !IsBlank(url.value) && parse(url.value).Protocol? &&
            ToLower(parse(url.value).name) in UnsafeProtocols ==>
              c == Err(WithMessage("Unsafe protocol: " + ToLower(parse(url.value).name)))
    ensures url.Some? && !IsBlank(url.value) && parse(url.value).Protocol? &&
            ToLower(parse(url.value).name) !in UnsafeProtocols && c.Err? ==>
              c == Err(WithMessage("Only HTTP and HTTPS protocols are allowed"))
  {
    if url.None? || IsBlank(url.value) then
      Err(WithMessage("URL is required"))
    else
      match parse(url.value)
      case Malformed(reason) =>
        Err(WithMessage("Invalid URL format: " + reason))
      case Protocol(name) =>
        var protocol := ToLower(name);
        if protocol in UnsafeProtocols then
          Err(WithMessage("Unsafe protocol: " + protocol))
        else if protocol != "http" && protocol != "https" then
          Err(WithMessage("Only HTTP and HTTPS protocols are allowed"))
        else
          Ok
  }

  /** `validateTimeout`: absent, or between 1 ms and five minutes. */
  function ValidateTimeout(timeoutMs: Option<int>): (c: Check)
    ensures c.Ok? <==> timeoutMs.None? || 0 < timeoutMs.value <= MaxTimeoutMs
    ensures timeoutMs.Some? && timeoutMs.value <= 0 ==> c == Err(WithMessage("Timeout must be a positive integer"))
    ensures timeoutMs.Some? && timeoutMs.value > MaxTimeoutMs ==> c == Err(WithMessage("Timeout must be less than 5 minutes"))
    ensures c.Err? ==> c.exception.httpStatus == BadRequest
  {
    if timeoutMs.None? then Ok
    else if timeoutMs.value <= 0 then Err(WithMessage("Timeout must be a positive integer"))
    else if timeoutMs.value > MaxTimeoutMs then Err(WithMessage("Timeout must be less than 5 minutes"))
    else Ok
  }

  /** `validateRequest`: a null method first, then method, URL and timeout, in that order. */
  function ValidateRequest(request: ApiRequest, parse: UrlParser): (c: Check)
    ensures c.Err? ==> c.exception.httpStatus == BadRequest
    ensures request.httpMethod.None? ==> c == Err(WithMessage("Request cannot be null"))
    ensures request.httpMethod.Some? && ValidateMethod(request.httpMethod).Err? ==> c == ValidateMethod(request.httpMethod)
    ensures request.httpMethod.Some? && ValidateMethod(request.httpMethod).Ok? && ValidateUrl(request.url, parse).Err? ==>
              c == ValidateUrl(request.url, parse)
    ensures request.httpMethod.Some? && ValidateMethod(request.httpMethod).Ok? && ValidateUrl(request.url, parse).Ok? ==>
              c == ValidateTimeout(request.timeoutMs)
  {
    if request.httpMethod.None? then
      Err(WithMessage("Request cannot be null"))
    else if ValidateMethod(request.httpMethod).Err? then
      ValidateMethod(request.httpMethod)
    else if ValidateUrl(request.url, parse).Err? then
      ValidateUrl(request.url, parse)
    else
      ValidateTimeout(request.timeoutMs)
  }

  /** `isSafeUrl`: whether `validateUrl` returns without throwing. */
  function IsSafeUrl(url: Option<string>, parse: UrlParser): (safe: bool)
    ensures safe <==> ValidateUrl(url, parse).Ok?
  {
    match ValidateUrl(url, parse)
    case Ok => true
    case Err(_) => false
  }

  // ---------------------------------------------------------------- properties

  lemma AllowedMethodsAreWords(w: string)
    requires w in AllowedMethods
    ensures IsUpperWord(w) && |w| > 0
  {
  }

  /** A method is accepted exactly when it equals a whitelisted name ignoring case. */
  lemma MethodAcceptedIffWhitelisted(verb: string)
    ensures ValidateMethod(Some(verb)).Ok? <==>
            exists w :: w in AllowedMethods && EqualsIgnoreCase(verb, w)
  {
    if exists w :: w in AllowedMethods && EqualsIgnoreCase(verb, w) {
      var w :| w in AllowedMethods && EqualsIgnoreCase(verb, w);
      AllowedMethodsAreWords(w);
      UpperMatchIsCaseInsensitive(verb, w);
      assert ToUpper(verb)[0] == w[0];
      LetterStartIsNotBlank(verb);
    }
    if ValidateMethod(Some(verb)).Ok? {
      var w := ToUpper(verb);
      AllowedMethodsAreWords(w);
      UpperMatchIsCaseInsensitive(verb, w);
    }
  }

  /** Lower case is accepted, because the whitelist is matched on the upper-cased method. */
  lemma LowerCaseGetIsAccepted()
    ensures ValidateMethod(Some("get")).Ok?
  {
    assert !IsBlank("get");
    assert ToUpper("get") == "GET";
  }

  /** TRACE is not in the whitelist. */
  lemma TraceIsRejected()
    ensures ValidateMethod(Some("TRACE")).Err?
  {
    assert ToUpper("TRACE") == "TRACE";
  }

  /** The protocol check passes exactly for http and https, in any case; the unsafe list only picks the message. */
  lemma ProtocolAcceptedIffHttp(name: string)
    ensures (var p := ToLower(name); p !in UnsafeProtocols && (p == "http" || p == "https")) <==>
            EqualsIgnoreCase(name, "http") || EqualsIgnoreCase(name, "https")
  {
    LowerMatchIsCaseInsensitive(name, "http");
    LowerMatchIsCaseInsensitive(name, "https");
    var p := ToLower(name);
    if p == "http" || p == "https" {
      assert p !in UnsafeProtocols;
    }
  }

  /** A URL is safe exactly when it is present, not blank, and parses to the protocol http or https. */
  lemma SafeUrlIffHttpScheme(url: Option<string>, parse: UrlParser)
    ensures IsSafeUrl(url, parse) <==>
            url.Some? && !IsBlank(url.value) && parse(url.value).Protocol? &&
            (EqualsIgnoreCase(parse(url.value).name, "http") || EqualsIgnoreCase(parse(url.value).name, "https"))
  {
    if url.Some? && !IsBlank(url.value) && parse(url.value).Protocol? {
      ProtocolAcceptedIffHttp(parse(url.value).name);
    }
  }

  /** A scheme other than http or https fails the whole request, whatever the method and timeout. */
  lemma NonHttpSchemeRejected(request: ApiRequest, parse: UrlParser)
    requires !IsSafeUrl(request.url, parse)
    ensures ValidateRequest(request, parse).Err?
    ensures ValidateMethod(request.httpMethod).Ok? ==> ValidateRequest(request, parse) == ValidateUrl(request.url, parse)
  {
  }

  /** A request passes exactly when each check passes on its own. */
  lemma RequestValidIffEachCheckPasses(request: ApiRequest, parse: UrlParser)
    ensures ValidateRequest(request, parse).Ok? <==>
            ValidateMethod(request.httpMethod).Ok? && IsSafeUrl(request.url, parse) &&
            ValidateTimeout(request.timeoutMs).Ok?
  {
  }

  /** The timeout window: at one and at five minutes it is accepted, just outside it is not. */
  lemma TimeoutBounds()
    ensures ValidateTimeout(None).Ok?
    ensures ValidateTimeout(Some(1)).Ok? && ValidateTimeout(Some(MaxTimeoutMs)).Ok?
    ensures ValidateTimeout(Some(0)) == Err(WithMessage("Timeout must be a positive integer"))
    ensures ValidateTimeout(Some(MaxTimeoutMs + 1)) == Err(WithMessage("Timeout must be less than 5 minutes"))
  {
  }
}
