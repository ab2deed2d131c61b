// ai_scholar/utils/error_handler.py: turning provider failures into the
// application's error kinds, and application errors into JSON responses
// and flash messages. The exception classes it imports are not defined in
// ai_scholar/utils/exceptions.py, so their kinds and fields are taken from
// how this file and the providers use them.

module ErrorHandling {
  import opened Base
  import opened Text
  import opened Values

  /** The subclasses of AIScholarError that the handlers tell apart. */
  datatype ScholarKind = RateLimit | Authentication | ApiUnavailable | Network | Timeout | OtherScholar

  /**
   * The requests exceptions: ConnectTimeout is both a ConnectionError and a
   * Timeout; ReadTimeout only a Timeout; HTTPError and the rest only a
   * RequestException.
   */
  datatype RequestKind = ConnectionFailure | ConnectTimeout | ReadTimeout | HttpFailure | OtherRequest

  /** An HTTP response as far as the handlers read it. */
  datatype Response = Response(status: int, headers: map<string, string>, text: string)

  /** A raised exception. */
  datatype Exc =
    | Scholar(kind: ScholarKind, userMessage: string, errorCode: string, timestamp: Value,
              provider: string, retryAfter: Value, statusCode: Value, text: string, typeName: string)
    | Requests(rkind: RequestKind, response: Option<Response>, text: string, typeName: string)
    | Plain(text: string, typeName: string)

  /** The error handle_provider_request_error builds: which constructor, with which arguments. */
  datatype Converted =
    | NetworkErr(message: string, userMessage: Option<string>)
    | TimeoutErr(provider: string, message: string)
    | RateLimited(provider: string, retrySeconds: Option<int>, headers: map<string, string>)
    | ApiErr(provider: string, status: int, body: string)
    | Unavailable(provider: string, message: string)

  predicate IsConnectionError(k: RequestKind) { k == ConnectionFailure || k == ConnectTimeout }
  predicate IsTimeout(k: RequestKind) { k == ConnectTimeout || k == ReadTimeout }

  /** A header value as `headers.get(name)` gives it to an `if value:` test: present and non-empty. */
  function Header(h: map<string, string>, name: string): Option<string>
  {
    if name in h && h[name] != [] then Some(h[name]) else None
  }

  /**
   * The retry delay of a 429: Retry-After when it is given, else
   * X-RateLimit-Reset; a value int() rejects gives None, and a given but
   * unparsable Retry-After does not fall back to the reset header.
   */
  function RetrySeconds(h: map<string, string>): Option<int>
  {
    match Header(h, "Retry-After")
    case Some(v) => ParseInt(v)
    case None =>
      match Header(h, "X-RateLimit-Reset")
      case Some(v) => ParseInt(v)
      case None => None
  }

  /**
   * A printed number in Retry-After is read back exactly, whatever the
   * reset header says, and a non-empty Retry-After that int() rejects
   * gives None even beside a valid reset header.
   */
  lemma RetryAfterWins(h: map<string, string>, n: int, v: string)
    ensures RetrySeconds(h["Retry-After" := IntToString(n)]) == Some(n)
    ensures v != [] && ParseInt(v).None? ==> RetrySeconds(h["Retry-After" := v]) == None
  {
    IntToStringRoundTrip(n);
  }

  /** With Retry-After absent, a printed number in X-RateLimit-Reset is read back exactly. */
  lemma RetryResetFallback(h: map<string, string>, m: int)
    requires "Retry-After" !in h
    ensures RetrySeconds(h["X-RateLimit-Reset" := IntToString(m)]) == Some(m)
  {
    IntToStringRoundTrip(m);
    var h2 := h["X-RateLimit-Reset" := IntToString(m)];
    assert "Retry-After" !in h2;
  }

  /** handle_provider_request_error: the requests exception kinds first, then the response, then a generic error. */
  function ProviderRequestError(provider: string, error: Exc, response: Option<Response>): (r: Converted)
  {
    if error.Requests? && IsConnectionError(error.rkind) then
      NetworkErr("Connection failed to " + provider,
                 Some("Unable to connect to " + provider + ". Please check your internet connection."))
    else if error.Requests? && IsTimeout(error.rkind) then TimeoutErr(provider, error.text)
    else if error.Requests? then NetworkErr("Network error with " + provider + ": " + error.text, None)
    else if response.Some? then
      if response.value.status == 429 then RateLimited(provider, RetrySeconds(response.value.headers), response.value.headers)
      else ApiErr(provider, response.value.status, response.value.text)
    else Unavailable(provider, error.text)
  }

  /**
   * A requests exception is classified by its kind alone and the response
   * is never read (a ConnectTimeout counts as a connection failure); for
   * any other error a 429 response becomes a rate-limit error, another
   * response an API error with its status and body, and no response an
   * unavailable-provider error.
   */
  lemma ProviderRequestErrorCases(provider: string, error: Exc, r1: Option<Response>, r2: Option<Response>)
    ensures error.Requests? ==> ProviderRequestError(provider, error, r1) == ProviderRequestError(provider, error, r2)
    ensures error.Requests? ==> var c := ProviderRequestError(provider, error, r1);
      (c.NetworkErr? <==> error.rkind != ReadTimeout) && (c.TimeoutErr? <==> error.rkind == ReadTimeout)
    ensures !error.Requests? && r1.Some? && r1.value.status == 429 ==>
      ProviderRequestError(provider, error, r1) == RateLimited(provider, RetrySeconds(r1.value.headers), r1.value.headers)
    ensures !error.Requests? && r1.Some? && r1.value.status != 429 ==>
      ProviderRequestError(provider, error, r1) == ApiErr(provider, r1.value.status, r1.value.text)
    ensures !error.Requests? && r1.None? ==> ProviderRequestError(provider, error, r1) == Unavailable(provider, error.text)
  {
  }

  /** The outcome of a wrapped call: its value, or the exception it raised. */
  datatype Outcome<T> = Returned(value: T) | Raised(error: Exc)

  /** What a call wrapped by handle_provider_error ends with: a value, an application error re-raised, or a converted one. */
  datatype Wrapped<T> = Value(value: T) | Reraised(error: Exc) | Raises(converted: Converted)

  /** handle_provider_error(provider_name)(func): request exceptions converted, AIScholarError re-raised, anything else made an APIUnavailableError. */
  function ProviderErrorWrapper<T>(provider: string, outcome: Outcome<T>): (r: Wrapped<T>)
  {
    match outcome
    case Returned(v) => Value(v)
    case Raised(e) =>
      if e.Requests? then Raises(ProviderRequestError(provider, e, e.response))
      else if e.Scholar? then Reraised(e)
      else Raises(Unavailable(provider, e.text))
  }

  /**
   * A wrapped provider call never lets a foreign exception through: values
   * pass unchanged, application errors are re-raised as they are, and a
   * requests exception always becomes a network or timeout error, because
   * every requests exception is caught by the first three branches before
   * its response could be examined.
   */
  lemma ProviderErrorWrapperCases<T>(provider: string, outcome: Outcome<T>)
    ensures var r := ProviderErrorWrapper(provider, outcome);
      (outcome.Returned? <==> r.Value?) &&
      (outcome.Returned? ==> r.value == outcome.value) &&
      (r.Reraised? <==> outcome.Raised? && outcome.error.Scholar?) &&
      (r.Reraised? ==> r.error == outcome.error) &&
      (outcome.Raised? && outcome.error.Requests? ==> r.Raises? && (r.converted.NetworkErr? || r.converted.TimeoutErr?)) &&
      (outcome.Raised? && outcome.error.Plain? ==> r == Raises(Unavailable(provider, outcome.error.text)))
  {
  }

  const GenericMessage := "An unexpected error occurred. Please try again later."

  /** The HTTP status format_error_response answers with. */
  function StatusFor(e: Exc): (status: int)
  {
    if !e.Scholar? then 500
    else match e.kind
      case RateLimit => 429
      case Authentication => 401
      case ApiUnavailable => 503
      case Network => 503
      case Timeout => 503
      case OtherScholar => 400
  }

  /** The response body before the optional technical details. */
  function ResponseBase(e: Exc): (body: PaperDict)
  {
    if !e.Scholar? then
      map["error" := BoolV(true), "message" := StrV(GenericMessage), "error_code" := StrV("UNKNOWN_ERROR")]
    else
      var base := map["error" := BoolV(true), "message" := StrV(e.userMessage), "error_code" := StrV(e.errorCode),
                      "timestamp" := e.timestamp];
      match e.kind
      case RateLimit => base["retry_after_seconds" := e.retryAfter]["provider" := StrV(e.provider)]
      case Authentication => base["provider" := StrV(e.provider)]
      case ApiUnavailable => base["provider" := StrV(e.provider)]["status_code" := e.statusCode]
      case _ => base
  }

  /** The exception's `str()`. */
  function ErrorText(e: Exc): string
  {
    match e
    case Scholar(_, _, _, _, _, _, _, text, _) => text
    case Requests(_, _, text, _) => text
    case Plain(text, _) => text
  }

  /** format_error_response: the JSON body and the status. */
  function FormatErrorResponse(e: Exc, includeDetails: bool): (r: (PaperDict, int))
  {
    var base := ResponseBase(e);
    var body := if includeDetails then base["technical_message" := StrV(ErrorText(e))]["error_type" := StrV(e.typeName)]
                else base;
    (body, StatusFor(e))
  }

  /**
   * Rate limits answer 429, authentication failures 401, unavailable
   * providers, network and timeout errors 503, other application errors
   * 400 and anything else 500 with the code UNKNOWN_ERROR; every body has
   * `error` true, a message and an error code, and the provider appears
   * exactly for the three provider-specific kinds.
   */
  lemma FormatErrorStatus(e: Exc, includeDetails: bool)
    ensures var (body, status) := FormatErrorResponse(e, includeDetails);
      (status == 429 <==> e.Scholar? && e.kind == RateLimit) &&
      (status == 401 <==> e.Scholar? && e.kind == Authentication) &&
      (status == 503 <==> e.Scholar? && e.kind in {ApiUnavailable, Network, Timeout}) &&
      (status == 400 <==> e.Scholar? && e.kind == OtherScholar) &&
      (status == 500 <==> !e.Scholar?) &&
      body["error"] == BoolV(true) && "message" in body && "error_code" in body &&
      (!e.Scholar? ==> body["error_code"] == StrV("UNKNOWN_ERROR") && body["message"] == StrV(GenericMessage)) &&
      ("provider" in body <==> e.Scholar? && e.kind in {RateLimit, Authentication, ApiUnavailable})
  {
  }

  /**
   * The technical details appear exactly when asked for, and asking for
   * them adds just those two keys to the same body.
   */
  lemma FormatErrorDetails(e: Exc)
    ensures var (with, s1) := FormatErrorResponse(e, true);
      var (without, s2) := FormatErrorResponse(e, false);
      s1 == s2 &&
      "technical_message" in with && "error_type" in with &&
      "technical_message" !in without && "error_type" !in without &&
      without == map k | k in with && k !in {"technical_message", "error_type"} :: with[k]
  {
    var (with, _) := FormatErrorResponse(e, true);
    var (without, _) := FormatErrorResponse(e, false);
    assert without.Keys == with.Keys - {"technical_message", "error_type"};
  }

  /** format_flash_message: the user message of an application error, the generic sentence otherwise; always category 'error'. */
  function FormatFlashMessage(e: Exc): (r: (string, string))
  {
    if e.Scholar? then (e.userMessage, "error") else (GenericMessage, "error")
  }

  /** The flash message shows the same text as the JSON response's `message`. */
  lemma FlashAgreesWithJson(e: Exc, includeDetails: bool)
    ensures FormatFlashMessage(e).1 == "error"
    ensures StrV(FormatFlashMessage(e).0) == FormatErrorResponse(e, includeDetails).0["message"]
  {
  }

  /** handle_api_error(func): a raised exception becomes the JSON error response without details. */
  function ApiErrorWrapper<T>(outcome: Outcome<T>): (r: Either<T, (PaperDict, int)>)
  {
    match outcome
    case Returned(v) => Left(v)
    case Raised(e) => Right(FormatErrorResponse(e, false))
  }

  datatype Either<L, R> = Left(left: L) | Right(right: R)

  /** Nothing escapes an API route: a failure is always answered with an error body, never with technical details. */
  lemma ApiErrorWrapperCases<T>(outcome: Outcome<T>)
    ensures var r := ApiErrorWrapper(outcome);
      (r.Left? <==> outcome.Returned?) &&
      (r.Right? ==> (r.right.0["error"] == BoolV(true) && "technical_message" !in r.right.0 &&
                     r.right.1 == StatusFor(outcome.error)))
  {
    if outcome.Raised? {
      FormatErrorStatus(outcome.error, false);
    }
  }
}
