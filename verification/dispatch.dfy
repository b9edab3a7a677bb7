/**
 `make_api_request` without the network: the transport's outcome is a
 parameter, and the model is the pure mapping from that outcome to either
 the decoded payload or an error record, plus the dict the function returns.
 */
module Dispatch {
  import opened Wrappers
  import opened Json

  /**
   What the HTTP client produced: a response (its status, raw text and the
   JSON decoding of that text, `None` when it is not valid JSON), a timeout,
   or any other failure with its message.
   */
  datatype Transport =
    | Response(status: int, text: string, decoded: Option<Value>)
    | Timeout
    | OtherFailure(reason: string)

  /** The kinds of handled failure. */
  datatype ErrorKind =
    | RateLimited            // status 429, Too Many Requests (section 4 of RFC 6585)
    | AuthenticationFailed   // status 401, Unauthorized (section 15.5.2 of RFC 9110)
    | ApiError(status: int)  // any other status outside 200..299
    | RequestTimeout
    | RequestFailed

  /** Where an error's message comes from. */
  datatype Detail =
    | Fixed(text: string)            // a message the adapter wrote
    | BodyField(v: Value)            // the error body's `message`, else its `error`
    | WholeBody(v: Value)            // `str()` of the whole error body
    | RawText(text: string)          // the error response's raw text
    | StatusException(status: int)   // `str()` of the status exception, for an empty body
    | ExceptionText(reason: string)  // `str()` of any other exception

  datatype ErrorRecord = ErrorRecord(kind: ErrorKind, message: Detail, suggestion: Option<string>)

  /** The two shapes of `make_api_request`'s result. */
  datatype Dispatched = Payload(v: Value) | Failed(record: ErrorRecord)

  const RateLimitMessage: string := "You've hit the rate limit for this operation. Please wait and try again."
  const AuthMessage: string := "Invalid API key. Check your SUBMAGIC_API_KEY environment variable."
  const TimeoutMessage: string := "The request took too long to complete. The video might be too large or the server is busy."
  const DocsSuggestion: string := "Check the API documentation at https://docs.submagic.co for more details."
  const TimeoutSuggestion: string := "Try with a smaller video or wait a few minutes and retry."
  const ConnectivitySuggestion: string := "Check your internet connection and API key configuration."

  /** The rate-limit table of the 429 reply: one entry per operation tier. */
  const RateLimits: map<string, string> := map[
    "lightweight_operations" := "1000 requests/hour",
    "standard_operations" := "500 requests/hour",
    "upload_operations" := "500 requests/hour"]

  /** `200 <= status < 300`: the statuses `raise_for_status` lets through. */
  predicate IsSuccess(status: int) { 200 <= status < 300 }

  /**
   `error_data.get("message", error_data.get("error", str(error_data)))`,
   falling back to the raw text, or to the exception's text when the body is
   empty, when the body is not a JSON object.
   */
  function ErrorDetail(status: int, text: string, decoded: Option<Value>): (d: Detail)
    ensures d.BodyField? || d.WholeBody? <==> decoded.Some? && decoded.value.Obj?
  {
    match decoded
    case Some(Obj(m)) =>
      if "message" in m then BodyField(m["message"])
      else if "error" in m then BodyField(m["error"])
      else WholeBody(Obj(m))
    case _ => if |text| > 0 then RawText(text) else StatusException(status)
  }

  /** The classification `make_api_request` performs on the transport outcome. */
  function Classify(t: Transport): (d: Dispatched)
    ensures d.Payload? <==> t.Response? && IsSuccess(t.status) && t.decoded.Some?
    ensures d.Payload? ==> d.v == t.decoded.value
    ensures d.Failed? && d.record.kind == RateLimited <==> t.Response? && t.status == 429
    ensures d.Failed? && d.record.kind == AuthenticationFailed <==> t.Response? && t.status == 401
    ensures d.Failed? && d.record.kind.ApiError? <==>
              t.Response? && !IsSuccess(t.status) && t.status != 429 && t.status != 401
    ensures d.Failed? && d.record.kind.ApiError? ==>
              d.record.kind.status == t.status && d.record.message == ErrorDetail(t.status, t.text, t.decoded)
    ensures d.Failed? && d.record.kind == RequestTimeout <==> t.Timeout?
    ensures d.Failed? && d.record.kind == RequestFailed <==>
              t.OtherFailure? || (t.Response? && IsSuccess(t.status) && t.decoded.None?)
    ensures d.Failed? ==>
              (d.record.suggestion.None? <==> d.record.kind == RateLimited || d.record.kind == AuthenticationFailed)
  {
    match t
    case Timeout => Failed(ErrorRecord(RequestTimeout, Fixed(TimeoutMessage), Some(TimeoutSuggestion)))
    case OtherFailure(reason) => Failed(ErrorRecord(RequestFailed, ExceptionText(reason), Some(ConnectivitySuggestion)))
    case Response(status, text, decoded) =>
      if status == 429 then Failed(ErrorRecord(RateLimited, Fixed(RateLimitMessage), None))
      else if status == 401 then Failed(ErrorRecord(AuthenticationFailed, Fixed(AuthMessage), None))
      else if !IsSuccess(status) then Failed(ErrorRecord(ApiError(status), ErrorDetail(status, text, decoded), Some(DocsSuggestion)))
      else match decoded
        case Some(v) => Payload(v)
        case None => Failed(ErrorRecord(RequestFailed, ExceptionText(InvalidJsonMessage), Some(ConnectivitySuggestion)))
  }

  const RateLimitTitle: string := "Rate limit exceeded"
  const AuthTitle: string := "Authentication failed"
  const ApiErrorPrefix: string := "API Error ("
  const TimeoutTitle: string := "Request timeout"
  const FailedTitle: string := "Request failed"
  const StatusErrorPrefix: string := "HTTP status error "
  const InvalidJsonMessage: string := "invalid JSON in response body"

  /** The `error` title of each kind; exactly the API errors' titles start with "API Error (". */
  function Title(k: ErrorKind): (t: string)
    ensures k.ApiError? <==> |t| > |ApiErrorPrefix| && t[..|ApiErrorPrefix|] == ApiErrorPrefix
  {
    match k
    case RateLimited => assert RateLimitTitle[0] != ApiErrorPrefix[0]; RateLimitTitle
    case AuthenticationFailed => assert AuthTitle[1] != ApiErrorPrefix[1]; AuthTitle
    case ApiError(status) => ApiErrorPrefix + IntToString(status) + ")"
    case RequestTimeout => assert TimeoutTitle[0] != ApiErrorPrefix[0]; TimeoutTitle
    case RequestFailed => assert FailedTitle[0] != ApiErrorPrefix[0]; FailedTitle
  }

  /**
   The message as the returned dict carries it: a body's `message` or
   `error` keeps its JSON value, every other message is a string.
   */
  function DetailValue(d: Detail): (v: Value)
    ensures d.BodyField? ==> v == d.v
    ensures !d.BodyField? ==> v.Str?
  {
    match d
    case Fixed(text) => Str(text)
    case BodyField(v) => v
    case WholeBody(v) => Str(Show(v))
    case RawText(text) => Str(text)
    case StatusException(status) => Str(StatusErrorPrefix + IntToString(status))
    case ExceptionText(reason) => Str(reason)
  }

  /** The dict `make_api_request` returns. */
  function AsDict(d: Dispatched): (r: Value)
    ensures d.Failed? ==> r.Obj? && "error" in r.fields && "message" in r.fields
    ensures d.Failed? ==> r.fields["error"] == Str(Title(d.record.kind))
    ensures d.Failed? ==> ("suggestion" in r.fields <==> d.record.suggestion.Some?)
    ensures d.Failed? ==> ("limits" in r.fields <==> d.record.kind == RateLimited)
    ensures d.Failed? && d.record.kind == RateLimited ==>
              r.fields["limits"] == Obj(map k | k in RateLimits :: Str(RateLimits[k]))
    ensures d.Payload? ==> r == d.v
  {
    match d
    case Payload(v) => v
    case Failed(ErrorRecord(kind, message, suggestion)) =>
      var base := map["error" := Str(Title(kind)), "message" := DetailValue(message)];
      var withSuggestion := if suggestion.Some? then base["suggestion" := Str(suggestion.value)] else base;
      Obj(if kind == RateLimited then withSuggestion["limits" := Obj(map k | k in RateLimits :: Str(RateLimits[k]))]
          else withSuggestion)
  }

  /**
   The callers test `"error" in result`: every dispatcher failure passes that
   test, and a payload passes it exactly when it is an object with an
   `error` key of its own.
   */
  lemma CallersSeeEveryFailure(d: Dispatched)
    ensures AsDict(d).Obj? && "error" in AsDict(d).fields <==>
              d.Failed? || (d.v.Obj? && "error" in d.v.fields)
  {
  }

  const ApiKeyMissing: string :=
    "SUBMAGIC_API_KEY environment variable is required. Get your API key from https://app.submagic.co/signup"

  /** `get_api_key`: the credential, or the configuration error when it is unset or empty. */
  function ApiKey(env: Option<string>): (r: Result<string, string>)
    ensures r.Success? <==> env.Some? && |env.value| > 0
    ensures r.Success? ==> r.value == env.value
  {
    if env.Some? && |env.value| > 0 then Success(env.value)
    else Failure(ApiKeyMissing)
  }


  /** Recognises an `error` title, recovering the kind and, for an API error, its status. */
  function KindOfTitle(title: string): Option<ErrorKind> {
    if title == RateLimitTitle then Some(RateLimited)
    else if title == AuthTitle then Some(AuthenticationFailed)
    else if title == TimeoutTitle then Some(RequestTimeout)
    else if title == FailedTitle then Some(RequestFailed)
    else if |title| > |ApiErrorPrefix| && title[..|ApiErrorPrefix|] == ApiErrorPrefix && title[|title| - 1] == ')' then
      match ParseInt(title[|ApiErrorPrefix|..|title| - 1])
      case Some(status) => Some(ApiError(status))
      case None => None
    else None
  }

  /** The `error` title of the returned dict determines the kind of failure, status included. */
  lemma TitleRoundTrip(k: ErrorKind)
    ensures KindOfTitle(Title(k)) == Some(k)
  {
    if k.ApiError? {
      var digits := IntToString(k.status);
      var t := Title(k);
      assert t == ApiErrorPrefix + digits + ")";
      assert t[0] == 'A';
      assert t[..|ApiErrorPrefix|] == ApiErrorPrefix;
      assert t[|ApiErrorPrefix|..|t| - 1] == digits;
      IntToStringRoundTrip(k.status);
    }
  }
}
