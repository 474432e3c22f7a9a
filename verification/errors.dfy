/**
 * The error taxonomy: the four frozen tables of backend/helpers/errors/constants.js
 * over 22 HTTP status kinds (section 15 of RFC 9110, plus 418 from RFC 2324, 423
 * from RFC 4918 and 429 from RFC 6585), and the `HttpException` record of
 * backend/helpers/errors/index.js with its constructor defaults and its factories.
 */
module Errors {
  import opened Wrappers

  /** The status kinds, in the order of the tables. */
  datatype Kind =
    | BadRequest
    | Unauthorized
    | PaymentRequired
    | Forbidden
    | NotFound
    | MethodNotAllowed
    | NotAcceptable
    | RequestTimeout
    | Conflict
    | Gone
    | PayloadTooLarge
    | UriTooLong
    | UnsupportedMediaType
    | ImATeapot
    | UnprocessableEntity
    | Locked
    | TooManyRequests
    | InternalServerError
    | NotImplemented
    | BadGateway
    | ServiceUnavailable
    | GatewayTimeout

  {
    /** The five kinds of the 5xx class. */
    predicate IsServerError() {
      InternalServerError? || NotImplemented? || BadGateway? || ServiceUnavailable? || GatewayTimeout?
    }
  }

  /**
   * The constant's name: both the key and the value of its `HTTP_STATUS` entry,
   * the key of its `STATUS_CODES` and `STATUS_MESSAGES` entries, and the value of
   * its `CODE_STATUS` entry.
   */
  function Name(k: Kind): string {
    match k
    case BadRequest => "BAD_REQUEST"
    case Unauthorized => "UNAUTHORIZED"
    case PaymentRequired => "PAYMENT_REQUIRED"
    case Forbidden => "FORBIDDEN"
    case NotFound => "NOT_FOUND"
    case MethodNotAllowed => "METHOD_NOT_ALLOWED"
    case NotAcceptable => "NOT_ACCEPTABLE"
    case RequestTimeout => "REQUEST_TIMEOUT"
    case Conflict => "CONFLICT"
    case Gone => "GONE"
    case PayloadTooLarge => "PAYLOAD_TOO_LARGE"
    case UriTooLong => "URI_TOO_LONG"
    case UnsupportedMediaType => "UNSUPPORTED_MEDIA_TYPE"
    case ImATeapot => "IM_A_TEAPOT"
    case UnprocessableEntity => "UNPROCESSABLE_ENTITY"
    case Locked => "LOCKED"
    case TooManyRequests => "TOO_MANY_REQUESTS"
    case InternalServerError => "INTERNAL_SERVER_ERROR"
    case NotImplemented => "NOT_IMPLEMENTED"
    case BadGateway => "BAD_GATEWAY"
    case ServiceUnavailable => "SERVICE_UNAVAILABLE"
    case GatewayTimeout => "GATEWAY_TIMEOUT"
  }

  /** `STATUS_CODES[k]`. */
  function Code(k: Kind): (c: int)
    ensures 400 <= c <= 504
    ensures c >= 500 <==> k.IsServerError()
  {
    match k
    case BadRequest => 400
    case Unauthorized => 401
    case PaymentRequired => 402
    case Forbidden => 403
    case NotFound => 404
    case MethodNotAllowed => 405
    case NotAcceptable => 406
    case RequestTimeout => 408
    case Conflict => 409
    case Gone => 410
    case PayloadTooLarge => 413
    case UriTooLong => 414
    case UnsupportedMediaType => 415
    case ImATeapot => 418
    case UnprocessableEntity => 422
    case Locked => 423
    case TooManyRequests => 429
    case InternalServerError => 500
    case NotImplemented => 501
    case BadGateway => 502
    case ServiceUnavailable => 503
    case GatewayTimeout => 504
  }

  /** `STATUS_MESSAGES[k]`: the status text, spelled as in the table. */
  function Message(k: Kind): (m: string)
    ensures m != ""
  {
    match k
    case BadRequest => "Bad Request"
    case Unauthorized => "Unauthorized"
    case PaymentRequired => "Payment Required"
    case Forbidden => "Forbidden"
    case NotFound => "Not Found"
    case MethodNotAllowed => "Method Not Allowed"
    case NotAcceptable => "Not Acceptable"
    case RequestTimeout => "Request Timeout"
    case Conflict => "Conflict"
    case Gone => "Gone"
    case PayloadTooLarge => "Payload to large"
    case UriTooLong => "URI Too Long"
    case UnsupportedMediaType => "Unsupported Media Type"
    case ImATeapot => "I`m a Teapot"
    case UnprocessableEntity => "Unprocessable Entity"
    case Locked => "Locked"
    case TooManyRequests => "Too Many Requests"
    case InternalServerError => "Internal Server Error"
    case NotImplemented => "Not Implemented"
    case BadGateway => "Bad Gateway"
    case ServiceUnavailable => "Service Unavailable"
    case GatewayTimeout => "Gateway Timeout"
  }

  /**
   * `HTTP_STATUS[s]`, read as a lookup of a kind by its name: defined exactly for
   * the 22 names, and every entry maps a name to that same name.
   */
  function KindNamed(s: string): (r: Option<Kind>)
    ensures r.Some? ==> Name(r.value) == s
    ensures forall k :: Name(k) == s ==> r == Some(k)
  {
    match s
    case "BAD_REQUEST" => Some(BadRequest)
    case "UNAUTHORIZED" => Some(Unauthorized)
    case "PAYMENT_REQUIRED" => Some(PaymentRequired)
    case "FORBIDDEN" => Some(Forbidden)
    case "NOT_FOUND" => Some(NotFound)
    case "METHOD_NOT_ALLOWED" => Some(MethodNotAllowed)
    case "NOT_ACCEPTABLE" => Some(NotAcceptable)
    case "REQUEST_TIMEOUT" => Some(RequestTimeout)
    case "CONFLICT" => Some(Conflict)
    case "GONE" => Some(Gone)
    case "PAYLOAD_TOO_LARGE" => Some(PayloadTooLarge)
    case "URI_TOO_LONG" => Some(UriTooLong)
    case "UNSUPPORTED_MEDIA_TYPE" => Some(UnsupportedMediaType)
    case "IM_A_TEAPOT" => Some(ImATeapot)
    case "UNPROCESSABLE_ENTITY" => Some(UnprocessableEntity)
    case "LOCKED" => Some(Locked)
    case "TOO_MANY_REQUESTS" => Some(TooManyRequests)
    case "INTERNAL_SERVER_ERROR" => Some(InternalServerError)
    case "NOT_IMPLEMENTED" => Some(NotImplemented)
    case "BAD_GATEWAY" => Some(BadGateway)
    case "SERVICE_UNAVAILABLE" => Some(ServiceUnavailable)
    case "GATEWAY_TIMEOUT" => Some(GatewayTimeout)
    case _ => None
  }

  /**
   * `CODE_STATUS[c]`, read as a lookup of a kind by its code: the inverse of
   * `STATUS_CODES` over the same 22 kinds.
   */
  function KindOfCode(c: int): (r: Option<Kind>)
    ensures r.Some? ==> Code(r.value) == c
    ensures forall k :: Code(k) == c ==> r == Some(k)
  {
    if c == 400 then Some(BadRequest)
    else if c == 401 then Some(Unauthorized)
    else if c == 402 then Some(PaymentRequired)
    else if c == 403 then Some(Forbidden)
    else if c == 404 then Some(NotFound)
    else if c == 405 then Some(MethodNotAllowed)
    else if c == 406 then Some(NotAcceptable)
    else if c == 408 then Some(RequestTimeout)
    else if c == 409 then Some(Conflict)
    else if c == 410 then Some(Gone)
    else if c == 413 then Some(PayloadTooLarge)
    else if c == 414 then Some(UriTooLong)
    else if c == 415 then Some(UnsupportedMediaType)
    else if c == 418 then Some(ImATeapot)
    else if c == 422 then Some(UnprocessableEntity)
    else if c == 423 then Some(Locked)
    else if c == 429 then Some(TooManyRequests)
    else if c == 500 then Some(InternalServerError)
    else if c == 501 then Some(NotImplemented)
    else if c == 502 then Some(BadGateway)
    else if c == 503 then Some(ServiceUnavailable)
    else if c == 504 then Some(GatewayTimeout)
    else None
  }

  /** No two kinds share a code, and no two kinds share a name. */
  lemma TablesInjective(j: Kind, k: Kind)
    ensures Code(j) == Code(k) ==> j == k
    ensures Name(j) == Name(k) ==> j == k
  {
    var _ := KindOfCode(Code(k));
    var _ := KindNamed(Name(k));
  }

  /** The debug record the providers attach to a mapped storage error: `{ original: message }`. */
  datatype Debug = Debug(original: string)

  /** The keys of the constructor's optional `payload` that it reads (`{}` when omitted). */
  datatype Payload = Payload(message: Option<string>, debug: Option<Debug>, expose: Option<bool>)

  const EMPTY_PAYLOAD := Payload(None, None, None)

  /** The fields an `HttpException` carries once constructed (the stack trace is not modelled). */
  datatype HttpException = HttpException(
    statusCode: int,
    status: string,
    name: string,
    message: string,
    expose: bool,
    debug: Option<Debug>)

  /** JavaScript truthiness of an optional string: defined and not empty. */
  predicate Truthy(s: Option<string>) {
    s.Some? && s.value != ""
  }

  /**
   * `new HttpException(statusCode, status, payload)`; an absent argument takes the
   * parameter's default.
   */
  function NewHttpException(statusCode: Option<int>, status: Option<string>, payload: Payload): (e: HttpException)
    ensures e.statusCode == (if statusCode.Some? then statusCode.value else 400)
    ensures e.status == (if status.Some? then status.value else "ClientRequestError")
    ensures e.name == "HttpException"
    ensures Truthy(payload.message) ==> e.message == payload.message.value
    ensures !Truthy(payload.message) ==> e.message == e.status
    ensures payload.expose.Some? ==> e.expose == payload.expose.value
    ensures payload.expose.None? ==> (e.expose <==> e.statusCode <= 500)
    ensures e.debug == payload.debug
  {
    var code := statusCode.GetOr(400);
    var text := status.GetOr("ClientRequestError");
    HttpException(
      code,
      text,
      "HttpException",
      if Truthy(payload.message) then payload.message.value else text,
      payload.expose.GetOr(code <= 500),
      payload.debug)
  }

  /**
   * The static factory named after kind `k` (`HttpException.BAD_REQUEST(message,
   * payload)` and its 21 siblings, which differ only in the kind). The factory's
   * `message` argument is spread after the payload, so it replaces
   * `payload.message` even when it is undefined.
   */
  function Raise(k: Kind, message: Option<string>, payload: Payload): (e: HttpException)
    ensures e.statusCode == Code(k) && e.status == Message(k) && e.name == "HttpException"
    ensures e.message != ""
    ensures Truthy(message) ==> e.message == message.value
    ensures !Truthy(message) ==> e.message == Message(k)
    ensures e.debug == payload.debug
    ensures payload.expose.Some? ==> e.expose == payload.expose.value
    ensures payload.expose.None? ==> (e.expose <==> !k.IsServerError() || k == InternalServerError)
  {
    NewHttpException(Some(Code(k)), Some(Message(k)), payload.(message := message))
  }

  /** The message key of a factory's payload never reaches the exception. */
  lemma PayloadMessageIgnored(k: Kind, message: Option<string>, p: Payload, q: Payload)
    requires p.debug == q.debug && p.expose == q.expose
    ensures Raise(k, message, p) == Raise(k, message, q)
  {
  }

  /** By default 500 is still exposed and every other server error is hidden. */
  lemma ExposeThreshold(k: Kind)
    ensures Raise(k, None, EMPTY_PAYLOAD).expose <==> Code(k) <= 500
    ensures Raise(InternalServerError, None, EMPTY_PAYLOAD).expose
    ensures !Raise(NotImplemented, None, EMPTY_PAYLOAD).expose
  {
  }
}
