/** What travels between the game server and the pay service: the shared
    error record, HTTP responses with the few bodies the two services
    exchange, the names .NET gives status codes, and how the game server's
    JSON reads treat each body. */
module Wire {
  import opened Wrappers
  import opened Text

  /** The shared error record: a message and an optional machine code. */
  datatype ErrorResponse = ErrorResponse(message: string, code: Option<string>)

  /** The `Err` extension: wraps a text as the message; the code is only
      set when the caller passes one. */
  function Err(str: string, code: Option<string> := None): (e: ErrorResponse)
    ensures e.message == str && e.code == code
  {
    ErrorResponse(str, code)
  }

  /** A response body as JSON: a balance dictionary, a single `TxValue`,
      an error record, a table view, JSON `null`, no body at all, or
      something that is not JSON. */
  datatype Body =
    | Balances(balances: map<string, int>)
    | Value(value: int)
    | Error(error: ErrorResponse)
    | TableView(tableId: string)
    | Null
    | Empty
    | Malformed

  datatype HttpResponse = HttpResponse(status: int, body: Body)

  const Ok: int := 200
  const NoContent: int := 204
  const BadRequest: int := 400
  const Unauthorized: int := 401
  const NotFound: int := 404
  const Conflict: int := 409

  /** `IsSuccessStatusCode`: 200 through 299. */
  predicate IsSuccessStatus(status: int)
  {
    200 <= status <= 299
  }

  predicate IsClientError(status: int)
  {
    400 <= status < 500
  }

  /** `HttpStatusCode.ToString()`: the enum member's name for the 4xx codes
      the enum names, the decimal number otherwise. */
  function StatusName(status: int): (name: string)
    ensures |name| > 0
  {
    match status
    case 400 => "BadRequest"
    case 401 => "Unauthorized"
    case 402 => "PaymentRequired"
    case 403 => "Forbidden"
    case 404 => "NotFound"
    case 405 => "MethodNotAllowed"
    case 406 => "NotAcceptable"
    case 407 => "ProxyAuthenticationRequired"
    case 408 => "RequestTimeout"
    case 409 => "Conflict"
    case 410 => "Gone"
    case 411 => "LengthRequired"
    case 412 => "PreconditionFailed"
    case 413 => "RequestEntityTooLarge"
    case 414 => "RequestUriTooLong"
    case 415 => "UnsupportedMediaType"
    case 416 => "RequestedRangeNotSatisfiable"
    case 417 => "ExpectationFailed"
    case 421 => "MisdirectedRequest"
    case 422 => "UnprocessableEntity"
    case 423 => "Locked"
    case 424 => "FailedDependency"
    case 426 => "UpgradeRequired"
    case 428 => "PreconditionRequired"
    case 429 => "TooManyRequests"
    case 431 => "RequestHeaderFieldsTooLarge"
    case 451 => "UnavailableForLegalReasons"
    case _ => IntToString(status)
  }

  /** The text of the exception a JSON read raises; callers only catch it. */
  const JsonError: string := "JsonException"

  /** `ReadFromJsonAsync<Dictionary<string, decimal>>`: a dictionary body
      reads as itself, a `TxValue` object as the one-entry dictionary of its
      camel-cased property, `null` as no dictionary; an error record (whose
      values are strings), a table view, an empty or non-JSON body raise. */
  function ReadBalances(b: Body): (r: Result<Option<map<string, int>>, string>)
    ensures r.Success? <==> b.Balances? || b.Value? || b.Null?
    ensures b.Balances? ==> r == Success(Some(b.balances))
  {
    match b
    case Balances(m) => Success(Some(m))
    case Value(v) => Success(Some(map["value" := v]))
    case Null => Success(None)
    case _ => Failure(JsonError)
  }

  /** `ReadFromJsonAsync<TxValue>`: a `TxValue` body reads as its value,
      any other JSON object as a `TxValue` whose missing property defaults
      to 0, `null` as no value; an empty or non-JSON body raises. */
  function ReadValue(b: Body): (r: Result<Option<int>, string>)
    ensures r.Success? <==> !(b.Empty? || b.Malformed?)
    ensures b.Value? ==> r == Success(Some(b.value))
    ensures r == Success(None) <==> b.Null?
  {
    match b
    case Value(v) => Success(Some(v))
    case Balances(m) => Success(Some(if "value" in m then m["value"] else 0))
    case Error(_) => Success(Some(0))
    case TableView(_) => Success(Some(0))
    case Null => Success(None)
    case _ => Failure(JsonError)
  }

  /** `(await ReadFromJsonAsync<ErrorResponse>())?.Code`: the code of an
      error record; any other JSON object reads as a record without a code,
      `null` as no record; an empty or non-JSON body raises. */
  function ReadErrorCode(b: Body): (r: Result<Option<string>, string>)
    ensures r.Success? <==> !(b.Empty? || b.Malformed?)
    ensures r.Success? && r.value.Some? ==> b.Error? && r.value == b.error.code
  {
    match b
    case Error(e) => Success(e.code)
    case Empty => Failure(JsonError)
    case Malformed => Failure(JsonError)
    case _ => Success(None)
  }
}
