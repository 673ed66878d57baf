/**
 * The failure handling of the weather request: an HTTP error status is
 * mapped by a fixed table to one of eight messages (or a generic one), and a
 * transport failure is dispatched to the first matching handler among
 * ConnectionError, Timeout, TooManyRedirects and RequestException. Each
 * failure ends in exactly one message for the temperature label.
 */
module ErrorMessages {

  /** What the user is told went wrong; the detail is the library's text of the exception. */
  datatype Failure =
    | BadRequest | Unauthorized | Forbidden | NotFound
    | InternalServerError | BadGateway | ServiceUnavailable | GatewayTimeout
    | OtherHttpError(httpErr: string)
    | ConnectionFailed | TimedOut | TooManyRedirects
    | OtherRequestError(reqErr: string)

  /** The status codes the source names, with the failure each one reports. */
  const KnownStatuses: map<int, Failure> := map[
    400 := BadRequest,
    401 := Unauthorized,
    403 := Forbidden,
    404 := NotFound,
    500 := InternalServerError,
    502 := BadGateway,
    503 := ServiceUnavailable,
    504 := GatewayTimeout
  ]

  /**
   * The `match` on the status code of a response whose `raise_for_status`
   * raised `HTTPError`; `httpErr` is the exception's text.
   */
  function StatusFailure(status: int, httpErr: string): (f: Failure)
    ensures status in KnownStatuses ==> f == KnownStatuses[status]
    ensures status !in KnownStatuses ==> f == OtherHttpError(httpErr)
  {
    match status
    case 400 => BadRequest
    case 401 => Unauthorized
    case 403 => Forbidden
    case 404 => NotFound
    case 500 => InternalServerError
    case 502 => BadGateway
    case 503 => ServiceUnavailable
    case 504 => GatewayTimeout
    case _ => OtherHttpError(httpErr)
  }

  /** Status codes outside the table, such as 418 and 501, get the generic message. */
  lemma UnlistedStatusesAreGeneric(httpErr: string)
    ensures StatusFailure(418, httpErr) == OtherHttpError(httpErr)
    ensures StatusFailure(501, httpErr) == OtherHttpError(httpErr)
    ensures StatusFailure(200, httpErr) == OtherHttpError(httpErr)
  {
  }

  /**
   * A transport exception, described by which of the handled `requests`
   * exception classes it is an instance of. Every one of them derives from
   * `RequestException`, and one exception may derive from several of the
   * others (a connect timeout is both a ConnectionError and a Timeout).
   */
  datatype RequestError = RequestError(
    isConnectionError: bool,
    isTimeout: bool,
    isTooManyRedirects: bool,
    reqErr: string)

  /**
   * The `except` clauses after the HTTPError one, tried in source order;
   * the last, `RequestException`, catches every remaining request error.
   */
  function TransportFailure(e: RequestError): (f: Failure)
    ensures f in {ConnectionFailed, TimedOut, TooManyRedirects, OtherRequestError(e.reqErr)}
    ensures f == ConnectionFailed <==> e.isConnectionError
    ensures f == TimedOut <==> !e.isConnectionError && e.isTimeout
    ensures f == TooManyRedirects <==> !e.isConnectionError && !e.isTimeout && e.isTooManyRedirects
    ensures f.OtherRequestError? <==> !e.isConnectionError && !e.isTimeout && !e.isTooManyRedirects
  {
    if e.isConnectionError then ConnectionFailed
    else if e.isTimeout then TimedOut
    else if e.isTooManyRedirects then TooManyRedirects
    else OtherRequestError(e.reqErr)
  }

  /** The line before the colon in each message. */
  function Title(f: Failure): string
  {
    match f
    case BadRequest => "Bad request"
    case Unauthorized => "Unauthorized"
    case Forbidden => "Forbidden"
    case NotFound => "Not Found"
    case InternalServerError => "Internal Server Error"
    case BadGateway => "Bad Gatewayt"
    case ServiceUnavailable => "Service Unavailable"
    case GatewayTimeout => "Gateway Timeout"
    case OtherHttpError(_) => "HTTP error ocurred"
    case ConnectionFailed => "Connection Error"
    case TimedOut => "Timeout Error"
    case TooManyRedirects => "Too many redirects"
    case OtherRequestError(_) => "Request Error"
  }

  /** The line after the colon: fixed advice, or the exception's own text. */
  function Detail(f: Failure): string
  {
    match f
    case BadRequest => "Please check your input"
    case Unauthorized => "Invalid API key"
    case Forbidden => "Access Denied"
    case NotFound => "City not Found"
    case InternalServerError => "Please try again later"
    case BadGateway => "Invalid response from the server"
    case ServiceUnavailable => "Service is down"
    case GatewayTimeout => "No response from the server"
    case OtherHttpError(httpErr) => httpErr
    case ConnectionFailed => "Check your internet connection"
    case TimedOut => "The request timed out"
    case TooManyRedirects => "Check the URL"
    case OtherRequestError(reqErr) => reqErr
  }

  /**
   * The text `display_error` receives for a failure, exactly as the source
   * spells it: the title, a colon, a line break and the detail.
   */
  function Message(f: Failure): (m: string)
    ensures f.OtherHttpError? ==> m == "HTTP error ocurred:\n" + f.httpErr
    ensures f.OtherRequestError? ==> m == "Request Error:\n" + f.reqErr
  {
    Title(f) + ":\n" + Detail(f)
  }

  /** The first, second and fifth letters of each title, which tell the titles apart. */
  function Signature(f: Failure): (char, char, char)
  {
    match f
    case BadRequest => ('B', 'a', 'r')
    case Unauthorized => ('U', 'n', 't')
    case Forbidden => ('F', 'o', 'i')
    case NotFound => ('N', 'o', 'F')
    case InternalServerError => ('I', 'n', 'r')
    case BadGateway => ('B', 'a', 'G')
    case ServiceUnavailable => ('S', 'e', 'i')
    case GatewayTimeout => ('G', 'a', 'w')
    case OtherHttpError(_) => ('H', 'T', ' ')
    case ConnectionFailed => ('C', 'o', 'e')
    case TimedOut => ('T', 'i', 'o')
    case TooManyRedirects => ('T', 'o', 'm')
    case OtherRequestError(_) => ('R', 'e', 'e')
  }

  lemma MessageSignature(f: Failure)
    ensures |Title(f)| >= 5
    ensures var m := Message(f); (m[0], m[1], m[4]) == Signature(f)
  {
  }

  /** Different failures are reported with different messages. */
  lemma MessageInjective(f1: Failure, f2: Failure)
    requires Message(f1) == Message(f2)
    ensures f1 == f2
  {
    MessageSignature(f1);
    MessageSignature(f2);
    assert Signature(f1) == Signature(f2);
    if f1.OtherHttpError? || f1.OtherRequestError? {
      assert Title(f1) == Title(f2);
      var n := |Title(f1)| + 2;
      assert Detail(f1) == Message(f1)[n..] == Detail(f2);
    }
  }

  /** The eight listed status codes report eight pairwise distinct messages. */
  lemma KnownStatusMessagesDistinct(s1: int, s2: int, httpErr: string)
    requires s1 in KnownStatuses && s2 in KnownStatuses && s1 != s2
    ensures Message(StatusFailure(s1, httpErr)) != Message(StatusFailure(s2, httpErr))
  {
    if Message(StatusFailure(s1, httpErr)) == Message(StatusFailure(s2, httpErr)) {
      MessageInjective(StatusFailure(s1, httpErr), StatusFailure(s2, httpErr));
    }
  }
}
