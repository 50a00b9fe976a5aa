/**
 * The error taxonomy. Every error the client raises has the one base shape
 * of `CyberwareApiError` (message, optional status, optional raw body); the
 * subclasses are told apart by a kind tag. Each subclass constructor fills
 * in a default message when the message argument is omitted (`undefined`)
 * and, except for the server error, a fixed HTTP status.
 */
module Errors {
  import opened Wrappers
  import opened Values

  /** Which class of the family an error is an instance of. */
  datatype ErrorKind =
    | Generic         // CyberwareApiError itself
    | Authentication  // CyberwareAuthenticationError
    | BadRequest      // CyberwareBadRequestError
    | Forbidden       // CyberwareForbiddenError
    | NotFound        // CyberwareNotFoundError
    | Server          // CyberwareServerError
    | RateLimit       // CyberwareRateLimitError

  /** The base error shape; `responseData == Undefined` stands for an omitted body. */
  datatype CyberwareApiError = CyberwareApiError(
    kind: ErrorKind,
    message: string,
    status: Option<int>,
    responseData: Json)

  /** The class name of each kind, which the base constructor stores as `name`. */
  function ClassName(k: ErrorKind): string {
    match k
    case Generic => "CyberwareApiError"
    case Authentication => "CyberwareAuthenticationError"
    case BadRequest => "CyberwareBadRequestError"
    case Forbidden => "CyberwareForbiddenError"
    case NotFound => "CyberwareNotFoundError"
    case Server => "CyberwareServerError"
    case RateLimit => "CyberwareRateLimitError"
  }

  /** The `name` property of an error. */
  function Name(e: CyberwareApiError): string {
    ClassName(e.kind)
  }

  /** The message a subclass constructor uses when none is passed. */
  function DefaultMessage(k: ErrorKind): string
    requires k != Generic
  {
    match k
    case Authentication => "Invalid API key"
    case BadRequest => "Bad request"
    case Forbidden => "Forbidden"
    case NotFound => "Resource not found"
    case Server => "Internal server error"
    case RateLimit => "Rate limit exceeded"
  }

  /** The status a kind always carries; the server error only has a default, so it has none here. */
  function FixedStatus(k: ErrorKind): Option<int> {
    match k
    case Authentication => Some(401)
    case BadRequest => Some(400)
    case Forbidden => Some(403)
    case NotFound => Some(404)
    case RateLimit => Some(429)
    case Server => None
    case Generic => None
  }

  /** `new CyberwareApiError(message, status, responseData)`: everything stored as passed. */
  function NewApiError(message: string, status: Option<int>, responseData: Json): (e: CyberwareApiError)
    ensures e.kind == Generic && Name(e) == "CyberwareApiError"
    ensures e.message == message && e.status == status && e.responseData == responseData
  {
    CyberwareApiError(Generic, message, status, responseData)
  }

  /** `new CyberwareAuthenticationError(message?, responseData?)`. */
  function NewAuthenticationError(message: Option<string>, responseData: Json): (e: CyberwareApiError)
    ensures e.kind == Authentication && Name(e) == "CyberwareAuthenticationError"
    ensures e.status == Some(401) && e.responseData == responseData
    ensures message.Some? ==> e.message == message.value
    ensures message.None? ==> e.message == "Invalid API key"
  {
    CyberwareApiError(Authentication, message.GetOr("Invalid API key"), Some(401), responseData)
  }

  /** `new CyberwareBadRequestError(message?, responseData?)`. */
  function NewBadRequestError(message: Option<string>, responseData: Json): (e: CyberwareApiError)
    ensures e.kind == BadRequest && Name(e) == "CyberwareBadRequestError"
    ensures e.status == Some(400) && e.responseData == responseData
    ensures message.Some? ==> e.message == message.value
    ensures message.None? ==> e.message == "Bad request"
  {
    CyberwareApiError(BadRequest, message.GetOr("Bad request"), Some(400), responseData)
  }

  /**
   * `new CyberwareForbiddenError(message?, responseData?)`. The class is used
   * by the client but not defined in the errors file; it is modelled like the
   * other fixed-status kinds, with the default and status the tests expect.
   */
  function NewForbiddenError(message: Option<string>, responseData: Json): (e: CyberwareApiError)
    ensures e.kind == Forbidden && Name(e) == "CyberwareForbiddenError"
    ensures e.status == Some(403) && e.responseData == responseData
    ensures message.Some? ==> e.message == message.value
    ensures message.None? ==> e.message == "Forbidden"
  {
    CyberwareApiError(Forbidden, message.GetOr("Forbidden"), Some(403), responseData)
  }

  /** `new CyberwareNotFoundError(message?, responseData?)`. */
  function NewNotFoundError(message: Option<string>, responseData: Json): (e: CyberwareApiError)
    ensures e.kind == NotFound && Name(e) == "CyberwareNotFoundError"
    ensures e.status == Some(404) && e.responseData == responseData
    ensures message.Some? ==> e.message == message.value
    ensures message.None? ==> e.message == "Resource not found"
  {
    CyberwareApiError(NotFound, message.GetOr("Resource not found"), Some(404), responseData)
  }

  /** `new CyberwareServerError(message?, status?, responseData?)`: the status defaults to 500. */
  function NewServerError(message: Option<string>, status: Option<int>, responseData: Json): (e: CyberwareApiError)
    ensures e.kind == Server && Name(e) == "CyberwareServerError"
    ensures status.Some? ==> e.status == status
    ensures status.None? ==> e.status == Some(500)
    ensures e.responseData == responseData
    ensures message.Some? ==> e.message == message.value
    ensures message.None? ==> e.message == "Internal server error"
  {
    CyberwareApiError(Server, message.GetOr("Internal server error"), Some(status.GetOr(500)), responseData)
  }

  /** `new CyberwareRateLimitError(message?, responseData?)`. */
  function NewRateLimitError(message: Option<string>, responseData: Json): (e: CyberwareApiError)
    ensures e.kind == RateLimit && Name(e) == "CyberwareRateLimitError"
    ensures e.status == Some(429) && e.responseData == responseData
    ensures message.Some? ==> e.message == message.value
    ensures message.None? ==> e.message == "Rate limit exceeded"
  {
    CyberwareApiError(RateLimit, message.GetOr("Rate limit exceeded"), Some(429), responseData)
  }

  /** The `name` of an error identifies its kind: no two classes share a name. */
  lemma NamesDistinguishKinds(e1: CyberwareApiError, e2: CyberwareApiError)
    ensures Name(e1) == Name(e2) <==> e1.kind == e2.kind
  {
    if e1.kind != e2.kind {
      var n1, n2 := Name(e1), Name(e2);
      // The class names already differ at one of these characters.
      assert n1[9] != n2[9] || n1[10] != n2[10] || |n1| != |n2|;
    }
  }

  /**
   * For every subclass with a default message, the default is used exactly
   * when the message argument is omitted; a supplied message, even "", is kept.
   */
  lemma DefaultOnlyWhenOmitted(k: ErrorKind, message: Option<string>, status: Option<int>, data: Json)
    requires k != Generic
    ensures var e := Construct(k, message, status, data);
      e.kind == k &&
      e.message == (if message.Some? then message.value else DefaultMessage(k)) &&
      e.responseData == data &&
      (FixedStatus(k).Some? ==> e.status == FixedStatus(k))
  {
  }

  /** The subclass constructor for a kind, selected by its tag. */
  function Construct(k: ErrorKind, message: Option<string>, status: Option<int>, data: Json): CyberwareApiError
    requires k != Generic
  {
    match k
    case Authentication => NewAuthenticationError(message, data)
    case BadRequest => NewBadRequestError(message, data)
    case Forbidden => NewForbiddenError(message, data)
    case NotFound => NewNotFoundError(message, data)
    case Server => NewServerError(message, status, data)
    case RateLimit => NewRateLimitError(message, data)
  }
}
