/**
 * The application's error classes (src/lib/errors.ts) as one datatype, plus the
 * Option/Result wrappers every service uses to report them.
 *
 * Each error class fixes an HTTP status and a machine-readable code; a plain
 * AppError carries its own (defaulting to 500 / INTERNAL_ERROR).
 */
module Errors {
  import Text

  datatype Option<+T> = None | Some(value: T) {
    function GetOr(default: T): T {
      match this
      case Some(v) => v
      case None => default
    }
  }

  /** Which class an error was built from. */
  datatype ErrorKind =
    | Generic(status: int, code: string)     // `new AppError(message, status, code)`
    | Validation
    | Authentication
    | Forbidden
    | NotFound
    | Conflict
    | Payment
    | BookingTransition
    | Database(originalError: Option<string>)
    | RateLimit(retryAfter: Option<int>)

  datatype AppError = AppError(kind: ErrorKind, message: string) {

    function StatusCode(): int {
      match kind
      case Generic(s, _) => s
      case Validation => 400
      case Authentication => 401
      case Forbidden => 403
      case NotFound => 404
      case Conflict => 409
      case Payment => 402
      case BookingTransition => 400
      case Database(_) => 500
      case RateLimit(_) => 429
    }

    function Code(): string {
      match kind
      case Generic(_, c) => c
      case Validation => "VALIDATION_ERROR"
      case Authentication => "AUTHENTICATION_REQUIRED"
      case Forbidden => "FORBIDDEN"
      case NotFound => "NOT_FOUND"
      case Conflict => "CONFLICT"
      case Payment => "PAYMENT_ERROR"
      case BookingTransition => "INVALID_TRANSITION"
      case Database(_) => "DATABASE_ERROR"
      case RateLimit(_) => "RATE_LIMIT_EXCEEDED"
    }
  }

  /** `new AppError(message, statusCode = 500, code = "INTERNAL_ERROR")` */
  function NewAppError(message: string, statusCode: int := 500, code: string := "INTERNAL_ERROR"): (e: AppError)
    ensures e.StatusCode() == statusCode && e.Code() == code && e.message == message
    ensures !e.kind.RateLimit?
  {
    AppError(Generic(statusCode, code), message)
  }

  function ValidationError(message: string): (e: AppError)
    ensures e.StatusCode() == 400 && e.Code() == "VALIDATION_ERROR" && e.message == message
  {
    AppError(Validation, message)
  }

  function AuthenticationError(message: string := "Authentication required"): (e: AppError)
    ensures e.StatusCode() == 401 && e.Code() == "AUTHENTICATION_REQUIRED" && e.message == message
  {
    AppError(Authentication, message)
  }

  function ForbiddenError(message: string := "Access denied"): (e: AppError)
    ensures e.StatusCode() == 403 && e.Code() == "FORBIDDEN" && e.message == message
  {
    AppError(Forbidden, message)
  }

  function NotFoundError(message: string := "Resource not found"): (e: AppError)
    ensures e.StatusCode() == 404 && e.Code() == "NOT_FOUND" && e.message == message
  {
    AppError(NotFound, message)
  }

  function ConflictError(message: string): (e: AppError)
    ensures e.StatusCode() == 409 && e.Code() == "CONFLICT" && e.message == message
  {
    AppError(Conflict, message)
  }

  function PaymentError(message: string): (e: AppError)
    ensures e.StatusCode() == 402 && e.Code() == "PAYMENT_ERROR" && e.message == message
  {
    AppError(Payment, message)
  }

  /** The state machine's rejection; the message names both states. */
  function BookingTransitionError(from: string, to: string): (e: AppError)
    ensures e.StatusCode() == 400 && e.Code() == "INVALID_TRANSITION"
    ensures e.message == "Cannot transition booking from " + from + " to " + to
  {
    AppError(BookingTransition, "Cannot transition booking from " + from + " to " + to)
  }

  function DatabaseError(message: string, originalError: Option<string> := None): (e: AppError)
    ensures e.StatusCode() == 500 && e.Code() == "DATABASE_ERROR" && e.message == message
    ensures e.kind == Database(originalError)
  {
    AppError(Database(originalError), message)
  }

  function RateLimitError(message: string := "Too many requests", retryAfter: Option<int> := None): (e: AppError)
    ensures e.StatusCode() == 429 && e.Code() == "RATE_LIMIT_EXCEEDED" && e.message == message
    ensures e.kind.RateLimit? && e.kind.retryAfter == retryAfter
  {
    AppError(RateLimit(retryAfter), message)
  }

  /** One schema-validation issue: the path to the offending field and what is wrong. */
  datatype Issue = Issue(path: seq<string>, message: IssueMessage)

  /**
   * The kinds of issue the listing schemas raise, with the numbers Zod puts in
   * them; `Rendered` is the message Zod's default error map writes for each.
   */
  datatype IssueMessage =
    | Required                                        // invalid_type, received undefined
    | NotInteger                                      // invalid_type, expected integer
    | InvalidUuid                                     // invalid_string, validation uuid
    | InvalidEnum(options: seq<string>, received: string)
    | TooSmallString(minLength: nat, exact: bool)
    | TooBigString(maxLength: nat, exact: bool)
    | TooSmallNumber(minimum: int, inclusive: bool)
    | TooBigNumber(maximum: int, inclusive: bool)
  {
    function Rendered(): string
    {
      match this
      case Required => "Required"
      case NotInteger => "Expected integer, received float"
      case InvalidUuid => "Invalid uuid"
      case InvalidEnum(options, received) =>
        "Invalid enum value. Expected " + QuotedAlternatives(options) + ", received '" + received + "'"
      case TooSmallString(n, exact) =>
        "String must contain " + (if exact then "exactly " else "at least ") + Text.NatToString(n) + " character(s)"
      case TooBigString(n, exact) =>
        "String must contain " + (if exact then "exactly " else "at most ") + Text.NatToString(n) + " character(s)"
      case TooSmallNumber(n, inclusive) =>
        "Number must be greater than " + (if inclusive then "or equal to " else "") + Text.IntToString(n)
      case TooBigNumber(n, inclusive) =>
        "Number must be less than " + (if inclusive then "or equal to " else "") + Text.IntToString(n)
    }
  }

  /** The options of an enum, each in single quotes, separated by " | ". */
  function QuotedAlternatives(options: seq<string>): string
  {
    if options == [] then ""
    else if |options| == 1 then "'" + options[0] + "'"
    else "'" + options[0] + "' | " + QuotedAlternatives(options[1..])
  }

  /** "Required" and the wording of the bounds on numbers, as Zod's default messages read. */
  lemma NumberIssueTexts()
    ensures Required.Rendered() == "Required"
    ensures NotInteger.Rendered() == "Expected integer, received float"
    ensures TooSmallNumber(0, false).Rendered() == "Number must be greater than 0"
    ensures TooSmallNumber(0, true).Rendered() == "Number must be greater than or equal to 0"
  {
  }

  /** A negative bound is printed with its sign. */
  lemma NegativeBoundText()
    ensures TooSmallNumber(-90, true).Rendered() == "Number must be greater than or equal to -90"
  {
  }

  /** The wording of a minimum length on a string. */
  lemma LengthIssueText()
    ensures TooSmallString(5, false).Rendered() == "String must contain at least 5 character(s)"
  {
  }

  /** Two enum options are each quoted and separated by a bar. */
  lemma TwoAlternativesText(a: string, b: string)
    ensures QuotedAlternatives([a, b]) == "'" + a + "' | '" + b + "'"
  {
    assert [a, b][1..] == [b];
    assert QuotedAlternatives([b]) == "'" + b + "'";
    assert QuotedAlternatives([a, b]) == "'" + a + "' | " + QuotedAlternatives([b]);
  }

  /**
   * What an operation can throw: an AppError, a plain `Error`, or a schema
   * failure. A plain error's stack trace is the runtime's and is not part of
   * the value.
   */
  datatype Thrown =
    | App(error: AppError)
    | Plain(message: string)
    | Invalid(issues: seq<Issue>)

  datatype Result<+T> = Ok(value: T) | Err(error: Thrown)

  /** A check that either passes or fails with an AppError (a `void` function that may throw). */
  datatype Outcome = Pass | Fail(error: AppError)
}
