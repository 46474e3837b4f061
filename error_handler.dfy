/**
 * The error handler (src/middleware/error-handler.ts): every error an
 * operation throws becomes a JSON envelope `{ error: { code, message,
 * request_id, ... } }` and an HTTP status. Schema failures, rate-limit errors,
 * other application errors and anything else each take their own branch.
 *
 * The request id and NODE_ENV are inputs; the error reporting and logging
 * around the branches are not part of this model.
 */
module ErrorHandler {
  import opened Errors
  import RateLimit

  /** One schema issue as the envelope reports it. */
  datatype FieldIssue = FieldIssue(field: string, message: string)

  /** The `details` member: the schema issues, or an application error's own details. */
  datatype Details =
    | Issues(issues: seq<FieldIssue>)
    | OriginalError(originalError: string)
    | RetryAfter(retryAfter: int)

  /** The response: status plus the `error` object; absent members are `None`. */
  datatype Envelope = Envelope(
    status: int,
    code: string,
    message: string,
    requestId: Option<string>,
    details: Option<Details>,
    retryAfter: Option<int>,
    stack: Option<string>)

  /** `path.join(".")` */
  function JoinPath(path: seq<string>): (r: string)
    ensures path == [] ==> r == ""
    ensures |path| == 1 ==> r == path[0]
  {
    if path == [] then ""
    else if |path| == 1 then path[0]
    else path[0] + "." + JoinPath(path[1..])
  }

  /** The `details` an application error carries (as the error classes' tests describe them). */
  function AppDetails(e: AppError): (r: Option<Details>)
    ensures r.Some? <==> (e.kind.Database? && e.kind.originalError.Some?) || (e.kind.RateLimit? && e.kind.retryAfter.Some?)
  {
    match e.kind
    case Database(Some(original)) => Some(OriginalError(original))
    case RateLimit(Some(seconds)) => Some(RetryAfter(seconds))
    case _ => None
  }

  function FieldIssues(issues: seq<Issue>): (r: seq<FieldIssue>)
    ensures |r| == |issues|
  {
    seq(|issues|, i requires 0 <= i < |issues| => FieldIssue(JoinPath(issues[i].path), issues[i].message.Rendered()))
  }

  /**
   * `errorHandler`. `stack` is the thrown value's stack trace, when it has
   * one; `nodeEnv` is the environment's NODE_ENV.
   */
  function HandleError(err: Thrown, requestId: Option<string>, nodeEnv: Option<string>, stack: Option<string>): Envelope
  {
    match err
    case Invalid(issues) =>
      Envelope(400, "VALIDATION_ERROR", "Validation failed", requestId, Some(Issues(FieldIssues(issues))), None, None)
    case App(e) =>
      if e.kind.RateLimit? then
        // `if (err.details?.retryAfter)`: zero counts as absent
        var retry := if e.kind.retryAfter.Some? && e.kind.retryAfter.value != 0 then e.kind.retryAfter else None;
        Envelope(429, e.Code(), e.message, requestId, None, retry, None)
      else
        Envelope(e.StatusCode(), e.Code(), e.message, requestId, AppDetails(e), None, None)
    case Plain(message) =>
      var production := nodeEnv == Some("production");
      Envelope(500, "INTERNAL_ERROR", if production then "An unexpected error occurred" else message,
               requestId, None, None, if production then None else stack)
  }

  // ---------------------------------------------------------------------------
  // Properties

  /** Joining a path with one more segment adds a dot and the segment. */
  lemma {:induction false} JoinPathAppend(path: seq<string>, segment: string)
    requires path != []
    ensures JoinPath(path + [segment]) == JoinPath(path) + "." + segment
  {
    if |path| == 1 {
      assert path + [segment] == [path[0], segment];
    } else {
      assert (path + [segment])[1..] == path[1..] + [segment];
      JoinPathAppend(path[1..], segment);
    }
  }

  /** A schema failure answers 400 VALIDATION_ERROR with one detail per issue: its path joined by dots and its message. */
  lemma SchemaFailureEnvelope(issues: seq<Issue>, requestId: Option<string>, nodeEnv: Option<string>, stack: Option<string>)
    ensures var env := HandleError(Invalid(issues), requestId, nodeEnv, stack);
      && env.status == 400 && env.code == "VALIDATION_ERROR" && env.message == "Validation failed"
      && env.details.Some? && env.details.value.Issues?
      && |env.details.value.issues| == |issues|
      && (forall i :: 0 <= i < |issues| ==>
            env.details.value.issues[i] == FieldIssue(JoinPath(issues[i].path), issues[i].message.Rendered()))
      && env.retryAfter.None? && env.stack.None?
  {
  }

  /** A rate-limit error answers 429 with its own code and message; retry_after appears only when set and non-zero. */
  lemma RateLimitEnvelope(message: string, retryAfter: Option<int>, requestId: Option<string>, nodeEnv: Option<string>, stack: Option<string>)
    ensures var env := HandleError(App(RateLimitError(message, retryAfter)), requestId, nodeEnv, stack);
      && env.status == 429 && env.code == "RATE_LIMIT_EXCEEDED" && env.message == message
      && (env.retryAfter.Some? <==> retryAfter.Some? && retryAfter.value != 0)
      && (env.retryAfter.Some? ==> env.retryAfter == retryAfter)
      && env.details.None? && env.stack.None?
  {
  }

  /** Any other application error keeps its own status, code and message; details appear only when the error has them. */
  lemma AppErrorEnvelope(e: AppError, requestId: Option<string>, nodeEnv: Option<string>, stack: Option<string>)
    requires !e.kind.RateLimit?
    ensures var env := HandleError(App(e), requestId, nodeEnv, stack);
      && env.status == e.StatusCode() && env.code == e.Code() && env.message == e.message
      && env.details == AppDetails(e)
      && (env.details.Some? <==> e.kind.Database? && e.kind.originalError.Some?)
      && env.retryAfter.None? && env.stack.None?
  {
  }

  /**
   * Anything else is 500 INTERNAL_ERROR: in production the message is generic
   * and the stack is withheld; elsewhere the message and stack are the error's own.
   */
  lemma UnexpectedErrorEnvelope(message: string, requestId: Option<string>, nodeEnv: Option<string>, stack: Option<string>)
    ensures var env := HandleError(Plain(message), requestId, nodeEnv, stack);
      && env.status == 500 && env.code == "INTERNAL_ERROR" && env.details.None? && env.retryAfter.None?
      && (nodeEnv == Some("production") ==> env.message == "An unexpected error occurred" && env.stack.None?)
      && (nodeEnv != Some("production") ==> env.message == message && env.stack == stack)
  {
  }

  /** Every envelope carries the request id, and an error's stack never appears in production. */
  lemma EnvelopeCarriesRequestId(err: Thrown, requestId: Option<string>, nodeEnv: Option<string>, stack: Option<string>)
    ensures HandleError(err, requestId, nodeEnv, stack).requestId == requestId
    ensures nodeEnv == Some("production") ==> HandleError(err, requestId, nodeEnv, stack).stack.None?
  {
  }

  /**
   * The rate-limit middleware throws a plain application error with status
   * 429, so a rejected request takes the generic branch: the answer is 429
   * RATE_LIMIT_EXCEEDED with no retry_after member (the wait travels only in
   * the Retry-After header).
   */
  lemma MiddlewareLimitTakesGenericBranch(entries: map<string, RateLimit.Entry>, key: string, now: int, opts: RateLimit.Options,
                                          requestId: Option<string>, nodeEnv: Option<string>, stack: Option<string>)
    requires RateLimit.LimitSpec(entries, key, now, opts).decision.Rejected?
    ensures var env := HandleError(App(RateLimit.LimitSpec(entries, key, now, opts).decision.error), requestId, nodeEnv, stack);
      env == Envelope(429, "RATE_LIMIT_EXCEEDED", "Too many requests, please try again later", requestId, None, None, None)
  {
  }
}
