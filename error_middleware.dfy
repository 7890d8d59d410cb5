/** backend/middleware/errorMiddleware.js: the status and body of an error
    reply, the not-found handler and the schema-validation handler. */
module ErrorMiddleware {
  import opened Common

  /** One entry of a validation error's `errors` object: the field and its
      message. */
  datatype FieldError = FieldError(field: string, message: string)

  /** A thrown error: its `name`, `message`, `stack` and, for a schema
      validation error, the per-field errors in key order. */
  datatype Failure = Failure(name: string, message: string, stack: string, errors: seq<FieldError>)

  /** The JSON body `errorHandler` sends. */
  datatype ErrorBody = ErrorBody(message: string, stack: Option<string>, error: bool)

  /** The status an error reply goes out with: a status still at the default 200
      becomes 500, any status a handler already set is kept. */
  function StatusFor(current: int): (s: int)
    ensures s != 200
    ensures current == 200 ==> s == 500
    ensures current != 200 ==> s == current
  {
    if current == 200 then 500 else current
  }

  /** `errorHandler`, given the response's current status and `NODE_ENV`. The
      stack is withheld exactly in production. */
  function ErrorHandler(err: Failure, currentStatus: int, nodeEnv: Option<string>): (r: Response<ErrorBody>)
    ensures r.Ok? && r.status == StatusFor(currentStatus)
    ensures r.body.error && r.body.message == err.message
    ensures r.body.stack.None? <==> nodeEnv == Some("production")
    ensures r.body.stack.Some? ==> r.body.stack.value == err.stack
  {
    Ok(StatusFor(currentStatus),
       ErrorBody(err.message, if nodeEnv == Some("production") then None else Some(err.stack), true))
  }

  /** What a middleware hands to `next`: the status it set and the error. */
  datatype Forwarded = Forwarded(status: int, err: Failure)

  /** `notFound`: status 404 and an error naming the URL. `stack` is the trace
      the new error captures. */
  function NotFound(originalUrl: string, stack: string): (f: Forwarded)
    ensures f.status == 404 && f.err.message == "Not Found - " + originalUrl
  {
    Forwarded(404, Failure("Error", "Not Found - " + originalUrl, stack, []))
  }

  /** A not-found error handed on to `errorHandler` keeps its 404 and names the
      URL. */
  lemma NotFoundReply(originalUrl: string, stack: string, nodeEnv: Option<string>)
    ensures var f := NotFound(originalUrl, stack);
            var r := ErrorHandler(f.err, f.status, nodeEnv);
            r.status == 404 && r.body.message == "Not Found - " + originalUrl && r.body.error
  {
  }

  /** The reply `validationErrorHandler` sends for a schema validation error. */
  datatype ValidationBody = ValidationBody(error: bool, message: string, details: seq<string>)

  /** `Object.values(err.errors).map(val => val.message)`. */
  function Messages(errors: seq<FieldError>): (r: seq<string>)
    ensures |r| == |errors| && forall i :: 0 <= i < |errors| ==> r[i] == errors[i].message
  {
    seq(|errors|, i requires 0 <= i < |errors| => errors[i].message)
  }

  datatype ValidationOutcome = Replied(reply: Response<ValidationBody>) | Next(err: Failure)

  /** `validationErrorHandler`: a schema validation error is answered with 400,
      listing every field's message in order; any other error goes on to the
      next handler unchanged. */
  function ValidationErrorHandler(err: Failure): (r: ValidationOutcome)
    ensures r.Replied? <==> err.name == "ValidationError"
    ensures r.Replied? ==> r.reply == Ok(400, ValidationBody(true, "Validation Error", Messages(err.errors)))
    ensures r.Next? ==> r.err == err
  {
    if err.name == "ValidationError" then Replied(Ok(400, ValidationBody(true, "Validation Error", Messages(err.errors))))
    else Next(err)
  }

  /** The two error handlers in sequence, as they would be mounted: a
      validation error gets 400 with its details; any other error gets
      `errorHandler`'s reply, so it never goes out with status 200. */
  lemma HandlerChain(err: Failure, currentStatus: int, nodeEnv: Option<string>)
    ensures match ValidationErrorHandler(err)
      case Replied(reply) => err.name == "ValidationError" && reply.status == 400
                             && |reply.body.details| == |err.errors|
      case Next(e) => e == err && ErrorHandler(e, currentStatus, nodeEnv).status != 200
                      && ErrorHandler(e, currentStatus, nodeEnv).body.message == err.message
  {
  }
}
