/**
 * The older single-stage handler of `error-handler.mjs`: it handles every
 * error, `ApiError` or not, keeps only 4xx statuses, and writes the
 * plain-object envelope.
 */
module ErrorHandler {
  import opened Json
  import opened ApiErrors
  import opened Http
  import opened Resolution
  import Registry
  import ResponseStructure
  import ApiErrorHandler

  /** `error.status >= 400 && error.status < 500 ? error.status : 500`: only a
      client error status is kept; `undefined` compares false and gives 500. */
  function ClampStatus(status: Option<int>): (s: int)
    ensures 400 <= s < 600
    ensures s == Registry.InternalServerError <==> !(status.Some? && 400 <= status.value < 500)
    ensures s != Registry.InternalServerError ==> status == Some(s) && s < 500
  {
    if status.Some? && 400 <= status.value < 500 then status.value else Registry.InternalServerError
  }

  /** The `stackTrace` argument passed on to `sendErrorResponse`: the stack
      in development, `undefined` otherwise. */
  function StackArgument(stack: string, env: NodeEnv): (v: Value)
    ensures IsDevelopment(env) ==> v == Str(stack)
    ensures !IsDevelopment(env) ==> v == Undefined
  {
    if IsDevelopment(env) then Str(stack) else Undefined
  }

  /** The body `errorHandler` writes for resolved fields `r`. */
  function ErrorHandlerBody(r: Resolved, stack: string, env: NodeEnv): Value {
    ResponseStructure.ErrorBody(r.message, r.code, r.details, Defaulted(StackArgument(stack, env), Null), env)
  }

  /** `errorHandler(error, request, response, next)`. With headers already
      sent the error goes to `next`. Otherwise, for any error, one record is
      logged and one envelope is written with the clamped status. */
  method HandleError(error: Thrown, request: Request, response: Response, next: Next, logger: Logger, env: NodeEnv)
    modifies response, next, logger
    ensures old(response.headersSent) ==>
      && next.calls == old(next.calls) + [Some(error)]
      && logger.records == old(logger.records)
      && response.bodies == old(response.bodies)
      && response.statusCode == old(response.statusCode)
      && response.headersSent == old(response.headersSent)
    ensures !old(response.headersSent) ==>
      var r := Resolve(error, ClampStatus(error.Status()));
      && next.calls == old(next.calls)
      && logger.records == old(logger.records) + [ErrorLog(r, request, error.Stack(), env)]
      && response.statusCode == Some(r.status)
      && response.bodies == old(response.bodies) + [ErrorHandlerBody(r, error.Stack(), env)]
      && response.headersSent
  {
    if response.headersSent {
      next.Call(Some(error));
      return;
    }
    var statusCode := ClampStatus(error.Status());
    var r := Resolve(error, statusCode);
    var stackTrace := Undefined;
    if IsDevelopment(env) {
      stackTrace := Str(error.Stack());
    }
    var errorLog := BuildErrorLog(r, request, error.Stack(), env);
    logger.Error(errorLog);
    ResponseStructure.SendErrorResponse(response, statusCode, r.message, env, r.code, r.details, stackTrace);
  }

  /** The envelope always carries both `error.code` and `error.details`, the
      very object that is logged, and a top-level `stackTrace` holding the
      stack exactly in development. */
  lemma {:induction false} BodyMatchesLog(error: Thrown, request: Request, env: NodeEnv)
    ensures var r := Resolve(error, ClampStatus(error.Status()));
      var body := ErrorHandlerBody(r, error.Stack(), env);
      var log := ErrorLog(r, request, error.Stack(), env);
      && Get(body, "error") == Get(log, "error")
      && Get(body, "message") == Get(log, "message")
      && Get(body, "error") == Some(Obj([Member("code", r.code), Member("details", r.details)]))
      && (Has(body, "stackTrace") <==> IsDevelopment(env))
      && (IsDevelopment(env) ==> Get(body, "stackTrace") == Some(Str(error.Stack())))
  {
    var r := Resolve(error, ClampStatus(error.Status()));
    assert ResponseStructure.ErrorObject(r.code, r.details) == [Member("code", r.code), Member("details", r.details)];
  }

  /** The two handler variants part ways on a server error such as 503: the
      `ApiError` stage keeps it and uses the 503 entry, this one answers 500
      with the generic entry. */
  lemma VariantsDisagreeOnServerErrors(stack: string)
    ensures var e := Api(NewApiError(stack, "", Some(Registry.ServiceUnavailable)));
      && ApiErrorHandler.ResolveStatus(e.Status()) == 503
      && ClampStatus(e.Status()) == 500
      && Resolve(e, ApiErrorHandler.ResolveStatus(e.Status())).message == "Service temporarily unavailable."
      && Resolve(e, ClampStatus(e.Status())).message == "An internal server error occurred."
  {
  }

  /** The two variants agree on the status of every client error and of
      every missing or out-of-range status. */
  lemma VariantsAgreeOnClientErrors(status: Option<int>)
    requires !(status.Some? && 500 <= status.value < 600)
    ensures ApiErrorHandler.ResolveStatus(status) == ClampStatus(status)
  {
  }

  /** With no type check, a generic error's own fields are used: a
      body-parser error with status 400 and a system code gets status 400,
      keeps its code and falls back on the 400 entry for the rest. The
      `ApiError` stage would instead forward it. */
  lemma GenericErrorKeepsItsFields(stack: string)
    ensures var e := Plain("", stack, Some(Registry.BadRequest), Str("ECONNREFUSED"), Undefined);
      && !e.IsApiError()
      && Resolve(e, ClampStatus(e.Status())) == Resolved(400, "Bad request", Str("ECONNREFUSED"), Str("The request was invalid"))
  {
  }
}
