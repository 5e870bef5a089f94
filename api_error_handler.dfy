/**
 * The error-handling middleware chain of `api-error-handler.mjs`: a first
 * stage that handles every `ApiError`, keeping a status in [400, 600) and
 * using 500 otherwise; a second stage that answers every other error with a
 * fixed 500 envelope; and their registration on the application.
 */
module ApiErrorHandler {
  import opened Json
  import opened ApiErrors
  import opened Http
  import opened Resolution
  import Registry
  import ApiResponses
  import ResponseDelivery

  /** `error.status && error.status >= 400 && error.status < 600 ? error.status
      : 500`: a status in [400, 600) is kept, anything else (200, 0,
      `undefined`) becomes 500. */
  function ResolveStatus(status: Option<int>): (s: int)
    ensures 400 <= s < 600
    ensures s == Registry.InternalServerError || status == Some(s)
    ensures status.Some? && 400 <= status.value < 600 ==> s == status.value
  {
    match status
    case Some(n) => if n != 0 && 400 <= n < 600 then n else Registry.InternalServerError
    case None => Registry.InternalServerError
  }

  /** The JSON body `apiErrorHandler` writes for resolved fields `r`. */
  function ApiErrorBody(r: Resolved, timestamp: string, stack: string, env: NodeEnv): Value {
    Json.ToJson(ApiResponses.ErrorFields(r.message, timestamp, r.code, r.details, Str(stack), env))
  }

  /** `apiErrorHandler(error, request, response, next)`. With headers
      already sent, or for anything but an `ApiError`, the error goes to
      `next` unchanged and nothing is logged or written. Otherwise `next` is
      not called, one record is logged and one envelope is written with the
      resolved status. */
  method HandleApiError(error: Thrown, request: Request, response: Response, next: Next, logger: Logger,
                        env: NodeEnv, timestamp: string)
    modifies response, next, logger
    ensures old(response.headersSent) || !error.IsApiError() ==>
      && next.calls == old(next.calls) + [Some(error)]
      && logger.records == old(logger.records)
      && response.bodies == old(response.bodies)
      && response.statusCode == old(response.statusCode)
      && response.headersSent == old(response.headersSent)
    ensures !old(response.headersSent) && error.IsApiError() ==>
      var r := Resolve(error, ResolveStatus(error.Status()));
      && next.calls == old(next.calls)
      && logger.records == old(logger.records) + [ErrorLog(r, request, error.Stack(), env)]
      && response.statusCode == Some(r.status)
      && response.bodies == old(response.bodies) + [ApiErrorBody(r, timestamp, error.Stack(), env)]
      && response.headersSent
  {
    if response.headersSent {
      next.Call(Some(error));
      return;
    }
    if !error.IsApiError() {
      next.Call(Some(error));
      return;
    }
    var statusCode := ResolveStatus(error.Status());
    var r := Resolve(error, statusCode);
    var errorLog := BuildErrorLog(r, request, error.Stack(), env);
    logger.Error(errorLog);
    ResponseDelivery.SendErrorResponse(response, statusCode, r.message, timestamp, env, r.code, r.details, Str(error.Stack()));
  }

  /** What the `ApiError` stage sends: `success` false, the resolved message,
      `error.code` and `error.details` always present with the resolved
      values, `error.stackTrace` exactly in development with a non-empty
      stack, and no `data` or top-level `stackTrace`. */
  lemma ApiErrorBodyShape(r: Resolved, timestamp: string, stack: string, env: NodeEnv)
    requires Truthy(r.code) && Truthy(r.details)
    ensures var j := ApiErrorBody(r, timestamp, stack, env);
      && Get(j, "success") == Some(Bool(false))
      && Get(j, "message") == Some(Str(r.message))
      && Get(j, "timestamp") == Some(Str(timestamp))
      && !Has(j, "data") && !Has(j, "stackTrace") && Has(j, "error")
      && var e := Get(j, "error").value;
      && Get(e, "code") == Some(Clean(r.code))
      && Get(e, "details") == Some(Clean(r.details))
      && (Has(e, "stackTrace") <==> IsDevelopment(env) && stack != "")
      && (Has(e, "stackTrace") ==> Get(e, "stackTrace") == Some(Str(stack)))
  {
    ApiResponses.ErrorJson(r.message, timestamp, r.code, r.details, Str(stack), env);
    ApiResponses.ErrorPartJson(r.code, r.details, Str(stack), env);
  }

  const UnhandledMessage := "Something went wrong"
  const UnhandledCode := "UNHANDLED_ERROR"

  /** The record `unhandledErrorHandler` logs: it always carries the stack. */
  function UnhandledLog(error: Thrown, request: Request): (log: Value)
    ensures log.Obj? && Keys(log.members) == {"message", "stack", "url", "method"}
    ensures Get(log, "message") == Some(Str(if error.Message() != "" then error.Message() else "Unhandled error"))
    ensures Get(log, "stack") == Some(Str(error.Stack()))
    ensures Get(log, "url") == Some(Str(request.originalUrl))
    ensures Get(log, "method") == Some(Str(request.httpMethod))
  {
    var ms := [Member("message", Str(if error.Message() != "" then error.Message() else "Unhandled error")),
               Member("stack", Str(error.Stack())),
               Member("url", Str(request.originalUrl)),
               Member("method", Str(request.httpMethod))];
    FindAt(ms, 0);
    FindAt(ms, 1);
    FindAt(ms, 2);
    FindAt(ms, 3);
    assert Keys(ms) == {"message", "stack", "url", "method"} by {
      assert ms[0].key == "message" && ms[1].key == "stack" && ms[2].key == "url" && ms[3].key == "method";
      forall k | k in Keys(ms) ensures k in {"message", "stack", "url", "method"} {
        var i :| 0 <= i < |ms| && ms[i].key == k;
      }
    }
    Obj(ms)
  }

  /** The JSON body `unhandledErrorHandler` writes; the stack is passed on in
      development only, and the missing details become `null`. */
  function UnhandledBody(stack: string, timestamp: string, env: NodeEnv): Value {
    Json.ToJson(ApiResponses.ErrorFields(UnhandledMessage, timestamp, Str(UnhandledCode), Null,
                                         if IsDevelopment(env) then Str(stack) else Null, env))
  }

  /** `unhandledErrorHandler(error, request, response, next)`: with headers
      already sent the error goes to `next`; otherwise status 500 and the
      fixed envelope, whatever the error was. */
  method HandleUnhandledError(error: Thrown, request: Request, response: Response, next: Next, logger: Logger,
                              env: NodeEnv, timestamp: string)
    modifies response, next, logger
    ensures old(response.headersSent) ==>
      && next.calls == old(next.calls) + [Some(error)]
      && logger.records == old(logger.records)
      && response.bodies == old(response.bodies)
      && response.statusCode == old(response.statusCode)
      && response.headersSent == old(response.headersSent)
    ensures !old(response.headersSent) ==>
      && next.calls == old(next.calls)
      && logger.records == old(logger.records) + [UnhandledLog(error, request)]
      && response.statusCode == Some(Registry.InternalServerError)
      && response.bodies == old(response.bodies) + [UnhandledBody(error.Stack(), timestamp, env)]
      && response.headersSent
  {
    if response.headersSent {
      next.Call(Some(error));
      return;
    }
    var stackTrace := Undefined;
    if IsDevelopment(env) {
      stackTrace := Str(error.Stack());
    }
    logger.Error(UnhandledLog(error, request));
    ResponseDelivery.SendErrorResponse(response, Registry.InternalServerError, UnhandledMessage, timestamp, env,
                                       Str(UnhandledCode), Undefined, stackTrace);
  }

  /** What the unhandled stage sends: `success` false, the fixed message,
      `error.code` `'UNHANDLED_ERROR'`, `error.details` `null`, and an
      `error.stackTrace` exactly in development with a non-empty stack. */
  lemma UnhandledBodyShape(stack: string, timestamp: string, env: NodeEnv)
    ensures var j := UnhandledBody(stack, timestamp, env);
      && Get(j, "success") == Some(Bool(false))
      && Get(j, "message") == Some(Str(UnhandledMessage))
      && !Has(j, "stackTrace") && Has(j, "error")
      && var e := Get(j, "error").value;
      && Get(e, "code") == Some(Str(UnhandledCode))
      && Get(e, "details") == Some(Null)
      && (Has(e, "stackTrace") <==> IsDevelopment(env) && stack != "")
      && (Has(e, "stackTrace") ==> Get(e, "stackTrace") == Some(Str(stack)))
  {
    var st := if IsDevelopment(env) then Str(stack) else Null;
    ApiResponses.ErrorJson(UnhandledMessage, timestamp, Str(UnhandledCode), Null, st, env);
    ApiResponses.ErrorPartJson(Str(UnhandledCode), Null, st, env);
  }

  /** The error-handling layers an application can hold. */
  datatype Layer = ApiErrorLayer | UnhandledErrorLayer

  /** The application, seen as the sequence of error layers registered with `use`. */
  class App {
    var layers: seq<Layer>

    constructor ()
      ensures layers == []
    {
      layers := [];
    }

    method Use(layer: Layer)
      modifies this
      ensures layers == old(layers) + [layer]
    {
      layers := layers + [layer];
    }
  }

  /** `setupErrorHandlers(app)`: registers the `ApiError` stage first and the
      unhandled stage second, and nothing else. */
  method SetupErrorHandlers(app: App)
    modifies app
    ensures app.layers == old(app.layers) + [ApiErrorLayer, UnhandledErrorLayer]
  {
    app.Use(ApiErrorLayer);
    app.Use(UnhandledErrorLayer);
  }

  /** One registered error layer handling an error. */
  method RunLayer(layer: Layer, error: Thrown, request: Request, response: Response, next: Next, logger: Logger,
                  env: NodeEnv, timestamp: string)
    modifies response, next, logger
    ensures layer == ApiErrorLayer ==>
      if old(response.headersSent) || !error.IsApiError() then
        && next.calls == old(next.calls) + [Some(error)]
        && logger.records == old(logger.records)
        && response.bodies == old(response.bodies)
        && response.statusCode == old(response.statusCode)
        && response.headersSent == old(response.headersSent)
      else
        var r := Resolve(error, ResolveStatus(error.Status()));
        && next.calls == old(next.calls)
        && logger.records == old(logger.records) + [ErrorLog(r, request, error.Stack(), env)]
        && response.statusCode == Some(r.status)
        && response.bodies == old(response.bodies) + [ApiErrorBody(r, timestamp, error.Stack(), env)]
        && response.headersSent
    ensures layer == UnhandledErrorLayer ==>
      if old(response.headersSent) then
        && next.calls == old(next.calls) + [Some(error)]
        && logger.records == old(logger.records)
        && response.bodies == old(response.bodies)
        && response.statusCode == old(response.statusCode)
        && response.headersSent == old(response.headersSent)
      else
        && next.calls == old(next.calls)
        && logger.records == old(logger.records) + [UnhandledLog(error, request)]
        && response.statusCode == Some(Registry.InternalServerError)
        && response.bodies == old(response.bodies) + [UnhandledBody(error.Stack(), timestamp, env)]
        && response.headersSent
  {
    match layer
    case ApiErrorLayer => HandleApiError(error, request, response, next, logger, env, timestamp);
    case UnhandledErrorLayer => HandleUnhandledError(error, request, response, next, logger, env, timestamp);
  }

  /** An error passing through the layers `setupErrorHandlers` registered,
      in their order: the second layer runs only when the first passed the
      error to `next`. A request gets at most one envelope, and exactly one
      when its headers were not yet sent; only an error that arrives after
      the headers escapes to the `next` after both layers. */
  method RunErrorChain(app: App, error: Thrown, request: Request, response: Response, after: Next, logger: Logger,
                       env: NodeEnv, timestamp: string)
    requires app.layers == [ApiErrorLayer, UnhandledErrorLayer]
    modifies response, after, logger
    ensures old(response.headersSent) ==>
      && after.calls == old(after.calls) + [Some(error)]
      && response.bodies == old(response.bodies)
      && logger.records == old(logger.records)
    ensures !old(response.headersSent) ==>
      && after.calls == old(after.calls)
      && |response.bodies| == |old(response.bodies)| + 1
      && |logger.records| == |old(logger.records)| + 1
      && response.headersSent
    ensures !old(response.headersSent) && error.IsApiError() ==>
      response.statusCode == Some(ResolveStatus(error.Status()))
    ensures !old(response.headersSent) && !error.IsApiError() ==>
      && response.statusCode == Some(Registry.InternalServerError)
      && response.bodies == old(response.bodies) + [UnhandledBody(error.Stack(), timestamp, env)]
  {
    var toSecond := new Next();
    RunLayer(app.layers[0], error, request, response, toSecond, logger, env, timestamp);
    if toSecond.calls != [] {
      RunLayer(app.layers[1], error, request, response, after, logger, env, timestamp);
    }
  }

  /** A fresh application set up with `setupErrorHandlers` holds exactly the
      chain that `RunErrorChain` runs. */
  method SetUpApp() returns (app: App)
    ensures fresh(app) && app.layers == [ApiErrorLayer, UnhandledErrorLayer]
  {
    app := new App();
    SetupErrorHandlers(app);
  }

  /** Status resolution on the values the tests use: 200, 0 and `undefined`
      become 500, a 5xx such as 503 is kept. */
  lemma StatusExamples()
    ensures ResolveStatus(Some(200)) == 500 && ResolveStatus(Some(0)) == 500 && ResolveStatus(None) == 500
    ensures ResolveStatus(Some(404)) == 404 && ResolveStatus(Some(503)) == 503 && ResolveStatus(Some(600)) == 500
  {
  }

  /** `new ApiError('', 404, '', '')` resolves to exactly the 404 entry. */
  lemma EmptyFieldsTakeTheTableEntry(stack: string)
    ensures var e := Api(NewApiError(stack, "", Some(404), Str(""), Str("")));
      Resolve(e, ResolveStatus(e.Status())) == Resolved(404, "Resource not found.", Str("NOT_FOUND"), Str("The requested resource could not be found."))
  {
    Registry.NotFoundEntry();
  }

  /** An `ApiError` built with only an empty message and a registered status
      takes the entry's message and details, but keeps its default code
      `'GENERIC_ERROR'`, which is truthy. */
  lemma DefaultsAgainstTheTable(stack: string, status: int)
    requires status in Registry.RegisteredStatuses
    ensures var e := Api(NewApiError(stack, "", Some(status)));
      var entry := Registry.Lookup(status).value;
      Resolve(e, ResolveStatus(e.Status())) == Resolved(status, entry.message, Str(GenericErrorCode), Str(entry.details))
  {
  }
}
