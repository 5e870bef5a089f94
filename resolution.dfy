/**
 * What the two error-handler variants share: resolving the final message,
 * code and details of an error against the table of common errors, and the
 * structured record they log.
 */
module Resolution {
  import opened Json
  import opened ApiErrors
  import opened Http
  import Registry

  /** The fields a handler settles on for one error. */
  datatype Resolved = Resolved(status: int, message: string, code: Value, details: Value)

  /** `error.message || fallback.message`, `error.code || fallback.code`,
      `error.details || fallback.details`, with `fallback` the table entry of
      `status` or else the 500 entry. Every resolved field is truthy. */
  function Resolve(t: Thrown, status: int): (r: Resolved)
    ensures r.status == status
    ensures t.Message() != "" ==> r.message == t.Message()
    ensures t.Message() == "" ==> r.message == Registry.FallbackFor(status).message
    ensures Truthy(t.Code()) ==> r.code == t.Code()
    ensures !Truthy(t.Code()) ==> r.code == Str(Registry.FallbackFor(status).code)
    ensures Truthy(t.Details()) ==> r.details == t.Details()
    ensures !Truthy(t.Details()) ==> r.details == Str(Registry.FallbackFor(status).details)
    ensures r.message != "" && Truthy(r.code) && Truthy(r.details)
  {
    var fallback := Registry.FallbackFor(status);
    Resolved(status,
      if t.Message() != "" then t.Message() else fallback.message,
      Or(t.Code(), Str(fallback.code)),
      Or(t.Details(), Str(fallback.details)))
  }

  /** The record passed to `logger.error`: message, `{code, details}`, the
      request URL and method, and `stackTrace` in development only. */
  function ErrorLog(r: Resolved, request: Request, stack: string, env: NodeEnv): (log: Value)
    ensures log.Obj? && UniqueKeys(log.members)
    ensures Get(log, "message") == Some(Str(r.message))
    ensures Get(log, "error") == Some(Obj([Member("code", r.code), Member("details", r.details)]))
    ensures Get(log, "url") == Some(Str(request.originalUrl))
    ensures Get(log, "method") == Some(Str(request.httpMethod))
    ensures Has(log, "stackTrace") <==> IsDevelopment(env)
    ensures IsDevelopment(env) ==> Get(log, "stackTrace") == Some(Str(stack))
  {
    var base := [Member("message", Str(r.message)),
                 Member("error", Obj([Member("code", r.code), Member("details", r.details)])),
                 Member("url", Str(request.originalUrl)),
                 Member("method", Str(request.httpMethod))];
    var ms := if IsDevelopment(env) then base + [Member("stackTrace", Str(stack))] else base;
    FindAt(ms, 0);
    FindAt(ms, 1);
    FindAt(ms, 2);
    FindAt(ms, 3);
    assert IsDevelopment(env) ==> Find(ms, "stackTrace") == Some(Str(stack)) by {
      if IsDevelopment(env) { FindAt(ms, 4); }
    }
    Obj(ms)
  }

  /** Step-by-step construction of that record, as the handlers do it. */
  method BuildErrorLog(r: Resolved, request: Request, stack: string, env: NodeEnv) returns (log: Value)
    ensures log == ErrorLog(r, request, stack, env)
  {
    var errorLog := [Member("message", Str(r.message)),
                     Member("error", Obj([Member("code", r.code), Member("details", r.details)])),
                     Member("url", Str(request.originalUrl)),
                     Member("method", Str(request.httpMethod))];
    if IsDevelopment(env) {
      PutNew(errorLog, "stackTrace", Str(stack));
      errorLog := Put(errorLog, "stackTrace", Str(stack));
    }
    log := Obj(errorLog);
  }
}
