/**
 * `validateRequest(schema)`: a middleware that checks the body, query and
 * route parameters of a request against one schema and raises a validation
 * error when the schema reports one.
 */
module RequestValidation {
  import opened Json
  import opened ApiErrors
  import opened Http
  import CustomErrors
  import Registry
  import Resolution
  import ApiErrorHandler

  /** What `schema.validate(...)` returns: the validated value and an
      `error` that is falsy when the input passed. */
  datatype SchemaResult = SchemaResult(value: Value, error: Value)

  /** The outcome of the middleware: `next()` was called, or an error was thrown. */
  datatype Outcome = Continue | Throw(err: ApiError)

  const ValidationFailedMessage := "Request validation failed"
  const InvalidRequestCode := "INVALID_REQUEST"

  /** The object handed to the schema: `{body, query, params}`. */
  function ValidationInput(request: Request): (v: Value)
    ensures Get(v, "body") == Some(request.body)
    ensures Get(v, "query") == Some(request.query)
    ensures Get(v, "params") == Some(request.params)
  {
    var ms := [Member("body", request.body), Member("query", request.query), Member("params", request.params)];
    FindAt(ms, 0);
    FindAt(ms, 1);
    FindAt(ms, 2);
    Obj(ms)
  }

  /** `validateRequest(schema)(req, res, next)`: throws exactly when the
      schema's `error` is truthy, and then always the same validation error
      (status 422, code `'INVALID_REQUEST'`, details `null`); nothing from
      the schema's error is carried over. */
  function ValidateRequest(schema: Value -> SchemaResult, request: Request, stack: string): (o: Outcome)
    ensures o.Throw? <==> Truthy(schema(ValidationInput(request)).error)
    ensures o.Throw? ==>
      && o.err.status == Some(Registry.UnprocessableEntity)
      && o.err.message == ValidationFailedMessage
      && o.err.code == Str(InvalidRequestCode)
      && o.err.details == Null
      && o.err.stack == stack
  {
    var result := schema(ValidationInput(request));
    if Truthy(result.error) then
      Throw(CustomErrors.Make(CustomErrors.ValidationError, stack, Some(ValidationFailedMessage), Str(InvalidRequestCode)))
    else
      Continue
  }

  /** When the thrown validation error reaches the `ApiError` stage, the
      client gets status 422 with the validator's message and code, and the
      details of the 422 table entry, since the error's own details are `null`. */
  lemma {:induction false} RejectionReachesClient(schema: Value -> SchemaResult, request: Request, stack: string)
    requires Truthy(schema(ValidationInput(request)).error)
    ensures var e := Api(ValidateRequest(schema, request, stack).err);
      && e.IsApiError()
      && Resolution.Resolve(e, ApiErrorHandler.ResolveStatus(e.Status())) == Resolution.Resolved(
           422, ValidationFailedMessage, Str(InvalidRequestCode),
           Str("The server understands the request but was unable to process it."))
  {
    var e := Api(ValidateRequest(schema, request, stack).err);
    assert ApiErrorHandler.ResolveStatus(e.Status()) == 422;
    assert Registry.FallbackFor(422) == Registry.CommonErrors[422];
  }
}
