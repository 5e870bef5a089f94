/**
 * The plain-object response envelopes: a success body `{success, message,
 * data?}` and an error body `{success, message, error: {code?, details?},
 * stackTrace?}`, each written with the given status code.
 */
module ResponseStructure {
  import opened Json
  import opened Http

  /** The body `sendSuccessResponse` writes: `data` is spread in only when it
      is truthy, so `null` and `undefined` leave it out while `{}` and `[]`
      keep it. */
  function SuccessBody(message: string, data: Value): (b: Value)
    ensures b.Obj? && UniqueKeys(b.members)
    ensures Get(b, "success") == Some(Bool(true))
    ensures Get(b, "message") == Some(Str(message))
    ensures Has(b, "data") <==> Truthy(data)
    ensures Truthy(data) ==> Get(b, "data") == Some(data)
    ensures Keys(b.members) <= {"success", "message", "data"}
  {
    var base := [Member("success", Bool(true)), Member("message", Str(message))];
    var ms := if Truthy(data) then base + [Member("data", data)] else base;
    assert Keys(ms) <= {"success", "message", "data"} by {
      forall k | k in Keys(ms) ensures k in {"success", "message", "data"} {
        var i :| 0 <= i < |ms| && ms[i].key == k;
      }
    }
    FindAt(ms, 0);
    FindAt(ms, 1);
    assert Truthy(data) ==> Find(ms, "data") == Some(data) by {
      if Truthy(data) { FindAt(ms, 2); }
    }
    Obj(ms)
  }

  /** The `error` object: `code` when it is truthy, then `details` when it is
      truthy, each independently of the other. */
  function ErrorObject(code: Value, details: Value): (ms: seq<Member>)
    ensures UniqueKeys(ms)
    ensures Find(ms, "code").Some? <==> Truthy(code)
    ensures Truthy(code) ==> Find(ms, "code") == Some(code)
    ensures Find(ms, "details").Some? <==> Truthy(details)
    ensures Truthy(details) ==> Find(ms, "details") == Some(details)
    ensures Keys(ms) <= {"code", "details"}
    ensures !Truthy(code) && !Truthy(details) ==> ms == []
  {
    var withCode := if Truthy(code) then [Member("code", code)] else [];
    var ms := if Truthy(details) then withCode + [Member("details", details)] else withCode;
    assert Keys(ms) <= {"code", "details"} by {
      forall k | k in Keys(ms) ensures k in {"code", "details"} {
        var i :| 0 <= i < |ms| && ms[i].key == k;
      }
    }
    ms
  }

  /** The body `sendErrorResponse` writes. In development a top-level
      `stackTrace` holds whatever stack came in (`null` when none did);
      in any other mode, `NODE_ENV` unset included, there is no such key. */
  function ErrorBody(message: string, code: Value, details: Value, stackTrace: Value, env: NodeEnv): (b: Value)
    ensures b.Obj? && UniqueKeys(b.members)
    ensures Get(b, "success") == Some(Bool(false))
    ensures Get(b, "message") == Some(Str(message))
    ensures Get(b, "error") == Some(Obj(ErrorObject(code, details)))
    ensures Has(b, "stackTrace") <==> IsDevelopment(env)
    ensures IsDevelopment(env) ==> Get(b, "stackTrace") == Some(stackTrace)
    ensures Keys(b.members) <= {"success", "message", "error", "stackTrace"}
  {
    var base := [Member("success", Bool(false)), Member("message", Str(message)), Member("error", Obj(ErrorObject(code, details)))];
    var ms := if IsDevelopment(env) then base + [Member("stackTrace", stackTrace)] else base;
    assert Keys(ms) <= {"success", "message", "error", "stackTrace"} by {
      forall k | k in Keys(ms) ensures k in {"success", "message", "error", "stackTrace"} {
        var i :| 0 <= i < |ms| && ms[i].key == k;
      }
    }
    FindAt(ms, 0);
    FindAt(ms, 1);
    FindAt(ms, 2);
    assert IsDevelopment(env) ==> Find(ms, "stackTrace") == Some(stackTrace) by {
      if IsDevelopment(env) { FindAt(ms, 3); }
    }
    Obj(ms)
  }

  /** `sendSuccessResponse(response, statusCode, message, data = null)`: the
      status is exactly the one given and the body is written once. */
  method SendSuccessResponse(response: Response, statusCode: int, message: string, data: Value := Null)
    modifies response
    ensures response.statusCode == Some(statusCode) && response.headersSent
    ensures response.bodies == old(response.bodies) + [SuccessBody(message, Defaulted(data, Null))]
  {
    var body := [Member("success", Bool(true)), Member("message", Str(message))];
    var d := Defaulted(data, Null);
    if Truthy(d) {
      body := body + [Member("data", d)];
    }
    response.Status(statusCode);
    response.Json(Obj(body));
  }

  /** `sendErrorResponse(response, statusCode, message, code = null,
      details = null, stackTrace = null)`: the body starts as
      `{success: false, message, error: {}}` and gains `error.code`,
      `error.details` and `stackTrace` as the conditions allow; the status is
      not clamped and the body is written once. */
  method SendErrorResponse(response: Response, statusCode: int, message: string, env: NodeEnv,
                           code: Value := Null, details: Value := Null, stackTrace: Value := Null)
    modifies response
    ensures response.statusCode == Some(statusCode) && response.headersSent
    ensures response.bodies == old(response.bodies)
      + [ErrorBody(message, Defaulted(code, Null), Defaulted(details, Null), Defaulted(stackTrace, Null), env)]
  {
    var c, d, s := Defaulted(code, Null), Defaulted(details, Null), Defaulted(stackTrace, Null);
    var error: seq<Member> := [];
    if Truthy(c) {
      PutNew(error, "code", c);
      error := Put(error, "code", c);
    }
    if Truthy(d) {
      PutNew(error, "details", d);
      error := Put(error, "details", d);
    }
    assert error == ErrorObject(c, d);
    var body := [Member("success", Bool(false)), Member("message", Str(message)), Member("error", Obj(error))];
    if IsDevelopment(env) {
      PutNew(body, "stackTrace", s);
      body := Put(body, "stackTrace", s);
    }
    response.Status(statusCode);
    response.Json(Obj(body));
  }

  /** An example development body: exactly
      `{success: false, message, error: {code, details}, stackTrace}`. */
  lemma DevelopmentErrorBodyExample()
    ensures ErrorBody("Invalid user input", Str("INVALID_INPUT"), Str("Email format is incorrect"), Str("STACK"), Some("development"))
      == Obj([Member("success", Bool(false)), Member("message", Str("Invalid user input")),
              Member("error", Obj([Member("code", Str("INVALID_INPUT")), Member("details", Str("Email format is incorrect"))])),
              Member("stackTrace", Str("STACK"))])
  {
    var code, details := Str("INVALID_INPUT"), Str("Email format is incorrect");
    assert Truthy(code) && Truthy(details);
    assert ErrorObject(code, details) == [Member("code", code), Member("details", details)];
  }

  /** With no code and no details (`null` or `''`), `error` is `{}`. */
  lemma EmptyErrorObject(message: string, stackTrace: Value, env: NodeEnv)
    ensures Get(ErrorBody(message, Null, Str(""), stackTrace, env), "error") == Some(EmptyObject)
    ensures Get(ErrorBody(message, Str(""), Null, stackTrace, env), "error") == Some(EmptyObject)
  {
  }
}
