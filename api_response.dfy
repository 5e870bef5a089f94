/**
 * The class-based response envelopes: `ApiSuccessResponse` and
 * `ApiErrorResponse`, both carrying `success`, `message` and `timestamp`, and
 * their `toJson` round trip.
 */
module ApiResponses {
  import opened Json
  import opened Http

  /** The properties of an `ApiSuccessResponse`, in the order its
      constructor adds them: `data` only when it is truthy. */
  function SuccessFields(message: string, timestamp: string, data: Value): (ms: seq<Member>)
    ensures UniqueKeys(ms)
  {
    [Member("success", Bool(true)), Member("message", Str(message)), Member("timestamp", Str(timestamp))]
      + (if Truthy(data) then [Member("data", data)] else [])
  }

  /** The `error` property of an `ApiErrorResponse`: always `code` and
      `details`, and `stackTrace` only in development with a truthy stack. */
  function ErrorPart(code: Value, details: Value, stackTrace: Value, env: NodeEnv): (ms: seq<Member>)
    ensures UniqueKeys(ms)
  {
    [Member("code", code), Member("details", details)]
      + (if IsDevelopment(env) && Truthy(stackTrace) then [Member("stackTrace", stackTrace)] else [])
  }

  /** The properties of an `ApiErrorResponse`. */
  function ErrorFields(message: string, timestamp: string, code: Value, details: Value, stackTrace: Value, env: NodeEnv): (ms: seq<Member>)
    ensures UniqueKeys(ms)
  {
    [Member("success", Bool(false)), Member("message", Str(message)), Member("timestamp", Str(timestamp)),
     Member("error", Obj(ErrorPart(code, details, stackTrace, env)))]
  }

  /** An `ApiSuccessResponse` or `ApiErrorResponse` instance. The timestamp
      is the clock reading its constructor takes, passed in here. */
  class ApiResponse {
    var success: bool
    var message: string
    var timestamp: string
    var data: Option<Value>
    var error: Option<seq<Member>>

    /** The instance's own properties, in the order they were added. */
    function Fields(): seq<Member>
      reads this
    {
      [Member("success", Bool(success)), Member("message", Str(message)), Member("timestamp", Str(timestamp))]
        + (match data case Some(d) => [Member("data", d)] case None => [])
        + (match error case Some(e) => [Member("error", Obj(e))] case None => [])
    }

    /** `new ApiSuccessResponse(message, data = null)`. */
    constructor Success(message: string, timestamp: string, data: Value := Null)
      ensures Fields() == SuccessFields(message, timestamp, Defaulted(data, Null))
    {
      var d := Defaulted(data, Null);
      this.success := true;
      this.message := message;
      this.timestamp := timestamp;
      this.data := if Truthy(d) then Some(d) else None;
      this.error := None;
    }

    /** `new ApiErrorResponse(message, code, details = null, stackTrace = null)`:
        `code` has no default and may stay `undefined`. */
    constructor Failure(message: string, timestamp: string, env: NodeEnv,
                        code: Value := Undefined, details: Value := Null, stackTrace: Value := Null)
      ensures Fields() == ErrorFields(message, timestamp, code, Defaulted(details, Null), Defaulted(stackTrace, Null), env)
    {
      var s := Defaulted(stackTrace, Null);
      var e := [Member("code", code), Member("details", Defaulted(details, Null))];
      if IsDevelopment(env) && Truthy(s) {
        PutNew(e, "stackTrace", s);
        e := Put(e, "stackTrace", s);
      }
      this.success := false;
      this.message := message;
      this.timestamp := timestamp;
      this.data := None;
      this.error := Some(e);
      new;
      assert e == ErrorPart(code, Defaulted(details, Null), s, env);
    }

    /** `toJson()`: a plain copy of the instance with nothing `undefined`
        left in it; `success`, `message` and `timestamp` are always there. */
    function ToJson(): (r: Value)
      reads this
      ensures r.Obj? && Defined(r)
      ensures Get(r, "success") == Some(Bool(success))
      ensures Get(r, "message") == Some(Str(message))
      ensures Get(r, "timestamp") == Some(Str(timestamp))
    {
      var ms := Fields();
      FindAt(ms, 0);
      FindAt(ms, 1);
      FindAt(ms, 2);
      CleanFind(ms, "success");
      CleanFind(ms, "message");
      CleanFind(ms, "timestamp");
      CleanIsDefined(Obj(ms));
      Json.ToJson(ms)
    }
  }

  /** The JSON of a success response: `success` is true, `message` and
      `timestamp` are there, `data` is there exactly when it is truthy, and
      there is no `error`. */
  lemma SuccessJson(message: string, timestamp: string, data: Value)
    ensures var j := Json.ToJson(SuccessFields(message, timestamp, data));
      && Get(j, "success") == Some(Bool(true))
      && Get(j, "message") == Some(Str(message))
      && Get(j, "timestamp") == Some(Str(timestamp))
      && (Has(j, "data") <==> Truthy(data))
      && (Truthy(data) ==> Get(j, "data") == Some(Clean(data)))
      && !Has(j, "error")
  {
    var ms := SuccessFields(message, timestamp, data);
    FindAt(ms, 0);
    FindAt(ms, 1);
    FindAt(ms, 2);
    if Truthy(data) { FindAt(ms, 3); }
    ToJsonGet(ms, "success");
    ToJsonGet(ms, "message");
    ToJsonGet(ms, "timestamp");
    ToJsonGet(ms, "data");
    ToJsonGet(ms, "error");
  }

  /** The `error` object after the round trip. */
  lemma ErrorPartJson(code: Value, details: Value, stackTrace: Value, env: NodeEnv)
    requires details != Undefined
    ensures var e := Obj(CleanMembers(ErrorPart(code, details, stackTrace, env)));
      && Get(e, "details") == Some(Clean(details))
      && (Has(e, "code") <==> code != Undefined)
      && (code != Undefined ==> Get(e, "code") == Some(Clean(code)))
      && (Has(e, "stackTrace") <==> IsDevelopment(env) && Truthy(stackTrace))
      && (IsDevelopment(env) && Truthy(stackTrace) ==> Get(e, "stackTrace") == Some(Clean(stackTrace)))
  {
    var part := ErrorPart(code, details, stackTrace, env);
    FindAt(part, 0);
    FindAt(part, 1);
    if IsDevelopment(env) && Truthy(stackTrace) { FindAt(part, 2); }
    CleanFind(part, "code");
    CleanFind(part, "details");
    CleanFind(part, "stackTrace");
  }

  /** The JSON of an error response: `success` is false, there is no `data`
      and no top-level `stackTrace`, and `error` always holds `details` (a
      missing one is `null`), holds `code` unless it was `undefined`, and
      holds `stackTrace` exactly in development with a truthy stack. */
  lemma ErrorJson(message: string, timestamp: string, code: Value, details: Value, stackTrace: Value, env: NodeEnv)
    ensures var j := Json.ToJson(ErrorFields(message, timestamp, code, Defaulted(details, Null), stackTrace, env));
      && Get(j, "success") == Some(Bool(false))
      && Get(j, "message") == Some(Str(message))
      && Get(j, "timestamp") == Some(Str(timestamp))
      && !Has(j, "data") && !Has(j, "stackTrace")
      && Get(j, "error") == Some(Obj(CleanMembers(ErrorPart(code, Defaulted(details, Null), stackTrace, env))))
  {
    var d := Defaulted(details, Null);
    var ms := ErrorFields(message, timestamp, code, d, stackTrace, env);
    FindAt(ms, 0);
    FindAt(ms, 1);
    FindAt(ms, 2);
    FindAt(ms, 3);
    ToJsonGet(ms, "success");
    ToJsonGet(ms, "message");
    ToJsonGet(ms, "timestamp");
    ToJsonGet(ms, "data");
    ToJsonGet(ms, "stackTrace");
    ToJsonGet(ms, "error");
  }
}
