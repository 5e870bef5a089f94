/**
 * `ApiError`: the structured error that route code raises to signal a failure
 * with an HTTP status, a machine-readable code and optional details, and the
 * generic errors it is told apart from.
 */
module ApiErrors {
  import opened Json

  const GenericErrorCode := "GENERIC_ERROR"

  /** An `ApiError` instance. `status` is the JavaScript number passed in, or
      None for `undefined`; `stack` is the opaque stack string the runtime
      captured when the error was made. Nothing changes these fields after
      construction. */
  datatype ApiError = ApiError(message: string, status: Option<int>, code: Value, details: Value, stack: string)
  {
    /** Every instance is named `'ApiError'`. */
    const name: string := "ApiError"
  }

  /** `new ApiError(message, status, code = 'GENERIC_ERROR', details = null)`.
      No argument is checked: status 0 and an empty message are kept. The
      defaults apply only to `undefined`, so an explicit `''` code is kept. */
  function NewApiError(stack: string, message: string, status: Option<int>, code: Value := Undefined, details: Value := Undefined): (e: ApiError)
    ensures e.name == "ApiError"
    ensures e.message == message && e.status == status && e.stack == stack
    ensures code != Undefined ==> e.code == code
    ensures code == Undefined ==> e.code == Str(GenericErrorCode)
    ensures details != Undefined ==> e.details == details
    ensures details == Undefined ==> e.details == Null
  {
    ApiError(message, status, Defaulted(code, Str(GenericErrorCode)), Defaulted(details, Null), stack)
  }

  /** Whatever reaches an error-handling middleware: an `ApiError`, or any
      other `Error`. A generic error has a message and a stack, and may carry
      `status`, `code` and `details` properties of its own (a body-parser
      error with `status` 400, a system error with `code` 'ECONNREFUSED');
      a bare `new Error(message)` has none of them. */
  datatype Thrown =
    | Api(err: ApiError)
    | Plain(text: string, trace: string, status: Option<int>, code: Value, details: Value)
  {
    /** `error instanceof ApiError`. */
    predicate IsApiError() {
      Api?
    }

    function Message(): string {
      match this
      case Api(e) => e.message
      case Plain(m, _, _, _, _) => m
    }

    function Stack(): string {
      match this
      case Api(e) => e.stack
      case Plain(_, s, _, _, _) => s
    }

    /** `error.status`; None stands for `undefined`. */
    function Status(): Option<int> {
      match this
      case Api(e) => e.status
      case Plain(_, _, s, _, _) => s
    }

    /** `error.code`. */
    function Code(): Value {
      match this
      case Api(e) => e.code
      case Plain(_, _, _, c, _) => c
    }

    /** `error.details`. */
    function Details(): Value {
      match this
      case Api(e) => e.details
      case Plain(_, _, _, _, d) => d
    }
  }

  /** `new Error(message)`: a generic error with no status, code or details. */
  function NewError(message: string, stack: string): (t: Thrown)
    ensures !t.IsApiError()
    ensures t.Message() == message && t.Stack() == stack
    ensures t.Status() == None && t.Code() == Undefined && t.Details() == Undefined
  {
    Plain(message, stack, None, Undefined, Undefined)
  }

  /** A freshly made `ApiError` is recognised as one, with its own fields; no
      generic error is, whatever properties it carries, so `instanceof`
      depends on nothing but how the error was made. */
  lemma Classification(stack: string, message: string, status: Option<int>, code: Value, details: Value)
    ensures var t := Api(NewApiError(stack, message, status, code, details));
      && t.IsApiError()
      && t.Message() == message && t.Stack() == stack && t.Status() == status
    ensures !Plain(message, stack, status, code, details).IsApiError()
    ensures var t := Plain(message, stack, status, code, details);
      t.Status() == status && t.Code() == code && t.Details() == details
  {
  }
}
