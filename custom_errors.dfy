/**
 * The factory functions `BadRequestError` ... `ConflictError`: each builds an
 * `ApiError` with a fixed status code and a default message.
 */
module CustomErrors {
  import opened Json
  import opened ApiErrors
  import Registry

  datatype Factory =
    | BadRequestError
    | ValidationError
    | NotFoundError
    | UnauthorizedError
    | ForbiddenError
    | DatabaseError
    | FileNotFoundError
    | ConflictError

  /** The status each factory fixes; every one of them has a table entry. */
  function StatusOf(f: Factory): (s: int)
    ensures 400 <= s < 600
    ensures Registry.Lookup(s).Some?
  {
    match f
    case BadRequestError => Registry.BadRequest
    case ValidationError => Registry.UnprocessableEntity
    case NotFoundError => Registry.NotFound
    case UnauthorizedError => Registry.Unauthorized
    case ForbiddenError => Registry.Forbidden
    case DatabaseError => Registry.InternalServerError
    case FileNotFoundError => Registry.NotFound
    case ConflictError => Registry.Conflict
  }

  /** The message a factory uses when the caller gives none. */
  function DefaultMessage(f: Factory): (m: string)
    ensures m != ""
  {
    match f
    case BadRequestError => "Bad request"
    case ValidationError => "Validation failed"
    case NotFoundError => "Resource not found"
    case UnauthorizedError => "Unauthorized"
    case ForbiddenError => "Forbidden"
    case DatabaseError => "Database error"
    case FileNotFoundError => "File not found"
    case ConflictError => "Resource conflict"
  }

  /** `Factory(message = default, errorCode, details = null)`. A missing
      message (None) takes the factory's default; a missing `errorCode` is
      passed on as `undefined`, so the error's code becomes `'GENERIC_ERROR'`;
      anything supplied is passed through unchanged. A factory never fails. */
  function Make(f: Factory, stack: string, message: Option<string> := None, errorCode: Value := Undefined, details: Value := Undefined): (e: ApiError)
    ensures e.status == Some(StatusOf(f)) && e.stack == stack
    ensures message.None? ==> e.message == DefaultMessage(f)
    ensures message.Some? ==> e.message == message.value
    ensures errorCode == Undefined ==> e.code == Str(GenericErrorCode)
    ensures errorCode != Undefined ==> e.code == errorCode
    ensures details == Undefined ==> e.details == Null
    ensures details != Undefined ==> e.details == details
  {
    var text := match message case Some(m) => m case None => DefaultMessage(f);
    NewApiError(stack, text, Some(StatusOf(f)), errorCode, Defaulted(details, Null))
  }

  /** The status table of the eight factories. */
  lemma FactoryStatuses()
    ensures StatusOf(BadRequestError) == 400 && StatusOf(ValidationError) == 422
    ensures StatusOf(NotFoundError) == 404 && StatusOf(FileNotFoundError) == 404
    ensures StatusOf(UnauthorizedError) == 401 && StatusOf(ForbiddenError) == 403
    ensures StatusOf(DatabaseError) == 500 && StatusOf(ConflictError) == 409
  {
  }
}
