# Error and response envelopes of an Express starter template

This project models the error-handling and response-envelope subsystem of the
Express starter template and proves properties of that model. The subsystem has these parts:

- **Registry of common errors.** A table from HTTP status to a default message, code and details.
- **`ApiError`.** The structured error value, with its eight factory functions.
- **Two envelope builders.** One writes plain objects (`response-structure.mjs`). The other builds class instances and sends their `toJson()` (`api-response.mjs` with `response-delivery.mjs`).
- **Two error-handling middleware variants.** `api-error-handler.mjs` handles every `ApiError`, keeping a status in [400, 600) and using 500 otherwise. Behind it, an unhandled-error stage answers every other error with a fixed 500 envelope. `error-handler.mjs` handles every error, `ApiError` or not, but keeps only 4xx statuses.
- **Request validator.** It throws a fixed 422 `ApiError` when the schema reports an error.
- **CORS origin decision.** It runs on the origin string and the runtime mode, and comes with static options.

JavaScript values are the datatype `Json.Value`, which has `undefined`, `null`, booleans, integer numbers, strings, arrays, and objects. An object is its property list in insertion order. `Json.Truthy` is JavaScript truthiness. `Json.Defaulted` is a default parameter, which replaces only `undefined`. `Json.Clean` is `JSON.parse(JSON.stringify(x))` for a value inside an array or object, where an `undefined` slot becomes `null` and an `undefined` property disappears; `Json.ToJson` applies it to a whole object.

The runtime mode (`process.env.NODE_ENV`) is a parameter of type `Http.NodeEnv`, where `None` means unset. The Express response, the `next` continuation, the logger and the application are small classes. Their methods append to recorded sequences: bodies written, `next` calls, log records and registered layers. The clock reading in `ApiResponse` and the stack string captured by `Error.captureStackTrace` are passed in as strings.

## Notes on the code's behaviour

- The registry has entries for 400, 401, 403, 404, 409, 422, 429, 500, 503 and 504 only. A 502 falls back to the 500 entry.
- There are eight factories, `BadRequestError` … `ConflictError`.
- No factory supplies a code. A missing code becomes `'GENERIC_ERROR'` from the `ApiError` constructor, so the registry's code is never used for such an error.
- The validator throws with code `'INVALID_REQUEST'` and `details` `null`. The schema's error is only tested for truthiness; none of its content reaches the thrown error.
- Success `data` is included when it is truthy, so `0`, `''` and `false` are left out, while `{}` and `[]` are kept.
- `response-structure.mjs` puts a top-level `stackTrace` in every development-mode body, even when it is `null`.
- `api-response.mjs` nests `stackTrace` inside `error`, and only when it is truthy.
- `error-handler.mjs` keeps only [400, 500), so a 503 becomes 500 there. The first stage of `api-error-handler.mjs` keeps 503.
- `error-handler.mjs` reads `status`, `code` and `details` from any error, so a generic error carrying them is answered with them.
- The handler tests expect `logger.error(message, record)` with two arguments. Both handlers make a single call with one record object, and the model follows the handlers.
- `error-handler.mjs` imports its table from `config/common-errors.mjs`, which is not part of this model. The model uses the `COMMON_ERRORS` table of `config/errors.mjs` in its place.

## Model

| member | source | states |
|---|---|---|
| Registry.Lookup | src/config/errors.mjs:7-67 | has an entry exactly for 400, 401, 403, 404, 409, 422, 429, 503, 504 and 500; every entry's status is in [400, 600) and its message, code and details are all non-empty |
| Registry.InternalError | src/config/errors.mjs:62-66 | the 500 entry is "An internal server error occurred." / "INTERNAL_SERVER_ERROR" / "Something went wrong on our server." |
| Registry.NotFoundEntry | src/config/errors.mjs:26-30 | the 404 entry is "Resource not found." / "NOT_FOUND" / "The requested resource could not be found." |
| Registry.NoBadGatewayEntry | src/config/errors.mjs:7-67 | 502 has no entry, and its fallback is the 500 entry |
| Registry.FallbackFor | src/middleware/api-error-handler.mjs:36 | `COMMON_ERRORS[status] \|\| COMMON_ERRORS[500]` is never missing: it is the status's own entry when registered and the 500 entry otherwise |
| ApiErrors.NewApiError | src/errors/api-error.mjs:16-21 | name is always 'ApiError'; message and status are stored unchecked (0 and '' kept); a missing code becomes 'GENERIC_ERROR' while an explicit '' is kept; a missing details becomes null; supplied values are kept |
| ApiErrors.Classification | src/middleware/api-error-handler.mjs:29 | an `ApiError` is recognised by `instanceof` and keeps its own fields; no generic error is recognised, whatever `status`, `code` and `details` it carries, and those properties read back as carried |
| ApiErrors.NewError | src/errors/api-error.mjs:5 | a bare `new Error(message)` is not an `ApiError` and has the message and stack but no status, code or details |
| CustomErrors.StatusOf | src/errors/custom-errors.mjs:5-35 | every factory's status is a client or server error code that has a registry entry |
| CustomErrors.FactoryStatuses | src/errors/custom-errors.mjs:5-35 | the status table of the eight factories: 400, 422, 404, 404, 401, 403, 500, 409 |
| CustomErrors.DefaultMessage | src/errors/custom-errors.mjs:5-35 | every factory has a non-empty default message |
| CustomErrors.Make | src/errors/custom-errors.mjs:5-35 | a factory fixes the status; a missing message takes the factory default; a missing code becomes 'GENERIC_ERROR'; missing details become null; supplied values pass through; it always returns an error |
| ResponseStructure.SuccessBody | src/utils/response-structure.mjs:20-26 | success is true, the message is kept, and `data` is present exactly when it is truthy, with its value; no other keys |
| ResponseStructure.ErrorObject | src/utils/response-structure.mjs:49-50 | `error.code` is present iff code is truthy and `error.details` iff details is truthy, independently; with neither, `error` is {} |
| ResponseStructure.ErrorBody | src/utils/response-structure.mjs:40-59 | success is false, the message is kept, `error` is the object above, and a top-level `stackTrace` is present iff the mode is development, holding the supplied value (null included) |
| ResponseStructure.SendSuccessResponse | src/utils/response-structure.mjs:20-26 | sets exactly the given status and writes one success body, with data defaulting to null |
| ResponseStructure.SendErrorResponse | src/utils/response-structure.mjs:40-59 | sets exactly the given status, unclamped, and writes one error body built step by step, equal to the error body of the defaulted arguments |
| ResponseStructure.DevelopmentErrorBodyExample | src/utils/response-structure.mjs:40-59 | in development, code, details and stack give exactly {success, message, error: {code, details}, stackTrace} |
| ResponseStructure.EmptyErrorObject | src/utils/response-structure.mjs:42-50 | null or '' code and details give `error: {}` |
| ApiResponses.ApiResponse.Success | src/utils/api-response.mjs:16-21 | the constructed instance has success true, the message and the timestamp, and `data` only when the defaulted data is truthy |
| ApiResponses.ApiResponse.Failure | src/utils/api-response.mjs:24-33 | the constructed instance has success false and `error = {code, details}`, with `error.stackTrace` only in development with a truthy stack; details and stack default to null, code to undefined |
| ApiResponses.ApiResponse.ToJson | src/utils/api-response.mjs:11-13 | the result is an object with no undefined left in it, with success, message and timestamp |
| Json.CleanFind | src/utils/api-response.mjs:11-13 | after the JSON round trip, each property is present iff its value was not undefined, and then holds the round trip of its value; null is kept |
| Json.CleanKeepsDefined | src/utils/api-response.mjs:11-13 | a value with no undefined survives the round trip unchanged |
| Json.CleanIdempotent | src/utils/api-response.mjs:11-13 | a second round trip changes nothing |
| ApiResponses.SuccessJson | src/utils/api-response.mjs:4-21 | the JSON of a success response has success true, message, timestamp, `data` iff truthy, and no `error` |
| ApiResponses.ErrorPartJson | src/utils/api-response.mjs:27-31 | after the round trip, `error.details` is always present; `error.code` is present iff it was not undefined; `error.stackTrace` is present iff the mode is development and the stack is truthy |
| ApiResponses.ErrorJson | src/utils/api-response.mjs:24-33 | the JSON of an error response has success false, message, timestamp, no `data`, no top-level `stackTrace`, and `error` as above |
| ResponseDelivery.SendSuccessResponse | src/utils/response-delivery.mjs:22-26 | sets exactly the given status and writes the `toJson()` of `ApiSuccessResponse(message, data ?? null)` once |
| ResponseDelivery.SendErrorResponse | src/utils/response-delivery.mjs:40-44 | sets exactly the given status, even a 2xx, and writes the `toJson()` of `ApiErrorResponse` built from the forwarded arguments once |
| Resolution.Resolve | src/middleware/api-error-handler.mjs:36-59 | message, code and details are each the error's own value when truthy and the fallback entry's otherwise; all three resolved values are truthy |
| Resolution.ErrorLog | src/middleware/api-error-handler.mjs:38-50 | the log record holds the resolved message, `error: {code, details}`, the request URL and method, and `stackTrace` iff development |
| Resolution.BuildErrorLog | src/middleware/api-error-handler.mjs:38-50 | the record built step by step is exactly that log record |
| ApiErrorHandler.ResolveStatus | src/middleware/api-error-handler.mjs:32-34 | the resolved status is in [400, 600); it is the error's status when that is in range, and otherwise 500 |
| ApiErrorHandler.StatusExamples | src/middleware/api-error-handler.mjs:32-34 | 200, 0 and undefined become 500; 404 and 503 are kept; 600 becomes 500 |
| ApiErrorHandler.HandleApiError | src/middleware/api-error-handler.mjs:25-62 | with headers sent, or for a non-ApiError, forwards the same error to `next` and neither logs nor writes; otherwise it does not call `next`, logs one record and writes one envelope with the resolved status, message, code, details and stack |
| ApiErrorHandler.ApiErrorBodyShape | src/middleware/api-error-handler.mjs:54-61 | the envelope written carries success false, the resolved message, the resolved code and details, and `error.stackTrace` exactly in development with a non-empty stack |
| ApiErrorHandler.EmptyFieldsTakeTheTableEntry | src/middleware/api-error-handler.mjs:36-61 | `ApiError('', 404, '', '')` resolves to exactly the 404 entry |
| ApiErrorHandler.DefaultsAgainstTheTable | src/middleware/api-error-handler.mjs:36-61 | an `ApiError` with an empty message and a registered status takes the entry's message and details but keeps the code 'GENERIC_ERROR' |
| ApiErrorHandler.UnhandledLog | src/middleware/api-error-handler.mjs:76-81 | the unhandled log record has exactly the keys message, stack, url and method (never `stackTrace`), holding `error.message \|\| 'Unhandled error'`, the stack, the URL and the method |
| ApiErrorHandler.HandleUnhandledError | src/middleware/api-error-handler.mjs:67-97 | with headers sent, forwards to `next` and does nothing else; otherwise logs one record and writes status 500 and the fixed envelope, whatever the error |
| ApiErrorHandler.UnhandledBodyShape | src/middleware/api-error-handler.mjs:71-96 | the unhandled envelope is 'Something went wrong', code 'UNHANDLED_ERROR', details null, and a stack only in development |
| ApiErrorHandler.App.Use | src/middleware/api-error-handler.mjs:107 | `app.use` appends one layer |
| ApiErrorHandler.SetupErrorHandlers | src/middleware/api-error-handler.mjs:105-111 | registers the `ApiError` stage, then the unhandled stage, and nothing else |
| ApiErrorHandler.RunLayer | src/middleware/api-error-handler.mjs:25-97 | a registered layer behaves as the handler it stands for: the `ApiError` stage or the unhandled stage |
| ApiErrorHandler.RunErrorChain | src/middleware/api-error-handler.mjs:25-111 | running the layers `setupErrorHandlers` registered, in order, writes exactly one envelope and one log record when headers were not sent, and none when they were; only an error after the headers reaches the final `next`; a non-ApiError gets the 500 envelope |
| ApiErrorHandler.SetUpApp | src/middleware/api-error-handler.mjs:105-111 | a fresh application after `setupErrorHandlers` holds exactly the two layers the chain runs |
| ErrorHandler.ClampStatus | src/middleware/error-handler.mjs:31 | the status is kept iff in [400, 500); undefined and everything else, 5xx included, become 500 |
| ErrorHandler.HandleError | src/middleware/error-handler.mjs:24-59 | with headers sent, forwards to `next` and does nothing else; otherwise, for any error, logs one record and writes one envelope with the clamped status and the resolved fields |
| ErrorHandler.BodyMatchesLog | src/middleware/error-handler.mjs:36-58 | the envelope's `error` is exactly the logged `{code, details}`, both always present, and a top-level `stackTrace` holds the stack iff development |
| ErrorHandler.VariantsDisagreeOnServerErrors | src/middleware/error-handler.mjs:31-34 | for a 503 `ApiError` with no message, the `ApiError` stage keeps 503 and its message, while this handler answers 500 with the generic message |
| ErrorHandler.VariantsAgreeOnClientErrors | src/middleware/error-handler.mjs:31 | the two handlers resolve the same status for everything except [500, 600) |
| ErrorHandler.GenericErrorKeepsItsFields | src/middleware/error-handler.mjs:31-42 | a generic error with status 400 and code 'ECONNREFUSED' is answered 400 with its own code and the 400 entry's message and details |
| RequestValidation.ValidationInput | src/middleware/request-validation.mjs:5-9 | the schema sees exactly the request's body, query and params |
| RequestValidation.ValidateRequest | src/middleware/request-validation.mjs:4-14 | throws iff the schema's error is truthy, and then always status 422, 'Request validation failed', 'INVALID_REQUEST', details null; otherwise continues |
| RequestValidation.RejectionReachesClient | src/middleware/request-validation.mjs:11 | the thrown error, handled by the `ApiError` stage, resolves to 422 with the validator's message and code and the 422 entry's details |
| Cors.IncludesOccurs | src/middleware/cors-configuration.mjs:13 | `includes` holds exactly when the substring occurs at some position |
| Cors.OriginDecision | src/middleware/cors-configuration.mjs:7-28 | allows iff the origin is absent or empty, or (outside production) mentions 'localhost' or '127.0.0.1', or is in the allowlist; every other origin is rejected with 'Not allowed by CORS' |
| Cors.ProductionUsesAllowlistOnly | src/middleware/cors-configuration.mjs:12-27 | in production a non-empty origin is allowed iff it is in the allowlist |
| Cors.AllowlistedEverywhere | src/middleware/cors-configuration.mjs:19-25 | 'http://localhost:5173' is allowed in every mode |
| Cors.LocalhostOutsideProduction | src/middleware/cors-configuration.mjs:12-16 | outside production, localhost and 127.0.0.1 origins on any port are allowed; in production a localhost origin outside the allowlist is rejected |
| Cors.PreflightOptions | src/middleware/cors-configuration.mjs:29-39 | OPTIONS is an allowed method, preflight answers 200 and does not continue, credentials are on, and Authorization may be sent |

## Left out

- Numbers are integers. `NaN`, `-0`, floating point and non-number statuses such as strings are not modelled.
- A message is always a string. Other thrown values (`throw 'text'`, `throw null`) are not modelled. Every thrown value is an `ApiError` or an `Error` with a message, a stack and the `status`, `code` and `details` properties it may carry; its other properties (`name`, `cause`, `errno`) are not modelled, because neither handler reads them.
- Objects have unique keys, as JavaScript objects do. Prototype properties, getters, `toJSON` methods and non-enumerable keys are not modelled.
- `JSON.stringify` of functions, symbols, `BigInt` and cyclic values is not modelled, because the envelopes never hold them.
- The clock reading (`new Date().toISOString()`) and the stack string are parameters, not computed.
- The schema engine (Joi) is an arbitrary function from the input to a result with `value` and `error`.
- The logging transport is a recorded sequence of records. Winston's formatting and levels are not modelled.
- `config/common-errors.mjs`, from which `error-handler.mjs` imports its table, is not part of this model. The `config/errors.mjs` table stands in for it.
- ApiErrorHandler.RunErrorChain: runs the two layers `setupErrorHandlers` registers, not an arbitrary Express layer stack; other middleware between or after them is not modelled.
- Express itself is not modelled. A second `json()` on the same response is recorded as a second body rather than raising.
- Cors.OriginDecision: the callback is modelled by its single argument, `Allow` for `(null, true)` or `Reject(message)` for `(new Error(message))`. Calling it exactly once is a consequence of returning one value.
