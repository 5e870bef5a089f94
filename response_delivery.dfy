/**
 * Delivery of the class-based envelopes: build an `ApiSuccessResponse` or
 * `ApiErrorResponse`, set the status exactly as given and write its
 * `toJson()` once.
 */
module ResponseDelivery {
  import opened Json
  import opened Http
  import opened ApiResponses

  /** `sendSuccessResponse(response, statusCode, message, data = null)`. */
  method SendSuccessResponse(response: Response, statusCode: int, message: string, timestamp: string, data: Value := Null)
    modifies response
    ensures response.statusCode == Some(statusCode) && response.headersSent
    ensures response.bodies == old(response.bodies) + [Json.ToJson(SuccessFields(message, timestamp, Defaulted(data, Null)))]
  {
    var successResponse := new ApiResponse.Success(message, timestamp, Defaulted(data, Null));
    response.Status(statusCode);
    response.Json(successResponse.ToJson());
  }

  /** `sendErrorResponse(response, statusCode, message, code, details = null,
      stackTrace = null)`: the arguments are forwarded unchanged, so any
      status, even a 2xx, is written as given. */
  method SendErrorResponse(response: Response, statusCode: int, message: string, timestamp: string, env: NodeEnv,
                           code: Value := Undefined, details: Value := Null, stackTrace: Value := Null)
    modifies response
    ensures response.statusCode == Some(statusCode) && response.headersSent
    ensures response.bodies == old(response.bodies)
      + [Json.ToJson(ErrorFields(message, timestamp, code, Defaulted(details, Null), Defaulted(stackTrace, Null), env))]
  {
    var errorResponse := new ApiResponse.Failure(message, timestamp, env, code, Defaulted(details, Null), Defaulted(stackTrace, Null));
    response.Status(statusCode);
    response.Json(errorResponse.ToJson());
  }
}
