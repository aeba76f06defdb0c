/** backend/src/middleware/errorHandler.ts: the `AppError` record and the final error middleware. */
module ErrorHandler {
  import opened Wrappers
  import opened Http

  const INTERNAL_ERROR: string := "INTERNAL_ERROR"
  const VALIDATION_ERROR: string := "VALIDATION_ERROR"
  const SERVER_ERROR_MESSAGE: string := "Đã xảy ra lỗi server"
  const UNAUTHORIZED_MESSAGE: string := "Không có quyền truy cập"
  const INVALID_TOKEN_MESSAGE: string := "Token không hợp lệ"
  const TOKEN_EXPIRED_MESSAGE: string := "Token đã hết hạn"

  /** An `AppError`: only its constructor writes its fields, so it is modelled as a value. */
  datatype AppError = AppError(message: string, statusCode: int, code: string, isOperational: bool)

  /** `new AppError(message, statusCode = 500, code = 'INTERNAL_ERROR')`. */
  function NewAppError(message: string, statusCode: int := 500, code: string := INTERNAL_ERROR): (e: AppError)
    ensures e.isOperational
    ensures e.message == message && e.statusCode == statusCode && e.code == code
  {
    AppError(message, statusCode, code, true)
  }

  /** Leaving out status and code gives a 500 `INTERNAL_ERROR`. */
  lemma AppErrorDefaults(message: string)
    ensures NewAppError(message) == AppError(message, 500, INTERNAL_ERROR, true)
    ensures NewAppError(message, 404) == AppError(message, 404, INTERNAL_ERROR, true)
  {
  }

  /** What reaches `errorHandler`: an `AppError` instance, or any other `Error` with its `name`. */
  datatype Thrown = App(err: AppError) | Plain(name: string, message: string)

  /** The status, code and message that the handler's if-chain settles on. */
  datatype Classification = Classification(statusCode: int, code: string, message: string)

  /** Error names that map to 401 with a fixed message, whatever the error's own message. */
  const AUTH_ERRORS: map<string, Classification> := map[
    "UnauthorizedError" := Classification(401, "UNAUTHORIZED", UNAUTHORIZED_MESSAGE),
    "JsonWebTokenError" := Classification(401, "INVALID_TOKEN", INVALID_TOKEN_MESSAGE),
    "TokenExpiredError" := Classification(401, "TOKEN_EXPIRED", TOKEN_EXPIRED_MESSAGE)
  ]

  /** The classification `errorHandler` computes, stated as a table rather than an if-chain. */
  function Classify(error: Thrown): (c: Classification)
    // the `instanceof AppError` test comes first: an AppError passes through unchanged
    ensures error.App? ==> c == Classification(error.err.statusCode, error.err.code, error.err.message)
    ensures error.Plain? ==> c.statusCode in {400, 401, 500}
    ensures error.Plain? ==> (c.statusCode == 400 <==> error.name == "ValidationError")
    ensures error.Plain? && error.name == "ValidationError" ==>
      c == Classification(400, VALIDATION_ERROR, error.message)
    ensures error.Plain? && error.name in AUTH_ERRORS ==> c == AUTH_ERRORS[error.name]
    // any other error is a generic 500 and its own message is not sent
    ensures error.Plain? && error.name != "ValidationError" && error.name !in AUTH_ERRORS ==>
      c == Classification(500, INTERNAL_ERROR, SERVER_ERROR_MESSAGE)
  {
    match error
    case App(e) => Classification(e.statusCode, e.code, e.message)
    case Plain(name, message) =>
      if name == "ValidationError" then Classification(400, VALIDATION_ERROR, message)
      else if name == "UnauthorizedError" then Classification(401, "UNAUTHORIZED", UNAUTHORIZED_MESSAGE)
      else if name == "JsonWebTokenError" then Classification(401, "INVALID_TOKEN", INVALID_TOKEN_MESSAGE)
      else if name == "TokenExpiredError" then Classification(401, "TOKEN_EXPIRED", TOKEN_EXPIRED_MESSAGE)
      else Classification(500, INTERNAL_ERROR, SERVER_ERROR_MESSAGE)
  }

  /** A plain error's own message reaches the client only when it is a `ValidationError`. */
  lemma PlainMessageNotLeaked(name: string, message: string)
    requires name != "ValidationError"
    ensures Classify(Plain(name, message)).message in
      {SERVER_ERROR_MESSAGE, UNAUTHORIZED_MESSAGE, INVALID_TOKEN_MESSAGE, TOKEN_EXPIRED_MESSAGE}
  {
  }

  /**
   * How an `asyncHandler`-wrapped handler ends: it sends a response, or its promise
   * rejects and the error is passed to `next`, which reaches `errorHandler`.
   */
  datatype HandlerOutcome = Responded(response: HttpResponse) | Forwarded(error: AppError)

  /** `process.env.NODE_ENV === 'development'`. */
  predicate IsDevelopment(nodeEnv: Option<string>) {
    nodeEnv == Some("development")
  }

  /**
   * `errorHandler(error, req, res, next)`: the status, code and message start at the
   * generic 500 and are overwritten by the first matching branch; `details` carries the
   * stack trace in development only. Logging is not modelled.
   */
  method HandleError(error: Thrown, stack: Option<string>, nodeEnv: Option<string>, timestamp: string)
    returns (response: HttpResponse)
    ensures response.status == Classify(error).statusCode
    ensures IsErrorEnvelope(response.body)
    ensures response.body.error.value.code == Classify(error).code
    ensures response.body.error.value.message == Classify(error).message
    ensures response.body.error.value.details == (if IsDevelopment(nodeEnv) then stack else None)
    ensures response.body.timestamp == timestamp
  {
    var statusCode := 500;
    var code := INTERNAL_ERROR;
    var message := SERVER_ERROR_MESSAGE;

    if error.App? {
      statusCode := error.err.statusCode;
      code := error.err.code;
      message := error.err.message;
    } else if error.name == "ValidationError" {
      statusCode := 400;
      code := VALIDATION_ERROR;
      message := error.message;
    } else if error.name == "UnauthorizedError" {
      statusCode := 401;
      code := "UNAUTHORIZED";
      message := UNAUTHORIZED_MESSAGE;
    } else if error.name == "JsonWebTokenError" {
      statusCode := 401;
      code := "INVALID_TOKEN";
      message := INVALID_TOKEN_MESSAGE;
    } else if error.name == "TokenExpiredError" {
      statusCode := 401;
      code := "TOKEN_EXPIRED";
      message := TOKEN_EXPIRED_MESSAGE;
    }

    var details := if IsDevelopment(nodeEnv) then stack else None;
    var errorResponse := ApiError(code, message, details);
    response := HttpResponse(statusCode, Envelope(false, None, Some(errorResponse), timestamp));
  }
}
