/** backend/src/middleware/auth.ts: bearer-token extraction and the three auth middlewares. */
module Auth {
  import opened Wrappers
  import opened Strings
  import opened ErrorHandler

  const MISSING_TOKEN_MESSAGE: string := "Token truy cập không được cung cấp"
  const MISSING_SECRET_MESSAGE: string := "JWT secret không được cấu hình"
  const AUTH_ERROR_MESSAGE: string := "Lỗi xác thực token"
  const UNAUTHENTICATED_MESSAGE: string := "Chưa xác thực người dùng"

  /** The decoded claims. A token may omit any of them, so each is optional. */
  datatype JwtPayload = JwtPayload(
    userId: Option<string>, email: Option<string>, role: Option<string>,
    iat: Option<int>, exp: Option<int>)

  /** Which library error classes a failed verification is an instance of. */
  datatype VerifyError = VerifyError(isJsonWebTokenError: bool, isTokenExpiredError: bool)

  /** What `jwt.verify(token, secret)` does: return the claims or throw. */
  datatype VerifyOutcome = Verified(payload: JwtPayload) | Rejected(error: VerifyError)

  /** The JWT library, an oracle from (token, secret) to its outcome. */
  type Verifier = (string, string) -> VerifyOutcome

  /** How a middleware ends: it calls `next()`, or it throws. */
  datatype Outcome = Next | Raise(error: AppError)

  /** The Express request as these middlewares see it; they write `user` and nothing else. */
  class Request {
    const authorization: Option<string>
    var user: Option<JwtPayload>

    constructor(authorization: Option<string>)
      ensures this.authorization == authorization && user.None?
    {
      this.authorization := authorization;
      user := None;
    }
  }

  /**
   * `authHeader && authHeader.split(' ')[1]`, followed by the truthiness test on it:
   * the second space-separated field, when there is one and it is not empty.
   */
  function ExtractToken(header: Option<string>): (token: Option<string>)
    ensures token.Some? ==> token.value != "" && ' ' !in token.value
    ensures header.None? ==> token.None?
  {
    if header.None? then None
    else
      var fields := Split(header.value, ' ');
      if |fields| >= 2 && fields[1] != "" then Some(fields[1]) else None
  }

  /** A header `scheme token rest`, where `rest` is empty or starts a third field, carries `token`. */
  lemma {:induction false} ExtractTokenFromHeader(scheme: string, token: string, rest: string)
    requires ' ' !in scheme && ' ' !in token && token != ""
    requires rest == "" || rest[0] == ' '
    ensures ExtractToken(Some(scheme + " " + token + rest)) == Some(token)
  {
    var header := scheme + " " + token + rest;
    assert header == scheme + [' '] + (token + rest);
    SplitAfterField(scheme, ' ', token + rest);
    if rest == "" {
      assert token + rest == token;
      SplitNoSeparator(token, ' ');
    } else {
      assert token + rest == token + [' '] + rest[1..];
      SplitAfterField(token, ' ', rest[1..]);
    }
  }

  /** Conversely, an extracted token is the second field of the header it came from. */
  lemma {:induction false} ExtractedTokenDecomposes(header: string) returns (scheme: string, rest: string)
    requires ExtractToken(Some(header)).Some?
    ensures ' ' !in scheme && (rest == "" || rest[0] == ' ')
    ensures header == scheme + " " + ExtractToken(Some(header)).value + rest
  {
    var fields := Split(header, ' ');
    JoinSplit(header, ' ');
    scheme := fields[0];
    var tail := fields[1..];
    assert Join(fields, ' ') == fields[0] + [' '] + Join(tail, ' ');
    if |tail| == 1 {
      rest := "";
    } else {
      rest := [' '] + Join(tail[1..], ' ');
      assert Join(tail, ' ') == tail[0] + [' '] + Join(tail[1..], ' ');
    }
  }

  /** A header without a space, an empty header and no header at all carry no token. */
  lemma NoTokenWithoutSpace(header: string)
    requires ' ' !in header
    ensures ExtractToken(Some(header)).None?
  {
    SplitNoSeparator(header, ' ');
  }

  /** What the catch block of `authenticateToken` receives: the library's error or an `AppError`. */
  datatype Caught = CaughtLibrary(error: VerifyError) | CaughtApp(app: AppError)

  /** `error instanceof jwt.JsonWebTokenError`; an `AppError` is not one. */
  predicate IsJsonWebTokenError(c: Caught) {
    c.CaughtLibrary? && c.error.isJsonWebTokenError
  }

  /** `error instanceof jwt.TokenExpiredError`; an `AppError` is not one. */
  predicate IsTokenExpiredError(c: Caught) {
    c.CaughtLibrary? && c.error.isTokenExpiredError
  }

  /** The missing-secret error thrown inside the try block. */
  const CONFIG_ERROR: AppError := NewAppError(MISSING_SECRET_MESSAGE, 500, "CONFIG_ERROR")

  /** The catch block of `authenticateToken`: the two library tests in source order, then a catch-all. */
  function CatchAuthFailure(caught: Caught): (e: AppError)
    ensures e.statusCode == 401 && e.isOperational
    ensures IsJsonWebTokenError(caught) ==> e.code == "INVALID_TOKEN" && e.message == INVALID_TOKEN_MESSAGE
    ensures !IsJsonWebTokenError(caught) && IsTokenExpiredError(caught) ==>
      e.code == "TOKEN_EXPIRED" && e.message == TOKEN_EXPIRED_MESSAGE
    ensures !IsJsonWebTokenError(caught) && !IsTokenExpiredError(caught) ==>
      e.code == "AUTH_ERROR" && e.message == AUTH_ERROR_MESSAGE
    // in particular the 500 CONFIG_ERROR never escapes: it becomes a 401 AUTH_ERROR
    ensures caught.CaughtApp? ==> e == NewAppError(AUTH_ERROR_MESSAGE, 401, "AUTH_ERROR")
  {
    if IsJsonWebTokenError(caught) then NewAppError(INVALID_TOKEN_MESSAGE, 401, "INVALID_TOKEN")
    else if IsTokenExpiredError(caught) then NewAppError(TOKEN_EXPIRED_MESSAGE, 401, "TOKEN_EXPIRED")
    else NewAppError(AUTH_ERROR_MESSAGE, 401, "AUTH_ERROR")
  }

  /** The result of `authenticateToken` for a header, a configured secret and the library. */
  function Authenticate(header: Option<string>, secret: Option<string>, verify: Verifier): (r: Result<JwtPayload, AppError>)
    // every failure, the missing secret included, leaves with status 401
    ensures r.Err? ==> r.error.statusCode == 401 && r.error.isOperational
    ensures ExtractToken(header).None? ==> r == Err(NewAppError(MISSING_TOKEN_MESSAGE, 401, "MISSING_TOKEN"))
    ensures ExtractToken(header).Some? && !Truthy(secret) ==> r.Err? && r.error.code == "AUTH_ERROR"
    ensures r.Ok? <==>
      ExtractToken(header).Some? && Truthy(secret) && verify(ExtractToken(header).value, secret.value).Verified?
    ensures r.Ok? ==> r.value == verify(ExtractToken(header).value, secret.value).payload
    ensures r.Err? && r.error.code != "MISSING_TOKEN" ==> ExtractToken(header).Some?
    // a rejected verification is answered as the catch block classifies the library's error
    ensures ExtractToken(header).Some? && Truthy(secret) && verify(ExtractToken(header).value, secret.value).Rejected? ==>
      r == Err(CatchAuthFailure(CaughtLibrary(verify(ExtractToken(header).value, secret.value).error)))
  {
    var token := ExtractToken(header);
    if token.None? then Err(NewAppError(MISSING_TOKEN_MESSAGE, 401, "MISSING_TOKEN"))
    else if !Truthy(secret) then Err(CatchAuthFailure(CaughtApp(CONFIG_ERROR)))
    else
      match verify(token.value, secret.value)
      case Verified(payload) => Ok(payload)
      case Rejected(error) => Err(CatchAuthFailure(CaughtLibrary(error)))
  }

  /**
   * `authenticateToken(req, res, next)`: the missing-token guard, then a try block whose
   * throws (the missing secret among them) all land in one catch that re-raises a 401.
   */
  method AuthenticateToken(req: Request, secret: Option<string>, verify: Verifier) returns (outcome: Outcome)
    modifies req
    ensures outcome == (if Authenticate(req.authorization, secret, verify).Ok? then Next
                        else Raise(Authenticate(req.authorization, secret, verify).error))
    ensures req.user == (if Authenticate(req.authorization, secret, verify).Ok?
                         then Some(Authenticate(req.authorization, secret, verify).value)
                         else old(req.user))
  {
    var token := ExtractToken(req.authorization);
    if token.None? {
      return Raise(NewAppError(MISSING_TOKEN_MESSAGE, 401, "MISSING_TOKEN"));
    }

    // the try block: the first throw ends it
    var caught: Option<Caught> := None;
    if !Truthy(secret) {
      caught := Some(CaughtApp(CONFIG_ERROR));
    } else {
      var decoded := verify(token.value, secret.value);
      if decoded.Verified? {
        req.user := Some(decoded.payload);
        return Next;
      }
      caught := Some(CaughtLibrary(decoded.error));
    }

    // the catch block
    outcome := Raise(CatchAuthFailure(caught.value));
  }

  /** `requireRole(roles)(req, res, next)`: authenticated first, then authorised. */
  function RequireRole(roles: seq<string>, user: Option<JwtPayload>): (outcome: Outcome)
    ensures outcome.Next? <==> user.Some? && user.value.role.Some? && user.value.role.value in roles
    ensures user.None? ==> outcome == Raise(NewAppError(UNAUTHENTICATED_MESSAGE, 401, "UNAUTHORIZED"))
    ensures user.Some? && outcome.Raise? ==> outcome.error == NewAppError(UNAUTHORIZED_MESSAGE, 403, "FORBIDDEN")
  {
    if user.None? then Raise(NewAppError(UNAUTHENTICATED_MESSAGE, 401, "UNAUTHORIZED"))
    else if !(user.value.role.Some? && user.value.role.value in roles) then
      Raise(NewAppError(UNAUTHORIZED_MESSAGE, 403, "FORBIDDEN"))
    else Next
  }

  /** The user `optionalAuth` installs, if any: a token, a truthy secret and a successful verification. */
  function OptionalUser(header: Option<string>, secret: Option<string>, verify: Verifier): (user: Option<JwtPayload>)
    // it accepts exactly the requests `authenticateToken` accepts, with the same claims
    ensures user.Some? <==> Authenticate(header, secret, verify).Ok?
    ensures user.Some? ==> user.value == Authenticate(header, secret, verify).value
  {
    var token := ExtractToken(header);
    if token.Some? && Truthy(secret) then
      match verify(token.value, secret.value)
      case Verified(payload) => Some(payload)
      case Rejected(_) => None
    else None
  }

  /** `optionalAuth(req, res, next)`: never fails; every token error is swallowed. */
  method OptionalAuth(req: Request, secret: Option<string>, verify: Verifier) returns (outcome: Outcome)
    modifies req
    ensures outcome == Next
    ensures req.user == (if OptionalUser(req.authorization, secret, verify).Some?
                         then OptionalUser(req.authorization, secret, verify) else old(req.user))
  {
    var token := ExtractToken(req.authorization);
    if token.Some? {
      // try { ... } catch { /* ignored */ }
      if Truthy(secret) {
        var decoded := verify(token.value, secret.value);
        if decoded.Verified? {
          req.user := Some(decoded.payload);
        }
      }
    }
    outcome := Next;
  }
}
