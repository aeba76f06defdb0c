/** backend/src/routes/auth.ts: the mock login and the profile handler. */
module AuthRoutes {
  import opened Wrappers
  import opened Http
  import opened ErrorHandler
  import opened Auth

  const ADMIN_EMAIL: string := "admin@maplestory.com"
  const ADMIN_PASSWORD: string := "admin123"
  const MOCK_TOKEN: string := "mock-jwt-token"
  const MISSING_CREDENTIALS_MESSAGE: string := "Email và password là bắt buộc"
  const INVALID_CREDENTIALS_MESSAGE: string := "Thông tin đăng nhập không chính xác"

  /** The string fields of the login request body; either may be absent. */
  datatype LoginBody = LoginBody(email: Option<string>, password: Option<string>)

  /** The `user` object of a login or profile response. */
  datatype UserView = UserView(id: string, email: string, username: string, role: string)

  /** `LoginResponse` (types/index.ts). */
  datatype LoginData = LoginData(token: string, user: UserView)

  const ADMIN_USER: UserView := UserView("1", ADMIN_EMAIL, "admin", "admin")

  function UserJson(u: UserView): Json {
    JObj(map["id" := JStr(u.id), "email" := JStr(u.email), "username" := JStr(u.username), "role" := JStr(u.role)])
  }

  function LoginJson(d: LoginData): Json {
    JObj(map["token" := JStr(d.token), "user" := UserJson(d.user)])
  }

  /** `mockLogin`: a presence check on both fields, then a comparison with one hard-coded pair. */
  function MockLogin(body: LoginBody): (r: Result<LoginData, AppError>)
    ensures r.Ok? <==> body == LoginBody(Some(ADMIN_EMAIL), Some(ADMIN_PASSWORD))
    ensures r.Ok? ==> r.value == LoginData(MOCK_TOKEN, ADMIN_USER) && r.value.user.role == "admin"
    // the presence check comes before any comparison
    ensures !Truthy(body.email) || !Truthy(body.password) ==>
      r == Err(NewAppError(MISSING_CREDENTIALS_MESSAGE, 400, "MISSING_CREDENTIALS"))
    ensures Truthy(body.email) && Truthy(body.password) && r.Err? ==>
      r.error == NewAppError(INVALID_CREDENTIALS_MESSAGE, 401, "INVALID_CREDENTIALS")
  {
    if !Truthy(body.email) || !Truthy(body.password) then
      Err(NewAppError(MISSING_CREDENTIALS_MESSAGE, 400, "MISSING_CREDENTIALS"))
    else if body.email.value == ADMIN_EMAIL && body.password.value == ADMIN_PASSWORD then
      Ok(LoginData(MOCK_TOKEN, ADMIN_USER))
    else
      Err(NewAppError(INVALID_CREDENTIALS_MESSAGE, 401, "INVALID_CREDENTIALS"))
  }

  /** The login handler as wrapped by `asyncHandler`: a success envelope, or the error passed on. */
  function LoginHandler(body: LoginBody, timestamp: string): (outcome: HandlerOutcome)
    ensures outcome.Responded? <==> MockLogin(body).Ok?
    ensures outcome.Responded? ==>
      outcome.response == SuccessResponse(LoginJson(LoginData(MOCK_TOKEN, ADMIN_USER)), timestamp)
    ensures outcome.Forwarded? ==> outcome.error == MockLogin(body).error && outcome.error.statusCode in {400, 401}
  {
    match MockLogin(body)
    case Ok(data) => Responded(SuccessResponse(LoginJson(data), timestamp))
    case Err(e) => Forwarded(e)
  }

  /** `req.user?.<claim>`: a claim of the authenticated user, `undefined` when there is none. */
  function Claim(user: Option<JwtPayload>, value: JwtPayload -> Option<string>): Option<string> {
    if user.None? then None else value(user.value)
  }

  /** `getProfile`: each field falls back on its own to the admin's when the claim is falsy. */
  function GetProfile(user: Option<JwtPayload>): (p: UserView)
    ensures p.username == "admin"
    ensures p.id == Or(Claim(user, (u: JwtPayload) => u.userId), "1")
    ensures p.email == Or(Claim(user, (u: JwtPayload) => u.email), ADMIN_EMAIL)
    ensures p.role == Or(Claim(user, (u: JwtPayload) => u.role), "admin")
    ensures p.id != "" && p.email != "" && p.role != ""
    ensures user.Some? && Truthy(user.value.role) ==> p.role == user.value.role.value
  {
    var id := if user.Some? then user.value.userId else None;
    var email := if user.Some? then user.value.email else None;
    var role := if user.Some? then user.value.role else None;
    UserView(Or(id, "1"), Or(email, ADMIN_EMAIL), "admin", Or(role, "admin"))
  }

  /** With no user, or a user whose claims are all absent or empty, the profile is the user the mock login returns. */
  lemma ProfileFallbackIsLoginUser()
    ensures GetProfile(None) == MockLogin(LoginBody(Some(ADMIN_EMAIL), Some(ADMIN_PASSWORD))).value.user
    ensures forall u: JwtPayload :: !Truthy(u.userId) && !Truthy(u.email) && !Truthy(u.role) ==>
      GetProfile(Some(u)) == ADMIN_USER
  {
  }

  /** `GET /profile`: `authenticateToken`, then `getProfile` on the user it installed. */
  method ProfileRoute(req: Request, secret: Option<string>, verify: Verifier, timestamp: string)
    returns (outcome: HandlerOutcome)
    modifies req
    ensures outcome.Forwarded? <==> Authenticate(req.authorization, secret, verify).Err?
    ensures outcome.Forwarded? ==> outcome.error == Authenticate(req.authorization, secret, verify).error
    ensures outcome.Responded? ==>
      var claims := Authenticate(req.authorization, secret, verify).value;
      outcome.response == SuccessResponse(UserJson(GetProfile(Some(claims))), timestamp)
    ensures req.user == (if Authenticate(req.authorization, secret, verify).Ok?
                         then Some(Authenticate(req.authorization, secret, verify).value)
                         else old(req.user))
  {
    var auth := AuthenticateToken(req, secret, verify);
    if auth.Raise? {
      return Forwarded(auth.error);
    }
    outcome := Responded(SuccessResponse(UserJson(GetProfile(req.user)), timestamp));
  }
}
