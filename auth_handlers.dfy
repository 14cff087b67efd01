/** The authentication endpoints (internals/handlers/auth_handlers.go): the
    signup role check, and the ordered translation of the service's errors
    into status codes for each endpoint.  A request body that fails to bind
    is None; every call to Cognito or the database is an input holding the
    outcome that call would have. */
module AuthHandlers {
  import opened Wrappers
  import opened Errors
  import opened ErrorHandler
  import opened Cognito
  import opened ModelTypes
  import opened Http

  /** One case of an endpoint's error switch: the kind errors.As looks for,
      and the response written when it is found. */
  datatype Rule = Rule(kind: Kind, status: int, message: string)

  /** The error switch: the first rule whose kind is on the error's unwrap
      chain decides the response; when none is, the fallback is written. */
  function MapError(err: Error, rules: seq<Rule>, fallback: Response): (r: Response)
    ensures (forall i :: 0 <= i < |rules| ==> err.As(rules[i].kind).None?) ==> r == fallback
    ensures r == fallback || exists rule :: rule in rules && r == Response(rule.status, rule.message)
  {
    if rules == [] then fallback
    else if err.As(rules[0].kind).Some? then Response(rules[0].status, rules[0].message)
    else MapError(err, rules[1..], fallback)
  }

  /** A rule whose kind is present decides the response when every earlier
      rule's kind is absent. */
  lemma {:induction false} MapErrorPicks(err: Error, rules: seq<Rule>, fallback: Response, i: nat)
    requires i < |rules| && err.As(rules[i].kind).Some?
    requires forall j :: 0 <= j < i ==> err.As(rules[j].kind).None?
    ensures MapError(err, rules, fallback) == Response(rules[i].status, rules[i].message)
  {
    if i > 0 {
      assert err.As(rules[0].kind).None?;
      MapErrorPicks(err, rules[1..], fallback, i - 1);
    }
  }

  /** A status that neither the fallback nor any rule carries is never
      the answer. */
  lemma {:induction false} MapErrorAvoids(err: Error, rules: seq<Rule>, fallback: Response, s: int)
    requires fallback.status != s && forall i :: 0 <= i < |rules| ==> rules[i].status != s
    ensures MapError(err, rules, fallback).status != s
  {
    if rules != [] && err.As(rules[0].kind).None? {
      assert forall i :: 0 <= i < |rules[1..]| ==> rules[1..][i] == rules[i + 1];
      MapErrorAvoids(err, rules[1..], fallback, s);
    }
  }

  const Internal := Response(500, InternalServerError)
  const InvalidInput := Rule(KInvalidParameter, 400, "Invalid input provided")
  const Throttled := Rule(KTooManyRequests, 429, TooManyRequestsMessage)
  const NoSuchUser := Rule(KUserNotFound, 404, "User not found")
  const BadCode := Rule(KInvalidCode, 400, "Invalid verification code")
  const ExpiredCode := Rule(KCodeExpired, 400, "Verification code has expired")
  const WeakPassword := Rule(KInvalidPassword, 400, "Password does not meet requirements")

  const SignupRules := [Rule(KUserExists, 409, "User with this email already exists"), InvalidInput, WeakPassword, Throttled]
  const VerifyRules := [NoSuchUser, BadCode, ExpiredCode, InvalidInput, Throttled]
  const ForgotPasswordRules := [NoSuchUser, InvalidInput, Throttled]
  const ResetPasswordRules := [NoSuchUser, BadCode, ExpiredCode, WeakPassword, InvalidInput, Throttled]
  const LoginRules := [
    Rule(KInvalidCredentials, 401, "Invalid email or password"),
    Rule(KUserNotConfirmed, 403, "Account not verified. Please check your email for verification code"),
    Rule(KUserNotFound, 401, "Invalid email or password"),
    InvalidInput, Throttled]
  const ResendCodeRules := ForgotPasswordRules
  const GoogleRules := [Rule(KInvalidParameter, 400, "Invalid authentication code"),
                        Rule(KInvalidCredentials, 401, "Authentication failed")]

  /** What the signup endpoint did: its response, and the user record it
      asked the database to create (sub, email, role), if any. */
  datatype SignupOutcome = SignupOutcome(response: Response, created: Option<(string, string, string)>)

  predicate IsSignupRole(role: string) { role == "admin" || role == "recruiter" || role == "player" }

  /** POST /signup. */
  function SignupHandler(req: Option<SignupInput>, cognito: Result<string, Error>, createUser: Option<Error>)
    : (out: SignupOutcome)
    ensures req.None? ==> out == SignupOutcome(Response(400, InvalidRequestFormat), None)
    ensures req.Some? && !IsSignupRole(req.value.role) ==> out == SignupOutcome(Response(400, "Invalid role"), None)
    ensures out.created.Some? <==> req.Some? && IsSignupRole(req.value.role) && Signup(req.value, cognito).Ok?
    ensures out.created.Some? ==>
              out.created.value == (cognito.value, req.value.email, req.value.role)
    ensures out.response.status == 200 <==> out.created.Some? && createUser.None?
  {
    if req.None? then SignupOutcome(Response(400, InvalidRequestFormat), None)
    else if !IsSignupRole(req.value.role) then SignupOutcome(Response(400, "Invalid role"), None)
    else
      match Signup(req.value, cognito)
      case Failure(e) => SignupOutcome(MapError(e, SignupRules, Internal), None)
      case Ok(sub) =>
        var created := Some((sub, req.value.email, req.value.role));
        if createUser.Some? then SignupOutcome(FromError(ToHTTPError(createUser)), created)
        else SignupOutcome(Response(200, "Signup successful. Please check your email/SMS for the verification code."), created)
  }

  /** The signup roles are exactly the names ParseRole accepts. */
  lemma SignupRolesAreRoles(role: string)
    ensures IsSignupRole(role) <==> ParseRole(role).Ok?
  {
  }

  /** An error status written by the signup endpoint is never 200. */
  lemma SignupFailureStatus(req: SignupInput, cognito: Result<string, Error>, createUser: Option<Error>)
    requires IsSignupRole(req.role) && Signup(req, cognito).Failure?
    ensures SignupHandler(Some(req), cognito, createUser).response.status in {400, 409, 429, 500}
  {
    var e := Signup(req, cognito).error;
    var r := MapError(e, SignupRules, Internal);
    if r != Internal {
      var rule :| rule in SignupRules && r == Response(rule.status, rule.message);
    }
  }

  /** POST /verify. */
  function VerifyHandler(req: Option<ConfirmInput>, cognito: Result<(), Error>): (r: Response)
    ensures req.None? ==> r == Response(400, InvalidRequestFormat)
    ensures r.status == 200 <==> req.Some? && Confirm(req.value, cognito).Ok?
  {
    if req.None? then Response(400, InvalidRequestFormat)
    else
      match Confirm(req.value, cognito)
      case Failure(e) => MapError(e, VerifyRules, Internal)
      case Ok(_) => Response(200, "Account verified. You can now log in.")
  }

  /** POST /forgot-password. */
  function ForgotPasswordHandler(email: Option<string>, cognito: Result<(), Error>): (r: Response)
    ensures email.None? ==> r == Response(400, InvalidRequestFormat)
    ensures r.status == 200 <==> email.Some? && ForgotPassword(email.value, cognito).Ok?
  {
    if email.None? then Response(400, InvalidRequestFormat)
    else
      match ForgotPassword(email.value, cognito)
      case Failure(e) => MapError(e, ForgotPasswordRules, Internal)
      case Ok(_) => Response(200, "Password reset link sent to your email.")
  }

  /** POST /reset-password. */
  function ResetPasswordHandler(req: Option<ResetPasswordInput>, cognito: Result<(), Error>): (r: Response)
    ensures req.None? ==> r == Response(400, InvalidRequestFormat)
    ensures r.status == 200 <==> req.Some? && ResetPassword(req.value, cognito).Ok?
  {
    if req.None? then Response(400, InvalidRequestFormat)
    else
      match ResetPassword(req.value, cognito)
      case Failure(e) => MapError(e, ResetPasswordRules, Internal)
      case Ok(_) => Response(200, "Password reset successful.")
  }

  /** POST /login: the response carries the id token. */
  function LoginHandler(req: Option<LoginInput>, cognito: Result<string, Error>): (r: Response)
    ensures req.None? ==> r == Response(400, InvalidRequestFormat)
    ensures r.status == 200 <==> req.Some? && Login(req.value, cognito).Ok?
    ensures r.status == 200 ==> r.message == cognito.value
  {
    if req.None? then Response(400, InvalidRequestFormat)
    else
      match Login(req.value, cognito)
      case Failure(e) => MapError(e, LoginRules, Internal)
      case Ok(token) => Response(200, token)
  }

  /** POST /resend-code. */
  function ResendCodeHandler(email: Option<string>, cognito: Result<(), Error>): (r: Response)
    ensures email.None? ==> r == Response(400, InvalidRequestFormat)
    ensures r.status == 200 <==> email.Some? && ResendConfirmationCode(email.value, cognito).Ok?
  {
    if email.None? then Response(400, InvalidRequestFormat)
    else
      match ResendConfirmationCode(email.value, cognito)
      case Failure(e) => MapError(e, ResendCodeRules, Internal)
      case Ok(_) => Response(200, "Verification code resent. Please check your email.")
  }

  /** The response to an SDK exception raised on its own: translate it, then
      apply the endpoint's rule i, which must be the first to match. */
  lemma LoginAnswer(req: LoginInput, x: AwsException, m: string, e: Error, i: nat)
    requires req.email != "" && req.password != ""
    requires HandleCognitoError(Some(Aws(x, m)), req.email) == Some(e)
    requires i < |LoginRules| && e.As(LoginRules[i].kind).Some?
    requires forall j :: 0 <= j < i ==> e.As(LoginRules[j].kind).None?
    ensures LoginHandler(Some(req), Failure(Aws(x, m))) == Response(LoginRules[i].status, LoginRules[i].message)
  {
    MapErrorPicks(e, LoginRules, Internal, i);
  }

  lemma VerifyAnswer(req: ConfirmInput, x: AwsException, m: string, e: Error, i: nat)
    requires req.email != "" && req.code != ""
    requires HandleCognitoError(Some(Aws(x, m)), req.email) == Some(e)
    requires i < |VerifyRules| && e.As(VerifyRules[i].kind).Some?
    requires forall j :: 0 <= j < i ==> e.As(VerifyRules[j].kind).None?
    ensures VerifyHandler(Some(req), Failure(Aws(x, m))) == Response(VerifyRules[i].status, VerifyRules[i].message)
  {
    MapErrorPicks(e, VerifyRules, Internal, i);
  }

  /** A wrong password is a 401. */
  lemma LoginWrongPassword(req: LoginInput, m: string)
    requires req.email != "" && req.password != ""
    ensures LoginHandler(Some(req), Failure(Aws(NotAuthorizedException, m))) == Response(401, "Invalid email or password")
  {
    TranslateException(NotAuthorizedException, m, req.email);
    assert InvalidCredentials.As(KInvalidCredentials).Some?;
    LoginAnswer(req, NotAuthorizedException, m, InvalidCredentials, 0);
  }

  /** An unknown user is a 401 too. */
  lemma LoginUnknownUser(req: LoginInput, m: string)
    requires req.email != "" && req.password != ""
    ensures LoginHandler(Some(req), Failure(Aws(UserNotFoundException, m))) == Response(401, "Invalid email or password")
  {
    TranslateException(UserNotFoundException, m, req.email);
    var e := UserNotFound(req.email);
    assert e.As(KInvalidCredentials).None? && e.As(KUserNotConfirmed).None? && e.As(KUserNotFound).Some?;
    LoginAnswer(req, UserNotFoundException, m, e, 2);
  }

  /** Login does not tell a wrong password from an unknown user: both
      Cognito answers give the same response. */
  lemma LoginHidesUnknownUser(req: LoginInput, m1: string, m2: string)
    requires req.email != "" && req.password != ""
    ensures LoginHandler(Some(req), Failure(Aws(NotAuthorizedException, m1)))
            == LoginHandler(Some(req), Failure(Aws(UserNotFoundException, m2)))
  {
    LoginWrongPassword(req, m1);
    LoginUnknownUser(req, m2);
  }

  /** An unconfirmed account is refused with 403. */
  lemma LoginUnconfirmed(req: LoginInput, m: string)
    requires req.email != "" && req.password != ""
    ensures LoginHandler(Some(req), Failure(Aws(UserNotConfirmedException, m))).status == 403
  {
    TranslateException(UserNotConfirmedException, m, req.email);
    var e := UserNotConfirmed(req.email);
    assert e.As(KInvalidCredentials).None? && e.As(KUserNotConfirmed).Some?;
    LoginAnswer(req, UserNotConfirmedException, m, e, 1);
  }

  /** Verify: an unknown user is a 404. */
  lemma VerifyUnknownUser(req: ConfirmInput, m: string)
    requires req.email != "" && req.code != ""
    ensures VerifyHandler(Some(req), Failure(Aws(UserNotFoundException, m))) == Response(404, "User not found")
  {
    TranslateException(UserNotFoundException, m, req.email);
    assert UserNotFound(req.email).As(KUserNotFound).Some?;
    VerifyAnswer(req, UserNotFoundException, m, UserNotFound(req.email), 0);
  }

  /** Verify: a wrong code is a 400. */
  lemma VerifyWrongCode(req: ConfirmInput, m: string)
    requires req.email != "" && req.code != ""
    ensures VerifyHandler(Some(req), Failure(Aws(CodeMismatchException, m))) == Response(400, "Invalid verification code")
  {
    TranslateException(CodeMismatchException, m, req.email);
    assert InvalidCode.As(KUserNotFound).None? && InvalidCode.As(KInvalidCode).Some?;
    VerifyAnswer(req, CodeMismatchException, m, InvalidCode, 1);
  }

  /** Verify: an expired code is a 400. */
  lemma VerifyExpiredCode(req: ConfirmInput, m: string)
    requires req.email != "" && req.code != ""
    ensures VerifyHandler(Some(req), Failure(Aws(ExpiredCodeException, m))) == Response(400, "Verification code has expired")
  {
    TranslateException(ExpiredCodeException, m, req.email);
    assert CodeExpired.As(KUserNotFound).None? && CodeExpired.As(KInvalidCode).None?;
    assert CodeExpired.As(KCodeExpired).Some?;
    VerifyAnswer(req, ExpiredCodeException, m, CodeExpired, 2);
  }

  /** GET /auth/google/login. */
  function GoogleLoginURLHandler(cfg: Config): (r: Response)
    ensures r.status == 200 <==> cfg.Complete()
    ensures r.status == 200 ==> r.message == GoogleLoginURL(cfg)
  {
    var url := GoogleLoginURL(cfg);
    if url == "" then Response(500, "Google login URL not configured") else Response(200, url)
  }

  /** The claims of the id token that the callback reads. */
  datatype TokenClaims = TokenClaims(email: string, subject: string)

  datatype CallbackOutcome = CallbackOutcome(response: Response, created: Option<(string, string, Role)>)

  /** GET /auth/google/callback: exchange the code, read the token, and
      create a player record for an email the database does not know. */
  function GoogleCallbackHandler(code: string, cfg: Config, reply: TokenReply,
                                 claims: Result<TokenClaims, Error>, lookup: Option<Error>,
                                 createUser: Option<Error>): (out: CallbackOutcome)
    ensures code == "" ==> out == CallbackOutcome(Response(400, "Missing code in callback"), None)
    ensures out.created.Some? ==>
              ExchangeGoogleCode(code, cfg, reply).Ok? && claims.Ok? && IsNotFoundError(lookup)
              && out.created.value == (claims.value.subject, claims.value.email, PlayerRole)
    ensures out.response.status == 200 <==>
              code != "" && ExchangeGoogleCode(code, cfg, reply).Ok? && claims.Ok?
              && (lookup.None? || (IsNotFoundError(lookup) && createUser.None?))
    ensures out.response.status == 200 ==> out.response.message == ExchangeGoogleCode(code, cfg, reply).value
  {
    if code == "" then CallbackOutcome(Response(400, "Missing code in callback"), None)
    else
      match ExchangeGoogleCode(code, cfg, reply)
      case Failure(e) =>
        MapErrorAvoids(e, GoogleRules, Response(500, "Failed to complete Google authentication"), 200);
        CallbackOutcome(MapError(e, GoogleRules, Response(500, "Failed to complete Google authentication")), None)
      case Ok(idToken) => SignInGoogleUser(idToken, claims, lookup, createUser)
  }

  /** The callback once the code is exchanged: the token's claims name the
      user, who is created as a player on first sign-in. */
  function SignInGoogleUser(idToken: string, claims: Result<TokenClaims, Error>, lookup: Option<Error>,
                            createUser: Option<Error>): (out: CallbackOutcome)
    ensures out.created.Some? ==>
              claims.Ok? && IsNotFoundError(lookup)
              && out.created.value == (claims.value.subject, claims.value.email, PlayerRole)
    ensures out.response.status == 200 <==>
              claims.Ok? && (lookup.None? || (IsNotFoundError(lookup) && createUser.None?))
    ensures out.response.status == 200 ==> out.response.message == idToken
  {
    if claims.Failure? then CallbackOutcome(Response(500, "Failed to parse token"), None)
    else if lookup.Some? then
      if IsNotFoundError(lookup) then
        var created := Some((claims.value.subject, claims.value.email, PlayerRole));
        if createUser.Some? then CallbackOutcome(FromError(ToHTTPError(createUser)), created)
        else CallbackOutcome(Response(200, idToken), created)
      else CallbackOutcome(FromError(ToHTTPError(lookup)), None)
    else CallbackOutcome(Response(200, idToken), None)
  }
}
