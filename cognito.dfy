/** The Cognito-facing authentication service (internals/auth/cognito.go):
    the translation of SDK exceptions into the service's own errors, the
    input checks each operation makes before calling Cognito, the sign-up
    attribute list, the hosted Google login URL and the outcome of the OAuth
    code exchange.  Every remote call is an input: the outcome Cognito (or
    the token endpoint) would produce. */
module Cognito {
  import opened Wrappers
  import opened GoStrings
  import opened Errors

  // --------------------------------------------------- exception mapping

  /** Whether errors.As finds one of the SDK exceptions handleCognitoError
      recognises anywhere along the chain. */
  predicate HasMappedException(e: Error)
  {
    e.As(KAws(UsernameExistsException)).Some? || e.As(KAws(UserNotFoundException)).Some?
    || e.As(KAws(UserNotConfirmedException)).Some? || e.As(KAws(NotAuthorizedException)).Some?
    || e.As(KAws(ExpiredCodeException)).Some? || e.As(KAws(CodeMismatchException)).Some?
    || e.As(KAws(TooManyRequestsException)).Some? || e.As(KAws(InvalidPasswordException)).Some?
    || e.As(KAws(InvalidParameterException)).Some?
  }

  /** The service's own authentication error kinds. */
  predicate IsAuthError(e: Error)
  {
    e.UserExists? || e.InvalidCredentials? || e.UserNotConfirmed? || e.UserNotFound?
    || e.InvalidPassword? || e.CodeExpired? || e.InvalidCode? || e.TooManyRequests?
    || e.InvalidParameter?
  }

  /** handleCognitoError: the first recognised exception, in the order above,
      anywhere on the unwrap chain decides the translated error; an error
      with none of them is passed through unchanged. */
  function HandleCognitoError(err: Option<Error>, email: string): (r: Option<Error>)
    ensures err.None? <==> r.None?
    ensures err.Some? && !HasMappedException(err.value) ==> r == err
    ensures err.Some? && HasMappedException(err.value) ==> r.Some? && IsAuthError(r.value)
    ensures err.Some? && HasMappedException(err.value) ==>
              (r.value.UserExists? || r.value.UserNotFound? || r.value.UserNotConfirmed?) ==> r.value.email == email
  {
    if err.None? then None
    else
      var e := err.value;
      if e.As(KAws(UsernameExistsException)).Some? then
        Some(UserExists(email))
      else if e.As(KAws(UserNotFoundException)).Some? then
        Some(UserNotFound(email))
      else if e.As(KAws(UserNotConfirmedException)).Some? then
        Some(UserNotConfirmed(email))
      else if e.As(KAws(NotAuthorizedException)).Some? then
        Some(InvalidCredentials)
      else if e.As(KAws(ExpiredCodeException)).Some? then
        Some(CodeExpired)
      else if e.As(KAws(CodeMismatchException)).Some? then
        Some(InvalidCode)
      else if e.As(KAws(TooManyRequestsException)).Some? then
        Some(TooManyRequests)
      else if e.As(KAws(InvalidPasswordException)).Some? then
        Some(InvalidPassword(e.As(KAws(InvalidPasswordException)).value.message))
      else if e.As(KAws(InvalidParameterException)).Some? then
        Some(InvalidParameter("", e.As(KAws(InvalidParameterException)).value.message))
      else err
  }

  /** An error of the service's own kinds holds no SDK exception. */
  lemma AuthErrorHasNoException(e: Error)
    requires IsAuthError(e)
    ensures !HasMappedException(e)
  {
    forall x: AwsException
      ensures e.As(KAws(x)).None?
    {
      assert !e.Aws? && e.Unwrap().None?;
    }
  }

  /** Translating twice is translating once: the translated errors hold no
      SDK exception, and untranslated errors are passed through. */
  lemma HandleCognitoErrorIdempotent(err: Option<Error>, email: string)
    ensures HandleCognitoError(HandleCognitoError(err, email), email) == HandleCognitoError(err, email)
  {
    var r := HandleCognitoError(err, email);
    if err.Some? && HasMappedException(err.value) {
      AuthErrorHasNoException(r.value);
    }
  }

  /** The order matters: an error holding both a UsernameExists and a
      UserNotFound exception is reported as an existing user. */
  lemma UsernameExistsFirst(err: Error, email: string)
    requires err.As(KAws(UsernameExistsException)).Some?
    ensures HandleCognitoError(Some(err), email) == Some(UserExists(email))
  {
  }

  /** The translation of each recognised exception raised on its own. */
  lemma TranslateException(x: AwsException, m: string, email: string)
    ensures x == UsernameExistsException ==> HandleCognitoError(Some(Aws(x, m)), email) == Some(UserExists(email))
    ensures x == UserNotFoundException ==> HandleCognitoError(Some(Aws(x, m)), email) == Some(UserNotFound(email))
    ensures x == UserNotConfirmedException ==> HandleCognitoError(Some(Aws(x, m)), email) == Some(UserNotConfirmed(email))
    ensures x == NotAuthorizedException ==> HandleCognitoError(Some(Aws(x, m)), email) == Some(InvalidCredentials)
    ensures x == ExpiredCodeException ==> HandleCognitoError(Some(Aws(x, m)), email) == Some(CodeExpired)
    ensures x == CodeMismatchException ==> HandleCognitoError(Some(Aws(x, m)), email) == Some(InvalidCode)
    ensures x == TooManyRequestsException ==> HandleCognitoError(Some(Aws(x, m)), email) == Some(TooManyRequests)
    ensures x == InvalidPasswordException ==> HandleCognitoError(Some(Aws(x, m)), email) == Some(InvalidPassword(m))
    ensures x == InvalidParameterException ==> HandleCognitoError(Some(Aws(x, m)), email) == Some(InvalidParameter("", m))
    ensures x.OtherAwsException? ==> HandleCognitoError(Some(Aws(x, m)), email) == Some(Aws(x, m))
  {
    AsOfAws(x, m, KAws(UsernameExistsException));
    AsOfAws(x, m, KAws(UserNotFoundException));
    AsOfAws(x, m, KAws(UserNotConfirmedException));
    AsOfAws(x, m, KAws(NotAuthorizedException));
    AsOfAws(x, m, KAws(ExpiredCodeException));
    AsOfAws(x, m, KAws(CodeMismatchException));
    AsOfAws(x, m, KAws(TooManyRequestsException));
    AsOfAws(x, m, KAws(InvalidPasswordException));
    AsOfAws(x, m, KAws(InvalidParameterException));
  }

  // ------------------------------------------------------- input checks

  datatype SignupInput = SignupInput(email: string, password: string, phone: string, role: string)
  datatype ConfirmInput = ConfirmInput(email: string, code: string)
  datatype LoginInput = LoginInput(email: string, password: string)
  datatype ResetPasswordInput = ResetPasswordInput(email: string, code: string, newPassword: string)

  function SignupCheck(input: SignupInput): Option<Error>
  {
    if input.email == "" || input.password == "" || input.role == "" then
      Some(InvalidParameter("input", "email, password, and role are required"))
    else None
  }

  function ConfirmCheck(input: ConfirmInput): Option<Error>
  {
    if input.email == "" || input.code == "" then
      Some(InvalidParameter("input", "email and confirmation code are required"))
    else None
  }

  function LoginCheck(input: LoginInput): Option<Error>
  {
    if input.email == "" || input.password == "" then
      Some(InvalidParameter("input", "email and password are required"))
    else None
  }

  /** The check of ForgotPassword and of ResendConfirmationCode. */
  function EmailCheck(email: string): Option<Error>
  {
    if email == "" then Some(InvalidParameter("email", "email is required")) else None
  }

  function ResetPasswordCheck(input: ResetPasswordInput): Option<Error>
  {
    if input.email == "" || input.code == "" || input.newPassword == "" then
      Some(InvalidParameter("input", "email, confirmation code, and new password are required"))
    else None
  }

  /** A remote call: the value Cognito returns, or the error it raises. */
  function CallCognito<T>(check: Option<Error>, remote: Result<T, Error>, email: string): (r: Result<T, Error>)
    ensures check.Some? ==> r == Failure(check.value)
    ensures check.None? && remote.Ok? ==> r == remote
    ensures check.None? && remote.Failure? ==>
              r.Failure? && Some(r.error) == HandleCognitoError(Some(remote.error), email)
  {
    if check.Some? then Failure(check.value)
    else if remote.Ok? then remote
    else Failure(HandleCognitoError(Some(remote.error), email).value)
  }

  /** Signup returns the new user's sub. */
  function Signup(input: SignupInput, remote: Result<string, Error>): (r: Result<string, Error>)
    ensures input.email == "" || input.password == "" || input.role == "" ==>
              r == Failure(InvalidParameter("input", "email, password, and role are required"))
    ensures r.Ok? ==> input.email != "" && input.password != "" && input.role != "" && r == remote
  {
    CallCognito(SignupCheck(input), remote, input.email)
  }

  function Confirm(input: ConfirmInput, remote: Result<(), Error>): (r: Result<(), Error>)
    ensures input.email == "" || input.code == "" ==>
              r == Failure(InvalidParameter("input", "email and confirmation code are required"))
    ensures r.Ok? <==> input.email != "" && input.code != "" && remote.Ok?
  {
    CallCognito(ConfirmCheck(input), remote, input.email)
  }

  /** Login returns the id token. */
  function Login(input: LoginInput, remote: Result<string, Error>): (r: Result<string, Error>)
    ensures input.email == "" || input.password == "" ==>
              r == Failure(InvalidParameter("input", "email and password are required"))
    ensures r.Ok? <==> input.email != "" && input.password != "" && remote.Ok?
  {
    CallCognito(LoginCheck(input), remote, input.email)
  }

  function ForgotPassword(email: string, remote: Result<(), Error>): (r: Result<(), Error>)
    ensures email == "" ==> r == Failure(InvalidParameter("email", "email is required"))
    ensures r.Ok? <==> email != "" && remote.Ok?
  {
    CallCognito(EmailCheck(email), remote, email)
  }

  function ResetPassword(input: ResetPasswordInput, remote: Result<(), Error>): (r: Result<(), Error>)
    ensures input.email == "" || input.code == "" || input.newPassword == "" ==>
              r == Failure(InvalidParameter("input", "email, confirmation code, and new password are required"))
    ensures r.Ok? <==> input.email != "" && input.code != "" && input.newPassword != "" && remote.Ok?
  {
    CallCognito(ResetPasswordCheck(input), remote, input.email)
  }

  function ResendConfirmationCode(email: string, remote: Result<(), Error>): (r: Result<(), Error>)
    ensures email == "" ==> r == Failure(InvalidParameter("email", "email is required"))
    ensures r.Ok? <==> email != "" && remote.Ok?
  {
    CallCognito(EmailCheck(email), remote, email)
  }

  /** A failed input check makes the outcome independent of Cognito: no
      remote call is needed to know the answer. */
  lemma CheckBeforeRemote(input: SignupInput, remote1: Result<string, Error>, remote2: Result<string, Error>)
    requires SignupCheck(input).Some?
    ensures Signup(input, remote1) == Signup(input, remote2)
  {
  }

  // -------------------------------------------------- sign-up attributes

  /** The user attributes Signup sends: email, then custom:role, then
      phone_number only when a phone was given. */
  function SignupAttributes(input: SignupInput): (r: seq<(string, string)>)
    ensures |r| == (if input.phone != "" then 3 else 2)
    ensures r[0] == ("email", input.email) && r[1] == ("custom:role", input.role)
    ensures input.phone != "" ==> r[2] == ("phone_number", input.phone)
  {
    var attrs := [("email", input.email), ("custom:role", input.role)];
    if input.phone != "" then attrs + [("phone_number", input.phone)] else attrs
  }

  // ------------------------------------------------------- Google login

  datatype Config = Config(cognitoDomain: string, clientId: string, redirectUri: string)
  {
    predicate Complete() { cognitoDomain != "" && clientId != "" && redirectUri != "" }
  }

  /** GetGoogleLoginURL: "" when the configuration is incomplete. */
  function GoogleLoginURL(cfg: Config): (r: string)
    ensures r == "" <==> !cfg.Complete()
    ensures cfg.Complete() ==> HasPrefix(r, cfg.cognitoDomain + "/oauth2/authorize?response_type=code&client_id=")
  {
    if !cfg.Complete() then ""
    else
      var prefix := cfg.cognitoDomain + "/oauth2/authorize?response_type=code&client_id=";
      var r := prefix + cfg.clientId + "&redirect_uri=" + cfg.redirectUri
               + "&identity_provider=Google&scope=openid+email+profile";
      assert r[..|prefix|] == prefix;
      r
  }

  /** What the token endpoint answered: a transport failure, or a status with
      the decoded body (None when the body is not valid JSON). */
  datatype TokenReply = TransportFailure | Reply(status: int, body: Option<TokenBody>)
  datatype TokenBody = TokenBody(idToken: string, error: string, errorDescription: string)

  /** ExchangeGoogleCodeForToken. */
  function ExchangeGoogleCode(code: string, cfg: Config, reply: TokenReply): (r: Result<string, Error>)
    ensures code == "" ==> r == Failure(InvalidParameter("code", "authorization code is required"))
    ensures code != "" && !cfg.Complete() ==> r.Failure? && r.error.InvalidParameter? && r.error.parameter == "config"
    ensures r.Ok? <==> (code != "" && cfg.Complete() && reply.Reply? && reply.status == 200
                        && reply.body.Some? && reply.body.value.error == "" && reply.body.value.idToken != "")
    ensures r.Ok? ==> r.value == reply.body.value.idToken
    ensures code != "" && cfg.Complete() && reply.Reply? && reply.status == 400 ==>
              r == Failure(InvalidParameter("authorization_code", "invalid or expired authorization code"))
    ensures code != "" && cfg.Complete() && reply.Reply? && reply.status == 401 ==> r == Failure(InvalidCredentials)
    ensures code != "" && cfg.Complete() && reply.Reply? && reply.status == 200 && reply.body.Some?
            && reply.body.value.error != "" ==>
              r == Failure(InvalidParameter("oauth", reply.body.value.errorDescription))
  {
    if code == "" then Failure(InvalidParameter("code", "authorization code is required"))
    else if !cfg.Complete() then
      Failure(InvalidParameter("config", "missing Cognito domain, client ID, or redirect URI configuration"))
    else
      match reply
      case TransportFailure => Failure(Plain("failed to communicate with authentication service"))
      case Reply(status, body) =>
        if status != 200 then
          if status == 400 then Failure(InvalidParameter("authorization_code", "invalid or expired authorization code"))
          else if status == 401 then Failure(InvalidCredentials)
          else Failure(Plain("authentication service error"))
        else if body.None? then Failure(Plain("invalid response from authentication service"))
        else if body.value.error != "" then Failure(InvalidParameter("oauth", body.value.errorDescription))
        else if body.value.idToken == "" then Failure(Plain("authentication service did not return a valid token"))
        else Ok(body.value.idToken)
  }
}
