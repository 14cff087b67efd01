/** The error values the service passes around: the repository error kinds of
    `internals/db`, the authentication error kinds of `internals/auth`, the
    Cognito SDK exceptions they are translated from, and plain and wrapped
    errors.  `errors.As` is a first-match search over the unwrap chain. */
module Errors {
  import opened Wrappers
  import opened GoStrings

  /** The Cognito SDK exception types that the authentication service tells apart. */
  datatype AwsException =
    | UsernameExistsException
    | UserNotFoundException
    | UserNotConfirmedException
    | NotAuthorizedException
    | ExpiredCodeException
    | CodeMismatchException
    | TooManyRequestsException
    | InvalidPasswordException
    | InvalidParameterException
    | OtherAwsException(name: string)

  datatype Error =
      // repository errors (internals/db/db_errors.go)
    | NotFound(resource: string, id: string)
    | AlreadyExists(resource: string, field: string, value: string)
    | Validation(field: string, message: string)
    | Authorization(action: string, resource: string, userId: string)
    | Database(operation: string, table: string, cause: Error)
      // authentication errors (internals/auth/auth_errors.go)
    | UserExists(email: string)
    | InvalidCredentials
    | UserNotConfirmed(email: string)
    | UserNotFound(email: string)
    | InvalidPassword(message: string)
    | CodeExpired
    | InvalidCode
    | TooManyRequests
    | InvalidParameter(parameter: string, message: string)
      // an exception raised by the Cognito SDK, with its ErrorMessage()
    | Aws(exception: AwsException, message: string)
      // errors.New, or a driver error, identified only by its text
    | Plain(text: string)
      // fmt.Errorf with a %w verb: the text before the wrapped error
    | Wrapped(prefix: string, cause: Error)
  {
    /** The text `Error()` returns. */
    function Message(): string
    {
      match this
      case NotFound(resource, id) =>
        if id != "" then resource + " with ID '" + id + "' not found" else resource + " not found"
      case AlreadyExists(resource, field, value) =>
        if field != "" && value != "" then resource + " with " + field + " '" + value + "' already exists"
        else resource + " already exists"
      case Validation(field, message) =>
        if field != "" then "validation error for field '" + field + "': " + message
        else "validation error: " + message
      case Authorization(action, resource, userId) =>
        if action != "" && resource != "" then "user '" + userId + "' not authorized to " + action + " " + resource
        else "unauthorized access"
      case Database(operation, table, cause) =>
        if operation != "" && table != "" then "database error during " + operation + " on " + table + ": " + cause.Message()
        else "database error: " + cause.Message()
      case UserExists(email) => "user with email '" + email + "' already exists"
      case InvalidCredentials => "invalid email or password"
      case UserNotConfirmed(email) =>
        "user '" + email + "' is not confirmed. Please check your email for verification code"
      case UserNotFound(email) => "user with email '" + email + "' not found"
      case InvalidPassword(message) => "invalid password: " + message
      case CodeExpired => "verification code has expired"
      case InvalidCode => "invalid verification code"
      case TooManyRequests => "too many requests. Please try again later"
      case InvalidParameter(parameter, message) => "invalid parameter '" + parameter + "': " + message
      case Aws(_, message) => message
      case Plain(text) => text
      case Wrapped(prefix, cause) => prefix + cause.Message()
    }

    /** errors.Unwrap: only DatabaseError and %w-wrapped errors have a cause. */
    function Unwrap(): (r: Option<Error>)
      ensures r.Some? <==> this.Database? || this.Wrapped?
      ensures r.Some? ==> r.value == this.cause
    {
      if this.Database? || this.Wrapped? then Some(cause) else None
    }

    /** The error followed by everything reachable through Unwrap. */
    function Chain(): (c: seq<Error>)
      ensures |c| >= 1 && c[0] == this
    {
      match Unwrap()
      case None => [this]
      case Some(inner) => [this] + inner.Chain()
    }

    /** The type an `errors.As` target names. */
    predicate Is(k: Kind)
    {
      match k
      case KNotFound => this.NotFound?
      case KAlreadyExists => this.AlreadyExists?
      case KValidation => this.Validation?
      case KAuthorization => this.Authorization?
      case KDatabase => this.Database?
      case KUserExists => this.UserExists?
      case KInvalidCredentials => this.InvalidCredentials?
      case KUserNotConfirmed => this.UserNotConfirmed?
      case KUserNotFound => this.UserNotFound?
      case KInvalidPassword => this.InvalidPassword?
      case KCodeExpired => this.CodeExpired?
      case KInvalidCode => this.InvalidCode?
      case KTooManyRequests => this.TooManyRequests?
      case KInvalidParameter => this.InvalidParameter?
      case KAws(e) => this.Aws? && this.exception == e
    }

    /** errors.As: the first error along the unwrap chain of kind k. */
    function As(k: Kind): (r: Option<Error>)
      ensures r.Some? ==> r.value.Is(k) && r.value in Chain()
    {
      if Is(k) then Some(this)
      else
        match Unwrap()
        case None => None
        case Some(inner) => inner.As(k)
    }
  }

  datatype Kind =
    | KNotFound | KAlreadyExists | KValidation | KAuthorization | KDatabase
    | KUserExists | KInvalidCredentials | KUserNotConfirmed | KUserNotFound
    | KInvalidPassword | KCodeExpired | KInvalidCode | KTooManyRequests | KInvalidParameter
    | KAws(exception: AwsException)

  /** errors.As applied to a possibly nil error. */
  function AsKind(err: Option<Error>, k: Kind): (r: Option<Error>)
    ensures err.None? ==> r.None?
    ensures err.Some? ==> r == err.value.As(k)
  {
    if err.None? then None else err.value.As(k)
  }

  /** The position of the first error of kind k in `chain`, or |chain|. */
  function FirstOfKind(chain: seq<Error>, k: Kind): (i: nat)
    ensures i <= |chain|
    ensures forall j :: 0 <= j < i ==> !chain[j].Is(k)
    ensures i < |chain| ==> chain[i].Is(k)
  {
    if chain == [] || chain[0].Is(k) then 0
    else
      var i := FirstOfKind(chain[1..], k);
      assert forall j :: 1 <= j < i + 1 ==> chain[j] == chain[1..][j - 1];
      i + 1
  }

  /** errors.As answers with the first error of kind k along the chain, or
      with nothing when no error on the chain has the kind. */
  ghost predicate AsIsFirstMatch(e: Error, k: Kind)
  {
    var c := e.Chain();
    var i := FirstOfKind(c, k);
    e.As(k) == if i < |c| then Some(c[i]) else None
  }

  /** errors.As finds the FIRST error of the kind along the chain, and finds
      nothing exactly when no error on the chain has the kind. */
  lemma {:induction false} AsFirstMatch(e: Error, k: Kind)
    ensures AsIsFirstMatch(e, k)
    ensures e.As(k).None? <==> FirstOfKind(e.Chain(), k) == |e.Chain()|
  {
    if e.Is(k) {
      AsFirstMatchHere(e, k);
    } else if e.Unwrap().Some? {
      AsFirstMatch(e.cause, k);
      AsFirstMatchStep(e, k);
    } else {
      AsFirstMatchBare(e, k);
    }
  }

  lemma AsFirstMatchHere(e: Error, k: Kind)
    requires e.Is(k)
    ensures AsIsFirstMatch(e, k)
  {
    assert e.Chain()[0] == e;
  }

  lemma AsFirstMatchBare(e: Error, k: Kind)
    requires !e.Is(k) && e.Unwrap().None?
    ensures AsIsFirstMatch(e, k)
  {
    assert e.Chain() == [e];
  }

  lemma AsFirstMatchStep(e: Error, k: Kind)
    requires !e.Is(k) && e.Unwrap().Some? && AsIsFirstMatch(e.cause, k)
    ensures AsIsFirstMatch(e, k)
  {
    var inner := e.cause;
    var c, d := e.Chain(), inner.Chain();
    assert c == [e] + d;
    FirstOfKindSkip(e, d, k);
    var i := FirstOfKind(d, k);
    assert FirstOfKind(c, k) == i + 1;
    assert i < |d| ==> c[i + 1] == d[i];
    assert e.As(k) == inner.As(k);
  }

  /** An error not of kind k in front of a chain moves the first match one
      place on. */
  lemma FirstOfKindSkip(e: Error, chain: seq<Error>, k: Kind)
    requires !e.Is(k)
    ensures FirstOfKind([e] + chain, k) == 1 + FirstOfKind(chain, k)
  {
    assert ([e] + chain)[1..] == chain;
  }

  /** A bare SDK exception has exactly the kind of its exception type. */
  lemma AsOfAws(x: AwsException, m: string, k: Kind)
    ensures Aws(x, m).As(k) == if k == KAws(x) then Some(Aws(x, m)) else None
  {
  }

  /** A %w wrapper has no kind of its own, so errors.As looks straight through it. */
  lemma {:induction false} AsThroughWrapper(prefix: string, inner: Error, k: Kind)
    ensures Wrapped(prefix, inner).As(k) == inner.As(k)
  {
  }

  lemma {:induction false} AsThroughDatabase(operation: string, table: string, inner: Error, k: Kind)
    requires k != KDatabase
    ensures Database(operation, table, inner).As(k) == inner.As(k)
  {
  }

  // ------------------------------------------------- predefined error values

  const ErrItemNotFound := NotFound("item", "")
  const ErrUserNotFound := NotFound("user", "")
  const ErrPostNotFound := NotFound("post", "")
  const ErrImageNotFound := NotFound("image", "")
  const ErrUserAlreadyExists := AlreadyExists("user", "", "")
  const ErrUsernameExists := AlreadyExists("user", "username", "")
  const ErrEmailExists := AlreadyExists("user", "email", "")
  const ErrPostAlreadyExists := AlreadyExists("post", "", "")
  const ErrInvalidProfileType := Validation("profile_type", "invalid profile type")
  const ErrUserIDMissing := Validation("user_id", "user ID is missing from the profile")
  const ErrContentEmpty := Validation("content", "content cannot be empty")
  const ErrInvalidLimit := Validation("limit", "limit must be greater than 0")
  const ErrInvalidOffset := Validation("offset", "offset cannot be negative")
  const ErrUnauthorized := Authorization("", "", "")
  const ErrRoleMismatch := Authorization("access", "resource", "")

  // the deprecated aliases
  const ITEM_NOT_FOUND := ErrItemNotFound
  const ITEM_ALREADY_EXISTS := AlreadyExists("item", "", "")
  const USER_NOT_FOUND := ErrUserNotFound
  const USERNAME_ALREADY_EXISTS := ErrUsernameExists
  const EMAIL_ALREADY_EXISTS := ErrEmailExists
  const INVALID_PROFILE_TYPE := ErrInvalidProfileType
  const USER_ID_MISSING := ErrUserIDMissing
  const ROLE_MISMATCH := ErrRoleMismatch

  /** The deprecated names are the same values as their replacements, and
      the predefined values carry no id or value, so they take the short form
      of their kind's message. */
  lemma PredefinedValues()
    ensures ITEM_NOT_FOUND == ErrItemNotFound && USER_NOT_FOUND == ErrUserNotFound
    ensures USERNAME_ALREADY_EXISTS == ErrUsernameExists && EMAIL_ALREADY_EXISTS == ErrEmailExists
    ensures INVALID_PROFILE_TYPE == ErrInvalidProfileType && USER_ID_MISSING == ErrUserIDMissing
    ensures ROLE_MISMATCH == ErrRoleMismatch
    ensures ErrUserNotFound.Message() == "user" + " not found"
    ensures ErrUsernameExists.Message() == "user" + " already exists"
    ensures ErrUnauthorized.Message() == "unauthorized access"
  {
  }

  /** The long and short forms of the messages: the id, field/value and
      action/resource parts appear exactly when they are present. */
  lemma MessageForms(resource: string, id: string, field: string, value: string,
                     action: string, userId: string)
    ensures id != "" ==> NotFound(resource, id).Message() == resource + " with ID '" + id + "' not found"
    ensures NotFound(resource, "").Message() == resource + " not found"
    ensures (field == "" || value == "") ==>
              AlreadyExists(resource, field, value).Message() == resource + " already exists"
    ensures (action == "" || resource == "") ==>
              Authorization(action, resource, userId).Message() == "unauthorized access"
  {
  }

  /** IsUniqueConstraintError: the lower-cased error text mentions both
      "unique" and the lower-cased field name. */
  predicate IsUniqueConstraintError(err: Option<Error>, field: string)
  {
    err.Some? && Contains(ToLower(err.value.Message()), "unique")
    && Contains(ToLower(err.value.Message()), ToLower(field))
  }

  /** A nil error is never a unique violation, and the field is compared
      without regard to ASCII case. */
  lemma UniqueConstraintCaseInsensitive(err: Option<Error>, field: string)
    ensures !IsUniqueConstraintError(None, field)
    ensures IsUniqueConstraintError(err, field) == IsUniqueConstraintError(err, ToLower(field))
  {
    ToLowerIdempotent(field);
  }

  /** What QueryRow(...).Scan gives: a row, sql.ErrNoRows, or another error. */
  datatype RowResult<T> = Row(value: T) | NoRows | RowFailed(error: Error)

  /** The failures a transaction around one INSERT can meet: at BEGIN, at
      the INSERT and at COMMIT. */
  datatype InsertFaults = InsertFaults(begin: Option<Error>, insert: Option<Error>, commit: Option<Error>)
  {
    predicate Clean() { begin.None? && insert.None? && commit.None? }
  }

  /** The failures a transaction around one UPDATE or DELETE can meet: at
      BEGIN, at the statement, at reading its rows affected and at COMMIT. */
  datatype StatementFaults = StatementFaults(begin: Option<Error>, exec: Option<Error>, affected: Option<Error>,
                               commit: Option<Error>)
  {
    predicate Clean() { begin.None? && exec.None? && affected.None? && commit.None? }
  }
}
