/** The translation of repository errors into HTTP error responses
    (internals/db/error_handler.go). */
module ErrorHandler {
  import opened Wrappers
  import opened Errors

  datatype ErrorResponse = ErrorResponse(statusCode: int, code: string, message: string, field: string)

  const UnexpectedMessage := "An unexpected error occurred"
  const InternalMessage := "An internal error occurred"

  predicate IsNotFoundError(err: Option<Error>) { AsKind(err, KNotFound).Some? }
  predicate IsAlreadyExistsError(err: Option<Error>) { AsKind(err, KAlreadyExists).Some? }
  predicate IsValidationError(err: Option<Error>) { AsKind(err, KValidation).Some? }
  predicate IsAuthorizationError(err: Option<Error>) { AsKind(err, KAuthorization).Some? }
  predicate IsDatabaseError(err: Option<Error>) { AsKind(err, KDatabase).Some? }

  /** Each Is* predicate answers whether some error of its kind lies on the
      unwrap chain of a non-nil error. */
  lemma KindPredicatesSearchChain(err: Option<Error>)
    ensures IsNotFoundError(err) <==>
              err.Some? && FirstOfKind(err.value.Chain(), KNotFound) < |err.value.Chain()|
    ensures IsAlreadyExistsError(err) <==>
              err.Some? && FirstOfKind(err.value.Chain(), KAlreadyExists) < |err.value.Chain()|
    ensures IsValidationError(err) <==>
              err.Some? && FirstOfKind(err.value.Chain(), KValidation) < |err.value.Chain()|
    ensures IsAuthorizationError(err) <==>
              err.Some? && FirstOfKind(err.value.Chain(), KAuthorization) < |err.value.Chain()|
    ensures IsDatabaseError(err) <==>
              err.Some? && FirstOfKind(err.value.Chain(), KDatabase) < |err.value.Chain()|
  {
    if err.Some? {
      AsFirstMatch(err.value, KNotFound);
      AsFirstMatch(err.value, KAlreadyExists);
      AsFirstMatch(err.value, KValidation);
      AsFirstMatch(err.value, KAuthorization);
      AsFirstMatch(err.value, KDatabase);
    }
  }

  /** ToHTTPError: the kinds are tried in a fixed order, each over the whole
      unwrap chain; the first kind found decides the response. */
  function ToHTTPError(err: Option<Error>): (r: ErrorResponse)
    ensures r.statusCode in {400, 403, 404, 409, 500}
    ensures r.statusCode == 500 ==>
              r.code == "internal_error" && r.field == ""
              && (r.message == UnexpectedMessage || r.message == InternalMessage)
    ensures err.None? ==> r == ErrorResponse(500, "internal_error", UnexpectedMessage, "")
    ensures r.statusCode == 404 ==> r.code == "not_found" && r.message == err.value.Message()
    ensures r.statusCode == 403 ==> r.code == "forbidden" && r.message == err.value.Message()
  {
    if err.None? then ErrorResponse(500, "internal_error", UnexpectedMessage, "")
    else
      var e := err.value;
      match (e.As(KNotFound), e.As(KAlreadyExists), e.As(KValidation), e.As(KAuthorization), e.As(KDatabase))
      case (Some(_), _, _, _, _) => ErrorResponse(404, "not_found", e.Message(), "")
      case (None, Some(found), _, _, _) => ErrorResponse(409, "already_exists", e.Message(), found.field)
      case (None, None, Some(found), _, _) => ErrorResponse(400, "validation_error", found.message, found.field)
      case (None, None, None, Some(_), _) => ErrorResponse(403, "forbidden", e.Message(), "")
      case (None, None, None, None, Some(_)) => ErrorResponse(500, "internal_error", InternalMessage, "")
      case (None, None, None, None, None) => ErrorResponse(500, "internal_error", UnexpectedMessage, "")
  }

  /** Each Is* predicate agrees with the classification ToHTTPError makes,
      given that the earlier kinds in its order are absent. */
  lemma {:induction false} ClassificationAgrees(err: Option<Error>)
    ensures ToHTTPError(err).statusCode == 404 <==> IsNotFoundError(err)
    ensures ToHTTPError(err).statusCode == 409 <==> !IsNotFoundError(err) && IsAlreadyExistsError(err)
    ensures ToHTTPError(err).statusCode == 400 <==>
              !IsNotFoundError(err) && !IsAlreadyExistsError(err) && IsValidationError(err)
    ensures ToHTTPError(err).statusCode == 403 <==>
              !IsNotFoundError(err) && !IsAlreadyExistsError(err) && !IsValidationError(err)
              && IsAuthorizationError(err)
    ensures ToHTTPError(err).message == InternalMessage && ToHTTPError(err).statusCode == 500 <==>
              !IsNotFoundError(err) && !IsAlreadyExistsError(err) && !IsValidationError(err)
              && !IsAuthorizationError(err) && IsDatabaseError(err)
  {
  }

  /** A database error never shows its own text or its cause's text: unless a
      more specific kind sits on its chain, the response carries the fixed
      internal message. */
  lemma DatabaseTextHidden(operation: string, table: string, cause: Error)
    requires cause.As(KNotFound).None? && cause.As(KAlreadyExists).None?
    requires cause.As(KValidation).None? && cause.As(KAuthorization).None?
    ensures ToHTTPError(Some(Database(operation, table, cause)))
            == ErrorResponse(500, "internal_error", InternalMessage, "")
  {
    AsThroughDatabase(operation, table, cause, KNotFound);
    AsThroughDatabase(operation, table, cause, KAlreadyExists);
    AsThroughDatabase(operation, table, cause, KValidation);
    AsThroughDatabase(operation, table, cause, KAuthorization);
  }

  /** Because every kind is looked for along the whole chain, a database error
      wrapping a not-found error is a 404, and the response then carries the
      database error's full text. */
  lemma DatabaseWrappingNotFound(operation: string, table: string, resource: string, id: string)
    ensures ToHTTPError(Some(Database(operation, table, NotFound(resource, id))))
            == ErrorResponse(404, "not_found", Database(operation, table, NotFound(resource, id)).Message(), "")
  {
    AsThroughDatabase(operation, table, NotFound(resource, id), KNotFound);
    assert NotFound(resource, id).As(KNotFound).Some?;
  }

  /** A %w wrapper changes only the message of the 404, 409 and 403 responses. */
  lemma {:induction false} WrapperKeepsClassification(prefix: string, e: Error)
    ensures ToHTTPError(Some(Wrapped(prefix, e))).statusCode == ToHTTPError(Some(e)).statusCode
    ensures ToHTTPError(Some(Wrapped(prefix, e))).code == ToHTTPError(Some(e)).code
    ensures ToHTTPError(Some(Wrapped(prefix, e))).field == ToHTTPError(Some(e)).field
  {
    AsThroughWrapper(prefix, e, KNotFound);
    AsThroughWrapper(prefix, e, KAlreadyExists);
    AsThroughWrapper(prefix, e, KValidation);
    AsThroughWrapper(prefix, e, KAuthorization);
    AsThroughWrapper(prefix, e, KDatabase);
  }

  /** A validation error's response carries its own message and field, not
      the text of any wrapper around it. */
  lemma ValidationResponse(prefix: string, field: string, message: string)
    ensures ToHTTPError(Some(Wrapped(prefix, Validation(field, message))))
            == ErrorResponse(400, "validation_error", message, field)
  {
    var v := Validation(field, message);
    AsThroughWrapper(prefix, v, KNotFound);
    AsThroughWrapper(prefix, v, KAlreadyExists);
    AsThroughWrapper(prefix, v, KValidation);
    assert v.As(KNotFound).None? && v.As(KAlreadyExists).None?;
    assert v.As(KValidation) == Some(v);
  }
}
