/** The opening handlers (internals/handlers/opening_handlers.go): pagination
    and filter-parameter validation, the player id passed to the queries,
    the status check, the owner guards, and the update that keeps the
    address ids.  Repository calls are inputs. */
module OpeningHandlers {
  import opened Wrappers
  import opened GoStrings
  import opened Errors
  import opened ErrorHandler
  import opened Http
  import opened OpeningRepo

  // ------------------------------------------------------------ pagination

  const ErrInvalidLimitParam := Response(400, "Invalid limit parameter")
  const ErrInvalidOffsetParam := Response(400, "Invalid offset parameter")

  /** The limit and offset of the list handlers: defaults "10" and "0"; a
      value that does not parse, a limit <= 0 or an offset < 0 is rejected
      with 400, never clamped. */
  function PageParams(q: Query): (r: Result<(int, int), Response>)
    ensures r.Ok? <==>
              (var l := Atoi(DefaultParam(q, "limit", "10"));
               var o := Atoi(DefaultParam(q, "offset", "0"));
               l.Some? && l.value > 0 && o.Some? && o.value >= 0)
    ensures r.Ok? ==> Atoi(DefaultParam(q, "limit", "10")) == Some(r.value.0)
                      && Atoi(DefaultParam(q, "offset", "0")) == Some(r.value.1)
    ensures r.Failure? ==> r.error == ErrInvalidLimitParam || r.error == ErrInvalidOffsetParam
    ensures r.Failure? && r.error == ErrInvalidOffsetParam ==>
              (var l := Atoi(DefaultParam(q, "limit", "10")); l.Some? && l.value > 0)
  {
    var l := Atoi(DefaultParam(q, "limit", "10"));
    if l.None? || l.value <= 0 then Failure(ErrInvalidLimitParam)
    else
      var o := Atoi(DefaultParam(q, "offset", "0"));
      if o.None? || o.value < 0 then Failure(ErrInvalidOffsetParam)
      else Ok((l.value, o.value))
  }

  /** Without parameters the page is the first ten openings. */
  lemma PageDefaults()
    ensures PageParams(map[]) == Ok((10, 0))
  {
    assert AtoiSyntax("10") && SignedValue("10") == 10 by {
      assert DigitsValue("10") == DigitsValue("1") * 10 + 0;
    }
    assert AtoiSyntax("0") && SignedValue("0") == 0;
  }

  /** The player id the queries receive: the caller, when authenticated
      with a non-empty id and the role "player". */
  function PlayerFor(userId: Option<string>, role: Option<string>): (r: Option<string>)
    ensures r.Some? <==> userId.Some? && userId.value != "" && role == Some("player")
    ensures r.Some? ==> r == userId
  {
    if userId.Some? && userId.value != "" && role == Some("player") then userId else None
  }

  // ---------------------------------------------------------- the filter

  predicate IsOpeningStatus(s: string)
  {
    s == "open" || s == "closed"
  }

  /** A number parameter of the filter: absent when empty, otherwise it
      must parse to a non-negative integer. */
  function NonNegativeParam(q: Query, key: string): (r: Result<Option<int>, Response>)
    ensures Param(q, key) == "" ==> r == Ok(None)
    ensures Param(q, key) != "" ==>
              (r.Ok? <==> Atoi(Param(q, key)).Some? && Atoi(Param(q, key)).value >= 0)
    ensures Param(q, key) != "" && r.Ok? ==> r.value == Atoi(Param(q, key))
    ensures r.Failure? ==> r.error == Response(400, "Invalid " + key + " parameter")
  {
    var s := Param(q, key);
    if s == "" then Ok(None)
    else
      var n := Atoi(s);
      if n.None? || n.value < 0 then Failure(Response(400, "Invalid " + key + " parameter"))
      else Ok(n)
  }

  /** A text parameter: absent when empty. */
  function TextParam(q: Query, key: string): (r: Option<string>)
    ensures r.None? <==> Param(q, key) == ""
    ensures r.Some? ==> r.value == Param(q, key)
  {
    if Param(q, key) == "" then None else Some(Param(q, key))
  }

  const ErrInvalidStatusParam := Response(400, "Invalid status parameter. Must be 'open' or 'closed'")
  const ErrInvalidAppliedParam := Response(400, "Invalid applied parameter. Must be 'true' or 'false'")

  /** GetOpeningsByFilterHandler, filling the filter field by field; the
      first bad parameter stops it with 400. */
  method ParseFilter(q: Query) returns (r: Result<OpeningFilter, Response>)
    ensures r.Ok? ==>
              var f := r.value;
              f.sportName == TextParam(q, "sport_name")
              && f.status == TextParam(q, "status")
              && (f.status.Some? ==> IsOpeningStatus(f.status.value))
              && NonNegativeParam(q, "min_age") == Ok(f.minAge)
              && NonNegativeParam(q, "max_age") == Ok(f.maxAge)
              && NonNegativeParam(q, "min_salary") == Ok(f.minSalary)
              && NonNegativeParam(q, "max_salary") == Ok(f.maxSalary)
              && f.countryRestriction == TextParam(q, "country_restriction")
              && f.country == TextParam(q, "country") && f.state == TextParam(q, "state")
              && f.city == TextParam(q, "city") && f.companyName == TextParam(q, "company_name")
              && f.position == TextParam(q, "position")
              && (Param(q, "applied") == "" ==> f.applied.None?)
              && (Param(q, "applied") == "true" ==> f.applied == Some(true))
              && (Param(q, "applied") == "false" ==> f.applied == Some(false))
    ensures r.Failure? <==>
              (Param(q, "status") != "" && !IsOpeningStatus(Param(q, "status")))
              || NonNegativeParam(q, "min_age").Failure? || NonNegativeParam(q, "max_age").Failure?
              || NonNegativeParam(q, "min_salary").Failure? || NonNegativeParam(q, "max_salary").Failure?
              || Param(q, "applied") !in {"", "true", "false"}
  {
    var f := OpeningFilter(None, None, None, None, None, None, None, None, None, None, None, None, None);
    f := f.(sportName := TextParam(q, "sport_name"));
    var status := Param(q, "status");
    if status != "" {
      if !IsOpeningStatus(status) {
        return Failure(ErrInvalidStatusParam);
      }
      f := f.(status := Some(status));
    }
    var minAge := NonNegativeParam(q, "min_age");
    if minAge.Failure? {
      return Failure(minAge.error);
    }
    f := f.(minAge := minAge.value);
    var maxAge := NonNegativeParam(q, "max_age");
    if maxAge.Failure? {
      return Failure(maxAge.error);
    }
    f := f.(maxAge := maxAge.value);
    var minSalary := NonNegativeParam(q, "min_salary");
    if minSalary.Failure? {
      return Failure(minSalary.error);
    }
    f := f.(minSalary := minSalary.value);
    var maxSalary := NonNegativeParam(q, "max_salary");
    if maxSalary.Failure? {
      return Failure(maxSalary.error);
    }
    f := f.(maxSalary := maxSalary.value);
    f := f.(countryRestriction := TextParam(q, "country_restriction"));
    f := f.(country := TextParam(q, "country"));
    f := f.(state := TextParam(q, "state"));
    f := f.(city := TextParam(q, "city"));
    f := f.(companyName := TextParam(q, "company_name"));
    f := f.(position := TextParam(q, "position"));
    var applied := Param(q, "applied");
    if applied != "" {
      if applied == "true" {
        f := f.(applied := Some(true));
      } else if applied == "false" {
        f := f.(applied := Some(false));
      } else {
        return Failure(ErrInvalidAppliedParam);
      }
    }
    return Ok(f);
  }

  // ------------------------------------------------- create, update, delete

  const ErrNotAuthenticated := Response(401, "User not authenticated")
  const ErrInvalidFormat := Response(400, "Invalid request format")
  const ErrInvalidOpeningStatus := Response(400, "Invalid opening status")
  const ErrOpeningIdRequired := Response(400, "Opening ID is required")

  /** The request body fields the checks look at; `rest` stands for the
      fields copied into the opening unchanged. */
  datatype OpeningBody = OpeningBody(status: string, sportName: string, rest: string)

  /** What the repository stores about an opening that the handlers read. */
  datatype StoredOpening = StoredOpening(id: string, recruiterId: string, addressId: string,
                                         addressRowId: string, status: string)

  /** CreateOpeningHandler: 401, then 400 for an unreadable body, then 400
      for a status other than open/closed, all before the repository is
      called.  `create` is the repository's result for the body, `fetch`
      that of re-reading the opening. */
  function CreateOpeningHandler(userId: Option<string>, body: Option<OpeningBody>,
                                create: OpeningBody -> Result<string, Error>,
                                fetch: string -> Result<StoredOpening, Error>)
    : (r: (Response, Option<OpeningBody>))
    ensures userId.None? ==> r == (ErrNotAuthenticated, None)
    ensures userId.Some? && body.None? ==> r == (ErrInvalidFormat, None)
    ensures userId.Some? && body.Some? && !IsOpeningStatus(body.value.status) ==> r == (ErrInvalidOpeningStatus, None)
    ensures r.1.Some? <==> userId.Some? && body.Some? && IsOpeningStatus(body.value.status)
    ensures r.0.status == 201 <==>
              r.1.Some? && create(r.1.value).Ok? && fetch(create(r.1.value).value).Ok?
  {
    if userId.None? then (ErrNotAuthenticated, None)
    else if body.None? then (ErrInvalidFormat, None)
    else if !IsOpeningStatus(body.value.status) then (ErrInvalidOpeningStatus, None)
    else
      match create(body.value)
      case Failure(e) => (ErrorReply(e), body)
      case Ok(id) =>
        match fetch(id)
        case Failure(e) => (ErrorReply(e), body)
        case Ok(_) => (Response(201, "opening"), body)
  }

  /** The guard shared by update, delete and status change: 401, 400 for an
      empty id, the lookup's error, then 403 unless the caller is the
      opening's recruiter. */
  function OwnedOpening(userId: Option<string>, openingId: string, existing: Result<StoredOpening, Error>,
                        forbidden: string)
    : (r: Result<StoredOpening, Response>)
    ensures r.Ok? <==> userId.Some? && openingId != "" && existing.Ok? && existing.value.recruiterId == userId.value
    ensures r.Ok? ==> r.value == existing.value
    ensures userId.None? ==> r == Failure(ErrNotAuthenticated)
    ensures userId.Some? && openingId == "" ==> r == Failure(ErrOpeningIdRequired)
    ensures userId.Some? && openingId != "" && existing.Ok? && existing.value.recruiterId != userId.value ==>
              r == Failure(Response(403, forbidden))
  {
    if userId.None? then Failure(ErrNotAuthenticated)
    else if openingId == "" then Failure(ErrOpeningIdRequired)
    else if existing.Failure? then Failure(ErrorReply(existing.error))
    else if existing.value.recruiterId != userId.value then Failure(Response(403, forbidden))
    else Ok(existing.value)
  }

  /** The opening UpdateOpening receives. */
  datatype UpdatedOpening = UpdatedOpening(id: string, recruiterId: string, addressId: string,
                                           addressRowId: string, status: string, sportName: string, rest: string)

  /** UpdateOpeningHandler: after the owner guard, the body and its status
      are checked; the update keeps the stored address ids. */
  function UpdateOpeningHandler(userId: Option<string>, openingId: string, existing: Result<StoredOpening, Error>,
                                body: Option<OpeningBody>, update: UpdatedOpening -> Option<Error>,
                                fetch: Result<StoredOpening, Error>)
    : (r: (Response, Option<UpdatedOpening>))
    ensures r.1.Some? <==>
              OwnedOpening(userId, openingId, existing, "You can only update your own openings").Ok?
              && body.Some? && IsOpeningStatus(body.value.status)
    ensures r.1.Some? ==>
              var u := r.1.value;
              u.id == openingId && u.recruiterId == userId.value
              && u.addressId == existing.value.addressId && u.addressRowId == existing.value.addressRowId
              && u.status == body.value.status && u.sportName == body.value.sportName
    ensures r.0.status == 200 <==> r.1.Some? && update(r.1.value).None? && fetch.Ok?
    ensures r.1.Some? && update(r.1.value).Some? ==> r.0 == ErrorReply(update(r.1.value).value)
  {
    match OwnedOpening(userId, openingId, existing, "You can only update your own openings")
    case Failure(resp) => (resp, None)
    case Ok(stored) =>
      if body.None? then (ErrInvalidFormat, None)
      else if !IsOpeningStatus(body.value.status) then (ErrInvalidOpeningStatus, None)
      else
        var b := body.value;
        var u := UpdatedOpening(openingId, userId.value, stored.addressId, stored.addressRowId, b.status, b.sportName, b.rest);
        match update(u)
        case Some(e) => (ErrorReply(e), Some(u))
        case None =>
          if fetch.Failure? then (ErrorReply(fetch.error), Some(u))
          else (Response(200, "opening"), Some(u))
  }

  /** DeleteOpeningHandler: the owner guard, then the delete. */
  function DeleteOpeningHandler(userId: Option<string>, openingId: string, existing: Result<StoredOpening, Error>,
                                deleteErr: Option<Error>)
    : (r: (Response, bool))
    ensures r.1 <==> OwnedOpening(userId, openingId, existing, "You can only delete your own openings").Ok?
    ensures r.0.status == 200 <==> r.1 && deleteErr.None?
    ensures r.0.status == 200 ==> r.0.message == "Opening deleted successfully"
  {
    match OwnedOpening(userId, openingId, existing, "You can only delete your own openings")
    case Failure(resp) => (resp, false)
    case Ok(_) =>
      if deleteErr.Some? then
        var resp := FromError(ToHTTPError(deleteErr));
        (resp, true)
      else (Response(200, "Opening deleted successfully"), true)
  }

  /** UpdateOpeningStatusHandler: the owner guard, the body, the status,
      then UpdateOpeningStatus (`updateErr`) and a second GetOpeningByID
      (`refetch`); the result is the status written, if any. */
  function UpdateOpeningStatusHandler(userId: Option<string>, openingId: string,
                                      existing: Result<StoredOpening, Error>, body: Option<string>,
                                      updateErr: Option<Error>, refetch: Result<StoredOpening, Error>)
    : (r: (Response, Option<string>))
    ensures r.1.Some? <==>
              OwnedOpening(userId, openingId, existing, "You can only update your own openings").Ok?
              && body.Some? && IsOpeningStatus(body.value)
    ensures r.1.Some? ==> r.1 == body
    ensures r.1.Some? && updateErr.Some? ==> r.0 == ErrorReply(updateErr.value)
    ensures r.1.Some? && updateErr.None? && refetch.Failure? ==> r.0 == ErrorReply(refetch.error)
    ensures r.0.status == 200 <==> r.1.Some? && updateErr.None? && refetch.Ok?
  {
    match OwnedOpening(userId, openingId, existing, "You can only update your own openings")
    case Failure(resp) => (resp, None)
    case Ok(_) =>
      if body.None? then (ErrInvalidFormat, None)
      else if !IsOpeningStatus(body.value) then (ErrInvalidOpeningStatus, None)
      else if updateErr.Some? then (ErrorReply(updateErr.value), body)
      else if refetch.Failure? then (ErrorReply(refetch.error), body)
      else (Response(200, "opening"), body)
  }

  /** No opening is ever changed, deleted or given a status by anyone but
      its recruiter, and no status other than open/closed is written. */
  lemma OnlyOwnersChangeOpenings(userId: Option<string>, openingId: string,
                                 existing: Result<StoredOpening, Error>, body: Option<OpeningBody>,
                                 statusBody: Option<string>, update: UpdatedOpening -> Option<Error>,
                                 fetch: Result<StoredOpening, Error>, deleteErr: Option<Error>,
                                 statusErr: Option<Error>)
    ensures UpdateOpeningHandler(userId, openingId, existing, body, update, fetch).1.Some? ==>
              existing.Ok? && Some(existing.value.recruiterId) == userId
    ensures DeleteOpeningHandler(userId, openingId, existing, deleteErr).1 ==>
              existing.Ok? && Some(existing.value.recruiterId) == userId
    ensures UpdateOpeningStatusHandler(userId, openingId, existing, statusBody, statusErr, fetch).1.Some? ==>
              existing.Ok? && Some(existing.value.recruiterId) == userId
              && IsOpeningStatus(UpdateOpeningStatusHandler(userId, openingId, existing, statusBody, statusErr, fetch).1.value)
  {
  }
}
