/** The job-application handlers (internals/handlers/application_handeler.go):
    who may apply, who may list applicants, and the guard chain shared by
    accept, reject and withdraw.  Repository calls are inputs: `lookup`
    answers GetApplicationByPlayerIDAndOpeningID, `openingOwner` the
    RecruiterID that GetOpeningByID finds. */
module ApplicationHandlers {
  import opened Wrappers
  import opened Errors
  import opened ErrorHandler
  import opened Http
  import Uuid
  import opened ApplicationRepo

  const ErrNotAuthenticated := Response(401, "User not authenticated")
  const ErrOpeningIdRequired := Response(400, "Opening ID is required")

  /** CreateApplicationHandler: 401, then 403 unless the caller is a player,
      then 400 for an empty opening id.  The application handed to the
      repository is the caller's, for that opening, with status pending. */
  function CreateApplicationHandler(userId: Option<string>, role: Option<string>, openingId: string,
                                    create: NewApplication -> Result<string, Error>,
                                    fetch: string -> Result<Application, Error>)
    : (r: (Response, Option<NewApplication>))
    ensures userId.None? ==> r.0 == ErrNotAuthenticated
    ensures userId.Some? && role != Some("player") ==> r.0 == Response(403, "Only players can create applications")
    ensures r.1.Some? <==> userId.Some? && role == Some("player") && openingId != ""
    ensures r.1.Some? ==> r.1.value == NewApplication(userId.value, openingId, Pending)
    ensures r.0.status == 201 <==> r.1.Some? && create(r.1.value).Ok? && fetch(create(r.1.value).value).Ok?
  {
    if userId.None? then (ErrNotAuthenticated, None)
    else if role != Some("player") then (Response(403, "Only players can create applications"), None)
    else if openingId == "" then (ErrOpeningIdRequired, None)
    else
      var app := NewApplication(userId.value, openingId, Pending);
      match create(app)
      case Failure(e) => (ErrorReply(e), Some(app))
      case Ok(id) =>
        match fetch(id)
        case Failure(e) => (ErrorReply(e), Some(app))
        case Ok(_) => (Response(201, "application"), Some(app))
  }

  /** The application the handler submits always passes the repository's
      checks when the ids are not blank, with its pending status kept. */
  lemma SubmittedApplicationIsValid(userId: string, openingId: string)
    requires !GoStrings.IsBlank(userId) && !GoStrings.IsBlank(openingId)
    ensures CheckNewApplication(Some(NewApplication(userId, openingId, Pending)))
            == Ok(NewApplication(userId, openingId, Pending))
  {
  }

  /** GetApplicantsByOpeningIDHandler: 401, a recruiter role, an opening id,
      the opening's lookup, then 403 unless the caller owns the opening.
      The second component says whether the applicants were read. */
  function GetApplicantsHandler(userId: Option<string>, role: Option<string>, openingId: string,
                                openingOwner: Result<string, Error>, applicantsErr: Option<Error>)
    : (r: (Response, bool))
    ensures r.1 <==> userId.Some? && role == Some("recruiter") && openingId != ""
                     && openingOwner == Ok(userId.value)
    ensures r.0.status == 200 <==> r.1 && applicantsErr.None?
    ensures userId.Some? && role == Some("recruiter") && openingId != "" && openingOwner.Ok?
            && openingOwner.value != userId.value ==>
              r.0 == Response(403, "You can only view applicants for your own openings")
  {
    if userId.None? then (ErrNotAuthenticated, false)
    else if role != Some("recruiter") then (Response(403, "Only recruiters can view applicants"), false)
    else if openingId == "" then (ErrOpeningIdRequired, false)
    else if openingOwner.Failure? then (ErrorReply(openingOwner.error), false)
    else if openingOwner.value != userId.value then
      (Response(403, "You can only view applicants for your own openings"), false)
    else if applicantsErr.Some? then (ErrorReply(applicantsErr.value), true)
    else (Response(200, "applicants"), true)
  }

  /** GetApplicationsByPlayerHandler: only a player reads, and only their own
      applications; the result is the player id the repository is asked for. */
  function GetApplicationsByPlayerHandler(userId: Option<string>, role: Option<string>)
    : (r: Result<string, Response>)
    ensures r.Ok? <==> userId.Some? && role == Some("player")
    ensures r.Ok? ==> r.value == userId.value
    ensures userId.Some? && role != Some("player") ==>
              r == Failure(Response(403, "Only players can view their applications"))
  {
    if userId.None? then Failure(ErrNotAuthenticated)
    else if role != Some("player") then Failure(Response(403, "Only players can view their applications"))
    else Ok(userId.value)
  }

  /** What a status handler did: the responses it wrote, in order (the
      client sees the first status), and the (application id, status)
      update it made, if any. */
  datatype Reply = Reply(written: seq<Response>, update: Option<(string, string)>)
  {
    function Status(): int
    {
      if written == [] then 0 else written[0].status
    }
  }

  /** One status action: accept, reject or withdraw. */
  datatype Action = Action(status: string, name: string, requiredRole: string)

  const Accept := Action(AcceptedStatus, "accept", "recruiter")
  const Reject := Action(RejectedStatus, "reject", "recruiter")
  const Withdraw := Action(Withdrawn, "withdraw", "player")

  /** The guards of updateApplicationStatusHandler that end in one response:
      401, the role, the two ids, the applicant id's UUID form, the lookup,
      a withdrawn application, and ownership on the recruiter or player path.
      The result is the application to update. */
  function StatusGuards(a: Action, userId: Option<string>, role: Option<string>, openingId: string,
                        applicantId: string, lookup: (string, string) -> Result<Application, Error>,
                        openingOwner: Result<string, Error>)
    : (r: Result<Application, Response>)
    ensures r.Ok? ==> userId.Some? && role == Some(a.requiredRole) && openingId != "" && applicantId != ""
                      && Uuid.WellFormed(applicantId) && lookup(applicantId, openingId) == Ok(r.value)
                      && r.value.status != Withdrawn
    ensures r.Ok? && a.requiredRole == "recruiter" ==> openingOwner == Ok(userId.value)
    ensures r.Ok? && a.requiredRole == "player" ==> r.value.playerId == userId.value
    ensures userId.Some? && role != Some(a.requiredRole) ==>
              r == Failure(Response(403, "Insufficient permissions to " + a.name + " application"))
    ensures userId.Some? && role == Some(a.requiredRole) && openingId != "" && applicantId != ""
            && Uuid.WellFormed(applicantId) && lookup(applicantId, openingId).Ok?
            && lookup(applicantId, openingId).value.status == Withdrawn ==>
              r == Failure(Response(400, "Application has already been withdrawn"))
  {
    if userId.None? then Failure(ErrNotAuthenticated)
    else if role != Some(a.requiredRole) then
      Failure(Response(403, "Insufficient permissions to " + a.name + " application"))
    else if openingId == "" || applicantId == "" then
      Failure(Response(400, "Opening ID and Application ID are required"))
    else if Uuid.Parse(applicantId).None? then Failure(Response(400, "Invalid applicant ID format"))
    else
      match lookup(applicantId, openingId)
      case Failure(e) => Failure(ErrorReply(e))
      case Ok(app) =>
        if app.status == Withdrawn then Failure(Response(400, "Application has already been withdrawn"))
        else if a.requiredRole == "recruiter" then
          if openingOwner.Failure? then Failure(ErrorReply(openingOwner.error))
          else if openingOwner.value != userId.value then
            Failure(Response(403, "You can only " + a.name + " applications for your own openings"))
          else Ok(app)
        else if a.requiredRole == "player" && app.playerId != userId.value then
          Failure(Response(403, "You can only " + a.name + " your own applications"))
        else Ok(app)
  }

  /** The update and the re-read that follow the guards. */
  function Finish(a: Action, app: Application, prefix: seq<Response>, updateErr: Option<Error>,
                  refetch: Result<Application, Error>)
    : (r: Reply)
    ensures |r.written| == |prefix| + 1 && r.written[..|prefix|] == prefix
    ensures r.update.Some? <==> updateErr.None?
    ensures r.update.Some? ==> r.update.value == (app.id, a.status)
  {
    if updateErr.Some? then Reply(prefix + [ErrorReply(updateErr.value)], None)
    else if refetch.Failure? then Reply(prefix + [ErrorReply(refetch.error)], Some((app.id, a.status)))
    else Reply(prefix + [Response(200, "application")], Some((app.id, a.status)))
  }

  /** updateApplicationStatusHandler as written: on the player path an
      action other than "withdraw" writes 403 but carries on, so the update
      still runs. */
  function UpdateStatusAsWritten(a: Action, userId: Option<string>, role: Option<string>, openingId: string,
                                 applicantId: string, lookup: (string, string) -> Result<Application, Error>,
                                 openingOwner: Result<string, Error>, updateErr: Option<Error>,
                                 refetch: Result<Application, Error>)
    : (r: Reply)
    ensures r.update.Some? ==>
              StatusGuards(a, userId, role, openingId, applicantId, lookup, openingOwner).Ok? && updateErr.None?
  {
    match StatusGuards(a, userId, role, openingId, applicantId, lookup, openingOwner)
    case Failure(resp) => Reply([resp], None)
    case Ok(app) =>
      var prefix := if a.requiredRole == "player" && a.name != "withdraw"
                    then [Response(403, "You can only " + a.name + " your own applications")] else [];
      Finish(a, app, prefix, updateErr, refetch)
  }

  /** updateApplicationStatusHandler with the missing return: a 403 ends
      the request. */
  function UpdateStatus(a: Action, userId: Option<string>, role: Option<string>, openingId: string,
                        applicantId: string, lookup: (string, string) -> Result<Application, Error>,
                        openingOwner: Result<string, Error>, updateErr: Option<Error>,
                        refetch: Result<Application, Error>)
    : (r: Reply)
    ensures |r.written| == 1
    ensures r.update.Some? <==>
              StatusGuards(a, userId, role, openingId, applicantId, lookup, openingOwner).Ok?
              && !(a.requiredRole == "player" && a.name != "withdraw") && updateErr.None?
    ensures r.update.Some? ==>
              r.update.value == (lookup(applicantId, openingId).value.id, a.status)
              && lookup(applicantId, openingId).value.status != Withdrawn
    ensures r.Status() == 200 <==> r.update.Some? && refetch.Ok?
  {
    match StatusGuards(a, userId, role, openingId, applicantId, lookup, openingOwner)
    case Failure(resp) => Reply([resp], None)
    case Ok(app) =>
      if a.requiredRole == "player" && a.name != "withdraw" then
        Reply([Response(403, "You can only " + a.name + " your own applications")], None)
      else
        var r := Finish(a, app, [], updateErr, refetch);
        assert r.written[0] != Response(200, "application") ==> r.Status() != 200 by {
          ToHTTPErrorNot200(updateErr, refetch);
        }
        r
  }

  lemma ToHTTPErrorNot200(updateErr: Option<Error>, refetch: Result<Application, Error>)
    ensures updateErr.Some? ==> ErrorReply(updateErr.value).status != 200
    ensures refetch.Failure? ==> ErrorReply(refetch.error).status != 200
  {
  }

  /** The as-written handler, given a player-role action other than
      withdraw and every lookup succeeding, answers 403 yet updates the
      application. */
  lemma PlayerActionUpdatesDespite403(userId: string, openingId: string, applicantId: string,
                                      app: Application, updated: Application)
    requires openingId != "" && Uuid.WellFormed(applicantId)
    requires app.status == Pending && app.playerId == userId
    ensures var a := Action(AcceptedStatus, "accept", "player");
            var r := UpdateStatusAsWritten(a, Some(userId), Some("player"), openingId, applicantId,
                                           (p, o) => Ok(app), Ok(userId), None, Ok(updated));
            r.Status() == 403 && r.update == Some((app.id, AcceptedStatus))
  {
  }

  /** The corrected handler answers 403 and leaves the application alone in
      the same case. */
  lemma PlayerActionRefused(userId: string, openingId: string, applicantId: string,
                            app: Application, updated: Application)
    requires openingId != "" && Uuid.WellFormed(applicantId)
    requires app.status == Pending && app.playerId == userId
    ensures var a := Action(AcceptedStatus, "accept", "player");
            var r := UpdateStatus(a, Some(userId), Some("player"), openingId, applicantId,
                                  (p, o) => Ok(app), Ok(userId), None, Ok(updated));
            r.Status() == 403 && r.update.None?
  {
  }

  /** For the three routes the program registers (accept, reject and
      withdraw) the missing return is never reached: the two handlers agree. */
  lemma RegisteredActionsAgree(a: Action, userId: Option<string>, role: Option<string>, openingId: string,
                               applicantId: string, lookup: (string, string) -> Result<Application, Error>,
                               openingOwner: Result<string, Error>, updateErr: Option<Error>,
                               refetch: Result<Application, Error>)
    requires a == Accept || a == Reject || a == Withdraw
    ensures UpdateStatusAsWritten(a, userId, role, openingId, applicantId, lookup, openingOwner, updateErr, refetch)
            == UpdateStatus(a, userId, role, openingId, applicantId, lookup, openingOwner, updateErr, refetch)
  {
  }

  /** Whoever calls, a withdrawn application is never updated, a recruiter
      action needs the opening's owner, and a withdrawal needs the
      application's player. */
  lemma WithdrawnIsTerminal(a: Action, userId: Option<string>, role: Option<string>, openingId: string,
                            applicantId: string, lookup: (string, string) -> Result<Application, Error>,
                            openingOwner: Result<string, Error>, updateErr: Option<Error>,
                            refetch: Result<Application, Error>)
    requires a == Accept || a == Reject || a == Withdraw
    ensures var r := UpdateStatus(a, userId, role, openingId, applicantId, lookup, openingOwner, updateErr, refetch);
            r.update.Some? ==>
              lookup(applicantId, openingId).Ok? && lookup(applicantId, openingId).value.status != Withdrawn
              && role == Some(a.requiredRole)
              && (a != Withdraw ==> openingOwner == Ok(userId.value))
              && (a == Withdraw ==> lookup(applicantId, openingId).value.playerId == userId.value)
  {
  }
}
