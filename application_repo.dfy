/** The job-application repository
    (internals/db/repositories/application_repository.go).  The "Application"
    table is a map from id to row held by a store object; it keeps at most
    one application per (player, opening).  Failing SQL statements are
    inputs, and the id the database generates is a parameter. */
module ApplicationRepo {
  import opened Wrappers
  import opened GoStrings
  import opened Errors
  import ErrorHandler

  const Pending := "pending"
  const AcceptedStatus := "accepted"
  const RejectedStatus := "rejected"
  const Withdrawn := "withdrawn"

  /** isValidApplicationStatus. */
  predicate IsValidApplicationStatus(status: string)
  {
    status in {Pending, AcceptedStatus, RejectedStatus, Withdrawn}
  }

  /** The four statuses are the only valid ones, and case matters. */
  lemma ValidStatuses(s: string)
    ensures IsValidApplicationStatus(s) <==> s == "pending" || s == "accepted" || s == "rejected" || s == "withdrawn"
    ensures !IsValidApplicationStatus("") && !IsValidApplicationStatus("Pending")
  {
    assert "Pending"[0] != "pending"[0];
  }

  datatype Application = Application(id: string, playerId: string, openingId: string, status: string)

  /** What a caller hands to CreateApplication; the id is not yet known. */
  datatype NewApplication = NewApplication(playerId: string, openingId: string, status: string)

  const ErrPlayerIdEmpty := Validation("player_id", "player ID cannot be empty")
  const ErrOpeningIdEmpty := Validation("opening_id", "opening ID cannot be empty")
  const ErrInvalidStatus := Validation("status", "invalid application status")
  const ErrApplicationIdEmpty := Validation("application_id", "application ID cannot be empty")

  /** The checks CreateApplication makes before touching the table: the ids
      must not be blank, an empty status becomes pending, and the status must
      then be valid.  A nil application is the None input. */
  function CheckNewApplication(app: Option<NewApplication>): (r: Result<NewApplication, Error>)
    ensures app.None? ==> r == Failure(Validation("application", "application cannot be nil"))
    ensures app.Some? && IsBlank(app.value.playerId) ==> r == Failure(ErrPlayerIdEmpty)
    ensures app.Some? && !IsBlank(app.value.playerId) && IsBlank(app.value.openingId) ==> r == Failure(ErrOpeningIdEmpty)
    ensures r.Ok? <==> app.Some? && !IsBlank(app.value.playerId) && !IsBlank(app.value.openingId)
                        && (app.value.status == "" || IsValidApplicationStatus(app.value.status))
    ensures r.Ok? ==> IsValidApplicationStatus(r.value.status)
                      && r.value.playerId == app.value.playerId && r.value.openingId == app.value.openingId
                      && (app.value.status == "" ==> r.value.status == Pending)
                      && (app.value.status != "" ==> r.value.status == app.value.status)
  {
    if app.None? then Failure(Validation("application", "application cannot be nil"))
    else if IsBlank(app.value.playerId) then Failure(ErrPlayerIdEmpty)
    else if IsBlank(app.value.openingId) then Failure(ErrOpeningIdEmpty)
    else
      var a := if app.value.status == "" then app.value.(status := Pending) else app.value;
      if !IsValidApplicationStatus(a.status) then Failure(ErrInvalidStatus) else Ok(a)
  }

  /** The error a second application for the same pair gets. */
  function DuplicateError(playerId: string, openingId: string): Error
  {
    AlreadyExists("application", "player_id and opening_id combination", playerId + " + " + openingId)
  }


  /** How a failed INSERT is reported: a unique violation that names either
      column is the pair inserted by someone else since the existence
      check; anything else is a database error. */
  function InsertError(a: NewApplication, e: Error): (r: Error)
    ensures r.AlreadyExists? || r.Database?
    ensures r.AlreadyExists? <==>
              IsUniqueConstraintError(Some(e), "player_id") || IsUniqueConstraintError(Some(e), "opening_id")
    ensures r.AlreadyExists? ==> r == DuplicateError(a.playerId, a.openingId)
    ensures r.Database? ==> r == Database("insert", "Application", e)
  {
    if IsUniqueConstraintError(Some(e), "player_id") || IsUniqueConstraintError(Some(e), "opening_id") then
      DuplicateError(a.playerId, a.openingId)
    else Database("insert", "Application", e)
  }

  /** The pair inserted concurrently after the existence check reaches the
      client as a conflict, not as a server error. */
  lemma InsertRaceIsConflict(a: NewApplication, e: Error)
    requires IsUniqueConstraintError(Some(e), "player_id") || IsUniqueConstraintError(Some(e), "opening_id")
    ensures ErrorHandler.ToHTTPError(Some(InsertError(a, e))).statusCode == 409
  {
    var d := InsertError(a, e);
    assert d == DuplicateError(a.playerId, a.openingId);
    assert d.Unwrap().None?;
    assert d.As(KNotFound).None? && d.As(KAlreadyExists) == Some(d);
  }

  /** The checks of GetApplicationsByStatus, in order. */
  function CheckStatusPage(status: string, limit: int, offset: int): (r: Option<Error>)
    ensures r.None? <==> IsValidApplicationStatus(status) && limit > 0 && offset >= 0
    ensures IsValidApplicationStatus(status) && limit <= 0 ==> r == Some(ErrInvalidLimit)
    ensures IsValidApplicationStatus(status) && limit > 0 && offset < 0 ==> r == Some(ErrInvalidOffset)
  {
    if !IsValidApplicationStatus(status) then Some(ErrInvalidStatus)
    else if limit <= 0 then Some(ErrInvalidLimit)
    else if offset < 0 then Some(ErrInvalidOffset)
    else None
  }

  /** The id checks of GetApplicationByPlayerIDAndOpeningID: both ids are
      trimmed and neither may then be empty. */
  function CheckPairLookup(playerId: string, openingId: string): (r: Result<(string, string), Error>)
    ensures r.Ok? <==> !IsBlank(playerId) && !IsBlank(openingId)
    ensures r.Ok? ==> r.value == (TrimSpace(playerId), TrimSpace(openingId)) && r.value.0 != "" && r.value.1 != ""
    ensures r.Failure? ==> r.error == Validation("player_id and application_id",
                                                 "player ID and application ID cannot be empty")
  {
    TrimSpaceEmptyIffBlank(playerId);
    TrimSpaceEmptyIffBlank(openingId);
    var p := TrimSpace(playerId);
    var o := TrimSpace(openingId);
    if p == "" || o == "" then
      Failure(Validation("player_id and application_id", "player ID and application ID cannot be empty"))
    else Ok((p, o))
  }

  class ApplicationStore {
    var rows: map<string, Application>

    /** Rows sit under their own id, carry a valid status, and no two rows
        share a (player, opening) pair. */
    ghost predicate Valid()
      reads this
    {
      (forall id :: id in rows ==> rows[id].id == id && IsValidApplicationStatus(rows[id].status))
      && (forall i, j ::
            i in rows && j in rows && rows[i].playerId == rows[j].playerId && rows[i].openingId == rows[j].openingId
            ==> i == j)
    }

    constructor ()
      ensures rows == map[] && Valid()
    {
      rows := map[];
    }

    /** Whether some row has the pair; the query of CheckApplicationExists. */
    predicate HasPair(playerId: string, openingId: string)
      reads this
    {
      exists id :: id in rows && rows[id].playerId == playerId && rows[id].openingId == openingId
    }

    /** CheckApplicationExists; `queryErr` is a failure of the SELECT. */
    function CheckApplicationExists(playerId: string, openingId: string, queryErr: Option<Error>)
      : (r: Result<bool, Error>)
      reads this
      ensures IsBlank(playerId) ==> r == Failure(ErrPlayerIdEmpty)
      ensures !IsBlank(playerId) && IsBlank(openingId) ==> r == Failure(ErrOpeningIdEmpty)
      ensures r.Ok? <==> !IsBlank(playerId) && !IsBlank(openingId) && queryErr.None?
      ensures r.Ok? ==> (r.value <==> HasPair(playerId, openingId))
    {
      if IsBlank(playerId) then Failure(ErrPlayerIdEmpty)
      else if IsBlank(openingId) then Failure(ErrOpeningIdEmpty)
      else if queryErr.Some? then Failure(Database("check existence", "Application", queryErr.value))
      else Ok(HasPair(playerId, openingId))
    }

    /** CreateApplication.  `existsErr` is a failure of the existence query,
        `faults` those of the transaction's begin, insert and commit, and
        `newId` the id the INSERT returns; a taken id fails as the primary
        key would. */
    method CreateApplication(app: Option<NewApplication>, newId: string,
                             existsErr: Option<Error>, faults: InsertFaults)
      returns (r: Result<string, Error>)
      requires Valid()
      modifies this
      ensures Valid()
      ensures CheckNewApplication(app).Failure? ==> r == Failure(CheckNewApplication(app).error)
      ensures CheckNewApplication(app).Ok? && existsErr.None?
              && old(HasPair(app.value.playerId, app.value.openingId)) ==>
                r == Failure(DuplicateError(app.value.playerId, app.value.openingId))
      ensures CheckNewApplication(app).Ok? && existsErr.None?
              && !old(HasPair(app.value.playerId, app.value.openingId)) ==>
                var a := CheckNewApplication(app).value;
                if faults.begin.Some? then r == Failure(Database("begin transaction", "Application", faults.begin.value))
                else if faults.insert.Some? then r == Failure(InsertError(a, faults.insert.value))
                else if newId in old(rows) then r.Failure?
                else if faults.commit.Some? then r == Failure(Database("commit transaction", "Application", faults.commit.value))
                else r == Ok(newId)
      ensures r.Ok? <==> CheckNewApplication(app).Ok? && existsErr.None? && faults.Clean()
                         && !old(HasPair(app.value.playerId, app.value.openingId)) && newId !in old(rows)
      ensures r.Failure? ==> rows == old(rows)
      ensures r.Ok? ==>
                var a := CheckNewApplication(app).value;
                r.value == newId
                && rows == old(rows)[newId := Application(newId, a.playerId, a.openingId, a.status)]
    {
      var checked := CheckNewApplication(app);
      if checked.Failure? {
        return Failure(checked.error);
      }
      var a := checked.value;
      var found := CheckApplicationExists(a.playerId, a.openingId, existsErr);
      if found.Failure? {
        return Failure(found.error);
      }
      if found.value {
        return Failure(DuplicateError(a.playerId, a.openingId));
      }
      if faults.begin.Some? {
        return Failure(Database("begin transaction", "Application", faults.begin.value));
      }
      if faults.insert.Some? {
        return Failure(InsertError(a, faults.insert.value));
      }
      if newId in rows {
        return Failure(Database("insert", "Application", Plain("duplicate key value violates unique constraint")));
      }
      if faults.commit.Some? {
        return Failure(Database("commit transaction", "Application", faults.commit.value));
      }
      rows := rows[newId := Application(newId, a.playerId, a.openingId, a.status)];
      return Ok(newId);
    }

    /** GetApplicationByID; `queryErr` is a failure other than "no rows". */
    function GetApplicationByID(id: string, queryErr: Option<Error>): (r: Result<Application, Error>)
      reads this
      ensures IsBlank(id) ==> r == Failure(ErrApplicationIdEmpty)
      ensures !IsBlank(id) && queryErr.None? ==>
                if id in rows then r == Ok(rows[id]) else r == Failure(NotFound("application", id))
    {
      if IsBlank(id) then Failure(ErrApplicationIdEmpty)
      else if queryErr.Some? then Failure(Database("select", "Application", queryErr.value))
      else if id in rows then Ok(rows[id])
      else Failure(NotFound("application", id))
    }

    /** GetApplicationByPlayerIDAndOpeningID.  The ids are trimmed first; the
        not-found error names the opening id. */
    method GetApplicationByPlayerAndOpening(playerId: string, openingId: string, queryErr: Option<Error>)
      returns (r: Result<Application, Error>)
      requires Valid()
      ensures CheckPairLookup(playerId, openingId).Failure? ==> r == Failure(CheckPairLookup(playerId, openingId).error)
      ensures CheckPairLookup(playerId, openingId).Ok? && queryErr.None? ==>
                var (p, o) := CheckPairLookup(playerId, openingId).value;
                (r.Ok? <==> HasPair(p, o))
                && (r.Ok? ==> r.value in rows.Values && r.value.playerId == p && r.value.openingId == o)
                && (r.Failure? ==> r.error == NotFound("application", o))
    {
      var checked := CheckPairLookup(playerId, openingId);
      if checked.Failure? {
        return Failure(checked.error);
      }
      var (p, o) := checked.value;
      if queryErr.Some? {
        return Failure(Database("select", "Application", queryErr.value));
      }
      if HasPair(p, o) {
        var id :| id in rows && rows[id].playerId == p && rows[id].openingId == o;
        return Ok(rows[id]);
      }
      return Failure(NotFound("application", o));
    }

    /** UpdateApplicationStatus: the id and the status are checked first; an
        id with no row is NotFound. */
    method UpdateApplicationStatus(id: string, status: string, execErr: Option<Error>)
      returns (err: Option<Error>)
      requires Valid()
      modifies this
      ensures Valid()
      ensures IsBlank(id) ==> err == Some(ErrApplicationIdEmpty)
      ensures !IsBlank(id) && !IsValidApplicationStatus(status) ==> err == Some(ErrInvalidStatus)
      ensures !IsBlank(id) && IsValidApplicationStatus(status) && execErr.None? && id !in old(rows) ==>
                err == Some(NotFound("application", id))
      ensures err.None? <==> !IsBlank(id) && IsValidApplicationStatus(status) && execErr.None? && id in old(rows)
      ensures err.Some? ==> rows == old(rows)
      ensures err.None? ==> rows == old(rows)[id := old(rows)[id].(status := status)]
    {
      if IsBlank(id) {
        return Some(ErrApplicationIdEmpty);
      }
      if !IsValidApplicationStatus(status) {
        return Some(ErrInvalidStatus);
      }
      if execErr.Some? {
        return Some(Database("update", "Application", execErr.value));
      }
      if id !in rows {
        return Some(NotFound("application", id));
      }
      rows := rows[id := rows[id].(status := status)];
      return None;
    }

    /** DeleteApplication: an id with no row is NotFound. */
    method DeleteApplication(id: string, execErr: Option<Error>) returns (err: Option<Error>)
      requires Valid()
      modifies this
      ensures Valid()
      ensures IsBlank(id) ==> err == Some(ErrApplicationIdEmpty)
      ensures !IsBlank(id) && execErr.None? && id !in old(rows) ==> err == Some(NotFound("application", id))
      ensures err.None? <==> !IsBlank(id) && execErr.None? && id in old(rows)
      ensures err.Some? ==> rows == old(rows)
      ensures err.None? ==> rows == old(rows) - {id}
    {
      if IsBlank(id) {
        return Some(ErrApplicationIdEmpty);
      }
      if execErr.Some? {
        return Some(Database("delete", "Application", execErr.value));
      }
      if id !in rows {
        return Some(NotFound("application", id));
      }
      rows := rows - {id};
      return None;
    }
  }
}
