/** The sport handlers (internals/handlers/sport_handelers.go): the
    validation of the list's limit and offset, the name check of the lookup
    and the reply of the create.  Repository results are inputs. */
module SportHandlers {
  import opened Wrappers
  import opened GoStrings
  import opened Errors
  import opened Http
  import opened SportRepo

  const MaxSportsLimit := 100

  /** The list's limit and offset: unlike the other lists, a bad value is
      refused with 400 rather than replaced by a default. */
  function SportsPage(q: Query): (r: Result<(int, int), Response>)
    ensures r.Ok? <==>
              var l := Atoi(DefaultParam(q, "limit", "10"));
              var o := Atoi(DefaultParam(q, "offset", "0"));
              l.Some? && 1 <= l.value <= MaxSportsLimit && o.Some? && o.value >= 0
    ensures r.Ok? ==> r.value == (Atoi(DefaultParam(q, "limit", "10")).value, Atoi(DefaultParam(q, "offset", "0")).value)
    ensures r.Ok? ==> 1 <= r.value.0 <= MaxSportsLimit && 0 <= r.value.1
    ensures r.Failure? ==>
              var l := Atoi(DefaultParam(q, "limit", "10"));
              r.error == if l.None? || l.value <= 0 || l.value > MaxSportsLimit
                         then Response(400, "Invalid limit") else Response(400, "Invalid offset")
  {
    var limit := Atoi(DefaultParam(q, "limit", "10"));
    if limit.None? || limit.value <= 0 || limit.value > MaxSportsLimit then Failure(Response(400, "Invalid limit"))
    else
      var offset := Atoi(DefaultParam(q, "offset", "0"));
      if offset.None? || offset.value < 0 then Failure(Response(400, "Invalid offset"))
      else Ok((limit.value, offset.value))
  }

  /** Every accepted page is accepted when written back as decimal text. */
  lemma SportsPageRoundTrip(limit: nat, offset: nat)
    requires 1 <= limit <= MaxSportsLimit && offset <= MaxInt64
    ensures SportsPage(map["limit" := NatToString(limit), "offset" := NatToString(offset)]) == Ok((limit, offset))
  {
    var q := map["limit" := NatToString(limit), "offset" := NatToString(offset)];
    AtoiNatToString(limit);
    AtoiNatToString(offset);
    assert DefaultParam(q, "limit", "10") == NatToString(limit);
    assert DefaultParam(q, "offset", "0") == NatToString(offset);
  }

  /** No parameters at all mean limit 10, offset 0. */
  lemma SportsPageDefaults()
    ensures SportsPage(map[]) == Ok((10, 0))
  {
    AtoiNatToString(10);
    AtoiNatToString(0);
    assert NatToString(10) == "10" by {
      assert NatToString(1) == "1";
      assert NatToString(0) == "0";
    }
    assert NatToString(0) == "0";
  }

  /** The reply of GetSportsHandler: 200 echoing the validated limit and
      offset beside the sports. */
  datatype SportsReply = SportsPageReply(sports: seq<Sport>, limit: int, offset: int) | SportsError(resp: Response)

  function GetSportsHandler(q: Query, list: (int, int) -> Result<seq<Sport>, Error>): (r: SportsReply)
    ensures SportsPage(q).Failure? ==> r == SportsError(SportsPage(q).error)
    ensures r.SportsPageReply? <==> SportsPage(q).Ok? && list(SportsPage(q).value.0, SportsPage(q).value.1).Ok?
    ensures r.SportsPageReply? ==>
              (r.limit, r.offset) == SportsPage(q).value && r.sports == list(r.limit, r.offset).value
    ensures r.SportsError? && SportsPage(q).Ok? ==>
              r.resp == ErrorReply(list(SportsPage(q).value.0, SportsPage(q).value.1).error)
  {
    match SportsPage(q)
    case Failure(resp) => SportsError(resp)
    case Ok((limit, offset)) =>
      match list(limit, offset)
      case Failure(e) => SportsError(ErrorReply(e))
      case Ok(sports) => SportsPageReply(sports, limit, offset)
  }

  /** CreateSportHandler: the name is required by the binding.  The
      repository writes the sanitised name back into the request's sport, so
      the reply carries the returned id, the sanitised name and the
      description as sent. */
  function CreateSportHandler(body: Option<(string, string)>, insert: (string, string) -> Result<string, Error>)
    : (r: Result<Sport, Response>)
    ensures body.None? || body.value.0 == "" ==> r == Failure(Response(400, "Invalid request format"))
    ensures r.Ok? <==> body.Some? && body.value.0 != "" && CreateSport(body.value.0, body.value.1, insert).Ok?
    ensures r.Ok? ==>
              SanitizeSportName(body.value.0).Ok?
              && r.value == Sport(CreateSport(body.value.0, body.value.1, insert).value,
                                  SanitizeSportName(body.value.0).value, body.value.1)
    ensures r.Failure? && body.Some? && body.value.0 != "" ==>
              r.error == ErrorReply(CreateSport(body.value.0, body.value.1, insert).error)
  {
    if body.None? || body.value.0 == "" then Failure(Response(400, "Invalid request format"))
    else
      var (name, description) := body.value;
      match CreateSport(name, description, insert)
      case Failure(e) => Failure(ErrorReply(e))
      case Ok(id) => Ok(Sport(id, SanitizeSportName(name).value, description))
  }

  /** The sport in the reply is the row that was inserted: its name is the
      stored one, and a lookup of the name as sent finds that name. */
  lemma CreateRepliesStoredRow(name: string, description: string, insert: (string, string) -> Result<string, Error>)
    requires name != "" && CreateSportHandler(Some((name, description)), insert).Ok?
    ensures var sport := CreateSportHandler(Some((name, description)), insert).value;
            insert(sport.name, description) == Ok(sport.id)
            && SanitizeSportName(name) == Ok(sport.name)
            && SanitizeSportName(sport.name) == Ok(sport.name)
  {
    SanitizeIdempotent(name);
  }

  /** GetSportByNameHandler: an empty path name is a 400; otherwise the
      repository's answer. */
  function GetSportByNameHandler(name: string, lookup: string -> RowResult<Sport>): (r: Result<Sport, Response>)
    ensures name == "" ==> r == Failure(Response(400, "Sport name is required"))
    ensures r.Ok? <==> name != "" && GetSportByName(name, lookup).Ok?
    ensures r.Ok? ==> r.value == GetSportByName(name, lookup).value
    ensures name != "" && GetSportByName(name, lookup).Failure? ==>
              r == Failure(ErrorReply(GetSportByName(name, lookup).error))
  {
    if name == "" then Failure(Response(400, "Sport name is required"))
    else match GetSportByName(name, lookup)
      case Failure(e) => Failure(ErrorReply(e))
      case Ok(s) => Ok(s)
  }
}
