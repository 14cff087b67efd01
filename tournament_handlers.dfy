/** The tournament handlers (internals/handlers/tournament_handlers.go): the
    create form's checks and defaults, the list filter and its in-memory
    page, the host-only update merge, and the participation rules.  Each
    repository and S3 call is an input; enum fields arrive as the raw
    strings the handlers convert without checking them. */
module TournamentHandlers {
  import opened Wrappers
  import opened GoStrings
  import opened Errors
  import opened Http
  import opened ModelTypes

  const ErrNotAuthenticated := Response(401, "User not authenticated")
  const ErrTournamentNotFound := Response(404, "Tournament not found")
  const ErrRetrieveTournament := Response(500, "Failed to retrieve tournament")

  datatype Tournament = Tournament(
    id: string, hostId: string, title: string, description: Option<string>, location: string,
    sportId: string, minAge: Option<int>, maxAge: Option<int>, level: Option<string>,
    gender: Option<string>, country: Option<string>, status: Option<string>,
    startDate: string, endDate: string, bannerUrl: Option<string>)

  // --------------------------------------------------------------- create

  /** The required form fields, in the order they are checked, with the
      label of their error message. */
  const RequiredFields: seq<(string, string)> :=
    [("title", "Title"), ("location", "Location"), ("sport_id", "Sport ID"),
     ("start_date", "Start date"), ("end_date", "End date")]

  /** The first required field the form leaves empty. */
  function FirstMissing(form: Query, fields: seq<(string, string)>): (r: Option<(string, string)>)
    ensures r.None? <==> forall i :: 0 <= i < |fields| ==> Param(form, fields[i].0) != ""
    ensures r.Some? ==> exists i :: 0 <= i < |fields| && r.value == fields[i] && Param(form, fields[i].0) == ""
                                  && forall j :: 0 <= j < i ==> Param(form, fields[j].0) != ""
  {
    if |fields| == 0 then None
    else if Param(form, fields[0].0) == "" then Some(fields[0])
    else
      var r := FirstMissing(form, fields[1..]);
      if r.Some? then
        var i :| 0 <= i < |fields[1..]| && r.value == fields[1..][i] && Param(form, fields[1..][i].0) == ""
                 && forall j :: 0 <= j < i ==> Param(form, fields[1..][j].0) != "";
        assert r.value == fields[i + 1];
        r
      else r
  }

  /** The optional banner: whether it opens, and S3's answer. */
  datatype Banner = Banner(openErr: Option<Error>, upload: Result<string, Error>)

  /** What a create did: the reply, the tournament written, and the banner
      URL removed again from S3 after a failed insert. */
  datatype CreateOutcome = CreateOutcome(resp: Response, created: Option<Tournament>, removedBanner: Option<string>)

  /** The tournament the form describes: description and country are always
      set (possibly to ""), ages only when they parse, an absent status is
      "scheduled", other enum strings are taken as given. */
  function FormTournament(hostId: string, form: Query, bannerUrl: Option<string>): (t: Tournament)
    ensures t.hostId == hostId && t.bannerUrl == bannerUrl
    ensures t.title == Param(form, "title") && t.location == Param(form, "location")
    ensures t.sportId == Param(form, "sport_id")
    ensures t.startDate == Param(form, "start_date") && t.endDate == Param(form, "end_date")
    ensures t.description == Some(Param(form, "description")) && t.country == Some(Param(form, "country"))
    ensures t.status == Some(if Param(form, "status") == "" then Scheduled.Name() else Param(form, "status"))
    ensures t.minAge == Atoi(Param(form, "min_age")) && t.maxAge == Atoi(Param(form, "max_age"))
    ensures t.level.None? <==> Param(form, "level") == ""
    ensures t.gender.None? <==> Param(form, "gender") == ""
  {
    Tournament("", hostId, Param(form, "title"), Some(Param(form, "description")), Param(form, "location"),
               Param(form, "sport_id"), Atoi(Param(form, "min_age")), Atoi(Param(form, "max_age")),
               if Param(form, "level") == "" then None else Some(Param(form, "level")),
               if Param(form, "gender") == "" then None else Some(Param(form, "gender")),
               Some(Param(form, "country")),
               Some(if Param(form, "status") == "" then Scheduled.Name() else Param(form, "status")),
               Param(form, "start_date"), Param(form, "end_date"), bannerUrl)
  }

  /** CreateTournamentHandler.  `insertErr` is CreateTournament's error and
      `newId` the id it assigns. */
  function CreateTournamentHandler(userId: Option<string>, form: Query, banner: Option<Banner>,
                                   insertErr: Option<Error>, newId: string): (r: CreateOutcome)
    ensures userId.None? ==> r == CreateOutcome(ErrNotAuthenticated, None, None)
    ensures userId == Some("") ==> r == CreateOutcome(Response(401, "Invalid user ID"), None, None)
    ensures userId.Some? && userId.value != "" && FirstMissing(form, RequiredFields).Some? ==>
              r == CreateOutcome(Response(400, FirstMissing(form, RequiredFields).value.1 + " is required"), None, None)
    ensures r.created.Some? ==>
              userId.Some? && userId.value != "" && FirstMissing(form, RequiredFields).None? && insertErr.None?
              && r.resp.status == 201
              && r.created.value == FormTournament(userId.value, form, BannerUrl(banner)).(id := newId)
    ensures r.removedBanner.Some? ==> insertErr.Some? && r.removedBanner == BannerUrl(banner)
    ensures r.resp.status == 201 <==> r.created.Some?
    ensures userId.Some? && userId.value != "" && FirstMissing(form, RequiredFields).None?
            && (banner.None? || BannerUrl(banner).Some?) ==>
              (r.created.Some? <==> insertErr.None?)
              && (insertErr.Some? ==>
                    r == CreateOutcome(Response(500, "Failed to create tournament"), None, BannerUrl(banner)))
  {
    if userId.None? then CreateOutcome(ErrNotAuthenticated, None, None)
    else if userId.value == "" then CreateOutcome(Response(401, "Invalid user ID"), None, None)
    else match FirstMissing(form, RequiredFields)
      case Some(missing) => CreateOutcome(Response(400, missing.1 + " is required"), None, None)
      case None =>
        if banner.Some? && banner.value.openErr.Some? then
          CreateOutcome(Response(400, "Failed to open banner image"), None, None)
        else if banner.Some? && banner.value.upload.Failure? then
          CreateOutcome(Response(500, "Failed to upload banner image"), None, None)
        else if insertErr.Some? then
          CreateOutcome(Response(500, "Failed to create tournament"), None, BannerUrl(banner))
        else
          CreateOutcome(Response(201, "tournament"), Some(FormTournament(userId.value, form, BannerUrl(banner)).(id := newId)), None)
  }

  /** The banner URL a create stores: S3's URL when the banner uploaded. */
  function BannerUrl(banner: Option<Banner>): (r: Option<string>)
    ensures r.Some? <==> banner.Some? && banner.value.openErr.None? && banner.value.upload.Ok?
  {
    if banner.Some? && banner.value.openErr.None? && banner.value.upload.Ok? then Some(banner.value.upload.value)
    else None
  }

  /** A created tournament always has all five required fields and a
      status, and its host is the caller. */
  lemma CreatedIsComplete(userId: Option<string>, form: Query, banner: Option<Banner>, insertErr: Option<Error>,
                          newId: string)
    ensures var r := CreateTournamentHandler(userId, form, banner, insertErr, newId);
            r.created.Some? ==>
              r.created.value.title != "" && r.created.value.location != "" && r.created.value.sportId != ""
              && r.created.value.startDate != "" && r.created.value.endDate != ""
              && r.created.value.status.Some? && r.created.value.status.value != ""
              && r.created.value.hostId == userId.value
  {
    var r := CreateTournamentHandler(userId, form, banner, insertErr, newId);
    if r.created.Some? {
      assert forall i :: 0 <= i < |RequiredFields| ==> Param(form, RequiredFields[i].0) != "";
      assert Param(form, RequiredFields[0].0) != "" && Param(form, RequiredFields[1].0) != "";
      assert Param(form, RequiredFields[2].0) != "" && Param(form, RequiredFields[3].0) != "";
      assert Param(form, RequiredFields[4].0) != "";
    }
  }

  /** The fields are checked in order: a missing title is reported whatever
      else is missing. */
  lemma TitleCheckedFirst(form: Query)
    requires Param(form, "title") == ""
    ensures FirstMissing(form, RequiredFields) == Some(("title", "Title"))
  {
  }

  // ----------------------------------------------------------------- list

  /** The repository list a GetTournaments request asks for. */
  datatype TournamentFilter = ByHost(hostId: string) | BySport(sportId: string) | ByStatus(status: string) | AllTournaments

  /** host_id wins over sport_id, which wins over status. */
  function FilterOf(q: Query): (f: TournamentFilter)
    ensures Param(q, "host_id") != "" ==> f == ByHost(Param(q, "host_id"))
    ensures Param(q, "host_id") == "" && Param(q, "sport_id") != "" ==> f == BySport(Param(q, "sport_id"))
    ensures Param(q, "host_id") == "" && Param(q, "sport_id") == "" && Param(q, "status") != "" ==>
              f == ByStatus(Param(q, "status"))
    ensures f == AllTournaments <==> Param(q, "host_id") == "" && Param(q, "sport_id") == "" && Param(q, "status") == ""
  {
    if Param(q, "host_id") != "" then ByHost(Param(q, "host_id"))
    else if Param(q, "sport_id") != "" then BySport(Param(q, "sport_id"))
    else if Param(q, "status") != "" then ByStatus(Param(q, "status"))
    else AllTournaments
  }

  /** The index of a page's first item, `(page - 1) * limit`. */
  function PageStart(page: int, limit: int): (start: int)
    ensures page >= 1 && limit >= 0 ==> start >= 0
    ensures page == 1 ==> start == 0
  {
    (page - 1) * limit
  }

  /** The page the list handler slices out of the full list, with Go's
      slice rules: None where `items[start:]` or `items[start:end]` panics
      (a negative start, or an end before the start). */
  function PageSlice<T>(items: seq<T>, page: int, limit: int): (r: Option<seq<T>>)
    ensures var start := PageStart(page, limit);
            r.None? <==> start <= |items| && (start < 0 || limit < 0)
    ensures page >= 1 && limit >= 0 ==>
              var start := PageStart(page, limit);
              r.Some? && |r.value| <= limit
              && r.value == items[Min(start, |items|)..Min(start + limit, |items|)]
  {
    var start := PageStart(page, limit);
    var end := start + limit;
    if start > |items| then Some([])
    else if end > |items| then (if start < 0 then None else Some(items[start..]))
    else if start < 0 || end < start then None
    else Some(items[start..end])
  }

  /** The page and limit as written: `n, _ := strconv.Atoi(...)` with the
      defaults "1" and "10" and no range check. */
  function PageParamsAsWritten(q: Query): (r: (int, int))
    ensures r == (AtoiValue(DefaultParam(q, "page", "1")), AtoiValue(DefaultParam(q, "limit", "10")))
  {
    (AtoiValue(DefaultParam(q, "page", "1")), AtoiValue(DefaultParam(q, "limit", "10")))
  }

  /** As written, a page that does not parse reads as 0, so the start is
      negative and the slice panics on any list. */
  lemma UnparsablePagePanics<T>(items: seq<T>)
    ensures var (page, limit) := PageParamsAsWritten(map["page" := "first"]);
            page == 0 && limit == 10 && PageSlice(items, page, limit).None?
  {
    var q := map["page" := "first"];
    assert DefaultParam(q, "page", "1") == "first" && DefaultParam(q, "limit", "10") == "10";
    assert !AtoiSyntax("first");
    AtoiNatToString(10);
    assert NatToString(10) == "10";
    assert PageParamsAsWritten(q) == (0, 10);
  }

  /** As written, a negative limit on the first page panics too. */
  lemma NegativeLimitPanics<T>(items: seq<T>)
    ensures PageSlice(items, 1, -1).None?
  {
  }

  /** The intended page parameters: a page below 1 is the first page, a
      limit below 1 is the default 10. */
  function PageParams(q: Query): (r: (int, int))
    ensures r.0 >= 1 && r.1 >= 1
    ensures AtoiValue(DefaultParam(q, "page", "1")) >= 1 ==> r.0 == AtoiValue(DefaultParam(q, "page", "1"))
    ensures AtoiValue(DefaultParam(q, "limit", "10")) >= 1 ==> r.1 == AtoiValue(DefaultParam(q, "limit", "10"))
    ensures r.0 == Max(AtoiValue(DefaultParam(q, "page", "1")), 1)
  {
    var (page, limit) := PageParamsAsWritten(q);
    (if page < 1 then 1 else page, if limit < 1 then 10 else limit)
  }

  /** With the intended parameters the slice never panics and a page
      holds at most `limit` tournaments. */
  lemma PageParamsNeverPanic<T>(items: seq<T>, q: Query)
    ensures PageSlice(items, PageParams(q).0, PageParams(q).1).Some?
    ensures |PageSlice(items, PageParams(q).0, PageParams(q).1).value| <= PageParams(q).1
  {
  }

  /** The list reply: the page, the echoed page and limit, and "total",
      which is the length of the page, not of the full list. */
  datatype TournamentList<T> = TournamentList(tournaments: seq<T>, page: int, limit: int, total: int)

  /** The reply built from the full list with the corrected page
      parameters: the intended page of it. */
  function ListPage<T>(all: seq<T>, q: Query): (r: TournamentList<T>)
    ensures (r.page, r.limit) == PageParams(q)
    ensures var start := PageStart(r.page, r.limit);
            r.tournaments == all[Min(start, |all|)..Min(start + r.limit, |all|)]
    ensures r.total == |r.tournaments| <= r.limit
  {
    var page := PageParams(q).0;
    var limit := PageParams(q).1;
    var slice := PageSlice(all, page, limit);
    assert slice.Some? && |slice.value| <= limit;
    TournamentList(slice.value, page, limit, |slice.value|)
  }

  /** The reply as written, from the raw page and limit; None where the
      slice panics. */
  function ListPageAsWritten<T>(all: seq<T>, q: Query): (r: Option<TournamentList<T>>)
    ensures var (page, limit) := PageParamsAsWritten(q);
            r.Some? <==> PageSlice(all, page, limit).Some?
    ensures r.Some? ==>
              (r.value.page, r.value.limit) == PageParamsAsWritten(q)
              && r.value.tournaments == PageSlice(all, r.value.page, r.value.limit).value
              && r.value.total == |r.value.tournaments|
  {
    var (page, limit) := PageParamsAsWritten(q);
    match PageSlice(all, page, limit)
    case None => None
    case Some(slice) => Some(TournamentList(slice, page, limit, |slice|))
  }

  /** Where page and limit both parse to at least 1, the corrected reply is
      the one the source sends. */
  lemma ListPageAgrees<T>(all: seq<T>, q: Query)
    requires PageParamsAsWritten(q).0 >= 1 && PageParamsAsWritten(q).1 >= 1
    ensures ListPageAsWritten(all, q) == Some(ListPage(all, q))
  {
  }

  /** A limit of 0 does not panic in the source, which answers an empty
      page echoing limit 0; the corrected reply uses a limit of 10. */
  lemma ZeroLimitDiffers<T>(all: seq<T>)
    ensures var q := map["limit" := "0"];
            ListPageAsWritten(all, q).Some? && ListPageAsWritten(all, q).value.tournaments == []
            && ListPageAsWritten(all, q).value.limit == 0 && ListPage(all, q).limit == 10
  {
    var q := map["limit" := "0"];
    assert DefaultParam(q, "limit", "10") == "0" && DefaultParam(q, "page", "1") == "1";
    assert AtoiSyntax("0") && SignedValue("0") == 0;
    assert AtoiSyntax("1") && SignedValue("1") == 1;
  }

  /** GetTournamentsHandler as written: None stands for the slice panic. */
  function GetTournamentsHandlerAsWritten<T>(userId: Option<string>, q: Query,
                                             fetch: TournamentFilter -> Result<seq<T>, Error>)
    : (r: Option<(Response, Option<TournamentList<T>>)>)
    ensures userId.None? ==> r == Some((ErrNotAuthenticated, None))
    ensures userId.Some? && fetch(FilterOf(q)).Failure? ==> r == Some((Response(500, "Failed to retrieve tournaments"), None))
    ensures r.None? <==> userId.Some? && fetch(FilterOf(q)).Ok? && ListPageAsWritten(fetch(FilterOf(q)).value, q).None?
    ensures r.Some? && r.value.1.Some? ==>
              r.value.0.status == 200 && userId.Some? && fetch(FilterOf(q)).Ok?
              && r.value.1 == ListPageAsWritten(fetch(FilterOf(q)).value, q)
  {
    if userId.None? then Some((ErrNotAuthenticated, None))
    else match fetch(FilterOf(q))
      case Failure(_) => Some((Response(500, "Failed to retrieve tournaments"), None))
      case Ok(all) =>
        match ListPageAsWritten(all, q)
        case None => None
        case Some(list) => Some((Response(200, "tournaments"), Some(list)))
  }

  /** GetTournamentsHandler with the corrected page parameters.  `fetch`
      answers each repository list. */
  function GetTournamentsHandler<T>(userId: Option<string>, q: Query,
                                    fetch: TournamentFilter -> Result<seq<T>, Error>)
    : (r: (Response, Option<TournamentList<T>>))
    ensures userId.None? ==> r == (ErrNotAuthenticated, None)
    ensures r.1.Some? <==> userId.Some? && fetch(FilterOf(q)).Ok?
    ensures userId.Some? && fetch(FilterOf(q)).Failure? ==> r.0 == Response(500, "Failed to retrieve tournaments")
    ensures r.1.Some? ==> r.0.status == 200 && r.1.value == ListPage(fetch(FilterOf(q)).value, q)
  {
    if userId.None? then (ErrNotAuthenticated, None)
    else match fetch(FilterOf(q))
      case Failure(_) => (Response(500, "Failed to retrieve tournaments"), None)
      case Ok(all) => (Response(200, "tournaments"), Some(ListPage(all, q)))
  }

  /** A lookup's reply: ITEM_NOT_FOUND is a 404, any other error a 500. */
  function LookupReply(e: Error): (r: Response)
    ensures r == ErrTournamentNotFound <==> e == ITEM_NOT_FOUND
    ensures r.status == 404 || r == ErrRetrieveTournament
  {
    if e == ITEM_NOT_FOUND then ErrTournamentNotFound else ErrRetrieveTournament
  }

  /** GetTournamentByIDHandler. */
  function GetTournamentHandler<T>(userId: Option<string>, found: Result<T, Error>): (r: (Response, Option<T>))
    ensures userId.None? ==> r == (ErrNotAuthenticated, None)
    ensures r.1.Some? <==> userId.Some? && found.Ok?
    ensures r.1.Some? ==> r.0.status == 200 && r.1.value == found.value
    ensures userId.Some? && found.Failure? ==> r.0 == LookupReply(found.error)
  {
    if userId.None? then (ErrNotAuthenticated, None)
    else match found
      case Failure(e) => (LookupReply(e), None)
      case Ok(t) => (Response(200, "tournament"), Some(t))
  }

  // --------------------------------------------------------------- update

  /** An UpdateTournamentRequest: strings are "" and pointers None when the
      client leaves them out. */
  datatype TournamentUpdate = TournamentUpdate(
    title: string, description: Option<string>, location: string, sportId: string,
    minAge: Option<int>, maxAge: Option<int>, level: Option<string>, gender: Option<string>,
    country: Option<string>, status: Option<string>, startDate: string, endDate: string,
    bannerUrl: Option<string>)

  const NoChange := TournamentUpdate("", None, "", "", None, None, None, None, None, None, "", "", None)

  function OrString(given: string, current: string): string { if given != "" then given else current }
  function OrValue<T>(given: Option<T>, current: Option<T>): Option<T> { if given.Some? then given else current }

  /** The merge: a string is overwritten only by a non-empty value, a
      pointer only by a non-nil one; id and host never change. */
  function MergeTournament(t: Tournament, u: TournamentUpdate): (r: Tournament)
    ensures r.id == t.id && r.hostId == t.hostId
    ensures r.title == (if u.title != "" then u.title else t.title)
    ensures r.location == (if u.location != "" then u.location else t.location)
    ensures r.sportId == (if u.sportId != "" then u.sportId else t.sportId)
    ensures r.startDate == (if u.startDate != "" then u.startDate else t.startDate)
    ensures r.endDate == (if u.endDate != "" then u.endDate else t.endDate)
    ensures r.description == (if u.description.Some? then u.description else t.description)
    ensures r.minAge == (if u.minAge.Some? then u.minAge else t.minAge)
    ensures r.maxAge == (if u.maxAge.Some? then u.maxAge else t.maxAge)
    ensures r.level == (if u.level.Some? then u.level else t.level)
    ensures r.gender == (if u.gender.Some? then u.gender else t.gender)
    ensures r.country == (if u.country.Some? then u.country else t.country)
    ensures r.status == (if u.status.Some? then u.status else t.status)
    ensures r.bannerUrl == (if u.bannerUrl.Some? then u.bannerUrl else t.bannerUrl)
  {
    t.(title := OrString(u.title, t.title), description := OrValue(u.description, t.description),
       location := OrString(u.location, t.location), sportId := OrString(u.sportId, t.sportId),
       minAge := OrValue(u.minAge, t.minAge), maxAge := OrValue(u.maxAge, t.maxAge),
       level := OrValue(u.level, t.level), gender := OrValue(u.gender, t.gender),
       country := OrValue(u.country, t.country), status := OrValue(u.status, t.status),
       startDate := OrString(u.startDate, t.startDate), endDate := OrString(u.endDate, t.endDate),
       bannerUrl := OrValue(u.bannerUrl, t.bannerUrl))
  }

  /** An empty request changes nothing, and applying a request twice is
      the same as once. */
  lemma MergeLaws(t: Tournament, u: TournamentUpdate)
    ensures MergeTournament(t, NoChange) == t
    ensures MergeTournament(MergeTournament(t, u), u) == MergeTournament(t, u)
  {
  }

  /** The guard of update, delete and status changes: the tournament must
      exist and the caller must be its host. */
  function HostedTournament(userId: Option<string>, found: Result<Tournament, Error>, forbidden: string)
    : (r: Result<Tournament, Response>)
    ensures userId.None? ==> r == Failure(ErrNotAuthenticated)
    ensures r.Ok? <==> userId.Some? && found.Ok? && found.value.hostId == userId.value
    ensures r.Ok? ==> r.value == found.value
    ensures userId.Some? && found.Failure? ==> r == Failure(LookupReply(found.error))
    ensures userId.Some? && found.Ok? && found.value.hostId != userId.value ==> r == Failure(Response(403, forbidden))
  {
    if userId.None? then Failure(ErrNotAuthenticated)
    else match found
      case Failure(e) => Failure(LookupReply(e))
      case Ok(t) => if t.hostId != userId.value then Failure(Response(403, forbidden)) else Ok(t)
  }

  /** UpdateTournamentHandler: the body is bound before the caller is
      checked (`body` is None with gin's error text `bindError`); the second
      component is the tournament written. */
  function UpdateTournamentHandler(userId: Option<string>, body: Option<TournamentUpdate>, bindError: string,
                                   found: Result<Tournament, Error>, updateErr: Option<Error>)
    : (r: (Response, Option<Tournament>))
    ensures body.None? ==> r == (Response(400, "Invalid request format: " + bindError), None)
    ensures r.1.Some? <==>
              body.Some? && HostedTournament(userId, found, "Not authorized to update this tournament").Ok?
    ensures r.1.Some? ==> r.1.value == MergeTournament(found.value, body.value)
                          && r.1.value.hostId == userId.value
    ensures r.0.status == 200 <==> r.1.Some? && updateErr.None?
  {
    if body.None? then (Response(400, "Invalid request format: " + bindError), None)
    else match HostedTournament(userId, found, "Not authorized to update this tournament")
      case Failure(resp) => (resp, None)
      case Ok(t) =>
        var merged := MergeTournament(t, body.value);
        if updateErr.Some? then (Response(500, "Failed to update tournament"), Some(merged))
        else (Response(200, "tournament"), Some(merged))
  }

  /** DeleteTournamentHandler; the second component says whether the
      delete was issued. */
  function DeleteTournamentHandler(userId: Option<string>, found: Result<Tournament, Error>, deleteErr: Option<Error>)
    : (r: (Response, bool))
    ensures r.1 <==> HostedTournament(userId, found, "Not authorized to delete this tournament").Ok?
    ensures r.1 ==> found.value.hostId == userId.value
    ensures r.0.status == 200 <==> r.1 && deleteErr.None?
    ensures r.0.status == 200 ==> r.0.message == "Tournament deleted successfully"
  {
    match HostedTournament(userId, found, "Not authorized to delete this tournament")
    case Failure(resp) => (resp, false)
    case Ok(_) =>
      if deleteErr.Some? then (Response(500, "Failed to delete tournament"), true)
      else (Response(200, "Tournament deleted successfully"), true)
  }

  // ---------------------------------------------------------- participants

  datatype Participant = Participant(userId: string, tournamentId: string, status: ParticipationStatus)

  /** How the join request carries the tournament id: a JSON body (bound
      with `binding:"required"`) or a form field. */
  datatype JoinRequest = JoinJson(body: Option<string>, bindError: string) | JoinForm(tournamentId: string)

  function JoinTarget(req: JoinRequest): (r: Result<string, Response>)
    ensures r.Ok? ==> r.value != ""
    ensures r.Ok? <==> (req.JoinJson? && req.body.Some? && req.body.value != "")
                       || (req.JoinForm? && req.tournamentId != "")
  {
    match req
    case JoinJson(body, bindError) =>
      if body.None? || body.value == "" then Failure(Response(400, "Invalid request format: " + bindError))
      else Ok(body.value)
    case JoinForm(id) =>
      if id == "" then Failure(Response(400, "tournament_id is required")) else Ok(id)
  }

  const AlreadyRegistered := Response(400, "You are already registered for this tournament")

  /** JoinTournamentHandler.  `tournament` is the tournament lookup,
      `existing` the participant lookup (any error, not only "not found",
      lets the join go on), `addErr` the insert's error.  The second
      component is the participant inserted. */
  function JoinTournamentHandler<T>(req: JoinRequest, userId: Option<string>, tournament: string -> Result<T, Error>,
                                    existing: (string, string) -> Result<Participant, Error>, addErr: Option<Error>)
    : (r: (Response, Option<Participant>))
    ensures r.1.Some? <==> JoinTarget(req).Ok? && userId.Some? && tournament(JoinTarget(req).value).Ok?
                           && existing(userId.value, JoinTarget(req).value).Failure?
    ensures r.1.Some? ==> r.1.value == Participant(userId.value, JoinTarget(req).value, Pending)
    ensures (JoinTarget(req).Ok? && userId.Some? && tournament(JoinTarget(req).value).Ok?
             && existing(userId.value, JoinTarget(req).value).Ok?) ==> r == (AlreadyRegistered, None)
    ensures r.0.status == 201 <==> r.1.Some? && addErr.None?
  {
    match JoinTarget(req)
    case Failure(resp) => (resp, None)
    case Ok(id) =>
      if userId.None? then (ErrNotAuthenticated, None)
      else match tournament(id)
        case Failure(e) => (LookupReply(e), None)
        case Ok(_) =>
          if existing(userId.value, id).Ok? then (AlreadyRegistered, None)
          else
            var p := Participant(userId.value, id, Pending);
            if addErr.Some? then (Response(500, "Failed to join tournament"), Some(p))
            else (Response(201, "Successfully joined tournament. Your participation is pending approval."), Some(p))
  }

  /** The participant lookup answered from a table of participants. */
  function LookupIn(table: map<(string, string), Participant>): (string, string) -> Result<Participant, Error>
  {
    (u: string, t: string) => if (u, t) in table then Ok(table[(u, t)]) else Failure(ITEM_NOT_FOUND)
  }

  /** Joining twice: once the first join is recorded, the same request is
      answered with 400 and inserts nothing. */
  lemma JoinOnlyOnce<T>(req: JoinRequest, userId: Option<string>, tournament: string -> Result<T, Error>,
                        table: map<(string, string), Participant>)
    ensures var first := JoinTournamentHandler(req, userId, tournament, LookupIn(table), None);
            first.1.Some? ==>
              var table' := table[(userId.value, JoinTarget(req).value) := first.1.value];
              JoinTournamentHandler(req, userId, tournament, LookupIn(table'), None) == (AlreadyRegistered, None)
  {
  }

  /** LeaveTournamentHandler: removing a registration that does not exist is
      a 404. */
  function LeaveTournamentHandler(userId: Option<string>, removeErr: Option<Error>): (r: Response)
    ensures userId.None? ==> r == ErrNotAuthenticated
    ensures userId.Some? && removeErr == Some(ITEM_NOT_FOUND) ==>
              r == Response(404, "You are not registered for this tournament")
    ensures r.status == 200 <==> userId.Some? && removeErr.None?
  {
    if userId.None? then ErrNotAuthenticated
    else if removeErr.None? then Response(200, "Successfully left tournament")
    else if removeErr.value == ITEM_NOT_FOUND then Response(404, "You are not registered for this tournament")
    else Response(500, "Failed to leave tournament")
  }

  /** GetTournamentParticipantsHandler (public): a status filter only when
      given; None selects every participant. */
  function ParticipantsFilter(q: Query): (r: Option<string>)
    ensures r.None? <==> Param(q, "status") == ""
    ensures r.Some? ==> r.value == Param(q, "status")
  {
    if Param(q, "status") == "" then None else Some(Param(q, "status"))
  }

  datatype StatusChange = StatusChange(userId: string, status: string)

  /** UpdateParticipantStatusHandler: host-only; the second component is the
      change issued. */
  function UpdateParticipantStatusHandler(userId: Option<string>, body: Option<StatusChange>, bindError: string,
                                          found: Result<Tournament, Error>, updateErr: Option<Error>)
    : (r: (Response, Option<StatusChange>))
    ensures body.None? ==> r == (Response(400, "Invalid request format: " + bindError), None)
    ensures r.1.Some? <==> body.Some?
                           && HostedTournament(userId, found, "Not authorized to update participants for this tournament").Ok?
    ensures r.1.Some? ==> r.1 == body && found.value.hostId == userId.value
    ensures r.1.Some? && updateErr == Some(ITEM_NOT_FOUND) ==> r.0 == Response(404, "Participant not found")
    ensures r.0.status == 200 <==> r.1.Some? && updateErr.None?
  {
    if body.None? then (Response(400, "Invalid request format: " + bindError), None)
    else match HostedTournament(userId, found, "Not authorized to update participants for this tournament")
      case Failure(resp) => (resp, None)
      case Ok(_) =>
        if updateErr.None? then (Response(200, "Participant status updated successfully"), body)
        else if updateErr.value == ITEM_NOT_FOUND then (Response(404, "Participant not found"), body)
        else (Response(500, "Failed to update participant status"), body)
  }

  /** GetUserTournamentsHandler: the caller's own registrations. */
  function GetUserTournamentsHandler<T>(userId: Option<string>, list: string -> Result<seq<T>, Error>)
    : (r: (Response, Option<seq<T>>))
    ensures userId.None? ==> r == (ErrNotAuthenticated, None)
    ensures r.1.Some? <==> userId.Some? && list(userId.value).Ok?
    ensures r.1.Some? ==> r.1.value == list(userId.value).value && r.0.status == 200
  {
    if userId.None? then (ErrNotAuthenticated, None)
    else match list(userId.value)
      case Failure(_) => (Response(500, "Failed to retrieve user tournaments"), None)
      case Ok(ts) => (Response(200, "tournaments"), Some(ts))
  }
}
