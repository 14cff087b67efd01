/** The achievement handlers (internals/handlers/achievement_handlers.go):
    the date check, the ownership guard every per-achievement operation
    shares, the update merge, and the certificate rules.  Repository and S3
    calls are inputs; what a handler writes or deletes is part of its
    result. */
module AchievementHandlers {
  import opened Wrappers
  import opened GoStrings
  import opened Errors
  import opened Http

  /** An achievement; `stats` is the free-form JSON value (None for null). */
  datatype Achievement = Achievement(id: string, userId: string, date: string, sportId: string, tournament: string,
                                     description: string, level: string, stats: Option<string>,
                                     certificateUrl: Option<string>)

  // ----------------------------------------------------------------- dates

  predicate IsLeapYear(y: int) { y % 4 == 0 && (y % 100 != 0 || y % 400 == 0) }

  function DaysIn(month: int, year: int): (d: int)
    requires 1 <= month <= 12
    ensures 28 <= d <= 31
    ensures month == 2 ==> (d == 29 <==> IsLeapYear(year))
  {
    if month == 2 then (if IsLeapYear(year) then 29 else 28)
    else if month == 4 || month == 6 || month == 9 || month == 11 then 30
    else 31
  }

  /** The value of the decimal digits s[i..j]. */
  function DigitsAt(s: string, i: nat, j: nat): nat
    requires i <= j <= |s| && AllDigits(s[i..j])
  {
    DigitsValue(s[i..j])
  }

  /** time.Parse with the layout "2006-01-02": four year digits, a dash, a
      two-digit month 01..12, a dash, a two-digit day that exists in that
      month of that year, and nothing else. */
  predicate IsDate(s: string)
  {
    |s| == 10 && s[4] == '-' && s[7] == '-'
    && AllDigits(s[0..4]) && AllDigits(s[5..7]) && AllDigits(s[8..10])
    && 1 <= DigitsAt(s, 5, 7) <= 12
    && 1 <= DigitsAt(s, 8, 10) <= DaysIn(DigitsAt(s, 5, 7), DigitsAt(s, 0, 4))
  }

  /** The check rejects the day after the end of February outside leap
      years and accepts it in them. */
  lemma LeapDays()
    ensures IsDate("2024-02-29") && !IsDate("2023-02-29")
    ensures !IsDate("2024-2-29") && !IsDate("2024-13-01") && !IsDate("")
  {
    LeapDayAccepted();
    NonLeapDayRejected();
    MonthThirteenRejected();
  }

  lemma LeapDayAccepted()
    ensures IsDate("2024-02-29")
  {
    var s := "2024-02-29";
    assert s[0..4] == "2024" && s[5..7] == "02" && s[8..10] == "29";
    assert DigitsValue("2024") == 2024 by { assert "2024"[..3] == "202"; assert "202"[..2] == "20"; assert "20"[..1] == "2"; }
    assert DigitsValue("02") == 2 by { assert "02"[..1] == "0"; }
    assert DigitsValue("29") == 29 by { assert "29"[..1] == "2"; }
    assert DigitsAt(s, 0, 4) == 2024 && DigitsAt(s, 5, 7) == 2 && DigitsAt(s, 8, 10) == 29;
    assert DaysIn(2, 2024) == 29;
  }

  lemma NonLeapDayRejected()
    ensures !IsDate("2023-02-29")
  {
    var s := "2023-02-29";
    assert s[0..4] == "2023" && s[5..7] == "02" && s[8..10] == "29";
    assert DigitsValue("2023") == 2023 by { assert "2023"[..3] == "202"; assert "202"[..2] == "20"; assert "20"[..1] == "2"; }
    assert DigitsValue("02") == 2 by { assert "02"[..1] == "0"; }
    assert DigitsValue("29") == 29 by { assert "29"[..1] == "2"; }
    assert DigitsAt(s, 0, 4) == 2023 && DigitsAt(s, 5, 7) == 2 && DigitsAt(s, 8, 10) == 29;
    assert DaysIn(2, 2023) == 28;
  }

  lemma MonthThirteenRejected()
    ensures !IsDate("2024-13-01")
  {
    assert DigitsValue("13") == 13 by { assert "13"[..1] == "1"; }
    assert "2024-13-01"[5..7] == "13";
  }

  const DateFormatError := Response(400, "Invalid date format. Use YYYY-MM-DD")

  // ---------------------------------------------------------------- guards

  /** What `c.Get("userID")` yields: nothing, a non-string, or an id. */
  datatype Caller = NoCaller | NotAString | Caller(id: string)

  function CallerId(c: Caller): (r: Result<string, Response>)
    ensures r.Ok? <==> c.Caller?
    ensures r.Ok? ==> r.value == c.id
    ensures r.Failure? ==> r.error.status == 401
  {
    match c
    case NoCaller => Failure(Response(401, "User ID not found in token"))
    case NotAString => Failure(Response(401, "Invalid user ID format"))
    case Caller(id) => Ok(id)
  }

  /** The guard of every per-achievement handler: a caller, an id, (for
      update) a body, any lookup error as 404, then 403 unless the caller
      owns the achievement. */
  function OwnedAchievement(c: Caller, achievementId: string, body: Result<(), string>,
                            found: Result<Achievement, Error>, forbidden: string)
    : (r: Result<Achievement, Response>)
    ensures r.Ok? <==> c.Caller? && achievementId != "" && body.Ok? && found.Ok? && found.value.userId == c.id
    ensures r.Ok? ==> r.value == found.value
    ensures c.Caller? && achievementId != "" && body.Ok? && found.Failure? ==>
              r == Failure(Response(404, "Achievement not found"))
    ensures c.Caller? && achievementId != "" && body.Ok? && found.Ok? && found.value.userId != c.id ==>
              r == Failure(Response(403, forbidden))
  {
    match CallerId(c)
    case Failure(resp) => Failure(resp)
    case Ok(userId) =>
      if achievementId == "" then Failure(Response(400, "Achievement ID is required"))
      else if body.Failure? then Failure(Response(400, "Invalid request body: " + body.error))
      else match found
        case Failure(_) => Failure(Response(404, "Achievement not found"))
        case Ok(a) => if a.userId != userId then Failure(Response(403, forbidden)) else Ok(a)
  }

  // ------------------------------------------------------ create and read

  datatype CreateRequest = CreateRequest(date: string, sportId: string, tournamentTitle: string, description: string,
                                         level: string, stats: Option<string>)

  /** gin's binding: the four `binding:"required"` strings must be
      non-empty. */
  predicate BindsCreate(req: CreateRequest)
  {
    req.date != "" && req.sportId != "" && req.tournamentTitle != "" && req.level != ""
  }

  /** CreateAchievement; the second component is the achievement stored. */
  function CreateAchievementHandler(c: Caller, body: Option<CreateRequest>, bindError: string,
                                    createErr: Option<Error>, newId: string)
    : (r: (Response, Option<Achievement>))
    ensures r.1.Some? <==> c.Caller? && body.Some? && BindsCreate(body.value) && IsDate(body.value.date)
    ensures c.Caller? && body.Some? && BindsCreate(body.value) && !IsDate(body.value.date) ==> r.0 == DateFormatError
    ensures r.1.Some? ==>
              var req := body.value;
              r.1.value == Achievement(newId, c.id, req.date, req.sportId, req.tournamentTitle, req.description,
                                       req.level, req.stats, None)
    ensures r.0.status == 201 <==> r.1.Some? && createErr.None?
  {
    match CallerId(c)
    case Failure(resp) => (resp, None)
    case Ok(userId) =>
      if body.None? || !BindsCreate(body.value) then (Response(400, "Invalid request body: " + bindError), None)
      else if !IsDate(body.value.date) then (DateFormatError, None)
      else
        var req := body.value;
        var a := Achievement(newId, userId, req.date, req.sportId, req.tournamentTitle, req.description,
                             req.level, req.stats, None);
        if createErr.Some? then (Response(500, "Failed to create achievement"), Some(a))
        else (Response(201, "achievement"), Some(a))
  }

  /** GetUserAchievements: the caller's own achievements. */
  function GetUserAchievementsHandler(c: Caller, list: string -> Result<seq<Achievement>, Error>)
    : (r: (Response, Option<seq<Achievement>>))
    ensures r.1.Some? <==> c.Caller? && list(c.id).Ok?
    ensures r.1.Some? ==> r.1.value == list(c.id).value && r.0.status == 200
    ensures c.Caller? && list(c.id).Failure? ==> r.0 == Response(500, "Failed to fetch achievements")
  {
    match CallerId(c)
    case Failure(resp) => (resp, None)
    case Ok(userId) =>
      match list(userId)
      case Failure(_) => (Response(500, "Failed to fetch achievements"), None)
      case Ok(all) => (Response(200, "achievements"), Some(all))
  }

  /** GetAchievementByID: only the owner sees it. */
  function GetAchievementHandler(c: Caller, achievementId: string, found: Result<Achievement, Error>)
    : (r: (Response, Option<Achievement>))
    ensures r.1.Some? <==>
              OwnedAchievement(c, achievementId, Ok(()), found, "You can only access your own achievements").Ok?
    ensures r.1.Some? ==> r.1 == Some(found.value) && found.value.userId == c.id && r.0.status == 200
  {
    match OwnedAchievement(c, achievementId, Ok(()), found, "You can only access your own achievements")
    case Failure(resp) => (resp, None)
    case Ok(a) => (Response(200, "achievement"), Some(a))
  }

  // ---------------------------------------------------------------- update

  /** An UpdateAchievementRequest: "" and None for what the client leaves
      out. */
  datatype UpdateRequest = UpdateRequest(date: string, sportId: string, tournamentTitle: string, description: string,
                                         level: string, stats: Option<string>)

  const NoChange := UpdateRequest("", "", "", "", "", None)

  /** The merge: a date only when given and valid, other strings only when
      non-empty, stats only when non-null; the owner, the id and the
      certificate never change.  A given date that is not a date fails. */
  function MergeAchievement(a: Achievement, u: UpdateRequest): (r: Result<Achievement, Response>)
    ensures r.Failure? <==> u.date != "" && !IsDate(u.date)
    ensures r.Failure? ==> r.error == DateFormatError
    ensures r.Ok? ==>
              r.value.id == a.id && r.value.userId == a.userId && r.value.certificateUrl == a.certificateUrl
              && r.value.date == (if u.date != "" then u.date else a.date)
              && r.value.sportId == (if u.sportId != "" then u.sportId else a.sportId)
              && r.value.tournament == (if u.tournamentTitle != "" then u.tournamentTitle else a.tournament)
              && r.value.description == (if u.description != "" then u.description else a.description)
              && r.value.level == (if u.level != "" then u.level else a.level)
              && r.value.stats == (if u.stats.Some? then u.stats else a.stats)
  {
    if u.date != "" && !IsDate(u.date) then Failure(DateFormatError)
    else
      Ok(a.(date := if u.date != "" then u.date else a.date,
            sportId := if u.sportId != "" then u.sportId else a.sportId,
            tournament := if u.tournamentTitle != "" then u.tournamentTitle else a.tournament,
            description := if u.description != "" then u.description else a.description,
            level := if u.level != "" then u.level else a.level,
            stats := if u.stats.Some? then u.stats else a.stats))
  }

  /** An empty request changes nothing even when the stored date is not a
      date, and a merge applied twice is applied once. */
  lemma MergeLaws(a: Achievement, u: UpdateRequest)
    ensures MergeAchievement(a, NoChange) == Ok(a)
    ensures MergeAchievement(a, u).Ok? ==>
              MergeAchievement(MergeAchievement(a, u).value, u) == MergeAchievement(a, u)
  {
  }

  /** UpdateAchievement: the second component is the achievement written. */
  function UpdateAchievementHandler(c: Caller, achievementId: string, body: Result<UpdateRequest, string>,
                                    found: Result<Achievement, Error>, updateErr: Option<Error>)
    : (r: (Response, Option<Achievement>))
    ensures r.1.Some? <==>
              OwnedAchievement(c, achievementId, if body.Ok? then Ok(()) else Failure(body.error), found,
                               "You can only update your own achievements").Ok?
              && MergeAchievement(found.value, body.value).Ok?
    ensures r.1.Some? ==> r.1.value == MergeAchievement(found.value, body.value).value && found.value.userId == c.id
    ensures r.0.status == 200 <==> r.1.Some? && updateErr.None?
  {
    match OwnedAchievement(c, achievementId, if body.Ok? then Ok(()) else Failure(body.error), found,
                           "You can only update your own achievements")
    case Failure(resp) => (resp, None)
    case Ok(a) =>
      match MergeAchievement(a, body.value)
      case Failure(resp) => (resp, None)
      case Ok(merged) =>
        if updateErr.Some? then (Response(500, "Failed to update achievement"), Some(merged))
        else (Response(200, "achievement"), Some(merged))
  }

  // ------------------------------------------------------------ deletion

  /** The certificate an achievement points to, if any ("" counts as none). */
  function Certificate(a: Achievement): (r: Option<string>)
    ensures r.Some? <==> a.certificateUrl.Some? && a.certificateUrl.value != ""
    ensures r.Some? ==> r == a.certificateUrl
  {
    if a.certificateUrl.Some? && a.certificateUrl.value != "" then a.certificateUrl else None
  }

  /** The side effects of a handler: the S3 objects it deleted (their
      deletion errors only logged), and whether the row was deleted. */
  datatype DeleteEffects = DeleteEffects(s3Deleted: seq<string>, rowDeleted: bool)

  /** DeleteAchievement: the certificate is deleted from S3 first, and the
      row is deleted whatever S3 answered. */
  function DeleteAchievementHandler(c: Caller, achievementId: string, found: Result<Achievement, Error>,
                                    deleteErr: Option<Error>)
    : (r: (Response, DeleteEffects))
    ensures r.1.rowDeleted <==>
              OwnedAchievement(c, achievementId, Ok(()), found, "You can only delete your own achievements").Ok?
    ensures r.1.rowDeleted ==> found.value.userId == c.id
    ensures r.1.rowDeleted ==> r.1.s3Deleted == (if Certificate(found.value).Some? then [Certificate(found.value).value] else [])
    ensures !r.1.rowDeleted ==> r.1.s3Deleted == []
    ensures r.0.status == 200 <==> r.1.rowDeleted && deleteErr.None?
  {
    match OwnedAchievement(c, achievementId, Ok(()), found, "You can only delete your own achievements")
    case Failure(resp) => (resp, DeleteEffects([], false))
    case Ok(a) =>
      var s3 := if Certificate(a).Some? then [Certificate(a).value] else [];
      if deleteErr.Some? then (Response(500, "Failed to delete achievement"), DeleteEffects(s3, true))
      else (Response(200, "Achievement deleted successfully"), DeleteEffects(s3, true))
  }

  // ---------------------------------------------------------- certificates

  const MaxCertificateSize := 10 * 1024 * 1024

  /** The uploaded form file: its size in bytes. */
  datatype Upload = Upload(size: int)

  /** What UploadCertificate did: S3 deletions, whether it uploaded, and
      the achievement written. */
  datatype CertificateEffects = CertificateEffects(s3Deleted: seq<string>, uploaded: bool, written: Option<Achievement>)

  const NoEffects := CertificateEffects([], false, None)

  /** UploadCertificate.  `upload` is S3's URL or error, `updateErr` the
      UPDATE's error.  The previous certificate is deleted before the
      upload, even when the upload then fails; a failed UPDATE deletes the
      new object again. */
  function UploadCertificateHandler(c: Caller, achievementId: string, found: Result<Achievement, Error>,
                                    file: Option<Upload>, upload: Result<string, Error>, updateErr: Option<Error>)
    : (r: (Response, CertificateEffects))
    ensures var guard := OwnedAchievement(c, achievementId, Ok(()), found,
                                          "You can only upload certificates for your own achievements");
            r.1 != NoEffects ==> guard.Ok? && file.Some? && file.value.size <= MaxCertificateSize
    ensures OwnedAchievement(c, achievementId, Ok(()), found,
                             "You can only upload certificates for your own achievements").Ok?
            && file.Some? && file.value.size > MaxCertificateSize ==>
              r == (Response(400, "File size must be less than 10MB"), NoEffects)
    ensures r.1.written.Some? ==>
              upload.Ok? && r.1.written.value == found.value.(certificateUrl := Some(upload.value))
    ensures r.1.uploaded ==> r.1.written.Some?
    ensures r.0.status == 200 <==> r.1.written.Some? && updateErr.None?
    ensures r.0.status == 200 ==> r.0.message == upload.value
    ensures r.1.written.Some? && updateErr.Some? ==>
              |r.1.s3Deleted| > 0 && r.1.s3Deleted[|r.1.s3Deleted| - 1] == upload.value
    ensures var guard := OwnedAchievement(c, achievementId, Ok(()), found,
                                          "You can only upload certificates for your own achievements");
            guard.Ok? && file.None? ==> r == (Response(400, "No file provided or invalid file"), NoEffects)
    ensures var guard := OwnedAchievement(c, achievementId, Ok(()), found,
                                          "You can only upload certificates for your own achievements");
            guard.Ok? && file.Some? && file.value.size <= MaxCertificateSize ==>
              r.1.uploaded == upload.Ok?
              && (upload.Ok? ==> r.1.written == Some(found.value.(certificateUrl := Some(upload.value))))
              && (upload.Failure? ==>
                    r.0 == Response(500, "Failed to upload certificate: " + upload.error.Message()))
              && r.1.s3Deleted == (if Certificate(found.value).Some? then [Certificate(found.value).value] else [])
                                  + (if upload.Ok? && updateErr.Some? then [upload.value] else [])
  {
    match OwnedAchievement(c, achievementId, Ok(()), found,
                           "You can only upload certificates for your own achievements")
    case Failure(resp) => (resp, NoEffects)
    case Ok(a) =>
      if file.None? then (Response(400, "No file provided or invalid file"), NoEffects)
      else if file.value.size > MaxCertificateSize then (Response(400, "File size must be less than 10MB"), NoEffects)
      else
        var previous := if Certificate(a).Some? then [Certificate(a).value] else [];
        match upload
        case Failure(e) =>
          (Response(500, "Failed to upload certificate: " + e.Message()), CertificateEffects(previous, false, None))
        case Ok(url) =>
          var updated := a.(certificateUrl := Some(url));
          if updateErr.Some? then
            (Response(500, "Failed to update achievement with certificate URL"),
             CertificateEffects(previous + [url], true, Some(updated)))
          else (Response(200, url), CertificateEffects(previous, true, Some(updated)))
  }

  /** DeleteCertificate: 404 without a certificate; the S3 delete must
      succeed before the URL is cleared. */
  function DeleteCertificateHandler(c: Caller, achievementId: string, found: Result<Achievement, Error>,
                                    s3Err: Option<Error>, updateErr: Option<Error>)
    : (r: (Response, CertificateEffects))
    ensures var guard := OwnedAchievement(c, achievementId, Ok(()), found,
                                          "You can only delete certificates for your own achievements");
            guard.Ok? && Certificate(found.value).None? ==>
              r == (Response(404, "No certificate found for this achievement"), NoEffects)
    ensures r.1.s3Deleted != [] ==>
              c.Caller? && found.Ok? && found.value.userId == c.id && Certificate(found.value).Some?
              && r.1.s3Deleted == [Certificate(found.value).value]
    ensures var guard := OwnedAchievement(c, achievementId, Ok(()), found,
                                          "You can only delete certificates for your own achievements");
            guard.Ok? && Certificate(found.value).Some? ==>
              r.1.s3Deleted == [Certificate(found.value).value]
              && (s3Err.Some? ==> r == (Response(500, "Failed to delete certificate from storage"),
                                        CertificateEffects(r.1.s3Deleted, false, None)))
    ensures r.1.written.Some? <==> r.1.s3Deleted != [] && s3Err.None?
    ensures r.1.written.Some? ==> found.Ok? && r.1.written.value == found.value.(certificateUrl := None)
    ensures r.0.status == 200 <==> r.1.written.Some? && updateErr.None?
    ensures !r.1.uploaded
  {
    match OwnedAchievement(c, achievementId, Ok(()), found,
                           "You can only delete certificates for your own achievements")
    case Failure(resp) => (resp, NoEffects)
    case Ok(a) =>
      match Certificate(a)
      case None => (Response(404, "No certificate found for this achievement"), NoEffects)
      case Some(url) =>
        if s3Err.Some? then (Response(500, "Failed to delete certificate from storage"), CertificateEffects([url], false, None))
        else if updateErr.Some? then
          (Response(500, "Failed to update achievement record"), CertificateEffects([url], false, Some(a.(certificateUrl := None))))
        else (Response(200, "Certificate deleted successfully"), CertificateEffects([url], false, Some(a.(certificateUrl := None))))
  }

  /** Deleting a certificate twice: once the first delete is written, the
      second finds no certificate and touches nothing. */
  lemma DeleteCertificateTwice(c: Caller, achievementId: string, a: Achievement)
    requires DeleteCertificateHandler(c, achievementId, Ok(a), None, None).0.status == 200
    ensures var after := DeleteCertificateHandler(c, achievementId, Ok(a), None, None).1.written.value;
            DeleteCertificateHandler(c, achievementId, Ok(after), None, None)
              == (Response(404, "No certificate found for this achievement"), NoEffects)
  {
  }

  /** An uploaded certificate is the one a later delete removes. */
  lemma UploadThenDelete(c: Caller, achievementId: string, a: Achievement, file: Upload, url: string)
    requires UploadCertificateHandler(c, achievementId, Ok(a), Some(file), Ok(url), None).0.status == 200
    requires url != ""
    ensures var after := UploadCertificateHandler(c, achievementId, Ok(a), Some(file), Ok(url), None).1.written.value;
            DeleteCertificateHandler(c, achievementId, Ok(after), None, None).1.s3Deleted == [url]
  {
  }
}
