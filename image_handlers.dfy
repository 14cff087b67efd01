/** The profile-picture handlers (internals/handlers/image_handlers.go):
    the token claims they need, the 5 MiB size limit, the `user_id`
    override and the normalisation of the `extension` query parameter.
    The S3 and repository calls are inputs. */
module ImageHandlers {
  import opened Wrappers
  import opened GoStrings
  import opened Errors
  import opened Http
  import opened S3

  /** A value the authentication middleware may have put in the context. */
  datatype Claim = Absent | NotAString | Present(value: string)

  const ErrNoUserId := Response(401, "User ID not found in token")
  const ErrUserIdFormat := Response(401, "Invalid user ID format")
  const MaxPictureSize := 5 * 1024 * 1024

  /** One claim: absent, then of the wrong type, are both 401. */
  function ClaimValue(c: Claim): (r: Result<string, Response>)
    ensures r.Ok? <==> c.Present?
    ensures r.Ok? ==> r.value == c.value
    ensures c.Absent? ==> r == Failure(ErrNoUserId)
    ensures c.NotAString? ==> r == Failure(ErrUserIdFormat)
  {
    match c
    case Absent => Failure(ErrNoUserId)
    case NotAString => Failure(ErrUserIdFormat)
    case Present(v) => Ok(v)
  }

  /** The upload needs both the user id and the e-mail: either absent is
      reported before either is found to be of the wrong type. */
  function UploadClaims(userId: Claim, email: Claim): (r: Result<(string, string), Response>)
    ensures r.Ok? <==> userId.Present? && email.Present?
    ensures r.Ok? ==> r.value == (userId.value, email.value)
    ensures userId.Absent? || email.Absent? ==> r == Failure(ErrNoUserId)
    ensures r.Failure? && !userId.Absent? && !email.Absent? ==> r == Failure(ErrUserIdFormat)
  {
    if userId.Absent? || email.Absent? then Failure(ErrNoUserId)
    else if !userId.Present? || !email.Present? then Failure(ErrUserIdFormat)
    else Ok((userId.value, email.value))
  }

  // ----------------------------------------------------------- extension

  /** The extension with a leading "." added when it lacks one. */
  function Dotted(ext: string): (r: string)
    ensures HasPrefix(r, ".")
    ensures HasPrefix(ext, ".") ==> r == ext
    ensures !HasPrefix(ext, ".") ==> r == "." + ext
  {
    if HasPrefix(ext, ".") then ext else "." + ext
  }

  /** Adding the dot twice is adding it once. */
  lemma DottedIdempotent(ext: string)
    ensures Dotted(Dotted(ext)) == Dotted(ext)
  {
  }

  /** The `extension` query parameter: ".jpg" when absent, then dotted. */
  function ExtensionParam(q: Query): (r: string)
    ensures HasPrefix(r, ".")
    ensures "extension" !in q ==> r == ".jpg"
    ensures "extension" in q ==> r == Dotted(q["extension"])
  {
    Dotted(DefaultParam(q, "extension", ".jpg"))
  }

  /** "png" and ".png" name the same object; a present but empty extension
      becomes ".". */
  lemma ExtensionExamples()
    ensures ExtensionParam(map["extension" := "png"]) == ".png"
    ensures ExtensionParam(map["extension" := ".png"]) == ".png"
    ensures ExtensionParam(map["extension" := ""]) == "."
    ensures ExtensionParam(map[]) == ".jpg"
  {
    assert HasPrefix(".png", ".");
    assert !HasPrefix("png", ".") by { assert "png"[..1][0] == 'p'; }
    assert !HasPrefix("", ".");
    assert HasPrefix(".jpg", ".");
  }

  // -------------------------------------------------------------- upload

  /** A multipart file: its name and its size in bytes. */
  datatype FileHeader = FileHeader(filename: string, size: int)

  /** What UploadProfilePicture did: the reply, the S3 upload it ran (if
      any) and the (email, url) it stored as the profile picture. */
  datatype UploadResult = UploadResult(resp: Response, upload: Option<UploadOutcome>, stored: Option<(string, string)>)

  /** UploadProfilePicture: the claims, the file, the size limit, the S3
      upload, then the URL stored against the caller's e-mail.
      `readErr`/`putErr` are the failures of the S3 upload, `updateErr` that
      of UpdateProfilePicture. */
  function UploadProfilePictureHandler(b: Bucket, userId: Claim, email: Claim, file: Option<FileHeader>,
                                       readErr: Option<Error>, putErr: Option<Error>, updateErr: Option<Error>)
    : (r: UploadResult)
    ensures UploadClaims(userId, email).Failure? ==> r == UploadResult(UploadClaims(userId, email).error, None, None)
    ensures UploadClaims(userId, email).Ok? && file.None? ==>
              r == UploadResult(Response(400, "No file provided or invalid file"), None, None)
    ensures UploadClaims(userId, email).Ok? && file.Some? && file.value.size > MaxPictureSize ==>
              r == UploadResult(Response(400, "File size must be less than 5MB"), None, None)
    ensures UploadClaims(userId, email).Ok? && file.Some? && file.value.size <= MaxPictureSize ==>
              r.upload == Some(Upload(b, ProfilePicture(userId.value), file.value.filename, readErr, putErr))
    ensures r.upload.Some? && r.upload.value.result.Ok? ==> r.stored.Some?
    ensures r.upload.Some? ==>
              file.Some? && file.value.size <= MaxPictureSize && userId.Present? && email.Present?
              && r.upload.value == Upload(b, ProfilePicture(userId.value), file.value.filename, readErr, putErr)
    ensures r.stored.Some? ==>
              r.upload.Some? && r.upload.value.result.Ok?
              && r.stored.value == (email.value, r.upload.value.result.value)
    ensures r.upload.Some? && r.upload.value.result.Failure? ==>
              r.resp == Response(500, "Failed to upload image: " + r.upload.value.result.error.Message())
    ensures r.resp.status == 200 <==> r.stored.Some? && updateErr.None?
    ensures r.resp.status == 200 ==> r.resp.message == "Profile picture uploaded successfully"
  {
    match UploadClaims(userId, email)
    case Failure(resp) => UploadResult(resp, None, None)
    case Ok((id, mail)) =>
      if file.None? then UploadResult(Response(400, "No file provided or invalid file"), None, None)
      else if file.value.size > MaxPictureSize then UploadResult(Response(400, "File size must be less than 5MB"), None, None)
      else
        var up := Upload(b, ProfilePicture(id), file.value.filename, readErr, putErr);
        match up.result
        case Failure(e) => UploadResult(Response(500, "Failed to upload image: " + e.Message()), Some(up), None)
        case Ok(url) =>
          if updateErr.Some? then UploadResult(Response(500, "Internal Server Error"), Some(up), Some((mail, url)))
          else UploadResult(Response(200, "Profile picture uploaded successfully"), Some(up), Some((mail, url)))
  }

  /** A file over the limit never reaches S3, whatever it is called. */
  lemma OversizeNeverUploaded(b: Bucket, userId: Claim, email: Claim, f: FileHeader,
                              readErr: Option<Error>, putErr: Option<Error>, updateErr: Option<Error>)
    requires f.size > MaxPictureSize
    ensures UploadProfilePictureHandler(b, userId, email, Some(f), readErr, putErr, updateErr).upload.None?
    ensures UploadProfilePictureHandler(b, userId, email, Some(f), readErr, putErr, updateErr).resp.status != 200
  {
  }

  // ------------------------------------------------------------ get, delete

  /** The user whose picture is asked for: a non-empty `user_id` query
      parameter replaces the caller. */
  function TargetUser(caller: string, q: Query): (r: string)
    ensures Param(q, "user_id") != "" ==> r == q["user_id"]
    ensures Param(q, "user_id") == "" ==> r == caller
  {
    if Param(q, "user_id") != "" then q["user_id"] else caller
  }

  /** GetProfilePictureURL: the reply, and the (url, user id) it returns. */
  function GetProfilePictureURLHandler(b: Bucket, userId: Claim, q: Query): (r: (Response, Option<(string, string)>))
    ensures r.1.Some? <==> userId.Present?
    ensures !userId.Present? ==> r.0 == ClaimValue(userId).error
    ensures r.1.Some? ==>
              r.0.status == 200
              && r.1.value == (ObjectURL(b, ProfilePictureKey(TargetUser(userId.value, q), ExtensionParam(q))),
                               TargetUser(userId.value, q))
  {
    match ClaimValue(userId)
    case Failure(resp) => (resp, None)
    case Ok(caller) =>
      var target := TargetUser(caller, q);
      (Response(200, "profile picture"), Some((ProfilePictureURL(b, target, ExtensionParam(q)), target)))
  }

  /** DeleteProfilePicture: the reply and the key of the delete sent.  The
      `user_id` parameter is not consulted: a caller deletes only their own
      picture. */
  function DeleteProfilePictureHandler(userId: Claim, q: Query, deleteErr: Option<Error>)
    : (r: (Response, Option<string>))
    ensures r.1.Some? <==> userId.Present?
    ensures r.1.Some? ==> r.1.value == ProfilePictureKey(userId.value, ExtensionParam(q))
    ensures !userId.Present? ==> r.0 == ClaimValue(userId).error
    ensures r.1.Some? && deleteErr.Some? ==>
              r.0 == Response(500, "Failed to delete image: "
                                   + Wrapped("failed to delete profile picture from S3: ", deleteErr.value).Message())
    ensures r.0.status == 200 <==> r.1.Some? && deleteErr.None?
  {
    match ClaimValue(userId)
    case Failure(resp) => (resp, None)
    case Ok(caller) =>
      var key := ProfilePictureKey(caller, ExtensionParam(q));
      if deleteErr.Some? then
        (Response(500, "Failed to delete image: " + Wrapped("failed to delete profile picture from S3: ", deleteErr.value).Message()),
         Some(key))
      else (Response(200, "Profile picture deleted successfully"), Some(key))
  }

  /** With the same query and no `user_id`, the URL GET returns is the URL
      of the object DELETE removes. */
  lemma GetAndDeleteAgree(b: Bucket, caller: string, q: Query, deleteErr: Option<Error>)
    requires Param(q, "user_id") == ""
    ensures var got := GetProfilePictureURLHandler(b, Present(caller), q).1.value.0;
            var deleted := DeleteProfilePictureHandler(Present(caller), q, deleteErr).1.value;
            ExtractKey(b, got) == Ok(deleted)
  {
    ExtractObjectURL(b, ProfilePictureKey(caller, ExtensionParam(q)));
  }

  /** The URL an upload stores is the one GET returns for the caller when
      asked with the uploaded file's extension. */
  lemma UploadThenGet(b: Bucket, caller: string, mail: string, f: FileHeader, updateErr: Option<Error>)
    requires UploadProfilePictureHandler(b, Present(caller), Present(mail), Some(f), None, None, updateErr).stored.Some?
    ensures var stored := UploadProfilePictureHandler(b, Present(caller), Present(mail), Some(f), None, None, updateErr).stored.value.1;
            var q := map["extension" := Ext(f.filename)];
            GetProfilePictureURLHandler(b, Present(caller), q).1 == Some((stored, caller))
  {
    var e := Ext(f.filename);
    assert HasPrefix(e, ".");
  }
}
