/** The object-storage naming of the S3 service
    (internals/services/s3_service.go): object keys, public URLs and their
    inversion, the accepted file extensions and their content types, and
    the order of steps of an upload.  The S3 calls themselves are inputs. */
module S3 {
  import opened Wrappers
  import opened GoStrings
  import opened Errors

  datatype Bucket = Bucket(name: string, region: string)

  /** The URL prefix of every object of the bucket. */
  function UrlPrefix(b: Bucket): string
  {
    "https://" + b.name + ".s3." + b.region + ".amazonaws.com/"
  }

  /** The public URL an upload returns for a key. */
  function ObjectURL(b: Bucket, key: string): (r: string)
    ensures HasPrefix(r, UrlPrefix(b)) && r[|UrlPrefix(b)|..] == key
  {
    UrlPrefix(b) + key
  }

  /** extractS3KeyFromURL. */
  function ExtractKey(b: Bucket, url: string): (r: Result<string, Error>)
    ensures !HasPrefix(url, UrlPrefix(b)) ==> r == Failure(Plain("invalid S3 URL format"))
    ensures HasPrefix(url, UrlPrefix(b)) && url == UrlPrefix(b) ==> r == Failure(Plain("empty S3 key"))
    ensures r.Ok? ==> r.value != "" && url == ObjectURL(b, r.value)
  {
    if !HasPrefix(url, UrlPrefix(b)) then Failure(Plain("invalid S3 URL format"))
    else
      var key := TrimPrefix(url, UrlPrefix(b));
      if key == "" then Failure(Plain("empty S3 key")) else Ok(key)
  }

  /** Extraction gives back the key of every URL an upload returns. */
  lemma ExtractObjectURL(b: Bucket, key: string)
    requires key != ""
    ensures ExtractKey(b, ObjectURL(b, key)) == Ok(key)
  {
    var url := ObjectURL(b, key);
    assert TrimPrefix(url, UrlPrefix(b)) == key;
  }

  /** A URL of another bucket or region is refused. */
  lemma ExtractOtherBucket(b: Bucket, c: Bucket, key: string)
    requires !HasPrefix(ObjectURL(c, key), UrlPrefix(b))
    ensures ExtractKey(b, ObjectURL(c, key)).Failure?
  {
  }

  // ------------------------------------------------------------- keys

  function ProfilePictureKey(userId: string, ext: string): string
  {
    "profile-pictures/" + userId + ext
  }

  function PostImageKey(postId: string, imageId: string, ext: string): string
  {
    "posts/" + postId + "/" + imageId + ext
  }

  function TournamentBannerKey(hostId: string, bannerId: string, ext: string): string
  {
    "tournaments/" + hostId + "/" + bannerId + ext
  }

  function CertificateKey(userId: string, achievementId: string, ext: string): string
  {
    "certificates/" + userId + "/" + achievementId + ext
  }

  /** Keys are never empty, so every uploaded object's URL can be turned
      back into its key; the four layouts live under distinct folders. */
  lemma KeysExtract(b: Bucket, a: string, c: string, ext: string)
    ensures ExtractKey(b, ObjectURL(b, ProfilePictureKey(a, ext))) == Ok(ProfilePictureKey(a, ext))
    ensures ExtractKey(b, ObjectURL(b, PostImageKey(a, c, ext))) == Ok(PostImageKey(a, c, ext))
    ensures ExtractKey(b, ObjectURL(b, TournamentBannerKey(a, c, ext))) == Ok(TournamentBannerKey(a, c, ext))
    ensures ExtractKey(b, ObjectURL(b, CertificateKey(a, c, ext))) == Ok(CertificateKey(a, c, ext))
  {
    ExtractObjectURL(b, ProfilePictureKey(a, ext));
    ExtractObjectURL(b, PostImageKey(a, c, ext));
    ExtractObjectURL(b, TournamentBannerKey(a, c, ext));
    ExtractObjectURL(b, CertificateKey(a, c, ext));
  }

  /** GetProfilePictureURL: ".jpg" when no extension is given. */
  function ProfilePictureURL(b: Bucket, userId: string, ext: string): (r: string)
    ensures ext == "" ==> r == ObjectURL(b, ProfilePictureKey(userId, ".jpg"))
    ensures ext != "" ==> r == ObjectURL(b, ProfilePictureKey(userId, ext))
  {
    ObjectURL(b, ProfilePictureKey(userId, if ext == "" then ".jpg" else ext))
  }

  // ------------------------------------------------------------- types

  /** filepath.Ext: from the last dot of the last path element, or "". */
  function Ext(path: string): (r: string)
    ensures r == "" || (r[0] == '.' && HasSuffix(path, r))
    ensures forall i :: 0 <= i < |r| ==> r[i] != '/'
    ensures forall i :: 1 <= i < |r| ==> r[i] != '.'
  {
    if path == [] then ""
    else
      var c := path[|path| - 1];
      if c == '/' then ""
      else if c == '.' then "."
      else
        var e := Ext(path[..|path| - 1]);
        if e == "" then "" else e + [c]
  }

  /** Ext is empty only when no dot follows the last slash. */
  lemma {:induction false} ExtEmptyNoDot(path: string)
    ensures Ext(path) == "" ==> forall i :: 0 <= i < |path| && path[i] == '.' ==> '/' in path[i..]
  {
    if path != [] {
      var c := path[|path| - 1];
      var p := path[..|path| - 1];
      assert forall i :: 0 <= i < |p| ==> path[i..] == p[i..] + [c];
      if c != '/' && c != '.' {
        ExtEmptyNoDot(p);
      }
    }
  }

  /** A name that ends in a dot followed by neither a dot nor a slash has
      exactly that ending as its extension, whatever comes before. */
  lemma {:induction false} ExtOfSuffix(base: string, ext: string)
    requires ext != [] && ext[0] == '.'
    requires forall i :: 1 <= i < |ext| ==> ext[i] != '.' && ext[i] != '/'
    ensures Ext(base + ext) == ext
    decreases |ext|
  {
    var path := base + ext;
    if |ext| > 1 {
      var shorter := ext[..|ext| - 1];
      assert path[..|path| - 1] == base + shorter;
      ExtOfSuffix(base, shorter);
    } else {
      assert path[|path| - 1] == '.';
    }
  }

  const ImageTypes: seq<string> := [".jpg", ".jpeg", ".png", ".gif"]
  const CertificateTypes: seq<string> := [".jpg", ".jpeg", ".png", ".gif", ".pdf"]

  /** isValidImageType: the extension, lower-cased, is one of the four. */
  predicate IsValidImageType(filename: string)
  {
    ToLower(Ext(filename)) in ImageTypes
  }

  /** isValidCertificateType: the image types and ".pdf". */
  predicate IsValidCertificateType(filename: string)
  {
    ToLower(Ext(filename)) in CertificateTypes
  }

  /** A valid image or certificate name ends, ignoring case, in one of the
      accepted extensions; and any name ending in one of them after its
      last dot is accepted. */
  lemma ValidTypeBySuffix(base: string, ext: string)
    ensures IsValidImageType(base + ext) ==> exists t :: t in ImageTypes && HasSuffix(ToLower(base + ext), t)
    ensures IsValidCertificateType(base + ext) ==> exists t :: t in CertificateTypes && HasSuffix(ToLower(base + ext), t)
    ensures ext != [] && ext[0] == '.' && (forall i :: 1 <= i < |ext| ==> ext[i] != '.' && ext[i] != '/') ==>
      (IsValidImageType(base + ext) <==> ToLower(ext) in ImageTypes) &&
      (IsValidCertificateType(base + ext) <==> ToLower(ext) in CertificateTypes)
  {
    var f := base + ext;
    var e := Ext(f);
    assert HasSuffix(f, e);
    var lf := ToLower(f);
    assert lf[|lf| - |e|..] == ToLower(e);
    if ext != [] && ext[0] == '.' && (forall i :: 1 <= i < |ext| ==> ext[i] != '.' && ext[i] != '/') {
      ExtOfSuffix(base, ext);
    }
  }

  /** Every valid image is a valid certificate; PDF files are certificates
      only. */
  lemma ImageIsCertificate(filename: string)
    ensures IsValidImageType(filename) ==> IsValidCertificateType(filename)
    ensures IsValidCertificateType(filename) && !IsValidImageType(filename) ==> ToLower(Ext(filename)) == ".pdf"
  {
  }

  /** getContentType. */
  function ContentType(ext: string): (r: string)
    ensures ToLower(ext) in ImageTypes <==> r != "application/octet-stream"
  {
    var e := ToLower(ext);
    if e == ".jpg" || e == ".jpeg" then "image/jpeg"
    else if e == ".png" then "image/png"
    else if e == ".gif" then "image/gif"
    else "application/octet-stream"
  }

  /** getCertificateContentType. */
  function CertificateContentType(ext: string): (r: string)
    ensures ToLower(ext) in CertificateTypes <==> r != "application/octet-stream"
    ensures ToLower(ext) == ".pdf" <==> r == "application/pdf"
  {
    var e := ToLower(ext);
    if e == ".pdf" then "application/pdf" else ContentType(ext)
  }

  /** The two tables agree on images. */
  lemma ContentTypesAgree(ext: string)
    ensures ToLower(ext) != ".pdf" ==> CertificateContentType(ext) == ContentType(ext)
    ensures ToLower(ext) in ImageTypes ==> CertificateContentType(ext) == ContentType(ext)
  {
  }

  /** Case does not matter to either table. */
  lemma ContentTypeIgnoresCase(ext: string)
    ensures ContentType(ToLower(ext)) == ContentType(ext)
    ensures CertificateContentType(ToLower(ext)) == CertificateContentType(ext)
  {
    ToLowerIdempotent(ext);
  }

  // ------------------------------------------------------------- uploads

  /** The four kinds of upload, with the ids their keys are built from. */
  datatype UploadKind =
    | ProfilePicture(userId: string)
    | PostImage(postId: string, imageId: string)
    | TournamentBanner(hostId: string, bannerId: string)
    | Certificate(userId: string, achievementId: string)

  function KeyFor(kind: UploadKind, ext: string): string
  {
    match kind
    case ProfilePicture(u) => ProfilePictureKey(u, ext)
    case PostImage(p, i) => PostImageKey(p, i, ext)
    case TournamentBanner(h, n) => TournamentBannerKey(h, n, ext)
    case Certificate(u, a) => CertificateKey(u, a, ext)
  }

  /** What the upload error messages call the object. */
  function ObjectNoun(kind: UploadKind): string
  {
    match kind
    case ProfilePicture(_) => "file"
    case PostImage(_, _) => "post image"
    case TournamentBanner(_, _) => "tournament banner"
    case Certificate(_, _) => "certificate"
  }

  predicate Accepted(kind: UploadKind, filename: string)
  {
    if kind.Certificate? then IsValidCertificateType(filename) else IsValidImageType(filename)
  }

  /** What an upload did: its result, whether the file was read, and the
      PutObject request it sent (key and content type), if any. */
  datatype UploadOutcome = UploadOutcome(result: Result<string, Error>, readFile: bool,
                                         put: Option<(string, string)>)

  /** UploadProfilePicture, UploadPostImage, UploadTournamentBanner and
      UploadCertificate.  `readErr` is the failure of reading the file and
      `putErr` that of PutObject. */
  function Upload(b: Bucket, kind: UploadKind, filename: string, readErr: Option<Error>, putErr: Option<Error>)
    : (r: UploadOutcome)
    ensures !Accepted(kind, filename) ==> !r.readFile && r.put.None? && r.result.Failure?
    ensures r.put.Some? ==>
              Accepted(kind, filename) && readErr.None?
              && r.put.value.0 == KeyFor(kind, Ext(filename))
              && r.put.value.1 == (if kind.Certificate? then CertificateContentType(Ext(filename))
                                   else ContentType(Ext(filename)))
    ensures r.result.Ok? <==> Accepted(kind, filename) && readErr.None? && putErr.None?
    ensures r.result.Ok? ==> r.result.value == ObjectURL(b, KeyFor(kind, Ext(filename)))
  {
    if !Accepted(kind, filename) then
      var msg := if kind.Certificate?
                 then "invalid file type. Only PDF, JPEG, PNG, and GIF files are allowed for certificates"
                 else "invalid file type. Only JPEG, PNG, and GIF files are allowed";
      UploadOutcome(Failure(Plain(msg)), false, None)
    else if readErr.Some? then
      UploadOutcome(Failure(Wrapped("failed to read file: ", readErr.value)), true, None)
    else
      var ext := Ext(filename);
      var key := KeyFor(kind, ext);
      var ctype := if kind.Certificate? then CertificateContentType(ext) else ContentType(ext);
      if putErr.Some? then UploadOutcome(Failure(Wrapped("failed to upload " + ObjectNoun(kind) + " to S3: ", putErr.value)), true, Some((key, ctype)))
      else UploadOutcome(Ok(ObjectURL(b, key)), true, Some((key, ctype)))
  }

  /** The URL an upload returns can be handed back to the delete operations. */
  lemma UploadedURLExtracts(b: Bucket, kind: UploadKind, filename: string)
    requires Upload(b, kind, filename, None, None).result.Ok?
    ensures ExtractKey(b, Upload(b, kind, filename, None, None).result.value) == Ok(KeyFor(kind, Ext(filename)))
  {
    match kind
    case ProfilePicture(u) => KeysExtract(b, u, "", Ext(filename));
    case PostImage(p, i) => KeysExtract(b, p, i, Ext(filename));
    case TournamentBanner(h, n) => KeysExtract(b, h, n, Ext(filename));
    case Certificate(u, a) => KeysExtract(b, u, a, Ext(filename));
  }

  /** DeletePostImage, DeleteTournamentBanner and DeleteCertificate: the key
      comes from the URL, and a URL of another bucket deletes nothing.  The
      result is the error returned and the key of the DeleteObject request
      sent, if any; `noun` names the object in the error message. */
  function DeleteByURL(b: Bucket, noun: string, url: string, deleteErr: Option<Error>)
    : (r: (Option<Error>, Option<string>))
    ensures ExtractKey(b, url).Failure? ==> r.1.None? && r.0.Some?
    ensures ExtractKey(b, url).Ok? ==> r.1 == Some(ExtractKey(b, url).value) && (r.0.None? <==> deleteErr.None?)
  {
    match ExtractKey(b, url)
    case Failure(e) => (Some(Wrapped("failed to extract S3 key from URL: ", e)), None)
    case Ok(key) =>
      if deleteErr.Some? then (Some(Wrapped("failed to delete " + noun + " from S3: ", deleteErr.value)), Some(key))
      else (None, Some(key))
  }
}
