/** The post handlers (internals/handlers/post_handlers.go): the pagination
    clamps, the content check, the ownership guards, the field merge of an
    update, the image upload loop and its error list, the replace-images
    rule, the response's image_url, and the delete sequence.  Repository and
    S3 calls are inputs. */
module PostHandlers {
  import opened Wrappers
  import opened GoStrings
  import opened Errors
  import opened Http
  import opened PostRepo

  const ErrNotAuthenticated := Response(401, "User not authenticated")
  const DefaultLimit := 10
  const MaxLimit := 100

  // ----------------------------------------------------------- pagination

  /** The page of every post list: a limit that does not parse or lies
      outside 1..100 becomes 10, an offset that does not parse or is
      negative becomes 0. */
  function PostPage(q: Query): (page: (int, int))
    ensures 1 <= page.0 <= MaxLimit && page.1 >= 0
    ensures var n := Atoi(DefaultParam(q, "limit", "10"));
            page.0 == if n.Some? && 1 <= n.value <= MaxLimit then n.value else DefaultLimit
    ensures var n := Atoi(DefaultParam(q, "offset", "0"));
            page.1 == if n.Some? && n.value >= 0 then n.value else 0
  {
    var l := Atoi(DefaultParam(q, "limit", "10"));
    var o := Atoi(DefaultParam(q, "offset", "0"));
    (if l.None? || l.value <= 0 || l.value > MaxLimit then DefaultLimit else l.value,
     if o.None? || o.value < 0 then 0 else o.value)
  }

  /** The clamped page always passes the repository's own list checks, so
      a list request never fails on its limit or offset. */
  lemma PostPagePassesListCheck(q: Query, userId: Option<string>)
    requires userId.None? || userId.value != ""
    ensures ListCheck(userId, PostPage(q).0, PostPage(q).1).None?
  {
  }

  /** Which repository list a request asks for. */
  datatype ListQuery =
    | AllPosts(limit: int, offset: int)
    | PostsByUser(userId: string, limit: int, offset: int)

  /** GetPostsHandler: the posts of `user_id` when it is given, otherwise all
      posts. */
  function GetPostsQuery(q: Query): (r: ListQuery)
    ensures Param(q, "user_id") == "" <==> r.AllPosts?
    ensures r.PostsByUser? ==> r.userId == Param(q, "user_id")
    ensures (r.limit, r.offset) == PostPage(q)
  {
    var (limit, offset) := PostPage(q);
    if Param(q, "user_id") == "" then AllPosts(limit, offset) else PostsByUser(Param(q, "user_id"), limit, offset)
  }

  /** GetPostsWithCommentsHandler: 401 without a caller (a bare string body),
      then the same choice; the caller's id is passed on for its like flags. */
  function GetPostsWithCommentsQuery(userId: Option<string>, q: Query): (r: Result<(ListQuery, string), Response>)
    ensures userId.None? <==> r == Failure(Response(401, "User not Authorized"))
    ensures r.Ok? ==> r.value == (GetPostsQuery(q), userId.value)
  {
    if userId.None? then Failure(Response(401, "User not Authorized")) else Ok((GetPostsQuery(q), userId.value))
  }

  /** GetMyPostsHandler: 401 without a caller, else the caller's posts. */
  function GetMyPostsQuery(userId: Option<string>, q: Query): (r: Result<ListQuery, Response>)
    ensures userId.None? <==> r == Failure(ErrNotAuthenticated)
    ensures r.Ok? ==> r.value == PostsByUser(userId.value, PostPage(q).0, PostPage(q).1)
  {
    if userId.None? then Failure(ErrNotAuthenticated) else Ok(PostsByUser(userId.value, PostPage(q).0, PostPage(q).1))
  }

  // ------------------------------------------------------------ responses

  /** A post as the repository returns it, with the URLs of its images. */
  datatype StoredPost = StoredPost(post: Post, images: seq<string>)

  datatype PostResponse = PostResponse(id: string, imageUrl: string, userId: string, content: string,
                                       tags: seq<string>, images: seq<string>, likeCount: int)

  /** The tags of a response: none for an empty column, else the split. */
  function ResponseTags(tags: string): (r: seq<string>)
    ensures tags == "" ==> r == []
    ensures tags != "" ==> TagsToString(r) == tags
  {
    TagsStringRoundTrip(tags);
    if tags != "" then StringToTags(tags) else []
  }

  /** The image_url of a response: the first image's URL, or "". */
  function FirstImage(images: seq<string>): (r: string)
    ensures |images| > 0 ==> r == images[0]
    ensures |images| == 0 ==> r == ""
  {
    if |images| > 0 then images[0] else ""
  }

  /** A listed post's response; the list handlers leave image_url empty. */
  function ListedResponse(p: StoredPost): (r: PostResponse)
    ensures r.id == p.post.id && r.userId == p.post.userId && r.content == p.post.content
    ensures r.images == p.images && r.likeCount == p.post.likeCount && r.imageUrl == ""
    ensures TagsToString(r.tags) == p.post.tags
  {
    PostResponse(p.post.id, "", p.post.userId, p.post.content, ResponseTags(p.post.tags), p.images, p.post.likeCount)
  }

  /** The response loop of GetPostsHandler and GetMyPostsHandler. */
  method ListResponses(posts: seq<StoredPost>) returns (responses: seq<PostResponse>)
    ensures |responses| == |posts|
    ensures forall i :: 0 <= i < |posts| ==> responses[i] == ListedResponse(posts[i])
  {
    responses := [];
    for i := 0 to |posts|
      invariant |responses| == i
      invariant forall j :: 0 <= j < i ==> responses[j] == ListedResponse(posts[j])
    {
      responses := responses + [ListedResponse(posts[i])];
    }
  }

  /** GetPostHandler: an empty id is a 400 validation error, a lookup error
      is mapped; the response carries no image_url. */
  function GetPostHandler(postId: string, found: Result<StoredPost, Error>): (r: (Response, Option<PostResponse>))
    ensures postId == "" ==> r == (ErrorReply(ErrPostIdRequired), None)
    ensures r.1.Some? <==> postId != "" && found.Ok?
    ensures r.1.Some? ==> r.0.status == 200 && r.1.value == ListedResponse(found.value)
  {
    if postId == "" then (ErrorReply(ErrPostIdRequired), None)
    else match found
      case Failure(e) => (ErrorReply(e), None)
      case Ok(p) => (Response(200, "post"), Some(ListedResponse(p)))
  }

  // --------------------------------------------------------------- images

  /** One uploaded file: whether it opens, the URL S3 gives it or the S3
      error, and whether its database record is saved. */
  datatype ImageFile = ImageFile(filename: string, openErr: Option<Error>, upload: Result<string, Error>,
                                 saveErr: Option<Error>)

  /** What the loop does with one file. */
  datatype ImageOutcome =
    | Saved(url: string)
    | Skipped(message: string, cleanup: Option<string>)

  function ProcessImage(f: ImageFile): (r: ImageOutcome)
    ensures r.Saved? <==> f.openErr.None? && f.upload.Ok? && f.saveErr.None?
    ensures r.Saved? ==> r.url == f.upload.value
    ensures r.Skipped? && r.cleanup.Some? <==> f.openErr.None? && f.upload.Ok? && f.saveErr.Some?
    ensures r.Skipped? && r.cleanup.Some? ==> r.cleanup.value == f.upload.value
  {
    if f.openErr.Some? then
      Skipped("Failed to open image file " + f.filename + ": " + f.openErr.value.Message(), None)
    else if f.upload.Failure? then
      Skipped("Failed to upload image " + f.filename + " to S3: " + f.upload.error.Message(), None)
    else if f.saveErr.Some? then
      Skipped("Failed to save image " + f.filename + " to database: " + f.saveErr.value.Message(),
              Some(f.upload.value))
    else Saved(f.upload.value)
  }

  /** The loop's results over the first files: the saved URLs, the error
      messages, and the URLs deleted from S3 after a failed save. */
  datatype Uploads = Uploads(images: seq<string>, errors: seq<string>, cleanups: seq<string>)

  function ProcessImages(files: seq<ImageFile>): Uploads
  {
    if |files| == 0 then Uploads([], [], [])
    else
      var u := ProcessImages(files[..|files| - 1]);
      match ProcessImage(files[|files| - 1])
      case Saved(url) => u.(images := u.images + [url])
      case Skipped(message, cleanup) =>
        u.(errors := u.errors + [message],
           cleanups := if cleanup.Some? then u.cleanups + [cleanup.value] else u.cleanups)
  }

  /** Every file ends up either saved or reported, never both, and only
      reported files can need an S3 cleanup. */
  lemma {:induction false} EveryFileAccounted(files: seq<ImageFile>)
    ensures |ProcessImages(files).images| + |ProcessImages(files).errors| == |files|
    ensures |ProcessImages(files).cleanups| <= |ProcessImages(files).errors|
  {
    if |files| > 0 {
      EveryFileAccounted(files[..|files| - 1]);
    }
  }

  /** When every file goes through, the images are the uploaded URLs in
      upload order and nothing is reported. */
  lemma {:induction false} CleanUploadsKeepOrder(files: seq<ImageFile>)
    requires forall i :: 0 <= i < |files| ==>
               files[i].openErr.None? && files[i].upload.Ok? && files[i].saveErr.None?
    ensures ProcessImages(files).errors == [] && ProcessImages(files).cleanups == []
    ensures |ProcessImages(files).images| == |files|
    ensures forall i :: 0 <= i < |files| ==> ProcessImages(files).images[i] == files[i].upload.value
  {
    if |files| > 0 {
      var init := files[..|files| - 1];
      CleanUploadsKeepOrder(init);
      assert forall i :: 0 <= i < |init| ==> init[i] == files[i];
    }
  }

  /** The upload loop of CreatePostHandler and UpdatePostHandler: a file
      that fails is reported and skipped, the rest continue. */
  method UploadImages(files: seq<ImageFile>) returns (u: Uploads)
    ensures u == ProcessImages(files)
  {
    u := Uploads([], [], []);
    for i := 0 to |files|
      invariant u == ProcessImages(files[..i])
    {
      assert files[..i + 1][..i] == files[..i];
      match ProcessImage(files[i]) {
        case Saved(url) =>
          u := u.(images := u.images + [url]);
        case Skipped(message, cleanup) =>
          u := u.(errors := u.errors + [message]);
          if cleanup.Some? {
            u := u.(cleanups := u.cleanups + [cleanup.value]);
          }
      }
    }
    assert files[..|files|] == files;
  }

  // --------------------------------------------------------------- create

  const CreatedWithErrors := "Post created successfully, but some images failed to upload"

  /** CreatePostHandler.  `form` is None when the request has no multipart
      form or no "images" field; `insertErr` and `newId` are the INSERT's
      outcome.  The post is created before any image is looked at, so image
      failures only add to the error list of a 201. */
  method CreatePostHandler(userId: Option<string>, content: string, tags: string,
                           insertErr: Option<Error>, newId: string, form: Option<seq<ImageFile>>)
    returns (resp: Response, post: Option<PostResponse>, imageErrors: seq<string>)
    ensures userId.None? ==> resp == ErrNotAuthenticated && post.None?
    ensures userId.Some? && content == "" ==>
              resp == ErrorReply(Validation("content", "content is required")) && post.None?
    ensures post.Some? <==> userId.Some? && content != ""
                            && CreatePost(Some(Post("", userId.value, content, tags, 0, 0)), insertErr).None?
    ensures post.None? ==> imageErrors == []
    ensures post.Some? ==>
              var u := if form.Some? then ProcessImages(form.value) else Uploads([], [], []);
              resp.status == 201
              && post.value.id == newId && post.value.userId == userId.value && post.value.content == content
              && post.value.images == u.images && post.value.imageUrl == FirstImage(u.images)
              && imageErrors == u.errors
              && (resp.message == CreatedWithErrors <==> |u.errors| > 0)
  {
    imageErrors := [];
    if userId.None? {
      return ErrNotAuthenticated, None, [];
    }
    if content == "" {
      return ErrorReply(Validation("content", "content is required")), None, [];
    }
    var created := CreatePost(Some(Post("", userId.value, content, tags, 0, 0)), insertErr);
    if created.Some? {
      return ErrorReply(created.value), None, [];
    }
    var u := Uploads([], [], []);
    if form.Some? {
      u := UploadImages(form.value);
    }
    post := Some(PostResponse(newId, FirstImage(u.images), userId.value, content, ResponseTags(tags), u.images, 0));
    imageErrors := u.errors;
    if |u.errors| > 0 {
      resp := Response(201, CreatedWithErrors);
    } else {
      resp := Response(201, "post");
    }
  }

  // --------------------------------------------------------------- update

  /** The field merge of UpdatePostHandler: content and tags are replaced
      only by non-empty values; nothing else changes. */
  function MergePost(p: Post, content: string, tags: string): (r: Post)
    ensures r.content == (if content != "" then content else p.content)
    ensures r.tags == (if tags != "" then tags else p.tags)
    ensures r.(content := p.content, tags := p.tags) == p
  {
    p.(content := if content != "" then content else p.content,
       tags := if tags != "" then tags else p.tags)
  }

  /** Merging the same form twice changes nothing more. */
  lemma MergeIdempotent(p: Post, content: string, tags: string)
    ensures MergePost(MergePost(p, content, tags), content, tags) == MergePost(p, content, tags)
  {
  }

  /** The guards shared by UpdatePostHandler and DeletePostHandler: 401, an
      id, then the ownership query; not owning the post is an authorization
      error for `action`. */
  function OwnedPost(userId: Option<string>, postId: string, owns: Result<bool, Error>, action: string)
    : (r: Result<string, Response>)
    ensures r.Ok? <==> userId.Some? && postId != "" && owns == Ok(true)
    ensures r.Ok? ==> r.value == userId.value
    ensures userId.None? ==> r == Failure(ErrNotAuthenticated)
    ensures userId.Some? && postId != "" && owns == Ok(false) ==>
              r == Failure(ErrorReply(Authorization(action, "post", userId.value)))
  {
    if userId.None? then Failure(ErrNotAuthenticated)
    else if postId == "" then Failure(ErrorReply(ErrPostIdRequired))
    else match owns
      case Failure(e) => Failure(ErrorReply(e))
      case Ok(false) => Failure(ErrorReply(Authorization(action, "post", userId.value)))
      case Ok(true) => Ok(userId.value)
  }

  /** What an update did besides its reply. */
  datatype UpdateEffects = UpdateEffects(written: Option<Post>, clearedImages: bool, removedFromS3: seq<string>,
                                         uploads: Uploads)

  const NoUpdateEffects := UpdateEffects(None, false, [], Uploads([], [], []))
  const UpdatedWithErrors := "Post updated successfully, but some images failed to upload"

  /** UpdatePostHandler.  `existing` and `reread` are the two GetPostById
      calls, `updateErr` the UPDATE's failure, `form` the new images (None
      when there are none), `cleared` the result of DeleteImagesByPostId.
      Ownership is settled before anything is written; the existing images
      are removed only when new ones come with replace_images "true". */
  method UpdatePostHandler(userId: Option<string>, postId: string, owns: Result<bool, Error>,
                           existing: Result<StoredPost, Error>, content: string, tags: string, replaceImages: string,
                           updateErr: Option<Error>, form: Option<seq<ImageFile>>,
                           cleared: Result<seq<string>, Error>, reread: Result<StoredPost, Error>)
    returns (resp: Response, post: Option<PostResponse>, effects: UpdateEffects)
    ensures OwnedPost(userId, postId, owns, "update").Failure? ==>
              resp == OwnedPost(userId, postId, owns, "update").error && effects == NoUpdateEffects
    ensures effects.written.Some? <==> OwnedPost(userId, postId, owns, "update").Ok? && existing.Ok?
    ensures effects.written.Some? ==> effects.written.value == MergePost(existing.value.post, content, tags)
    ensures effects.clearedImages <==> effects.written.Some? && updateErr.None? && form.Some?
                                       && replaceImages == "true"
    ensures effects.clearedImages && cleared.Ok? ==> effects.removedFromS3 == cleared.value
    ensures !effects.clearedImages || cleared.Failure? ==> effects.removedFromS3 == []
    ensures effects.uploads != Uploads([], [], []) ==>
              form.Some? && effects.uploads == ProcessImages(form.value)
    ensures effects.written.Some? && updateErr.None? && form.Some? && !(effects.clearedImages && cleared.Failure?) ==>
              effects.uploads == ProcessImages(form.value)
    ensures post.Some? ==>
              resp.status == 200 && reread.Ok? && post.value.images == reread.value.images
              && post.value.imageUrl == FirstImage(reread.value.images)
              && (resp.message == UpdatedWithErrors <==> |effects.uploads.errors| > 0)
    ensures post.Some? <==> effects.written.Some? && updateErr.None?
                            && !(effects.clearedImages && cleared.Failure?) && reread.Ok?
  {
    effects := NoUpdateEffects;
    post := None;
    var guard := OwnedPost(userId, postId, owns, "update");
    if guard.Failure? {
      return guard.error, None, effects;
    }
    if existing.Failure? {
      return ErrorReply(existing.error), None, effects;
    }
    var merged := MergePost(existing.value.post, content, tags);
    effects := effects.(written := Some(merged));
    if updateErr.Some? {
      return ErrorReply(updateErr.value), None, effects;
    }
    if form.Some? {
      if replaceImages == "true" {
        effects := effects.(clearedImages := true);
        if cleared.Failure? {
          return ErrorReply(cleared.error), None, effects;
        }
        effects := effects.(removedFromS3 := cleared.value);
      }
      var u := UploadImages(form.value);
      effects := effects.(uploads := u);
    }
    if reread.Failure? {
      return ErrorReply(reread.error), None, effects;
    }
    var p := reread.value;
    post := Some(PostResponse(p.post.id, FirstImage(p.images), p.post.userId, p.post.content,
                              ResponseTags(p.post.tags), p.images, p.post.likeCount));
    if |effects.uploads.errors| > 0 {
      resp := Response(200, UpdatedWithErrors);
    } else {
      resp := Response(200, "post");
    }
  }

  // --------------------------------------------------------------- delete

  /** DeletePostHandler.  The image records are deleted first (`cleared`
      lists their URLs); each URL is then deleted from S3, whose failures
      (`s3Delete`) are only logged; then the post itself (`deleteErr`). */
  method DeletePostHandler(userId: Option<string>, postId: string, owns: Result<bool, Error>,
                           cleared: Result<seq<string>, Error>, s3Delete: string -> Option<Error>,
                           deleteErr: Option<Error>)
    returns (resp: Response, removedFromS3: seq<string>, s3Failures: seq<string>, postDeleted: bool)
    ensures OwnedPost(userId, postId, owns, "delete").Failure? ==>
              resp == OwnedPost(userId, postId, owns, "delete").error && removedFromS3 == [] && !postDeleted
    ensures postDeleted <==> OwnedPost(userId, postId, owns, "delete").Ok? && cleared.Ok?
    ensures postDeleted ==> removedFromS3 == cleared.value
    ensures !postDeleted ==> removedFromS3 == []
    ensures forall url :: url in s3Failures <==> url in removedFromS3 && s3Delete(url).Some?
    ensures resp.status == 200 <==> postDeleted && deleteErr.None?
    ensures resp.status == 200 ==> resp.message == "Post deleted successfully"
  {
    removedFromS3, s3Failures, postDeleted := [], [], false;
    var guard := OwnedPost(userId, postId, owns, "delete");
    if guard.Failure? {
      return guard.error, [], [], false;
    }
    if cleared.Failure? {
      return ErrorReply(cleared.error), [], [], false;
    }
    var urls := cleared.value;
    for i := 0 to |urls|
      invariant removedFromS3 == urls[..i]
      invariant forall url :: url in s3Failures <==> url in removedFromS3 && s3Delete(url).Some?
    {
      if s3Delete(urls[i]).Some? {
        s3Failures := s3Failures + [urls[i]];
      }
      removedFromS3 := removedFromS3 + [urls[i]];
    }
    assert urls[..|urls|] == urls;
    postDeleted := true;
    if deleteErr.Some? {
      resp := ErrorReply(deleteErr.value);
    } else {
      resp := Response(200, "Post deleted successfully");
    }
  }

  // ---------------------------------------------------------------- likes

  /** LikePostHandler and UnlikePostHandler: 401, an id, then the
      repository; `repoErr` is its error. */
  function LikeHandler(userId: Option<string>, postId: string, repoErr: Option<Error>, done: string)
    : (r: (Response, bool))
    ensures r.1 <==> userId.Some? && postId != ""
    ensures userId.None? ==> r.0 == ErrNotAuthenticated
    ensures r.0.status == 200 <==> r.1 && repoErr.None?
    ensures r.0.status == 200 ==> r.0.message == done
  {
    if userId.None? then (ErrNotAuthenticated, false)
    else if postId == "" then (ErrorReply(ErrPostIdRequired), false)
    else if repoErr.Some? then (ErrorReply(repoErr.value), true)
    else (Response(200, done), true)
  }
}
