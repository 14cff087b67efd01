/** The comment handlers (internals/handlers/comment_handlers.go): the
    pagination clamps, the authentication and ownership guards.  Repository
    calls are inputs, except where a property needs the store itself. */
module CommentHandlers {
  import opened Wrappers
  import opened GoStrings
  import opened Errors
  import opened ErrorHandler
  import opened Http
  import opened CommentRepo

  const ErrNotAuthenticated := Response(401, "User not authenticated")
  const ErrInvalidFormat := Response(400, "Invalid request format")
  const DefaultLimit := 10
  const MaxLimit := 50

  /** The limit of a post's comment list: 10 unless it parses to 1..50. */
  function CommentLimit(q: Query): (limit: int)
    ensures 1 <= limit <= MaxLimit
    ensures var n := Atoi(DefaultParam(q, "limit", "10"));
            limit == if n.Some? && 1 <= n.value <= MaxLimit then n.value else DefaultLimit
  {
    var n := Atoi(DefaultParam(q, "limit", "10"));
    if n.None? || n.value <= 0 || n.value > MaxLimit then DefaultLimit else n.value
  }

  /** The limit of a comment's reply page: 10 unless it parses to 0..50, so
      a limit of 0 is accepted. */
  function ReplyLimit(q: Query): (limit: int)
    ensures 0 <= limit <= MaxLimit
    ensures var n := Atoi(DefaultParam(q, "reply_limit", "10"));
            limit == if n.Some? && 0 <= n.value <= MaxLimit then n.value else DefaultLimit
  {
    var n := Atoi(DefaultParam(q, "reply_limit", "10"));
    if n.None? || n.value < 0 || n.value > MaxLimit then DefaultLimit else n.value
  }

  /** An offset: 0 unless it parses to a non-negative number. */
  function Offset(q: Query, key: string): (offset: int)
    ensures offset >= 0
    ensures var n := Atoi(DefaultParam(q, key, "0"));
            offset == if n.Some? && n.value >= 0 then n.value else 0
  {
    var n := Atoi(DefaultParam(q, key, "0"));
    if n.None? || n.value < 0 then 0 else n.value
  }

  /** The two limits differ exactly at zero: a reply limit of "0" is kept,
      a comment limit of "0" becomes 10. */
  lemma ZeroLimits(q: Query)
    requires q == map["limit" := "0", "reply_limit" := "0"]
    ensures CommentLimit(q) == 10 && ReplyLimit(q) == 0
  {
    assert AtoiSyntax("0") && SignedValue("0") == 0;
  }

  /** GetCommentsByPostIdHandler: an empty post id is a 400 validation
      error; otherwise the repository is asked for the clamped page.  The
      result also names the (limit, offset) passed on. */
  function GetCommentsHandler(postId: string, q: Query, list: (int, int) -> Result<seq<CommentResponse>, Error>)
    : (r: (Response, Option<(int, int)>))
    ensures postId == "" ==> r == (ErrorReply(Validation("post_id", "post ID is required")), None)
    ensures postId != "" ==> r.1 == Some((CommentLimit(q), Offset(q, "offset")))
    ensures r.0.status == 200 <==> r.1.Some? && list(r.1.value.0, r.1.value.1).Ok?
    ensures r.1.Some? && list(r.1.value.0, r.1.value.1).Failure? ==> r.0 == ErrorReply(list(r.1.value.0, r.1.value.1).error)
  {
    if postId == "" then (ErrorReply(Validation("post_id", "post ID is required")), None)
    else
      var page := (CommentLimit(q), Offset(q, "offset"));
      match list(page.0, page.1)
      case Failure(e) => (ErrorReply(e), Some(page))
      case Ok(_) => (Response(200, "comments"), Some(page))
  }

  /** The handler never asks the repository for a page that would make its
      slice panic, and a page never exceeds 50 comments. */
  lemma CommentPagesNeverPanic<T>(threads: seq<T>, q: Query)
    ensures Paginate(threads, CommentLimit(q), Offset(q, "offset")).Some?
    ensures |Paginate(threads, CommentLimit(q), Offset(q, "offset")).value| <= MaxLimit
  {
  }

  /** GetCommentByIdHandler: an empty id is a 400 validation error;
      otherwise the comment with the clamped reply page. */
  function GetCommentHandler(commentId: string, q: Query, get: (int, int) -> Result<CommentResponse, Error>)
    : (r: (Response, Option<(int, int)>))
    ensures commentId == "" ==> r == (ErrorReply(Validation("comment_id", "comment ID is required")), None)
    ensures commentId != "" ==> r.1 == Some((ReplyLimit(q), Offset(q, "reply_offset")))
    ensures r.0.status == 200 <==> commentId != "" && get(ReplyLimit(q), Offset(q, "reply_offset")).Ok?
    ensures commentId != "" && get(ReplyLimit(q), Offset(q, "reply_offset")).Failure? ==>
              r.0 == ErrorReply(get(ReplyLimit(q), Offset(q, "reply_offset")).error)
    ensures commentId != "" && get(ReplyLimit(q), Offset(q, "reply_offset")) == Failure(NotFound("comment", commentId)) ==>
              r.0 == Response(404, "comment with ID '" + commentId + "' not found")
  {
    if commentId == "" then (ErrorReply(Validation("comment_id", "comment ID is required")), None)
    else
      var page := (ReplyLimit(q), Offset(q, "reply_offset"));
      match get(page.0, page.1)
      case Failure(e) => (ErrorReply(e), Some(page))
      case Ok(_) => (Response(200, "comment"), Some(page))
  }

  /** The clamped reply page never exceeds the limit, and the stored
      comment's reply count is the length of that page. */
  lemma ReplyPageBounded(store: CommentStore, commentId: string, q: Query)
    ensures var res := store.GetCommentById(commentId, ReplyLimit(q), Offset(q, "reply_offset"), None);
            res.Ok? ==> res.value.replyCount == |res.value.replies| <= ReplyLimit(q) <= MaxLimit
  {
  }

  /** A request body as gin binds it: `binding:"required"` refuses an empty
      string, so a body that does not parse and one with an empty required
      field both fail. */
  datatype CreateCommentRequest = CreateCommentRequest(postId: string, content: string, parentId: Option<string>)

  function BindCreate(body: Option<CreateCommentRequest>): (r: Option<CreateCommentRequest>)
    ensures r.Some? <==> body.Some? && body.value.postId != "" && body.value.content != ""
    ensures r.Some? ==> r == body
  {
    if body.Some? && body.value.postId != "" && body.value.content != "" then body else None
  }

  /** CreateCommentHandler: 401, the body, then the repository, with the
      caller as author. */
  function CreateCommentHandler(userId: Option<string>, body: Option<CreateCommentRequest>,
                                create: (string, CreateCommentRequest) -> Result<Comment, Error>)
    : (r: (Response, Option<(string, CreateCommentRequest)>))
    ensures userId.None? ==> r == (ErrNotAuthenticated, None)
    ensures userId.Some? && BindCreate(body).None? ==> r == (ErrInvalidFormat, None)
    ensures r.1.Some? <==> userId.Some? && BindCreate(body).Some?
    ensures r.1.Some? ==> r.1.value == (userId.value, body.value)
    ensures r.0.status == 201 <==> r.1.Some? && create(r.1.value.0, r.1.value.1).Ok?
  {
    if userId.None? then (ErrNotAuthenticated, None)
    else match BindCreate(body)
      case None => (ErrInvalidFormat, None)
      case Some(req) =>
        match create(userId.value, req)
        case Failure(e) => (ErrorReply(e), Some((userId.value, req)))
        case Ok(_) => (Response(201, "comment"), Some((userId.value, req)))
  }

  /** The guard of update and delete: 401, an id, (for update) the body,
      the comment looked up with a reply page of 0 and offset 0, then 403
      unless the caller wrote it.  `lookup` answers GetCommentById. */
  function OwnedComment(userId: Option<string>, commentId: string, bodyOk: bool,
                        lookup: (string, int, int) -> Result<CommentResponse, Error>, forbidden: string)
    : (r: Result<Comment, Response>)
    ensures r.Ok? <==> userId.Some? && commentId != "" && bodyOk && lookup(commentId, 0, 0).Ok?
                       && lookup(commentId, 0, 0).value.comment.userId == userId.value
    ensures r.Ok? ==> r.value == lookup(commentId, 0, 0).value.comment
    ensures userId.None? ==> r == Failure(ErrNotAuthenticated)
    ensures userId.Some? && commentId != "" && bodyOk && lookup(commentId, 0, 0).Ok?
            && lookup(commentId, 0, 0).value.comment.userId != userId.value ==>
              r == Failure(Response(403, forbidden))
  {
    if userId.None? then Failure(ErrNotAuthenticated)
    else if commentId == "" then Failure(ErrorReply(Validation("comment_id", "comment ID is required")))
    else if !bodyOk then Failure(ErrInvalidFormat)
    else match lookup(commentId, 0, 0)
      case Failure(e) => Failure(ErrorReply(e))
      case Ok(found) =>
        if found.comment.userId != userId.value then Failure(Response(403, forbidden))
        else Ok(found.comment)
  }

  /** UpdateCommentHandler; the second component is the content written. */
  function UpdateCommentHandler(userId: Option<string>, commentId: string, content: Option<string>,
                                lookup: (string, int, int) -> Result<CommentResponse, Error>,
                                updateErr: Option<Error>)
    : (r: (Response, Option<string>))
    ensures r.1.Some? <==>
              OwnedComment(userId, commentId, content.Some? && content.value != "", lookup,
                           "You can only update your own comments").Ok?
    ensures r.1.Some? ==> r.1 == content && lookup(commentId, 0, 0).value.comment.userId == userId.value
    ensures r.0.status == 200 <==> r.1.Some? && updateErr.None?
  {
    match OwnedComment(userId, commentId, content.Some? && content.value != "", lookup,
                       "You can only update your own comments")
    case Failure(resp) => (resp, None)
    case Ok(_) =>
      if updateErr.Some? then (ErrorReply(updateErr.value), content)
      else (Response(200, "Comment updated successfully"), content)
  }

  /** DeleteCommentHandler; the second component says whether the delete
      was issued. */
  function DeleteCommentHandler(userId: Option<string>, commentId: string,
                                lookup: (string, int, int) -> Result<CommentResponse, Error>,
                                deleteErr: Option<Error>)
    : (r: (Response, bool))
    ensures r.1 <==> OwnedComment(userId, commentId, true, lookup, "You can only delete your own comments").Ok?
    ensures r.1 ==> lookup(commentId, 0, 0).value.comment.userId == userId.value
    ensures r.0.status == 200 <==> r.1 && deleteErr.None?
  {
    match OwnedComment(userId, commentId, true, lookup, "You can only delete your own comments")
    case Failure(resp) => (resp, false)
    case Ok(_) =>
      if deleteErr.Some? then (ErrorReply(deleteErr.value), true)
      else (Response(200, "Comment deleted successfully"), true)
  }

  /** The ownership lookup reads no replies: against the store, the
      comment it returns carries an empty reply page. */
  lemma OwnershipLookupReadsNoReplies(store: CommentStore, commentId: string)
    ensures var res := store.GetCommentById(commentId, 0, 0, None);
            res.Ok? ==> res.value.replies == [] && res.value.replyCount == 0
  {
  }
}
