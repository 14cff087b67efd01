/** The post repository (internals/db/repositories/post_repository.go): the
    tag codec, the argument checks of each operation, the translation of
    driver errors, the image aggregate, and the row-level effect of the
    update and delete statements on the "Post" table. */
module PostRepo {
  import opened Wrappers
  import opened GoStrings
  import opened Errors

  // ------------------------------------------------------------- tags

  /** StringToTags: the empty string has no tags; otherwise the pieces
      between commas. */
  function StringToTags(s: string): (r: seq<string>)
    ensures s == "" <==> r == []
  {
    if s == "" then [] else Split(s, ',')
  }

  /** TagsToString. */
  function TagsToString(tags: seq<string>): string
  {
    Join(tags, ",")
  }

  /** Every stored tag string is given back by encoding its tags. */
  lemma TagsStringRoundTrip(s: string)
    ensures TagsToString(StringToTags(s)) == s
  {
    if s != "" {
      JoinSplit(s, ',');
    }
  }

  lemma {:induction false} JoinNonEmpty(parts: seq<string>, sep: string)
    requires sep != [] && parts != [] && parts != [""]
    ensures Join(parts, sep) != ""
  {
    if |parts| >= 2 {
      assert |Join(parts, sep)| >= |sep|;
    }
  }

  /** A tag list comes back from its encoding when no tag holds a comma and
      the list is not the single empty tag (which encodes as no tags). */
  lemma TagsListRoundTrip(tags: seq<string>)
    requires forall i :: 0 <= i < |tags| ==> ',' !in tags[i]
    requires tags != [""]
    ensures StringToTags(TagsToString(tags)) == tags
  {
    if tags != [] {
      JoinNonEmpty(tags, ",");
      SplitJoin(tags, ',');
    }
  }

  /** The exception the last lemma leaves out. */
  lemma SingleEmptyTagLost()
    ensures StringToTags(TagsToString([""])) == []
  {
  }

  // ------------------------------------------------------------- checks

  /** The fields of a post the repository reads or writes. */
  datatype Post = Post(id: string, userId: string, content: string, tags: string, likeCount: int, updatedAt: int)

  const ErrNilPost := Validation("post", "post cannot be nil")
  const ErrPostIdRequired := Validation("post_id", "post ID is required")

  /** The checks of CreatePost, in order: nil post, missing user id, blank
      content. */
  function CreatePostCheck(post: Option<Post>): (r: Option<Error>)
    ensures post.None? ==> r == Some(ErrNilPost)
    ensures post.Some? ==>
              (r.None? <==> post.value.userId != "" && !IsBlank(post.value.content))
    ensures post.Some? && post.value.userId == "" ==> r == Some(ErrUserIDMissing)
    ensures post.Some? && post.value.userId != "" && IsBlank(post.value.content) ==> r == Some(ErrContentEmpty)
  {
    if post.None? then Some(ErrNilPost)
    else if post.value.userId == "" then Some(ErrUserIDMissing)
    else if TrimSpace(post.value.content) == "" then (TrimSpaceEmptyIffBlank(post.value.content); Some(ErrContentEmpty))
    else (TrimSpaceEmptyIffBlank(post.value.content); None)
  }

  /** The translation of a failed INSERT: by the text of the driver error,
      a foreign key violation first, then a duplicate key. */
  function InsertError(err: Error): (r: Error)
    ensures Contains(err.Message(), "foreign key constraint") ==> r == ErrUserNotFound
    ensures !Contains(err.Message(), "foreign key constraint") && Contains(err.Message(), "duplicate key") ==>
              r == ErrPostAlreadyExists
    ensures r != ErrUserNotFound && r != ErrPostAlreadyExists ==> r == Database("insert", "Post", err)
    ensures r.Database? ==> r.cause == err
  {
    if Contains(err.Message(), "foreign key constraint") then ErrUserNotFound
    else if Contains(err.Message(), "duplicate key") then ErrPostAlreadyExists
    else Database("insert", "Post", err)
  }

  /** CreatePost: the checks, then the INSERT, whose failure `insertErr` is. */
  function CreatePost(post: Option<Post>, insertErr: Option<Error>): (r: Option<Error>)
    ensures CreatePostCheck(post).Some? ==> r == CreatePostCheck(post)
    ensures CreatePostCheck(post).None? ==>
              (r.None? <==> insertErr.None?) && (insertErr.Some? ==> r == Some(InsertError(insertErr.value)))
  {
    if CreatePostCheck(post).Some? then CreatePostCheck(post)
    else if insertErr.Some? then Some(InsertError(insertErr.value))
    else None
  }

  /** The checks of the paginated lists, in order; `userId` is None for
      GetAllPosts, which takes no user, and for GetAllPostsWithComments,
      which takes one but does not check it. */
  function ListCheck(userId: Option<string>, limit: int, offset: int): (r: Option<Error>)
    ensures r.None? <==> (userId.None? || userId.value != "") && limit > 0 && offset >= 0
    ensures userId == Some("") ==> r == Some(ErrUserIDMissing)
    ensures (userId.None? || userId.value != "") && limit <= 0 ==> r == Some(ErrInvalidLimit)
    ensures (userId.None? || userId.value != "") && limit > 0 && offset < 0 ==> r == Some(ErrInvalidOffset)
  {
    if userId == Some("") then Some(ErrUserIDMissing)
    else if limit <= 0 then Some(ErrInvalidLimit)
    else if offset < 0 then Some(ErrInvalidOffset)
    else None
  }

  /** GetPostById's lookup: an empty id is a validation error, no row is a
      not-found error naming the id, a driver error is wrapped. */
  function GetPostById(postId: string, row: RowResult<Post>): (r: Result<Post, Error>)
    ensures postId == "" ==> r == Failure(ErrPostIdRequired)
    ensures postId != "" ==>
              (r.Ok? <==> row.Row?)
              && (row.Row? ==> r.value == row.value)
              && (row.NoRows? ==> r == Failure(NotFound("post", postId)))
              && (row.RowFailed? ==> r == Failure(Database("select", "Post", row.error)))
  {
    if postId == "" then Failure(ErrPostIdRequired)
    else match row
      case Row(p) => Ok(p)
      case NoRows => Failure(NotFound("post", postId))
      case RowFailed(e) => Failure(Database("select", "Post", e))
  }

  datatype PostImage = PostImage(id: string, postId: string, imageUrl: string)

  /** The images of a post from the aggregated column: "{}" and "" stand for
      none, and text that does not decode also gives none. */
  function ImagesOf(aggregate: string, decode: string -> Option<seq<PostImage>>): (r: seq<PostImage>)
    ensures aggregate == "{}" || aggregate == "" ==> r == []
    ensures r != [] ==> decode(aggregate) == Some(r)
  {
    if aggregate == "{}" || aggregate == "" then []
    else match decode(aggregate)
      case Some(images) => images
      case None => []
  }

  /** A row of the list queries: the post and its image aggregate, or a
      failed Scan. */
  datatype PostRow = PostScanFailed | PostScanned(post: Post, images: string)

  /** The rows that scanned, in order, with their image aggregates. */
  function ScannedPosts(rows: seq<PostRow>): (r: seq<(Post, string)>)
    ensures |r| <= |rows|
  {
    if rows == [] then []
    else (if rows[0].PostScanned? then [(rows[0].post, rows[0].images)] else []) + ScannedPosts(rows[1..])
  }

  lemma ScannedPostsAppend(rows: seq<PostRow>, row: PostRow)
    ensures ScannedPosts(rows + [row]) ==
            ScannedPosts(rows) + (if row.PostScanned? then [(row.post, row.images)] else [])
  {
    if rows != [] {
      assert (rows + [row])[1..] == rows[1..] + [row];
      ScannedPostsAppend(rows[1..], row);
    }
  }

  /** The scan loop of GetPostsByUserId and GetAllPosts: rows that fail to
      scan are skipped, the others keep their order and get their images. */
  method ScanPosts(rows: seq<PostRow>, decode: string -> Option<seq<PostImage>>)
    returns (posts: seq<(Post, seq<PostImage>)>)
    ensures |posts| == |ScannedPosts(rows)|
    ensures forall k :: 0 <= k < |posts| ==>
              posts[k] == (ScannedPosts(rows)[k].0, ImagesOf(ScannedPosts(rows)[k].1, decode))
  {
    posts := [];
    var i := 0;
    while i < |rows|
      invariant 0 <= i <= |rows|
      invariant |posts| == |ScannedPosts(rows[..i])|
      invariant forall k :: 0 <= k < |posts| ==>
                  posts[k] == (ScannedPosts(rows[..i])[k].0, ImagesOf(ScannedPosts(rows[..i])[k].1, decode))
    {
      ScannedPostsAppend(rows[..i], rows[i]);
      assert rows[..i + 1] == rows[..i] + [rows[i]];
      if rows[i].PostScanned? {
        posts := posts + [(rows[i].post, ImagesOf(rows[i].images, decode))];
      }
      i := i + 1;
    }
    assert rows[..i] == rows;
  }

  /** The checks of UpdatePost, in order: nil post, id, user id, content. */
  function UpdatePostCheck(post: Option<Post>): (r: Option<Error>)
    ensures post.None? ==> r == Some(ErrNilPost)
    ensures post.Some? ==>
              (r.None? <==> post.value.id != "" && post.value.userId != "" && !IsBlank(post.value.content))
    ensures post.Some? && post.value.id == "" ==> r == Some(ErrPostIdRequired)
    ensures post.Some? && post.value.id != "" && post.value.userId == "" ==> r == Some(ErrUserIDMissing)
  {
    if post.None? then Some(ErrNilPost)
    else if post.value.id == "" then Some(ErrPostIdRequired)
    else if post.value.userId == "" then Some(ErrUserIDMissing)
    else if TrimSpace(post.value.content) == "" then (TrimSpaceEmptyIffBlank(post.value.content); Some(ErrContentEmpty))
    else (TrimSpaceEmptyIffBlank(post.value.content); None)
  }

  /** The checks of DeletePost, in order. */
  function DeletePostCheck(postId: string, userId: string): (r: Option<Error>)
    ensures r.None? <==> postId != "" && userId != ""
    ensures postId == "" ==> r == Some(ErrPostIdRequired)
    ensures postId != "" && userId == "" ==> r == Some(ErrUserIDMissing)
  {
    if postId == "" then Some(ErrPostIdRequired)
    else if userId == "" then Some(ErrUserIDMissing)
    else None
  }

  predicate Owns(p: Post, postId: string, userId: string)
  {
    p.id == postId && p.userId == userId
  }

  predicate HasOwned(posts: seq<Post>, postId: string, userId: string)
  {
    exists i :: 0 <= i < |posts| && Owns(posts[i], postId, userId)
  }

  /** The UPDATE of UpdatePost on the table. */
  function ApplyUpdate(posts: seq<Post>, upd: Post, now: int): (r: seq<Post>)
    ensures |r| == |posts|
    ensures forall i :: 0 <= i < |posts| ==>
              r[i] == if Owns(posts[i], upd.id, upd.userId)
                      then posts[i].(content := upd.content, tags := upd.tags, updatedAt := now)
                      else posts[i]
  {
    if posts == [] then []
    else [if Owns(posts[0], upd.id, upd.userId)
          then posts[0].(content := upd.content, tags := upd.tags, updatedAt := now) else posts[0]]
         + ApplyUpdate(posts[1..], upd, now)
  }

  /** The DELETE of DeletePost on the table. */
  function RemoveOwned(posts: seq<Post>, postId: string, userId: string): (r: seq<Post>)
    ensures |r| <= |posts|
    ensures forall p :: p in r <==> p in posts && !Owns(p, postId, userId)
    ensures |r| == |posts| <==> !HasOwned(posts, postId, userId)
  {
    if posts == [] then []
    else
      var rest := RemoveOwned(posts[1..], postId, userId);
      assert HasOwned(posts, postId, userId) <==> Owns(posts[0], postId, userId) || HasOwned(posts[1..], postId, userId) by {
        if HasOwned(posts[1..], postId, userId) {
          var i :| 0 <= i < |posts[1..]| && Owns(posts[1..][i], postId, userId);
          assert posts[i + 1] == posts[1..][i];
        }
        if HasOwned(posts, postId, userId) && !Owns(posts[0], postId, userId) {
          var i :| 0 <= i < |posts| && Owns(posts[i], postId, userId);
          assert posts[1..][i - 1] == posts[i];
        }
      }
      if Owns(posts[0], postId, userId) then rest else [posts[0]] + rest
  }

  /** The "Post" table. */
  class PostTable {
    var posts: seq<Post>

    constructor (posts: seq<Post>)
      ensures this.posts == posts
    {
      this.posts := posts;
    }

    /** UpdatePost: a post is changed only by its owner; when no row matches
        both the id and the user the caller is told it is not authorised.
        `execErr` is a driver failure of the statement. */
    method UpdatePost(post: Option<Post>, now: int, execErr: Option<Error>) returns (r: Option<Error>)
      modifies this
      ensures UpdatePostCheck(post).Some? ==> r == UpdatePostCheck(post) && posts == old(posts)
      ensures UpdatePostCheck(post).None? && execErr.Some? ==>
                r == Some(Database("update", "Post", execErr.value)) && posts == old(posts)
      ensures UpdatePostCheck(post).None? && execErr.None? ==>
                var p := post.value;
                if HasOwned(old(posts), p.id, p.userId) then r.None? && posts == ApplyUpdate(old(posts), p, now)
                else r == Some(Authorization("update", "post", p.userId)) && posts == old(posts)
    {
      r := UpdatePostCheck(post);
      if r.Some? {
        return;
      }
      if execErr.Some? {
        return Some(Database("update", "Post", execErr.value));
      }
      var p := post.value;
      if !HasOwned(posts, p.id, p.userId) {
        return Some(Authorization("update", "post", p.userId));
      }
      posts := ApplyUpdate(posts, p, now);
    }

    /** DeletePost: zero rows deleted is reported as not authorised. */
    method DeletePost(postId: string, userId: string, execErr: Option<Error>) returns (r: Option<Error>)
      modifies this
      ensures DeletePostCheck(postId, userId).Some? ==> r == DeletePostCheck(postId, userId) && posts == old(posts)
      ensures DeletePostCheck(postId, userId).None? && execErr.Some? ==>
                r == Some(Database("delete", "Post", execErr.value)) && posts == old(posts)
      ensures DeletePostCheck(postId, userId).None? && execErr.None? ==>
                posts == RemoveOwned(old(posts), postId, userId)
                && (r.None? <==> HasOwned(old(posts), postId, userId))
                && (r.Some? ==> r.value == Authorization("delete", "post", userId))
    {
      r := DeletePostCheck(postId, userId);
      if r.Some? {
        return;
      }
      if execErr.Some? {
        return Some(Database("delete", "Post", execErr.value));
      }
      var before := |posts|;
      posts := RemoveOwned(posts, postId, userId);
      if |posts| == before {
        return Some(Authorization("delete", "post", userId));
      }
    }

    /** CheckPostOwnership. */
    function CheckPostOwnership(postId: string, userId: string, queryErr: Option<Error>): (r: Result<bool, Error>)
      reads this
      ensures DeletePostCheck(postId, userId).Some? ==> r == Failure(DeletePostCheck(postId, userId).value)
      ensures DeletePostCheck(postId, userId).None? && queryErr.None? ==>
                r == Ok(HasOwned(posts, postId, userId))
    {
      if postId == "" then Failure(ErrPostIdRequired)
      else if userId == "" then Failure(ErrUserIDMissing)
      else if queryErr.Some? then Failure(Database("select", "Post", queryErr.value))
      else Ok(HasOwned(posts, postId, userId))
    }
  }
}
