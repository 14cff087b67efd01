/** The comment repository (internals/db/repositories/comment_repository.go).
    The "Comment" table is a sequence in creation order held by a store
    object, so a query ordered by creation time is a filter of it.  Failing
    SQL statements are inputs, and the id the database generates is a
    parameter. */
module CommentRepo {
  import opened Wrappers
  import opened Errors

  datatype Comment = Comment(id: string, userId: string, postId: string, parentId: Option<string>, content: string)

  datatype CommentResponse = CommentResponse(comment: Comment, replies: seq<Comment>, replyCount: int,
                                             totalReplyCount: int)

  /** The number of bytes of the UTF-8 encoding of one character. */
  function Utf8Width(c: char): (r: nat)
    ensures 1 <= r <= 4
  {
    if c as int < 0x80 then 1 else if c as int < 0x800 then 2 else if c as int < 0x10000 then 3 else 4
  }

  /** len(s) in Go: the length of the UTF-8 encoding. */
  function ByteLength(s: string): (r: nat)
    ensures |s| <= r <= 4 * |s|
  {
    if s == [] then 0 else ByteLength(s[..|s| - 1]) + Utf8Width(s[|s| - 1])
  }

  const MaxContentBytes := 500

  const ErrCommentFieldsEmpty := Validation("comment", "user_id, post_id, and content cannot be empty")
  const ErrContentTooLong := Validation("content", "comment content exceeds maximum length of 500 characters")
  const ErrReplyToReply := Validation("parent_id", "Cannot reply to a reply comment")

  /** The checks of CreateComment that need no query. */
  function CheckNewComment(userId: string, postId: string, content: string): (r: Option<Error>)
    ensures r.None? <==> userId != "" && postId != "" && content != "" && ByteLength(content) <= MaxContentBytes
    ensures (userId == "" || postId == "" || content == "") ==> r == Some(ErrCommentFieldsEmpty)
  {
    if userId == "" || postId == "" || content == "" then Some(ErrCommentFieldsEmpty)
    else if ByteLength(content) > MaxContentBytes then Some(ErrContentTooLong)
    else None
  }

  /** Content of 500 ASCII characters passes; one more character fails,
      whatever it is. */
  lemma {:induction false} AsciiLengthIsByteLength(s: string)
    requires forall i :: 0 <= i < |s| ==> s[i] as int < 0x80
    ensures ByteLength(s) == |s|
  {
    if s != [] {
      AsciiLengthIsByteLength(s[..|s| - 1]);
    }
  }

  // ------------------------------------------------------------ threads

  predicate IsTopLevel(c: Comment)
  {
    c.parentId.None?
  }

  /** The comments of `cs` that are top-level, in order. */
  function TopLevel(cs: seq<Comment>): (r: seq<Comment>)
    ensures |r| <= |cs|
    ensures forall c :: c in r <==> c in cs && IsTopLevel(c)
  {
    if cs == [] then []
    else TopLevel(cs[..|cs| - 1]) + (if IsTopLevel(cs[|cs| - 1]) then [cs[|cs| - 1]] else [])
  }

  /** The replies to `id` among `cs`, in order. */
  function RepliesTo(cs: seq<Comment>, id: string): (r: seq<Comment>)
    ensures |r| <= |cs|
    ensures forall c :: c in r <==> c in cs && c.parentId == Some(id)
  {
    if cs == [] then []
    else RepliesTo(cs[..|cs| - 1], id) + (if cs[|cs| - 1].parentId == Some(id) then [cs[|cs| - 1]] else [])
  }

  /** The comments of one post, in order: the SELECT of GetCommentsByPostId. */
  function OfPost(cs: seq<Comment>, postId: string): (r: seq<Comment>)
    ensures forall c :: c in r <==> c in cs && c.postId == postId
  {
    if cs == [] then []
    else OfPost(cs[..|cs| - 1], postId) + (if cs[|cs| - 1].postId == postId then [cs[|cs| - 1]] else [])
  }

  /** The response for one top-level comment: every reply counted, only the
      latest one shown. */
  function Thread(rows: seq<Comment>, c: Comment): CommentResponse
  {
    var rs := RepliesTo(rows, c.id);
    if rs == [] then CommentResponse(c, [], 0, 0)
    else CommentResponse(c, [rs[|rs| - 1]], 1, |rs|)
  }

  /** The threads for the top-level comments among `cs`. */
  function Threads(cs: seq<Comment>, rows: seq<Comment>): seq<CommentResponse>
  {
    if cs == [] then []
    else Threads(cs[..|cs| - 1], rows) + (if IsTopLevel(cs[|cs| - 1]) then [Thread(rows, cs[|cs| - 1])] else [])
  }

  /** One thread per top-level comment, in the order of the rows. */
  lemma {:induction false} ThreadsFollowTopLevel(cs: seq<Comment>, rows: seq<Comment>)
    ensures |Threads(cs, rows)| == |TopLevel(cs)|
    ensures forall k :: 0 <= k < |TopLevel(cs)| ==> Threads(cs, rows)[k] == Thread(rows, TopLevel(cs)[k])
  {
    if cs != [] {
      ThreadsFollowTopLevel(cs[..|cs| - 1], rows);
    }
  }

  /** The reply a thread shows is the last reply in the rows: no reply to
      the same comment comes after it.  The result is its index. */
  lemma {:induction false} LastReplyIsLatest(rows: seq<Comment>, id: string) returns (j: nat)
    requires RepliesTo(rows, id) != []
    ensures j < |rows| && rows[j] == RepliesTo(rows, id)[|RepliesTo(rows, id)| - 1]
    ensures rows[j].parentId == Some(id)
    ensures forall k :: j < k < |rows| ==> rows[k].parentId != Some(id)
  {
    var front := rows[..|rows| - 1];
    if rows[|rows| - 1].parentId == Some(id) {
      j := |rows| - 1;
    } else {
      assert RepliesTo(rows, id) == RepliesTo(front, id);
      j := LastReplyIsLatest(front, id);
      assert rows[j] == front[j];
      forall k | j < k < |rows|
        ensures rows[k].parentId != Some(id)
      {
        if k < |front| {
          assert rows[k] == front[k];
        }
      }
    }
  }

  /** What every thread says: it is a top-level comment, its reply count is
      the number of replies shown, at most one, and the shown reply is a
      reply to it; the total counts every reply in the rows. */
  lemma ThreadShape(rows: seq<Comment>, c: Comment)
    ensures var t := Thread(rows, c);
            t.comment == c && t.replyCount == |t.replies| && 0 <= t.replyCount <= 1
            && t.totalReplyCount == |RepliesTo(rows, c.id)|
            && (t.replyCount == 1 <==> t.totalReplyCount > 0)
            && forall r :: r in t.replies ==> r in rows && r.parentId == Some(c.id)
  {
    var rs := RepliesTo(rows, c.id);
    if rs != [] {
      assert rs[|rs| - 1] in rs;
    }
  }

  // --------------------------------------------------------- pagination

  /** The pagination of GetCommentsByPostId: an offset at or past the end
      gives the empty page; a positive limit gives [offset, min(offset+limit,
      n)); any other limit gives the whole list, offset ignored.  None is the
      run-time panic of a slice from a negative offset. */
  function Paginate<T>(xs: seq<T>, limit: int, offset: int): (r: Option<seq<T>>)
    ensures r.None? <==> offset < |xs| && limit > 0 && offset < 0
    ensures offset >= |xs| ==> r == Some([])
    ensures 0 <= offset < |xs| && limit > 0 ==> r == Some(xs[offset..Min(offset + limit, |xs|)])
    ensures offset < |xs| && limit <= 0 ==> r == Some(xs)
    ensures r.Some? && limit > 0 ==> |r.value| <= limit
  {
    if offset >= |xs| then Some([])
    else
      var end := if offset + limit > |xs| then |xs| else offset + limit;
      if limit > 0 then
        if offset < 0 then None else Some(xs[offset..end])
      else Some(xs)
  }

  /** LIMIT and OFFSET of a query; Postgres refuses negative values. */
  function SqlPage<T>(xs: seq<T>, limit: int, offset: int): (r: Option<seq<T>>)
    ensures r.Some? <==> limit >= 0 && offset >= 0
    ensures r.Some? ==> |r.value| == Max(0, Min(limit, |xs| - offset))
    ensures r.Some? ==> forall k :: 0 <= k < |r.value| ==> r.value[k] == xs[offset + k]
  {
    if limit < 0 || offset < 0 then None
    else if offset >= |xs| then Some([])
    else Some(xs[offset..Min(offset + limit, |xs|)])
  }

  const SlicePanic := Plain("runtime error: slice bounds out of range")

  /** Extending the rows by one extends each reply list by at most that row. */
  lemma RepliesStep(rows: seq<Comment>, i: nat, p: string)
    requires i < |rows|
    ensures RepliesTo(rows[..i + 1], p) ==
            RepliesTo(rows[..i], p) + (if rows[i].parentId == Some(p) then [rows[i]] else [])
  {
    assert rows[..i + 1][..i] == rows[..i];
  }

  /** The reply map holds, for each parent with replies among `rows`,
      exactly those replies in row order. */
  ghost predicate GroupedReplies(replyMap: map<string, seq<Comment>>, rows: seq<Comment>)
  {
    (forall p :: p in replyMap <==> RepliesTo(rows, p) != [])
    && (forall p :: p in replyMap ==> replyMap[p] == RepliesTo(rows, p))
  }

  /** The reply map after one more row: a reply is appended to its
      parent's list, a top-level comment leaves the map as it is. */
  function AddReply(replyMap: map<string, seq<Comment>>, c: Comment): map<string, seq<Comment>>
  {
    if c.parentId.None? then replyMap
    else
      var p := c.parentId.value;
      replyMap[p := (if p in replyMap then replyMap[p] else []) + [c]]
  }

  /** Adding one row to the reply map keeps it grouped. */
  lemma GroupStep(rows: seq<Comment>, i: nat, replyMap: map<string, seq<Comment>>)
    requires i < |rows| && GroupedReplies(replyMap, rows[..i])
    ensures GroupedReplies(AddReply(replyMap, rows[i]), rows[..i + 1])
  {
    var c := rows[i];
    var next := AddReply(replyMap, c);
    forall p
      ensures (p in next <==> RepliesTo(rows[..i + 1], p) != [])
              && (p in next ==> next[p] == RepliesTo(rows[..i + 1], p))
    {
      RepliesStep(rows, i, p);
      if c.parentId == Some(p) {
        assert next[p] == (if p in replyMap then replyMap[p] else []) + [c];
      } else {
        assert p in next <==> p in replyMap;
      }
    }
  }

  /** The first loop of GetCommentsByPostId: every row is kept, and each
      reply is appended to its parent's list in the reply map. */
  method GroupReplies(rows: seq<Comment>) returns (allComments: seq<Comment>, replyMap: map<string, seq<Comment>>)
    ensures allComments == rows
    ensures GroupedReplies(replyMap, rows)
  {
    allComments := [];
    replyMap := map[];
    for i := 0 to |rows|
      invariant allComments == rows[..i]
      invariant GroupedReplies(replyMap, rows[..i])
    {
      var c := rows[i];
      GroupStep(rows, i, replyMap);
      allComments := allComments + [c];
      replyMap := AddReply(replyMap, c);
    }
    assert rows[..|rows|] == rows;
  }

  /** The response the second loop builds for one top-level comment. */
  method ThreadFor(c: Comment, replyMap: map<string, seq<Comment>>, ghost rows: seq<Comment>)
    returns (response: CommentResponse)
    requires IsTopLevel(c) && GroupedReplies(replyMap, rows)
    ensures response == Thread(rows, c)
  {
    response := CommentResponse(c, [], 0, 0);
    if c.id in replyMap {
      var replies := replyMap[c.id];
      response := response.(totalReplyCount := |replies|);
      if |replies| > 0 {
        response := response.(replies := [replies[|replies| - 1]], replyCount := 1);
      }
    }
  }

  /** The loops of GetCommentsByPostId over the rows of one post: first the
      reply map, then one response per top-level comment, in row order. */
  method BuildThreads(rows: seq<Comment>) returns (responses: seq<CommentResponse>)
    ensures responses == Threads(rows, rows)
  {
    var allComments, replyMap := GroupReplies(rows);
    responses := [];
    var j := 0;
    while j < |allComments|
      invariant 0 <= j <= |allComments|
      invariant responses == Threads(allComments[..j], rows)
    {
      var c := allComments[j];
      assert allComments[..j + 1][..j] == allComments[..j];
      if c.parentId.None? {
        var response := ThreadFor(c, replyMap, rows);
        responses := responses + [response];
      }
      j := j + 1;
    }
    assert allComments[..j] == allComments;
  }

  /** No reply has replies: a comment that is some comment's parent is
      top-level. */
  ghost predicate OneLevel(cs: seq<Comment>)
  {
    forall i, j :: 0 <= i < |cs| && 0 <= j < |cs| && cs[j].parentId == Some(cs[i].id) ==> IsTopLevel(cs[i])
  }

  /** The comment table's invariant: ids are unique and issued, every
      parent id was issued, and replies are one level deep. */
  ghost predicate ValidComments(cs: seq<Comment>, issued: set<string>)
  {
    (forall i, j :: 0 <= i < j < |cs| ==> cs[i].id != cs[j].id)
    && (forall i :: 0 <= i < |cs| ==> cs[i].id in issued)
    && (forall i :: 0 <= i < |cs| && cs[i].parentId.Some? ==> cs[i].parentId.value in issued)
    && OneLevel(cs)
  }

  /** Deleting the row at k keeps the invariant and leaves no row with its
      id. */
  lemma RemoveKeepsValid(cs: seq<Comment>, issued: set<string>, k: nat)
    requires ValidComments(cs, issued) && k < |cs|
    ensures var rest := cs[..k] + cs[k + 1..];
            ValidComments(rest, issued) && forall i :: 0 <= i < |rest| ==> rest[i].id != cs[k].id
  {
    var rest := cs[..k] + cs[k + 1..];
    assert forall i :: 0 <= i < |rest| ==> rest[i] == if i < k then cs[i] else cs[i + 1];
    forall i, j | 0 <= i < |rest| && 0 <= j < |rest| && rest[j].parentId == Some(rest[i].id)
      ensures IsTopLevel(rest[i])
    {
      var i', j' := if i < k then i else i + 1, if j < k then j else j + 1;
      assert cs[j'].parentId == Some(cs[i'].id);
    }
  }

  class CommentStore {
    var comments: seq<Comment>
    /** Every id the database has handed out; it never hands one out twice. */
    var issued: set<string>

    /** Ids are unique and issued, every parent id was issued, and replies
        are one level deep. */
    ghost predicate Valid()
      reads this
    {
      ValidComments(comments, issued)
    }

    constructor ()
      ensures comments == [] && Valid()
    {
      comments := [];
      issued := {};
    }

    /** The index of the row with that id, or |comments|. */
    function IndexOf(id: string): (r: nat)
      reads this
      ensures r <= |comments|
      ensures r < |comments| ==> comments[r].id == id
      ensures r == |comments| ==> forall i :: 0 <= i < |comments| ==> comments[i].id != id
    {
      IndexIn(comments, id)
    }

    /** CreateComment.  `parentErr` is a failure of the parent query other
        than "no rows", `insertErr` of the INSERT, `newId` the id it returns;
        an id handed out before fails as the primary key would. */
    method CreateComment(userId: string, postId: string, content: string, parentId: Option<string>,
                         newId: string, parentErr: Option<Error>, insertErr: Option<Error>)
      returns (r: Result<Comment, Error>)
      requires Valid()
      modifies this
      ensures Valid()
      ensures CheckNewComment(userId, postId, content).Some? ==> r == Failure(CheckNewComment(userId, postId, content).value)
      ensures CheckNewComment(userId, postId, content).None? && parentId.Some? && parentErr.None? ==>
                var k := IndexIn(old(comments), parentId.value);
                (k == |old(comments)| ==> r == Failure(NotFound("comment", parentId.value)))
                && (k < |old(comments)| && !IsTopLevel(old(comments)[k]) ==> r == Failure(ErrReplyToReply))
      ensures r.Ok? <==>
                CheckNewComment(userId, postId, content).None?
                && (parentId.Some? ==> parentErr.None? && IndexIn(old(comments), parentId.value) < |old(comments)|
                                       && IsTopLevel(old(comments)[IndexIn(old(comments), parentId.value)]))
                && insertErr.None? && newId !in old(issued)
      ensures r.Failure? ==> comments == old(comments)
      ensures r.Ok? ==> r.value == Comment(newId, userId, postId, parentId, content)
                        && comments == old(comments) + [r.value]
    {
      var check := CheckNewComment(userId, postId, content);
      if check.Some? {
        return Failure(check.value);
      }
      if parentId.Some? {
        if parentErr.Some? {
          return Failure(Database("select", "comments", parentErr.value));
        }
        var k := IndexOf(parentId.value);
        if k == |comments| {
          return Failure(NotFound("comment", parentId.value));
        }
        if !IsTopLevel(comments[k]) {
          return Failure(ErrReplyToReply);
        }
      }
      if insertErr.Some? {
        return Failure(Database("insert", "comments", insertErr.value));
      }
      if newId in issued {
        return Failure(Database("insert", "comments", Plain("duplicate key value violates unique constraint")));
      }
      var c := Comment(newId, userId, postId, parentId, content);
      comments := comments + [c];
      issued := issued + {newId};
      return Ok(c);
    }

    /** GetCommentsByPostId; `queryErr` is a failure of the query or of the
        row scan.  The rows of the post are threaded and then paginated. */
    method GetCommentsByPostId(postId: string, limit: int, offset: int, queryErr: Option<Error>)
      returns (r: Result<seq<CommentResponse>, Error>)
      ensures postId == "" ==> r == Failure(Validation("post_id", "post_id cannot be empty"))
      ensures postId != "" && queryErr.None? ==>
                var threads := Threads(OfPost(comments, postId), OfPost(comments, postId));
                match Paginate(threads, limit, offset)
                case Some(page) => r == Ok(page)
                case None => r == Failure(SlicePanic)
    {
      if postId == "" {
        return Failure(Validation("post_id", "post_id cannot be empty"));
      }
      if queryErr.Some? {
        return Failure(Database("select", "comments", queryErr.value));
      }
      var rows := OfPost(comments, postId);
      var threads := BuildThreads(rows);
      var page := Paginate(threads, limit, offset);
      if page.None? {
        return Failure(SlicePanic);
      }
      return Ok(page.value);
    }

    /** GetCommentById: the comment, the count of all its replies, and the
        requested page of them, queried only when the count is positive. */
    function GetCommentById(id: string, replyLimit: int, replyOffset: int, queryErr: Option<Error>)
      : (r: Result<CommentResponse, Error>)
      reads this
      ensures id == "" ==> r == Failure(Validation("comment_id", "comment_id cannot be empty"))
      ensures id != "" && queryErr.None? && IndexOf(id) == |comments| ==> r == Failure(NotFound("comment", id))
      ensures r.Ok? ==> IndexOf(id) < |comments|
      ensures id != "" && queryErr.Some? ==> r == Failure(Database("select", "comments", queryErr.value))
      ensures id != "" && queryErr.None? && IndexOf(id) < |comments| && replyLimit >= 0 && replyOffset >= 0 ==> r.Ok?
      ensures r.Ok? ==>
                r.value.comment == comments[IndexOf(id)]
                && r.value.totalReplyCount == |RepliesTo(comments, id)|
                && r.value.replyCount == |r.value.replies|
                && (r.value.totalReplyCount == 0 ==> r.value.replies == [])
                && (r.value.totalReplyCount > 0 ==>
                      Some(r.value.replies) == SqlPage(RepliesTo(comments, id), replyLimit, replyOffset))
    {
      if id == "" then Failure(Validation("comment_id", "comment_id cannot be empty"))
      else if queryErr.Some? then Failure(Database("select", "comments", queryErr.value))
      else if IndexOf(id) == |comments| then Failure(NotFound("comment", id))
      else
        var all := RepliesTo(comments, id);
        if |all| == 0 then Ok(CommentResponse(comments[IndexOf(id)], [], 0, 0))
        else match SqlPage(all, replyLimit, replyOffset)
          case None => Failure(Database("select", "comments", Plain("LIMIT or OFFSET must not be negative")))
          case Some(page) => Ok(CommentResponse(comments[IndexOf(id)], page, |page|, |all|))
    }

    /** UpdateComment: empty id or content is refused; zero rows is
        NotFound, checked before the commit. */
    method UpdateComment(id: string, content: string, faults: StatementFaults) returns (err: Option<Error>)
      requires Valid()
      modifies this
      ensures Valid()
      ensures id == "" || content == "" ==> err == Some(Validation("comment", "id and content cannot be empty"))
      ensures id != "" && content != "" ==>
                err == StepError(faults, "update", IndexIn(old(comments), id) < |old(comments)|, id)
      ensures err.None? <==> id != "" && content != "" && faults.Clean() && IndexIn(old(comments), id) < |old(comments)|
      ensures err.Some? ==> comments == old(comments)
      ensures err.None? ==>
                comments == old(comments)[IndexIn(old(comments), id) := old(comments)[IndexIn(old(comments), id)].(content := content)]
    {
      if id == "" || content == "" {
        return Some(Validation("comment", "id and content cannot be empty"));
      }
      var k := IndexOf(id);
      err := StepError(faults, "update", k < |comments|, id);
      if err.None? {
        comments := comments[k := comments[k].(content := content)];
        assert forall i :: 0 <= i < |comments| ==> comments[i].id == old(comments)[i].id
                                                   && comments[i].parentId == old(comments)[i].parentId;
      }
    }

    /** DeleteComment: an empty id is refused; zero rows is NotFound,
        checked before the commit. */
    method DeleteComment(id: string, faults: StatementFaults) returns (err: Option<Error>)
      requires Valid()
      modifies this
      ensures Valid()
      ensures id == "" ==> err == Some(Validation("comment", "id cannot be empty"))
      ensures id != "" ==> err == StepError(faults, "delete", IndexIn(old(comments), id) < |old(comments)|, id)
      ensures err.None? <==> id != "" && faults.Clean() && IndexIn(old(comments), id) < |old(comments)|
      ensures err.Some? ==> comments == old(comments)
      ensures err.None? ==>
                var k := IndexIn(old(comments), id);
                comments == old(comments)[..k] + old(comments)[k + 1..]
                && forall i :: 0 <= i < |comments| ==> comments[i].id != id
    {
      if id == "" {
        return Some(Validation("comment", "id cannot be empty"));
      }
      var k := IndexOf(id);
      err := StepError(faults, "delete", k < |comments|, id);
      if err.None? {
        RemoveKeepsValid(comments, issued, k);
        comments := comments[..k] + comments[k + 1..];
      }
    }
  }

  /** The error of the first failing step of UpdateComment or
      DeleteComment after its checks: BEGIN, the statement `op`, reading
      the rows affected (labelled as the statement), the zero-rows check
      (`found`), then COMMIT. */
  function StepError(faults: StatementFaults, op: string, found: bool, id: string): (r: Option<Error>)
    ensures r.None? <==> faults.Clean() && found
    ensures faults.begin.Some? ==> r == Some(Database("begin_transaction", "Comment", faults.begin.value))
    ensures faults.begin.None? && faults.exec.Some? ==> r == Some(Database(op, "Comment", faults.exec.value))
    ensures faults.begin.None? && faults.exec.None? && faults.affected.Some? ==>
              r == Some(Database(op, "Comment", faults.affected.value))
    ensures faults.begin.None? && faults.exec.None? && faults.affected.None? && !found ==>
              r == Some(NotFound("comment", id))
    ensures faults.begin.None? && faults.exec.None? && faults.affected.None? && found && faults.commit.Some? ==>
              r == Some(Database("commit", "transaction", faults.commit.value))
  {
    if faults.begin.Some? then Some(Database("begin_transaction", "Comment", faults.begin.value))
    else if faults.exec.Some? then Some(Database(op, "Comment", faults.exec.value))
    else if faults.affected.Some? then Some(Database(op, "Comment", faults.affected.value))
    else if !found then Some(NotFound("comment", id))
    else if faults.commit.Some? then Some(Database("commit", "transaction", faults.commit.value))
    else None
  }

  /** The index of the first comment with that id, or |cs|. */
  function IndexIn(cs: seq<Comment>, id: string): (r: nat)
    ensures r <= |cs|
    ensures r < |cs| ==> cs[r].id == id
    ensures forall i :: 0 <= i < r ==> cs[i].id != id
  {
    if cs == [] then 0 else if cs[0].id == id then 0 else 1 + IndexIn(cs[1..], id)
  }

  /** A page of a post's comments holds top-level comments only, each at
      most once and in creation order, and never more than the limit. */
  lemma PageIsTopLevel(rows: seq<Comment>, limit: int, offset: int)
    requires 0 <= offset
    ensures var threads := Threads(rows, rows);
            Paginate(threads, limit, offset).Some?
            && forall t :: t in Paginate(threads, limit, offset).value ==> IsTopLevel(t.comment) && t.comment in rows
  {
    var threads := Threads(rows, rows);
    ThreadsFollowTopLevel(rows, rows);
    forall t | t in threads
      ensures IsTopLevel(t.comment) && t.comment in rows
    {
      var k :| 0 <= k < |threads| && threads[k] == t;
      assert TopLevel(rows)[k] in TopLevel(rows);
    }
  }
}
