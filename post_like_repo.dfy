/** The like repository (internals/db/repositories/post_like_repository.go):
    a like is a ("post_likes") row and each post keeps a like_count; liking
    and unliking change both in one transaction.  The rows are kept per post
    as a multiset of user ids, so the model does not depend on whether the
    table forbids a repeated (post, user) pair. */
module PostLikeRepo {
  import opened Wrappers
  import opened Errors

  datatype LikeTables = LikeTables(likers: map<string, multiset<string>>, likeCount: map<string, int>)

  /** The users with a like row on post `p`. */
  function Likers(t: LikeTables, p: string): multiset<string>
  {
    if p in t.likers then t.likers[p] else multiset{}
  }

  /** The counter of every post equals its number of like rows. */
  ghost predicate Counted(t: LikeTables)
  {
    forall p :: p in t.likeCount ==> t.likeCount[p] == |Likers(t, p)|
  }

  /** LikePost on success: one more row, and the counter (of a post that
      exists) one higher. */
  function AfterLike(t: LikeTables, p: string, u: string): (r: LikeTables)
    ensures Likers(r, p) == Likers(t, p) + multiset{u}
    ensures forall q :: q != p ==> Likers(r, q) == Likers(t, q)
    ensures r.likeCount.Keys == t.likeCount.Keys
    ensures p in t.likeCount ==> r.likeCount[p] == t.likeCount[p] + 1
    ensures forall q :: q in t.likeCount && q != p ==> r.likeCount[q] == t.likeCount[q]
  {
    LikeTables(t.likers[p := Likers(t, p) + multiset{u}],
               if p in t.likeCount then t.likeCount[p := t.likeCount[p] + 1] else t.likeCount)
  }

  /** UnlikePost as written: the user's rows on the post are deleted and the
      counter is decremented by one, whether or not a row was deleted. */
  function AfterUnlikeAsWritten(t: LikeTables, p: string, u: string): (r: LikeTables)
    ensures Likers(r, p) == Likers(t, p)[u := 0]
    ensures forall q :: q != p ==> Likers(r, q) == Likers(t, q)
    ensures r.likeCount.Keys == t.likeCount.Keys
    ensures p in t.likeCount ==> r.likeCount[p] == t.likeCount[p] - 1
  {
    LikeTables(t.likers[p := Likers(t, p)[u := 0]],
               if p in t.likeCount then t.likeCount[p := t.likeCount[p] - 1] else t.likeCount)
  }

  /** UnlikePost as intended: the counter drops by the number of rows the
      DELETE removed. */
  function AfterUnlike(t: LikeTables, p: string, u: string): (r: LikeTables)
    ensures Likers(r, p) == Likers(t, p)[u := 0]
    ensures forall q :: q != p ==> Likers(r, q) == Likers(t, q)
    ensures r.likeCount.Keys == t.likeCount.Keys
    ensures p in t.likeCount ==> r.likeCount[p] == t.likeCount[p] - Likers(t, p)[u]
    ensures forall q :: q in t.likeCount && q != p ==> r.likeCount[q] == t.likeCount[q]
  {
    var deleted := Likers(t, p)[u];
    LikeTables(t.likers[p := Likers(t, p)[u := 0]],
               if p in t.likeCount then t.likeCount[p := t.likeCount[p] - deleted] else t.likeCount)
  }

  /** Removing every copy of `u` removes exactly its multiplicity. */
  lemma RemoveAllCard(m: multiset<string>, u: string)
    ensures |m[u := 0]| == |m| - m[u]
  {
    var rest := m[u := 0];
    var copies := m - rest;
    assert m == rest + copies;
    assert copies == m - rest;
    if m[u] > 0 {
      assert forall x :: copies[x] == (if x == u then m[u] else 0);
      CopiesCard(copies, u, m[u]);
    } else {
      assert m == rest;
    }
  }

  /** A multiset holding only copies of `u` has as many elements as copies. */
  lemma {:induction false} CopiesCard(c: multiset<string>, u: string, n: nat)
    requires forall x :: c[x] == (if x == u then n else 0)
    ensures |c| == n
    decreases n
  {
    if n == 0 {
      assert c == multiset{};
    } else {
      var smaller := c - multiset{u};
      assert forall x :: smaller[x] == (if x == u then n - 1 else 0);
      CopiesCard(smaller, u, n - 1);
      assert c == smaller + multiset{u};
    }
  }

  /** Liking keeps every counter equal to its rows. */
  lemma LikeKeepsCounted(t: LikeTables, p: string, u: string)
    requires Counted(t)
    ensures Counted(AfterLike(t, p, u))
  {
    var r := AfterLike(t, p, u);
    forall q | q in r.likeCount
      ensures r.likeCount[q] == |Likers(r, q)|
    {
      if q == p {
        assert |Likers(r, p)| == |Likers(t, p)| + 1;
      }
    }
  }

  /** The intended unlike keeps every counter equal to its rows. */
  lemma UnlikeKeepsCounted(t: LikeTables, p: string, u: string)
    requires Counted(t)
    ensures Counted(AfterUnlike(t, p, u))
  {
    var r := AfterUnlike(t, p, u);
    forall q | q in r.likeCount
      ensures r.likeCount[q] == |Likers(r, q)|
    {
      if q == p {
        RemoveAllCard(Likers(t, p), u);
      }
    }
  }

  /** As written, unliking a post the user has not liked still lowers the
      counter, so the counter no longer matches the rows. */
  lemma UnlikeWithoutLikeDiverges(t: LikeTables, p: string, u: string)
    requires Counted(t) && p in t.likeCount && Likers(t, p)[u] == 0
    ensures AfterUnlikeAsWritten(t, p, u).likeCount[p] == |Likers(AfterUnlikeAsWritten(t, p, u), p)| - 1
    ensures !Counted(AfterUnlikeAsWritten(t, p, u))
  {
    var r := AfterUnlikeAsWritten(t, p, u);
    assert Likers(r, p) == Likers(t, p) by {
      assert Likers(t, p)[u := 0] == Likers(t, p);
    }
  }

  /** As written, the counter of a post nobody liked goes to -1. */
  lemma CountGoesNegative()
    ensures AfterUnlikeAsWritten(LikeTables(map[], map["post" := 0]), "post", "user").likeCount["post"] == -1
  {
  }

  /** With the intended unlike no counter that starts consistent goes
      negative. */
  lemma CountNeverNegative(t: LikeTables, p: string, u: string)
    requires Counted(t) && p in t.likeCount
    ensures AfterUnlike(t, p, u).likeCount[p] >= 0
  {
    UnlikeKeepsCounted(t, p, u);
  }

  /** Unliking right after a first like restores every post's rows and
      counter. */
  lemma UnlikeUndoesLike(t: LikeTables, p: string, u: string)
    requires Likers(t, p)[u] == 0
    ensures forall q :: Likers(AfterUnlike(AfterLike(t, p, u), p, u), q) == Likers(t, q)
    ensures AfterUnlike(AfterLike(t, p, u), p, u).likeCount == t.likeCount
  {
    var r := AfterUnlike(AfterLike(t, p, u), p, u);
    assert (Likers(t, p) + multiset{u})[u := 0] == Likers(t, p);
    assert Likers(r, p) == Likers(t, p);
  }

  /** The statements of the two transactions. */
  datatype LikeStep = Begin | ChangeRows | ChangeCount | Commit

  type LikeFault = Option<(LikeStep, Error)>

  /** LikePost's error for a fault; each leaves the tables unchanged. */
  function LikeError(fault: LikeFault): (r: Option<Error>)
    ensures r.None? <==> fault.None?
  {
    match fault
    case None => None
    case Some((Begin, e)) => Some(Wrapped("failed to begin transaction: ", e))
    case Some((ChangeRows, e)) => Some(Database("insert", "post_likes", e))
    case Some((ChangeCount, e)) => Some(Wrapped("failed to increment post like count: ", e))
    case Some((Commit, e)) => Some(e)
  }

  /** UnlikePost's error for a fault. */
  function UnlikeError(fault: LikeFault): (r: Option<Error>)
    ensures r.None? <==> fault.None?
  {
    match fault
    case None => None
    case Some((Begin, e)) => Some(Wrapped("failed to begin transaction: ", e))
    case Some((ChangeRows, e)) => Some(Wrapped("failed to delete post like: ", e))
    case Some((ChangeCount, e)) => Some(Wrapped("failed to decrement post like count: ", e))
    case Some((Commit, e)) => Some(e)
  }

  /** The "post_likes" rows and the like_count column of "Post". */
  class PostLikeStore {
    var likers: map<string, multiset<string>>
    var likeCount: map<string, int>

    function Tables(): LikeTables
      reads this
    {
      LikeTables(likers, likeCount)
    }

    constructor (likeCount: map<string, int>)
      requires forall p :: p in likeCount ==> likeCount[p] == 0
      ensures Tables() == LikeTables(map[], likeCount)
      ensures Counted(Tables())
    {
      likers := map[];
      this.likeCount := likeCount;
    }

    /** LikePost: a row is inserted and the counter incremented; any failure
        rolls both back. */
    method LikePost(postId: string, userId: string, fault: LikeFault) returns (err: Option<Error>)
      modifies this
      ensures err == LikeError(fault)
      ensures err.Some? ==> Tables() == old(Tables())
      ensures err.None? ==> Tables() == AfterLike(old(Tables()), postId, userId)
      ensures old(Counted(Tables())) ==> Counted(Tables())
    {
      if fault.Some? {
        return LikeError(fault);
      }
      ghost var before := Tables();
      likers := likers[postId := Likers(Tables(), postId) + multiset{userId}];
      if postId in likeCount {
        likeCount := likeCount[postId := likeCount[postId] + 1];
      }
      assert Tables() == AfterLike(before, postId, userId);
      if Counted(before) {
        LikeKeepsCounted(before, postId, userId);
      }
      return None;
    }

    /** UnlikePost as written: the counter is decremented by one whatever
        the DELETE removed. */
    method UnlikePostAsWritten(postId: string, userId: string, fault: LikeFault) returns (err: Option<Error>)
      modifies this
      ensures err == UnlikeError(fault)
      ensures err.Some? ==> Tables() == old(Tables())
      ensures err.None? ==> Tables() == AfterUnlikeAsWritten(old(Tables()), postId, userId)
    {
      if fault.Some? {
        return UnlikeError(fault);
      }
      likers := likers[postId := Likers(Tables(), postId)[userId := 0]];
      if postId in likeCount {
        likeCount := likeCount[postId := likeCount[postId] - 1];
      }
      return None;
    }

    /** UnlikePost as intended: the counter drops by the rows deleted. */
    method UnlikePost(postId: string, userId: string, fault: LikeFault) returns (err: Option<Error>)
      modifies this
      ensures err == UnlikeError(fault)
      ensures err.Some? ==> Tables() == old(Tables())
      ensures err.None? ==> Tables() == AfterUnlike(old(Tables()), postId, userId)
      ensures old(Counted(Tables())) ==> Counted(Tables())
    {
      if fault.Some? {
        return UnlikeError(fault);
      }
      ghost var before := Tables();
      var deleted := Likers(Tables(), postId)[userId];
      likers := likers[postId := Likers(Tables(), postId)[userId := 0]];
      if postId in likeCount {
        likeCount := likeCount[postId := likeCount[postId] - deleted];
      }
      assert Tables() == AfterUnlike(before, postId, userId);
      if Counted(before) {
        UnlikeKeepsCounted(before, postId, userId);
      }
      return None;
    }
  }
}
