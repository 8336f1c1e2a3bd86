/** The comments slice (store/commentsSlice.ts): one bucket of comments per
    post id, created on first use. */
module CommentsSlice {
  import opened Util
  import opened Types
  import opened Api
  import opened Mappers

  datatype Bucket = Bucket(items: seq<Comment>, loading: bool, error: Option<string>)

  const EmptyBucket := Bucket([], false, None)

  /** ensureState: a missing bucket is created empty; an existing one, and
      every other bucket, is left as it is. */
  function EnsureBucket(byPostId: map<string, Bucket>, postId: string): (r: map<string, Bucket>)
    ensures postId in r
    ensures postId in byPostId ==> r == byPostId
    ensures postId !in byPostId ==> r[postId] == EmptyBucket
    ensures r.Keys == byPostId.Keys + {postId}
    ensures forall k :: k in byPostId ==> r[k] == byPostId[k]
  {
    if postId in byPostId then byPostId else byPostId[postId := EmptyBucket]
  }

  /** Ensuring twice is ensuring once. */
  lemma EnsureBucketIdempotent(byPostId: map<string, Bucket>, postId: string)
    ensures EnsureBucket(EnsureBucket(byPostId, postId), postId) == EnsureBucket(byPostId, postId)
  {
  }

  // ---------------------------------------------------------------------
  // The thunks

  datatype CommentsPayload = CommentsPayload(postId: string, comments: seq<Comment>)
  datatype NewComment = NewComment(postId: string, comment: Comment)

  function MapComments(items: seq<RawComment>, uuid: nat -> string, now: int): (r: seq<Comment>)
    ensures |r| == |items|
    ensures forall i :: 0 <= i < |items| ==> r[i] == MapComment(Some(items[i]), uuid(i), now)
  {
    seq(|items|, i requires 0 <= i < |items| => MapComment(Some(items[i]), uuid(i), now))
  }

  function CommentsPath(postId: string): string {
    "/posts/" + postId + "/comments"
  }

  function FetchComments(postId: string, response: ApiResult<seq<RawComment>>, uuid: nat -> string, now: int)
    : (s: Settled<CommentsPayload>)
    ensures s.Fulfilled? <==> response.Success?
    ensures s.Fulfilled? ==> s.payload == CommentsPayload(postId, MapComments(response.value, uuid, now))
    ensures s.Rejected? ==> s.error == RejectMessage(response.message, "Unable to load comments")
  {
    Attempt(response, (items: seq<RawComment>) => CommentsPayload(postId, MapComments(items, uuid, now)),
            "Unable to load comments")
  }

  /** addComment: without a token it rejects before any request. */
  function AddComment(token: Option<string>, postId: string, response: ApiResult<RawComment>, freshId: string, now: int)
    : (s: Settled<NewComment>)
    ensures !HasToken(token) ==> s == Rejected("Login required")
    ensures HasToken(token) && response.Success? ==>
              s == Fulfilled(NewComment(postId, MapComment(Some(response.value), freshId, now)))
    ensures HasToken(token) && response.Failure? ==> s == Rejected(RejectMessage(response.message, "Unable to add comment"))
  {
    if !HasToken(token) then Rejected("Login required")
    else Attempt(response, (raw: RawComment) => NewComment(postId, MapComment(Some(raw), freshId, now)),
                 "Unable to add comment")
  }

  // ---------------------------------------------------------------------
  // The slice

  class CommentsState {
    var byPostId: map<string, Bucket>

    constructor()
      ensures byPostId == map[]
    {
      byPostId := map[];
    }

    /** clearComments: only the given key goes. */
    method ClearComments(postId: string)
      modifies this
      ensures byPostId == old(byPostId) - {postId}
    {
      byPostId := byPostId - {postId};
    }

    /** fetchComments.pending: that post's bucket starts loading. */
    method FetchPending(postId: string)
      modifies this
      ensures byPostId == EnsureBucket(old(byPostId), postId)[postId :=
                EnsureBucket(old(byPostId), postId)[postId].(loading := true, error := None)]
    {
      var buckets := EnsureBucket(byPostId, postId);
      byPostId := buckets[postId := buckets[postId].(loading := true, error := None)];
    }

    /** fetchComments.fulfilled: that post's comments are replaced. */
    method FetchFulfilled(payload: CommentsPayload)
      modifies this
      ensures byPostId == EnsureBucket(old(byPostId), payload.postId)[payload.postId :=
                EnsureBucket(old(byPostId), payload.postId)[payload.postId].(loading := false, items := payload.comments)]
    {
      var buckets := EnsureBucket(byPostId, payload.postId);
      byPostId := buckets[payload.postId := buckets[payload.postId].(loading := false, items := payload.comments)];
    }

    method FetchRejected(postId: string, message: string)
      modifies this
      ensures byPostId == EnsureBucket(old(byPostId), postId)[postId :=
                EnsureBucket(old(byPostId), postId)[postId].(loading := false, error := Some(message))]
    {
      var buckets := EnsureBucket(byPostId, postId);
      byPostId := buckets[postId := buckets[postId].(loading := false, error := Some(message))];
    }

    /** addComment.fulfilled: the comment goes at the end of its post's list. */
    method AddFulfilled(payload: NewComment)
      modifies this
      ensures byPostId == AppendComment(old(byPostId), payload.postId, payload.comment)
    {
      var buckets := EnsureBucket(byPostId, payload.postId);
      var bucket := buckets[payload.postId];
      byPostId := buckets[payload.postId := bucket.(items := bucket.items + [payload.comment])];
    }

    /** addComment.rejected: the error lands on that post's bucket. */
    method AddRejected(postId: string, message: string)
      modifies this
      ensures byPostId == EnsureBucket(old(byPostId), postId)[postId :=
                EnsureBucket(old(byPostId), postId)[postId].(error := Some(message))]
    {
      var buckets := EnsureBucket(byPostId, postId);
      byPostId := buckets[postId := buckets[postId].(error := Some(message))];
    }

    method Logout()
      modifies this
      ensures byPostId == map[]
    {
      byPostId := map[];
    }
  }

  /** The buckets after addComment.fulfilled. */
  function AppendComment(byPostId: map<string, Bucket>, postId: string, comment: Comment): (r: map<string, Bucket>)
    ensures postId in r && r.Keys == byPostId.Keys + {postId}
  {
    var buckets := EnsureBucket(byPostId, postId);
    buckets[postId := buckets[postId].(items := buckets[postId].items + [comment])]
  }

  /** Adding a comment grows its post's list by exactly that comment at the
      end, keeps the flags, and leaves every other post's bucket alone. */
  lemma AppendCommentOnlyThatPost(byPostId: map<string, Bucket>, postId: string, comment: Comment)
    ensures var r := AppendComment(byPostId, postId, comment);
            var before := if postId in byPostId then byPostId[postId].items else [];
            && r[postId].items == before + [comment]
            && |r[postId].items| == |before| + 1
            && (postId in byPostId ==> r[postId].loading == byPostId[postId].loading && r[postId].error == byPostId[postId].error)
            && forall k :: k in byPostId && k != postId ==> r[k] == byPostId[k]
  {
  }
}
