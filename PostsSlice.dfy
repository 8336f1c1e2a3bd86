/** The posts slice (store/postsSlice.ts): two paged feeds, per-author
    buckets, search results. Each thunk's argument logic is a function from
    the arguments and the server's answer to its settlement; each reducer
    case is a method of `PostsState`. */
module PostsSlice {
  import opened Util
  import opened Types
  import opened Api
  import opened Mappers

  datatype FeedType = ForYou | Following

  function FeedName(feed: FeedType): string {
    match feed
    case ForYou => "foryou"
    case Following => "following"
  }

  datatype FeedState = FeedState(items: seq<Post>, page: int, perPage: int, hasNext: bool, loading: bool)

  /** `{ foryou: .., following: .. }` */
  function BothFeeds(forYou: FeedState, following: FeedState): (m: map<FeedType, FeedState>)
    ensures forall t: FeedType :: t in m
    ensures m[ForYou] == forYou && m[Following] == following
  {
    var m := map[ForYou := forYou, Following := following];
    assert forall t: FeedType :: t in m by {
      forall t: FeedType ensures t in m {
        if t.ForYou? { assert t == ForYou; } else { assert t == Following; }
      }
    }
    m
  }

  /** makeInitialFeed */
  const InitialFeed := FeedState([], 1, 20, false, false)

  /** `items.map(mapPost)`: each item draws its own fallback id. */
  function MapPosts(items: seq<RawPost>, uuid: nat -> string, now: int): (r: seq<Post>)
    ensures |r| == |items|
    ensures forall i :: 0 <= i < |items| ==> r[i] == MapPost(Some(items[i]), uuid(i), now)
  {
    seq(|items|, i requires 0 <= i < |items| => MapPost(Some(items[i]), uuid(i), now))
  }

  // ---------------------------------------------------------------------
  // fetchFeed

  datatype FeedPage = FeedPage(items: seq<RawPost>, hasNext: bool)
  datatype FeedPayload = FeedPayload(feed: FeedType, page: int, perPage: int, hasNext: bool, items: seq<Post>)

  /** The query fetchFeed sends: page 1 and 20 per page unless given. */
  function FeedQuery(feed: FeedType, page: Option<int>, perPage: Option<int>): (q: seq<(string, QueryValue)>)
    ensures |q| == 3 && q[0] == ("feed", QStr(FeedName(feed)))
    ensures q[1] == ("page", QNum(page.GetOr(1))) && q[2] == ("per_page", QNum(perPage.GetOr(20)))
  {
    [("feed", QStr(FeedName(feed))), ("page", QNum(page.GetOr(1))), ("per_page", QNum(perPage.GetOr(20)))]
  }

  /** Every fetchFeed request carries all three parameters. */
  lemma FeedQueryNeverEmpty(feed: FeedType, page: Option<int>, perPage: Option<int>, escape: string -> string)
    ensures QueryString(Some(FeedQuery(feed, page, perPage)), escape) != ""
  {
    var q := FeedQuery(feed, page, perPage);
    QueryStringShape(Some(q), escape);
    assert (q[0].0, ValueString(q[0].1)) in KeptPairs(q);
  }

  function FetchFeed(feed: FeedType, page: Option<int>, perPage: Option<int>, response: ApiResult<FeedPage>,
                     uuid: nat -> string, now: int): (s: Settled<FeedPayload>)
    ensures s.Fulfilled? <==> response.Success?
    ensures s.Fulfilled? ==>
              && s.payload.feed == feed && s.payload.page == page.GetOr(1)
              && s.payload.perPage == perPage.GetOr(20) && s.payload.hasNext == response.value.hasNext
              && s.payload.items == MapPosts(response.value.items, uuid, now)
    ensures s.Rejected? ==> s.error == RejectMessage(response.message, "Unable to load feed")
  {
    Attempt(response, (res: FeedPage) => FeedPayload(feed, page.GetOr(1), perPage.GetOr(20), res.hasNext,
                                                     MapPosts(res.items, uuid, now)),
            "Unable to load feed")
  }

  // ---------------------------------------------------------------------
  // createPost

  /** The JSON body createPost sends. */
  datatype CreateBody = CreateBody(content: string, image_url: Option<string>, interview_history: seq<Message>,
                                   context_profile: RawContextProfile)

  const LoginToPost := "You must be logged in to post"

  function CreatePostBody(content: string, imageUrl: Option<string>, interviewHistory: seq<Message>,
                          profile: ContextProfile): (body: CreateBody)
    ensures body.content == content && body.image_url == imageUrl && body.interview_history == interviewHistory
  {
    CreateBody(content, imageUrl, interviewHistory, EncodeContextProfile(profile))
  }

  /** The profile sent with a post is the one the mapper reads back from the
      server's echo of it. */
  lemma CreatePostProfileRoundTrip(content: string, imageUrl: Option<string>, interviewHistory: seq<Message>,
                                   profile: ContextProfile)
    ensures MapContextProfile(Some(CreatePostBody(content, imageUrl, interviewHistory, profile).context_profile)) == profile
  {
    MapContextProfileRoundTrip(profile);
  }

  /** createPost: without a token it rejects before any request. */
  function CreatePost(token: Option<string>, response: ApiResult<RawPost>, freshId: string, now: int): (s: Settled<Post>)
    ensures !HasToken(token) ==> s == Rejected(LoginToPost)
    ensures HasToken(token) && response.Success? ==> s == Fulfilled(MapPost(Some(response.value), freshId, now))
    ensures HasToken(token) && response.Failure? ==> s == Rejected(RejectMessage(response.message, "Unable to publish post"))
  {
    if !HasToken(token) then Rejected(LoginToPost)
    else Attempt(response, (res: RawPost) => MapPost(Some(res), freshId, now), "Unable to publish post")
  }

  // ---------------------------------------------------------------------
  // toggleLike

  datatype LikePayload = LikePayload(postId: string, isLiked: bool, likes: int)

  /** DELETE removes a like the post has, POST adds one. */
  function LikeMethod(isLiked: bool): (m: string)
    ensures m == "DELETE" <==> isLiked
    ensures m == "POST" <==> !isLiked
  {
    if isLiked then "DELETE" else "POST"
  }

  function LikePath(postId: string): string {
    "/posts/" + postId + "/like"
  }

  function ToggleLike(token: Option<string>, postId: string, isLiked: bool, response: ApiResult<int>): (s: Settled<LikePayload>)
    ensures !HasToken(token) ==> s == Rejected("Login required")
    ensures HasToken(token) && response.Success? ==> s == Fulfilled(LikePayload(postId, !isLiked, response.value))
    ensures HasToken(token) && response.Failure? ==> s == Rejected(RejectMessage(response.message, "Unable to toggle like"))
  {
    if !HasToken(token) then Rejected("Login required")
    else Attempt(response, (likes: int) => LikePayload(postId, !isLiked, likes), "Unable to toggle like")
  }

  // ---------------------------------------------------------------------
  // fetchUserPosts

  /** The handle without one leading "@". */
  function StripAt(handle: string): (r: string)
    ensures |handle| > 0 && handle[0] == '@' ==> r == handle[1..]
    ensures !(|handle| > 0 && handle[0] == '@') ==> r == handle
  {
    if "@" <= handle then handle[1..] else handle
  }

  datatype UserPostsPayload = UserPostsPayload(handle: string, items: seq<Post>)

  function UserPostsPath(handle: string): string {
    "/posts/user/" + StripAt(handle)
  }

  function FetchUserPosts(handle: string, response: ApiResult<seq<RawPost>>, uuid: nat -> string, now: int)
    : (s: Settled<UserPostsPayload>)
    ensures s.Fulfilled? <==> response.Success?
    ensures s.Fulfilled? ==> s.payload == UserPostsPayload("@" + StripAt(handle), MapPosts(response.value, uuid, now))
    ensures s.Rejected? ==> s.error == RejectMessage(response.message, "Unable to load user posts")
  {
    Attempt(response, (items: seq<RawPost>) => UserPostsPayload("@" + StripAt(handle), MapPosts(items, uuid, now)),
            "Unable to load user posts")
  }

  /** For a non-empty handle the bucket key is the handle as mapPost
      normalises an author handle, so a fetched profile's posts and a newly
      created post land in the same bucket. The empty handle is stored under
      "@", which no mapped post has. */
  lemma UserPostsKeyMatchesAuthorHandle(handle: string)
    ensures handle != "" ==> "@" + StripAt(handle) == NormalizeHandle(handle)
    ensures NormalizeHandle("") != "@" + StripAt("")
  {
  }

  // ---------------------------------------------------------------------
  // searchPosts

  function SearchPosts(response: ApiResult<seq<RawPost>>, uuid: nat -> string, now: int): (s: Settled<seq<Post>>)
    ensures s.Fulfilled? <==> response.Success?
    ensures s.Fulfilled? ==> s.payload == MapPosts(response.value, uuid, now)
    ensures s.Rejected? ==> s.error == RejectMessage(response.message, "Search failed")
  {
    Attempt(response, (items: seq<RawPost>) => MapPosts(items, uuid, now), "Search failed")
  }

  // ---------------------------------------------------------------------
  // updatePostCollection

  /** Apply `updater` to every post with the given id. */
  function UpdatePostCollection(posts: seq<Post>, postId: string, updater: Post -> Post): (r: seq<Post>)
    ensures |r| == |posts|
    ensures forall i :: 0 <= i < |posts| && posts[i].id != postId ==> r[i] == posts[i]
    ensures forall i :: 0 <= i < |posts| && posts[i].id == postId ==> r[i] == updater(posts[i])
  {
    seq(|posts|, i requires 0 <= i < |posts| => if posts[i].id == postId then updater(posts[i]) else posts[i])
  }

  /** An updater that keeps ids keeps every id, so the order of the list is
      the order of the ids before. */
  lemma UpdateKeepsIds(posts: seq<Post>, postId: string, updater: Post -> Post)
    requires forall p :: updater(p).id == p.id
    ensures var r := UpdatePostCollection(posts, postId, updater);
            forall i :: 0 <= i < |posts| ==> r[i].id == posts[i].id
  {
  }

  function SetLike(isLiked: bool, likes: int): Post -> Post {
    (p: Post) => p.(isLiked := isLiked, likes := likes)
  }

  function BumpReplies(): Post -> Post {
    (p: Post) => p.(replyCount := p.replyCount + 1)
  }

  /** The like update is a set, not a toggle: replaying the same payload
      changes nothing more. */
  lemma {:induction false} LikeUpdateIdempotent(posts: seq<Post>, postId: string, isLiked: bool, likes: int)
    ensures var once := UpdatePostCollection(posts, postId, SetLike(isLiked, likes));
            UpdatePostCollection(once, postId, SetLike(isLiked, likes)) == once
  {
    var once := UpdatePostCollection(posts, postId, SetLike(isLiked, likes));
    var twice := UpdatePostCollection(once, postId, SetLike(isLiked, likes));
    forall i | 0 <= i < |posts| ensures twice[i] == once[i] {
      if posts[i].id == postId {
        assert once[i] == posts[i].(isLiked := isLiked, likes := likes);
      }
    }
  }

  /** A new comment raises the reply count of the matching posts by exactly
      one and changes nothing else about them. */
  lemma AddCommentBumpsOnce(posts: seq<Post>, postId: string)
    ensures var r := UpdatePostCollection(posts, postId, BumpReplies());
            forall i :: 0 <= i < |posts| ==>
              && r[i].replyCount == posts[i].replyCount + (if posts[i].id == postId then 1 else 0)
              && r[i].(replyCount := 0) == posts[i].(replyCount := 0)
  {
  }

  /** The per-author buckets after the same update was applied to each. */
  function UpdateAllBuckets(buckets: map<string, seq<Post>>, postId: string, updater: Post -> Post)
    : (r: map<string, seq<Post>>)
    ensures r.Keys == buckets.Keys
    ensures forall h :: h in buckets ==> |r[h]| == |buckets[h]|
    ensures forall h, i :: h in buckets && 0 <= i < |buckets[h]| ==>
              r[h][i] == if buckets[h][i].id == postId then updater(buckets[h][i]) else buckets[h][i]
  {
    map h | h in buckets :: UpdatePostCollection(buckets[h], postId, updater)
  }

  // ---------------------------------------------------------------------
  // The slice

  class PostsState {
    var feeds: map<FeedType, FeedState>
    var userPosts: map<string, seq<Post>>
    var searchResults: seq<Post>
    var creating: bool
    var error: Option<string>

    /** `Record<FeedType, FeedState>`: both feeds always exist. */
    ghost predicate Valid()
      reads this
    {
      forall t: FeedType :: t in feeds
    }

    constructor()
      ensures Valid()
      ensures feeds == BothFeeds(InitialFeed, InitialFeed)
      ensures userPosts == map[] && searchResults == [] && !creating && error.None?
    {
      feeds := BothFeeds(InitialFeed, InitialFeed);
      userPosts := map[];
      searchResults := [];
      creating := false;
      error := None;
    }

    method ClearSearch()
      requires Valid()
      modifies this
      ensures Valid()
      ensures searchResults == []
      ensures feeds == old(feeds) && userPosts == old(userPosts) && creating == old(creating) && error == old(error)
    {
      searchResults := [];
    }

    /** fetchFeed.pending: only the named feed starts loading. */
    method FetchFeedPending(feed: FeedType)
      requires Valid()
      modifies this
      ensures Valid()
      ensures feeds == old(feeds)[feed := old(feeds)[feed].(loading := true)]
      ensures userPosts == old(userPosts) && searchResults == old(searchResults)
      ensures creating == old(creating) && error == old(error)
    {
      feeds := feeds[feed := feeds[feed].(loading := true)];
    }

    /** fetchFeed.fulfilled: a later page is appended, page 1 (or less)
        replaces the list. */
    method FetchFeedFulfilled(payload: FeedPayload)
      requires Valid()
      modifies this
      ensures Valid()
      ensures var before := old(feeds)[payload.feed].items;
              feeds == old(feeds)[payload.feed := FeedState(if payload.page > 1 then before + payload.items else payload.items,
                                                          payload.page, payload.perPage, payload.hasNext, false)]
      ensures userPosts == old(userPosts) && searchResults == old(searchResults)
      ensures creating == old(creating) && error == old(error)
    {
      var f := feeds[payload.feed];
      var items := if payload.page > 1 then f.items + payload.items else payload.items;
      feeds := feeds[payload.feed := FeedState(items, payload.page, payload.perPage, payload.hasNext, false)];
    }

    method FetchFeedRejected(feed: FeedType, message: string)
      requires Valid()
      modifies this
      ensures Valid()
      ensures feeds == old(feeds)[feed := old(feeds)[feed].(loading := false)]
      ensures error == Some(message)
      ensures userPosts == old(userPosts) && searchResults == old(searchResults) && creating == old(creating)
    {
      feeds := feeds[feed := feeds[feed].(loading := false)];
      error := Some(message);
    }

    method CreatePostPending()
      requires Valid()
      modifies this
      ensures Valid()
      ensures creating && error.None?
      ensures feeds == old(feeds) && userPosts == old(userPosts) && searchResults == old(searchResults)
    {
      creating := true;
      error := None;
    }

    /** createPost.fulfilled: the post goes first in the For You feed and
        in its author's bucket, which is created when absent. */
    method CreatePostFulfilled(post: Post)
      requires Valid()
      modifies this
      ensures Valid()
      ensures !creating
      ensures feeds == old(feeds)[ForYou := old(feeds)[ForYou].(items := [post] + old(feeds)[ForYou].items)]
      ensures userPosts == old(userPosts)[post.authorHandle :=
                [post] + (if post.authorHandle in old(userPosts) then old(userPosts)[post.authorHandle] else [])]
      ensures searchResults == old(searchResults) && error == old(error)
    {
      creating := false;
      var f := feeds[ForYou];
      feeds := feeds[ForYou := f.(items := [post] + f.items)];
      var bucket := if post.authorHandle in userPosts then userPosts[post.authorHandle] else [];
      userPosts := userPosts[post.authorHandle := [post] + bucket];
    }

    method CreatePostRejected(message: string)
      requires Valid()
      modifies this
      ensures Valid()
      ensures !creating && error == Some(message)
      ensures feeds == old(feeds) && userPosts == old(userPosts) && searchResults == old(searchResults)
    {
      creating := false;
      error := Some(message);
    }

    /** `Object.keys(state.userPosts).forEach(..)`: every bucket in turn. */
    method UpdateUserPosts(postId: string, updater: Post -> Post)
      modifies this
      ensures userPosts == UpdateAllBuckets(old(userPosts), postId, updater)
      ensures feeds == old(feeds) && searchResults == old(searchResults)
      ensures creating == old(creating) && error == old(error)
    {
      var buckets := userPosts;
      var updated := buckets;
      var pending := buckets.Keys;
      while pending != {}
        invariant pending <= buckets.Keys && updated.Keys == buckets.Keys
        invariant forall h :: h in buckets ==>
                    updated[h] == if h in pending then buckets[h] else UpdatePostCollection(buckets[h], postId, updater)
        decreases |pending|
      {
        var h :| h in pending;
        updated := updated[h := UpdatePostCollection(updated[h], postId, updater)];
        pending := pending - {h};
      }
      userPosts := updated;
    }

    /** The shared body of toggleLike.fulfilled and addComment.fulfilled:
        both feeds, then every bucket. */
    method UpdateEverywhere(postId: string, updater: Post -> Post)
      requires Valid()
      modifies this
      ensures Valid()
      ensures forall t :: t in feeds ==>
                feeds[t] == old(feeds)[t].(items := UpdatePostCollection(old(feeds)[t].items, postId, updater))
      ensures userPosts == UpdateAllBuckets(old(userPosts), postId, updater)
      ensures searchResults == old(searchResults) && creating == old(creating) && error == old(error)
    {
      var forYou := feeds[ForYou];
      var following := feeds[Following];
      feeds := BothFeeds(forYou.(items := UpdatePostCollection(forYou.items, postId, updater)),
                         following.(items := UpdatePostCollection(following.items, postId, updater)));
      UpdateUserPosts(postId, updater);
    }

    method ToggleLikeFulfilled(payload: LikePayload)
      requires Valid()
      modifies this
      ensures Valid()
      ensures forall t :: t in feeds ==>
                feeds[t] == old(feeds)[t].(items := UpdatePostCollection(old(feeds)[t].items, payload.postId,
                                                                        SetLike(payload.isLiked, payload.likes)))
      ensures userPosts == UpdateAllBuckets(old(userPosts), payload.postId, SetLike(payload.isLiked, payload.likes))
      ensures searchResults == old(searchResults) && creating == old(creating) && error == old(error)
    {
      UpdateEverywhere(payload.postId, SetLike(payload.isLiked, payload.likes));
    }

    method AddCommentFulfilled(postId: string)
      requires Valid()
      modifies this
      ensures Valid()
      ensures forall t :: t in feeds ==>
                feeds[t] == old(feeds)[t].(items := UpdatePostCollection(old(feeds)[t].items, postId, BumpReplies()))
      ensures userPosts == UpdateAllBuckets(old(userPosts), postId, BumpReplies())
      ensures searchResults == old(searchResults) && creating == old(creating) && error == old(error)
    {
      UpdateEverywhere(postId, BumpReplies());
    }

    method FetchUserPostsFulfilled(payload: UserPostsPayload)
      requires Valid()
      modifies this
      ensures Valid()
      ensures userPosts == old(userPosts)[payload.handle := payload.items]
      ensures feeds == old(feeds) && searchResults == old(searchResults)
      ensures creating == old(creating) && error == old(error)
    {
      userPosts := userPosts[payload.handle := payload.items];
    }

    method SearchFulfilled(items: seq<Post>)
      requires Valid()
      modifies this
      ensures Valid()
      ensures searchResults == items
      ensures feeds == old(feeds) && userPosts == old(userPosts) && creating == old(creating) && error == old(error)
    {
      searchResults := items;
    }

    /** toggleLike, fetchUserPosts and searchPosts rejected: only the error
        is recorded. */
    method RecordError(message: string)
      requires Valid()
      modifies this
      ensures Valid()
      ensures error == Some(message)
      ensures feeds == old(feeds) && userPosts == old(userPosts)
      ensures searchResults == old(searchResults) && creating == old(creating)
    {
      error := Some(message);
    }

    /** logout: everything back to the initial state except the error. */
    method Logout()
      requires Valid()
      modifies this
      ensures Valid()
      ensures feeds == BothFeeds(InitialFeed, InitialFeed)
      ensures userPosts == map[] && searchResults == [] && !creating
      ensures error == old(error)
    {
      feeds := BothFeeds(InitialFeed, InitialFeed);
      userPosts := map[];
      searchResults := [];
      creating := false;
    }
  }
}
