/** The home feed component (components/FeedView.tsx): its own handle
    normalisation, the set of followed authors and the split of the posts
    into the For You and Following tabs. */
module FeedView {
  import opened Util
  import opened Types
  import opened PostsSlice
  import Page

  /** normalizeHandle of the feed: one leading "@" dropped, then lower-cased. */
  function AuthorKey(handle: string): (r: string)
    ensures forall i :: 0 <= i < |r| ==> !('A' <= r[i] <= 'Z')
    ensures |r| == if "@" <= handle then |handle| - 1 else |handle|
  {
    Lower(if "@" <= handle then handle[1..] else handle)
  }

  /** Author matching ignores letter case and one leading "@". */
  lemma {:induction false} AuthorKeyIgnoresCaseAndAt(handle: string)
    ensures AuthorKey(Lower(handle)) == AuthorKey(handle)
    ensures !("@" <= handle) ==> AuthorKey("@" + handle) == AuthorKey(handle)
  {
    LowerIdempotent(handle);
    if "@" <= handle {
      assert "@" <= Lower(handle);
      assert Lower(handle)[1..] == Lower(handle[1..]);
      LowerIdempotent(handle[1..]);
    } else {
      assert !("@" <= Lower(handle));
      assert ("@" + handle)[1..] == handle;
    }
  }

  /** normalizedFollowingHandles: the keys of every followed handle and of
      the signed-in user's own handle. */
  function FollowedKeys(following: seq<string>, ownHandle: string): (r: set<string>)
    ensures AuthorKey(ownHandle) in r
    ensures forall h :: h in following ==> AuthorKey(h) in r
    ensures forall k :: k in r ==> k == AuthorKey(ownHandle) || exists h :: h in following && AuthorKey(h) == k
  {
    (set h | h in following :: AuthorKey(h)) + {AuthorKey(ownHandle)}
  }

  /** The test `keys.has(normalizeHandle(post.authorHandle))`. */
  function ByFollowed(keys: set<string>): Post -> bool {
    (p: Post) => AuthorKey(p.authorHandle) in keys
  }

  /** The For You tab: posts whose author is neither followed nor the user. */
  function ForYouPosts(posts: seq<Post>, following: seq<string>, ownHandle: string): (r: seq<Post>)
    ensures forall p :: p in r <==> p in posts && AuthorKey(p.authorHandle) !in FollowedKeys(following, ownHandle)
  {
    Filter(posts, Not(ByFollowed(FollowedKeys(following, ownHandle))))
  }

  /** The Following tab: posts whose author is followed or is the user. */
  function FollowingPosts(posts: seq<Post>, following: seq<string>, ownHandle: string): (r: seq<Post>)
    ensures forall p :: p in r <==> p in posts && AuthorKey(p.authorHandle) in FollowedKeys(following, ownHandle)
  {
    Filter(posts, ByFollowed(FollowedKeys(following, ownHandle)))
  }

  /** displayPosts for the selected tab. */
  function DisplayPosts(tab: FeedType, posts: seq<Post>, following: seq<string>, ownHandle: string): (r: seq<Post>)
    ensures tab == ForYou ==> r == ForYouPosts(posts, following, ownHandle)
    ensures tab == Following ==> r == FollowingPosts(posts, following, ownHandle)
  {
    match tab
    case ForYou => ForYouPosts(posts, following, ownHandle)
    case Following => FollowingPosts(posts, following, ownHandle)
  }

  /** The two tabs split the posts: every post is on exactly one of them,
      as often as in the feed, and each tab keeps the feed order. */
  lemma TabsPartition(posts: seq<Post>, following: seq<string>, ownHandle: string)
    ensures |ForYouPosts(posts, following, ownHandle)| + |FollowingPosts(posts, following, ownHandle)| == |posts|
    ensures multiset(ForYouPosts(posts, following, ownHandle)) + multiset(FollowingPosts(posts, following, ownHandle)) == multiset(posts)
    ensures Subsequence(ForYouPosts(posts, following, ownHandle), posts)
    ensures Subsequence(FollowingPosts(posts, following, ownHandle), posts)
  {
    var keep := ByFollowed(FollowedKeys(following, ownHandle));
    FilterPartition(posts, keep);
    FilterSubsequence(posts, keep);
    FilterSubsequence(posts, Not(keep));
  }

  /** The user's own posts, however their handle is cased or prefixed,
      are never on For You and always on Following. */
  lemma OwnPostsNeverForYou(posts: seq<Post>, following: seq<string>, ownHandle: string, p: Post)
    requires p in posts && AuthorKey(p.authorHandle) == AuthorKey(ownHandle)
    ensures p !in ForYouPosts(posts, following, ownHandle)
    ensures p in FollowingPosts(posts, following, ownHandle)
  {
  }

  /** Following "@Alice" puts a post by "alice" on the Following tab of
      this component, while the app shell's exact match leaves it out; and
      the shell's For You tab shows the user's own posts, which this
      component never does. */
  lemma DiffersFromPageFilter(p: Post)
    requires p.authorHandle == "alice"
    ensures p in FollowingPosts([p], ["@Alice"], "@me")
    ensures p !in Page.FollowingPosts([p], ["@Alice"], "@me")
    ensures p in Page.DisplayPosts(ForYou, [p], [], "alice")
    ensures p !in DisplayPosts(ForYou, [p], [], "alice")
  {
    assert "alice"[0] == 'a' && "@"[0] == '@';
    assert !("@" <= "alice");
    assert "@" <= "@Alice";
    assert "@Alice"[1..] == "Alice";
    assert Lower("Alice") == "alice";
    assert Lower("alice") == "alice";
    assert AuthorKey(p.authorHandle) == AuthorKey("@Alice");
    assert "@Alice" != "alice";
  }
}
