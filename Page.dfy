/** The app shell (app/page.tsx): the local post list, likes, the follow
    set, the Following tab filter, view switching and the saved theme. The
    mock data it starts from are constructor parameters. */
module Page {
  import opened Util
  import opened Types
  import opened PostsSlice

  datatype AppView = FeedView | ExploreView | NotificationsView | ProfileView
  datatype Theme = Light | Dark

  function ThemeName(t: Theme): string {
    match t
    case Light => "light"
    case Dark => "dark"
  }

  /** The stored theme applies only when it is exactly "light" or "dark". */
  function RestoredTheme(saved: Option<string>, current: Theme): (t: Theme)
    ensures saved == Some("light") ==> t == Light
    ensures saved == Some("dark") ==> t == Dark
    ensures saved != Some("light") && saved != Some("dark") ==> t == current
  {
    if saved == Some("light") then Light
    else if saved == Some("dark") then Dark
    else current
  }

  /** A saved theme is restored as it was saved. */
  lemma ThemeRoundTrip(t: Theme, current: Theme)
    ensures RestoredTheme(Some(ThemeName(t)), current) == t
  {
  }

  /** handleLike on one post: flip the flag, move the count with it. */
  function FlipLike(): Post -> Post {
    (p: Post) => p.(isLiked := !p.isLiked, likes := p.likes + (if !p.isLiked then 1 else -1))
  }

  /** handleLike on the list: only posts with the id change. */
  function LikeToggled(posts: seq<Post>, postId: string): (r: seq<Post>)
    ensures |r| == |posts|
    ensures forall i :: 0 <= i < |posts| && posts[i].id != postId ==> r[i] == posts[i]
    ensures forall i :: 0 <= i < |posts| && posts[i].id == postId ==>
              r[i].isLiked == !posts[i].isLiked && r[i].likes == posts[i].likes + (if r[i].isLiked then 1 else -1)
              && r[i].(isLiked := false, likes := 0) == posts[i].(isLiked := false, likes := 0)
  {
    UpdatePostCollection(posts, postId, FlipLike())
  }

  /** Liking twice restores every post. */
  lemma {:induction false} LikeTwiceRestores(posts: seq<Post>, postId: string)
    ensures LikeToggled(LikeToggled(posts, postId), postId) == posts
  {
    var once := LikeToggled(posts, postId);
    var twice := LikeToggled(once, postId);
    forall i | 0 <= i < |posts| ensures twice[i] == posts[i] {
      if posts[i].id == postId {
        assert once[i].id == postId;
      }
    }
  }

  /** The Following tab: posts by a followed handle or by the user, exact
      match, in feed order. */
  function FollowingPosts(posts: seq<Post>, following: seq<string>, ownHandle: string): (r: seq<Post>)
    ensures forall p :: p in r <==> p in posts && (p.authorHandle in following || p.authorHandle == ownHandle)
  {
    Filter(posts, (p: Post) => p.authorHandle in following || p.authorHandle == ownHandle)
  }

  function DisplayPosts(tab: FeedType, posts: seq<Post>, following: seq<string>, ownHandle: string): (r: seq<Post>)
    ensures tab == ForYou ==> r == posts
    ensures tab == Following ==> r == FollowingPosts(posts, following, ownHandle)
  {
    if tab == ForYou then posts else FollowingPosts(posts, following, ownHandle)
  }

  /** The user's own posts are always on the Following tab, followed or not. */
  lemma OwnPostsAlwaysFollowing(posts: seq<Post>, following: seq<string>, ownHandle: string, p: Post)
    requires p in posts && p.authorHandle == ownHandle
    ensures p in DisplayPosts(Following, posts, following, ownHandle)
  {
  }

  class AppPage {
    var isLoggedIn: bool
    var theme: Theme
    /** The "discuzz-theme" entry of localStorage. */
    var savedTheme: Option<string>
    var currentUser: User
    var posts: seq<Post>
    /** The follow Set, in insertion order. */
    var followingSet: seq<string>
    var activeView: AppView
    var feedTab: FeedType
    var isComposeOpen: bool

    ghost predicate Valid()
      reads this
    {
      NoDuplicates(followingSet)
    }

    /** The first render: logged out, dark theme, the feed, and the
        `new Set(..)` of the initially followed handles. */
    constructor(user: User, initialPosts: seq<Post>, initialFollowing: seq<string>, stored: Option<string>)
      ensures Valid()
      ensures !isLoggedIn && theme == Dark && savedTheme == stored
      ensures currentUser == user && posts == initialPosts && followingSet == Dedup(initialFollowing)
      ensures activeView == FeedView && feedTab == ForYou && !isComposeOpen
    {
      isLoggedIn := false;
      theme := Dark;
      savedTheme := stored;
      currentUser := user;
      posts := initialPosts;
      followingSet := Dedup(initialFollowing);
      activeView := FeedView;
      feedTab := ForYou;
      isComposeOpen := false;
    }

    /** The mount effect, then the effect that writes the theme back. */
    method RestoreTheme()
      requires Valid()
      modifies this
      ensures Valid()
      ensures theme == RestoredTheme(old(savedTheme), old(theme))
      ensures savedTheme == Some(ThemeName(theme))
      ensures posts == old(posts) && followingSet == old(followingSet) && currentUser == old(currentUser)
    {
      if savedTheme == Some("light") {
        theme := Light;
      } else if savedTheme == Some("dark") {
        theme := Dark;
      }
      savedTheme := Some(ThemeName(theme));
    }

    method SetTheme(t: Theme)
      requires Valid()
      modifies this
      ensures Valid()
      ensures theme == t && savedTheme == Some(ThemeName(t))
      ensures posts == old(posts) && followingSet == old(followingSet) && currentUser == old(currentUser)
    {
      theme := t;
      savedTheme := Some(ThemeName(t));
    }

    /** handlePublish: the post goes first, compose closes, and the For You
        feed is shown. */
    method HandlePublish(newPost: Post)
      requires Valid()
      modifies this
      ensures Valid()
      ensures posts == [newPost] + old(posts)
      ensures !isComposeOpen && activeView == FeedView && feedTab == ForYou
      ensures followingSet == old(followingSet) && currentUser == old(currentUser) && isLoggedIn == old(isLoggedIn)
    {
      posts := [newPost] + posts;
      isComposeOpen := false;
      activeView := FeedView;
      feedTab := ForYou;
    }

    method HandleLike(postId: string)
      requires Valid()
      modifies this
      ensures Valid()
      ensures posts == LikeToggled(old(posts), postId)
      ensures followingSet == old(followingSet) && currentUser == old(currentUser)
      ensures activeView == old(activeView) && feedTab == old(feedTab)
    {
      posts := LikeToggled(posts, postId);
    }

    /** handleToggleFollow: the handle leaves the set if it was in it and
        joins it otherwise, and the following count moves with it. The
        user's stats must exist (the source asserts they do). */
    method HandleToggleFollow(handle: string)
      requires Valid() && currentUser.stats.Some?
      modifies this
      ensures Valid()
      ensures handle in old(followingSet) ==> followingSet == SetDelete(old(followingSet), handle)
      ensures handle !in old(followingSet) ==> followingSet == SetAdd(old(followingSet), handle)
      ensures handle in followingSet <==> handle !in old(followingSet)
      ensures var before := old(currentUser).stats.value;
              currentUser == old(currentUser).(stats := Some(before.(following :=
                before.following + (if handle in followingSet then 1 else -1))))
      ensures posts == old(posts) && activeView == old(activeView) && feedTab == old(feedTab)
    {
      var isFollowing: bool;
      if handle in followingSet {
        followingSet := SetDelete(followingSet, handle);
        isFollowing := false;
      } else {
        followingSet := SetAdd(followingSet, handle);
        isFollowing := true;
      }
      var stats := currentUser.stats.value;
      currentUser := currentUser.(stats := Some(stats.(following := stats.following + (if isFollowing then 1 else -1))));
    }

    method HandleUpdateProfile(updated: User)
      requires Valid()
      modifies this
      ensures Valid()
      ensures currentUser == updated
      ensures posts == old(posts) && followingSet == old(followingSet)
    {
      currentUser := updated;
    }

    method HandleLogin()
      requires Valid()
      modifies this
      ensures Valid()
      ensures isLoggedIn
      ensures posts == old(posts) && followingSet == old(followingSet) && currentUser == old(currentUser)
      ensures activeView == old(activeView)
    {
      isLoggedIn := true;
    }

    /** handleLogout: logged out, back on the feed; nothing else resets. */
    method HandleLogout()
      requires Valid()
      modifies this
      ensures Valid()
      ensures !isLoggedIn && activeView == FeedView
      ensures posts == old(posts) && followingSet == old(followingSet) && currentUser == old(currentUser)
      ensures feedTab == old(feedTab)
    {
      isLoggedIn := false;
      activeView := FeedView;
    }

    /** What the feed renders for the current tab. */
    function Displayed(): (r: seq<Post>)
      reads this
      ensures feedTab == ForYou ==> r == posts
      ensures feedTab == Following ==> r == FollowingPosts(posts, followingSet, currentUser.handle)
      ensures forall p :: p in r ==> p in posts
    {
      DisplayPosts(feedTab, posts, followingSet, currentUser.handle)
    }
  }

  /** Following and then unfollowing the same new handle gives the set back. */
  lemma FollowThenUnfollow(following: seq<string>, handle: string)
    requires handle !in following
    ensures SetDelete(SetAdd(following, handle), handle) == following
  {
    FilterAll(following, Except(handle));
    FilterConcat(following, [handle], Except(handle));
  }
}
