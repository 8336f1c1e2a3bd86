/** The profile page (components/ProfileView.tsx): the Posts, Contexts and
    Likes tabs and the followers / following list. */
module ProfileView {
  import opened Util
  import opened Types

  /** The test `p.authorHandle === handle`. */
  function ByAuthor(handle: string): Post -> bool {
    (p: Post) => p.authorHandle == handle
  }

  function IsLiked(): Post -> bool {
    (p: Post) => p.isLiked
  }

  /** userPosts, shown on the Posts and Contexts tabs: exactly the posts
      whose handle equals the profile's, case and "@" included, in order. */
  function UserPosts(posts: seq<Post>, user: User): (r: seq<Post>)
    ensures forall p :: p in r <==> p in posts && p.authorHandle == user.handle
    ensures Subsequence(r, posts)
  {
    FilterSubsequence(posts, ByAuthor(user.handle));
    Filter(posts, ByAuthor(user.handle))
  }

  /** likedPosts, shown on the Likes tab: the liked posts, in order. */
  function LikedPosts(posts: seq<Post>): (r: seq<Post>)
    ensures forall p :: p in r <==> p in posts && p.isLiked
    ensures Subsequence(r, posts)
  {
    FilterSubsequence(posts, IsLiked());
    Filter(posts, IsLiked())
  }

  /** showFollowList: which list is open, if any. */
  datatype FollowList = NoList | Followers | FollowingList

  /** The test of the "following" list: the handle or its lower-cased
      form is followed. */
  function InFollowSet(followingSet: seq<string>): User -> bool {
    (u: User) => Lower(u.handle) in followingSet || u.handle in followingSet
  }

  /** getFollowUsers. */
  function FollowUsers(followUsers: seq<User>, shown: FollowList, followingSet: seq<string>): (r: seq<User>)
    ensures |followUsers| == 0 ==> r == []
    ensures shown != FollowingList ==> r == followUsers
    ensures shown == FollowingList ==>
      forall u :: u in r <==> u in followUsers && (Lower(u.handle) in followingSet || u.handle in followingSet)
    ensures Subsequence(r, followUsers)
  {
    if |followUsers| == 0 then []
    else if shown == FollowingList then
      FilterSubsequence(followUsers, InFollowSet(followingSet));
      Filter(followUsers, InFollowSet(followingSet))
    else
      SubsequenceRefl(followUsers);
      followUsers
  }

  /** The label of a list entry's button: "Unfollow" exactly when the
      handle, as written, is followed. */
  function FollowButtonLabel(handle: string, followingSet: seq<string>): (r: string)
    ensures r == "Unfollow" <==> handle in followingSet
    ensures r == "Follow" <==> handle !in followingSet
  {
    if handle in followingSet then "Unfollow" else "Follow"
  }

  /** The following list admits a user whose handle is followed only in
      lower case, and then offers "Follow" for a user it lists as followed. */
  lemma ListedButLabelledFollow(u: User)
    requires u.handle == "@Bob"
    ensures u in FollowUsers([u], FollowingList, ["@bob"])
    ensures FollowButtonLabel(u.handle, ["@bob"]) == "Follow"
  {
    assert Lower("@Bob") == "@bob";
    assert "@Bob" != "@bob";
  }
}
