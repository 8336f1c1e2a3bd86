/** The users slice (store/usersSlice.ts): profiles by handle, user search
    results and the handles the signed-in user follows. Handles are keyed
    by this slice's own normalisation: lower-cased, with a leading "@". */
module UsersSlice {
  import opened Util
  import opened Types
  import opened Api
  import Mappers

  /** normalizeHandle of usersSlice: lower-case, and "@" in front unless
      one is there already. */
  function NormalizeHandle(handle: string): (r: string)
    ensures |r| > 0 && r[0] == '@'
    ensures |handle| > 0 && handle[0] == '@' ==> r == Lower(handle)
    ensures !(|handle| > 0 && handle[0] == '@') ==> r == "@" + Lower(handle)
  {
    if "@" <= handle then Lower(handle) else "@" + Lower(handle)
  }

  /** Normalising a normalised handle changes nothing. */
  lemma NormalizeHandleIdempotent(handle: string)
    ensures NormalizeHandle(NormalizeHandle(handle)) == NormalizeHandle(handle)
  {
    LowerIdempotent(handle);
    LowerAppend("@", handle);
    LowerAppend("@", Lower(handle));
    assert Lower("@") == "@";
  }

  /** Handles that differ only in letter case are the same key. */
  lemma NormalizeHandleIgnoresCase(handle: string)
    ensures NormalizeHandle(Lower(handle)) == NormalizeHandle(handle)
  {
    LowerIdempotent(handle);
  }

  /** On a non-empty lower-case handle this key agrees with the handle
      mapUser produces; mapUser keeps upper case and leaves "" empty. */
  lemma AgreesWithMapperOnLowerCase(handle: string)
    requires handle != "" && Lower(handle) == handle
    ensures NormalizeHandle(handle) == Mappers.NormalizeHandle(handle)
  {
  }

  /** `/users/${normalized}` */
  function UserPath(handle: string): string {
    "/users/" + NormalizeHandle(handle)
  }

  function MapUsers(raw: seq<Mappers.RawUser>): (r: seq<User>)
    ensures |r| == |raw|
    ensures forall i :: 0 <= i < |raw| ==> r[i] == Mappers.MapUser(Some(raw[i]))
  {
    seq(|raw|, i requires 0 <= i < |raw| => Mappers.MapUser(Some(raw[i])))
  }

  // ---------------------------------------------------------------------
  // The thunks

  function SearchUsers(response: ApiResult<seq<Mappers.RawUser>>): (s: Settled<seq<User>>)
    ensures s.Fulfilled? <==> response.Success?
    ensures s.Fulfilled? ==> s.payload == MapUsers(response.value)
    ensures s.Rejected? ==> s.error == RejectMessage(response.message, "User search failed")
  {
    Attempt(response, MapUsers, "User search failed")
  }

  function FetchUserProfile(response: ApiResult<Mappers.RawUser>): (s: Settled<User>)
    ensures s.Fulfilled? <==> response.Success?
    ensures s.Fulfilled? ==> s.payload == Mappers.MapUser(Some(response.value))
    ensures s.Rejected? ==> s.error == RejectMessage(response.message, "Unable to load profile")
  {
    Attempt(response, (raw: Mappers.RawUser) => Mappers.MapUser(Some(raw)), "Unable to load profile")
  }

  function FetchFollowing(response: ApiResult<seq<Mappers.RawUser>>): (s: Settled<seq<User>>)
    ensures s.Fulfilled? <==> response.Success?
    ensures s.Fulfilled? ==> s.payload == MapUsers(response.value)
    ensures s.Rejected? ==> s.error == RejectMessage(response.message, "Unable to load following list")
  {
    Attempt(response, MapUsers, "Unable to load following list")
  }

  /** followUser: without a token it rejects before any request; on success
      the payload is the normalised handle. */
  function FollowUser(token: Option<string>, handle: string, response: ApiResult<()>): (s: Settled<string>)
    ensures !HasToken(token) ==> s == Rejected("Login required")
    ensures HasToken(token) && response.Success? ==> s == Fulfilled(NormalizeHandle(handle))
    ensures HasToken(token) && response.Failure? ==> s == Rejected(RejectMessage(response.message, "Unable to follow user"))
  {
    if !HasToken(token) then Rejected("Login required")
    else Attempt(response, (_: ()) => NormalizeHandle(handle), "Unable to follow user")
  }

  function UnfollowUser(token: Option<string>, handle: string, response: ApiResult<()>): (s: Settled<string>)
    ensures !HasToken(token) ==> s == Rejected("Login required")
    ensures HasToken(token) && response.Success? ==> s == Fulfilled(NormalizeHandle(handle))
    ensures HasToken(token) && response.Failure? ==> s == Rejected(RejectMessage(response.message, "Unable to unfollow user"))
  {
    if !HasToken(token) then Rejected("Login required")
    else Attempt(response, (_: ()) => NormalizeHandle(handle), "Unable to unfollow user")
  }

  // ---------------------------------------------------------------------
  // Profiles

  /** The key a user is stored under. */
  function Key(u: User): string {
    NormalizeHandle(u.handle)
  }

  function Keys(users: seq<User>): (r: seq<string>)
    ensures |r| == |users| && forall i :: 0 <= i < |users| ==> r[i] == Key(users[i])
  {
    seq(|users|, i requires 0 <= i < |users| => Key(users[i]))
  }

  /** The profiles after storing each user, in order, under its key: the
      keys are the old ones and the users' ones. */
  function UpsertProfiles(profiles: map<string, User>, users: seq<User>): (r: map<string, User>)
    ensures forall k :: k in r <==> k in profiles || k in Keys(users)
    decreases |users|
  {
    if |users| == 0 then profiles
    else
      var n := |users| - 1;
      assert Keys(users) == Keys(users[..n]) + [Key(users[n])];
      UpsertProfiles(profiles, users[..n])[Key(users[n]) := users[n]]
  }

  /** A profile no incoming user maps to is left as it was. */
  lemma {:induction false} UpsertKeepsOthers(profiles: map<string, User>, users: seq<User>, k: string)
    requires k in profiles && k !in Keys(users)
    ensures UpsertProfiles(profiles, users)[k] == profiles[k]
    decreases |users|
  {
    if |users| > 0 {
      var n := |users| - 1;
      assert Keys(users) == Keys(users[..n]) + [Key(users[n])];
      UpsertKeepsOthers(profiles, users[..n], k);
    }
  }

  /** Under each key ends up the last user in the payload with that key. */
  lemma {:induction false} UpsertLastWins(profiles: map<string, User>, users: seq<User>, i: nat)
    requires i < |users|
    requires forall j :: i < j < |users| ==> Key(users[j]) != Key(users[i])
    ensures UpsertProfiles(profiles, users)[Key(users[i])] == users[i]
    decreases |users|
  {
    var n := |users| - 1;
    var prefix := users[..n];
    var before := UpsertProfiles(profiles, prefix);
    assert UpsertProfiles(profiles, users) == before[Key(users[n]) := users[n]];
    if i < n {
      assert prefix[i] == users[i];
      forall j | i < j < n ensures Key(prefix[j]) != Key(prefix[i]) {
        assert prefix[j] == users[j];
      }
      UpsertLastWins(profiles, prefix, i);
      assert Key(users[n]) != Key(users[i]);
    }
  }

  // ---------------------------------------------------------------------
  // The slice

  class UsersState {
    var profiles: map<string, User>
    var searchResults: seq<User>
    var followingHandles: seq<string>
    var loading: bool
    var error: Option<string>

    constructor()
      ensures profiles == map[] && searchResults == [] && followingHandles == [] && !loading && error.None?
    {
      profiles := map[];
      searchResults := [];
      followingHandles := [];
      loading := false;
      error := None;
    }

    method SearchPending()
      modifies this
      ensures loading && error.None?
      ensures profiles == old(profiles) && searchResults == old(searchResults) && followingHandles == old(followingHandles)
    {
      loading := true;
      error := None;
    }

    method SearchFulfilled(users: seq<User>)
      modifies this
      ensures !loading && searchResults == users
      ensures profiles == old(profiles) && followingHandles == old(followingHandles) && error == old(error)
    {
      loading := false;
      searchResults := users;
    }

    method SearchRejected(message: string)
      modifies this
      ensures !loading && error == Some(message)
      ensures profiles == old(profiles) && searchResults == old(searchResults) && followingHandles == old(followingHandles)
    {
      loading := false;
      error := Some(message);
    }

    /** fetchUserProfile.fulfilled: one profile stored under its key. */
    method FetchUserProfileFulfilled(profile: User)
      modifies this
      ensures profiles == old(profiles)[Key(profile) := profile]
      ensures searchResults == old(searchResults) && followingHandles == old(followingHandles)
      ensures loading == old(loading) && error == old(error)
    {
      profiles := profiles[Key(profile) := profile];
    }

    /** fetchUserProfile.rejected: only the error is recorded. */
    method FetchUserProfileRejected(message: string)
      modifies this
      ensures error == Some(message)
      ensures profiles == old(profiles) && searchResults == old(searchResults)
      ensures followingHandles == old(followingHandles) && loading == old(loading)
    {
      error := Some(message);
    }

    /** fetchFollowing.fulfilled: the followed handles become the users'
        keys in payload order, and each user is stored under its key. */
    method FetchFollowingFulfilled(users: seq<User>)
      modifies this
      ensures followingHandles == Keys(users)
      ensures profiles == UpsertProfiles(old(profiles), users)
      ensures searchResults == old(searchResults) && loading == old(loading) && error == old(error)
    {
      followingHandles := Keys(users);
      var stored := profiles;
      for i := 0 to |users|
        invariant stored == UpsertProfiles(old(profiles), users[..i])
      {
        assert users[..i + 1][..i] == users[..i];
        stored := stored[Key(users[i]) := users[i]];
      }
      assert users[..|users|] == users;
      profiles := stored;
    }

    /** followUser.fulfilled: the handle is added unless already followed. */
    method FollowFulfilled(handle: string)
      modifies this
      ensures followingHandles == SetAdd(old(followingHandles), handle)
      ensures profiles == old(profiles) && searchResults == old(searchResults)
      ensures loading == old(loading) && error == old(error)
    {
      if handle !in followingHandles {
        followingHandles := followingHandles + [handle];
      }
    }

    /** unfollowUser.fulfilled: every occurrence of the handle goes. */
    method UnfollowFulfilled(handle: string)
      modifies this
      ensures followingHandles == Filter(old(followingHandles), Except(handle))
      ensures profiles == old(profiles) && searchResults == old(searchResults)
      ensures loading == old(loading) && error == old(error)
    {
      followingHandles := Filter(followingHandles, Except(handle));
    }

    method Logout()
      modifies this
      ensures followingHandles == [] && searchResults == [] && profiles == map[]
      ensures loading == old(loading) && error == old(error)
    {
      followingHandles := [];
      searchResults := [];
      profiles := map[];
    }
  }

  /** Following twice is following once, and the list never gains a
      duplicate it did not have. */
  lemma FollowIdempotent(handles: seq<string>, handle: string)
    ensures SetAdd(SetAdd(handles, handle), handle) == SetAdd(handles, handle)
    ensures NoDuplicates(handles) ==> NoDuplicates(SetAdd(handles, handle))
  {
  }

  /** Unfollowing keeps exactly the other handles, and a duplicate-free
      list stays duplicate-free. */
  lemma UnfollowKeepsOthers(handles: seq<string>, handle: string)
    ensures forall h :: h in Filter(handles, Except(handle)) <==> h in handles && h != handle
    ensures NoDuplicates(handles) ==> NoDuplicates(Filter(handles, Except(handle)))
  {
    FilterNoDuplicatesIf(handles, Except(handle));
  }
}
