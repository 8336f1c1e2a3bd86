/** The JSON-to-entity mappers (store/mappers.ts). A backend record is a
    `Raw…` datatype whose every field may be missing (`None` is both
    `undefined` and JSON `null`). `a || b` skips a missing value, "" , 0 and
    false; `a ?? b` skips only a missing one. `freshId` stands for
    `crypto.randomUUID()` and `now` for `Date.now()`. */
module Mappers {
  import opened Util
  import opened Types

  // ---------------------------------------------------------------------
  // JavaScript defaulting on optional strings

  /** A string that `||` keeps: present and non-empty. */
  predicate Truthy(s: Option<string>) {
    s.Some? && s.value != ""
  }

  /** `a || b` on optional strings. */
  function OrElse(a: Option<string>, b: Option<string>): (r: Option<string>)
    ensures Truthy(a) ==> r == a
    ensures !Truthy(a) ==> r == b
  {
    if Truthy(a) then a else b
  }

  /** `a || fallback` with a string fallback. */
  function OrDefault(a: Option<string>, fallback: string): (r: string)
    ensures Truthy(a) ==> r == a.value
    ensures !Truthy(a) ==> r == fallback
  {
    if Truthy(a) then a.value else fallback
  }

  /** `a ?? b` */
  function Coalesce<T>(a: Option<T>, b: Option<T>): (r: Option<T>)
    ensures a.Some? ==> r == a
    ensures a.None? ==> r == b
  {
    if a.Some? then a else b
  }

  const Placeholder := "/placeholder.svg"

  /** The handle rule of mapUser and mapPost: keep a leading "@", add one
      when it is missing, leave the empty handle empty. */
  function NormalizeHandle(h: string): (r: string)
    ensures r == "" <==> h == ""
    ensures r != "" ==> r[0] == '@'
    ensures |h| > 0 && h[0] == '@' ==> r == h
    ensures |h| > 0 && h[0] != '@' ==> r == "@" + h
  {
    if "@" <= h then h else if h != "" then "@" + h else ""
  }

  /** The "@" is never doubled: normalising twice changes nothing. */
  lemma NormalizeHandleIdempotent(h: string)
    ensures NormalizeHandle(NormalizeHandle(h)) == NormalizeHandle(h)
  {
  }

  /** `data?.timestamp || data?.created_at || Date.now()` */
  function StampOr(timestamp: Option<Stamp>, createdAt: Option<string>, now: int): (r: Stamp)
    ensures timestamp.Some? && StampTruthy(timestamp.value) ==> r == timestamp.value
    ensures !(timestamp.Some? && StampTruthy(timestamp.value)) && Truthy(createdAt) ==> r == Text(createdAt.value)
    ensures !(timestamp.Some? && StampTruthy(timestamp.value)) && !Truthy(createdAt) ==> r == Millis(now)
  {
    if timestamp.Some? && StampTruthy(timestamp.value) then timestamp.value
    else if Truthy(createdAt) then Text(createdAt.value)
    else Millis(now)
  }

  predicate StampTruthy(s: Stamp) {
    match s
    case Millis(ms) => ms != 0
    case Text(t) => t != ""
  }

  /** A JSON id: a number or a string. */
  datatype Scalar = Num(n: int) | Str(s: string)

  /** `String(data?.id ?? crypto.randomUUID())` */
  function IdOr(id: Option<Scalar>, freshId: string): (r: string)
    ensures id == Some(Str(r)) || (id.Some? && id.value.Num? && r == IntToString(id.value.n)) || (id.None? && r == freshId)
  {
    match id
    case None => freshId
    case Some(Num(n)) => IntToString(n)
    case Some(Str(s)) => s
  }

  // ---------------------------------------------------------------------
  // mapUser

  datatype RawStats = RawStats(followers: Option<int>, following: Option<int>)

  datatype RawUser = RawUser(
    id: Option<int>,
    email: Option<string>,
    name: Option<string>,
    handle: Option<string>,
    avatar_url: Option<string>,
    avatarUrl: Option<string>,
    bio: Option<string>,
    location: Option<string>,
    website: Option<string>,
    language: Option<string>,
    interests: Option<seq<string>>,
    notifications_enabled: Option<bool>,
    notificationsEnabled: Option<bool>,
    onboarding_complete: Option<bool>,
    onboardingComplete: Option<bool>,
    stats: Option<RawStats>,
    is_verified: Option<bool>,
    isVerified: Option<bool>,
    created_at: Option<string>,
    createdAt: Option<string>)

  const NoUser := RawUser(None, None, None, None, None, None, None, None, None, None,
                          None, None, None, None, None, None, None, None, None, None)

  /** `||` on numbers: a missing value or 0 gives 0. */
  function CountOrZero(n: Option<int>): int {
    if n.Some? then n.value else 0
  }

  /** `Boolean(onboarding_complete ?? onboardingComplete ?? hasInterests)` */
  function OnboardingFlag(d: RawUser): (done: bool)
    ensures d.onboarding_complete.Some? ==> done == d.onboarding_complete.value
    ensures d.onboarding_complete.None? && d.onboardingComplete.Some? ==> done == d.onboardingComplete.value
    ensures d.onboarding_complete.None? && d.onboardingComplete.None? ==>
              (done <==> d.interests.Some? && |d.interests.value| > 0)
  {
    match Coalesce(d.onboarding_complete, d.onboardingComplete)
    case Some(flag) => flag
    case None => d.interests.Some? && |d.interests.value| > 0
  }

  function MapStats(stats: Option<RawStats>): (r: Option<UserStats>)
    ensures stats.None? <==> r.None?
    ensures stats.Some? ==>
              && (stats.value.followers.Some? ==> r.value.followers == stats.value.followers.value)
              && (stats.value.followers.None? ==> r.value.followers == 0)
              && (stats.value.following.Some? ==> r.value.following == stats.value.following.value)
              && (stats.value.following.None? ==> r.value.following == 0)
  {
    match stats
    case None => None
    case Some(s) => Some(UserStats(CountOrZero(s.followers), CountOrZero(s.following)))
  }

  /** mapUser: name, bio, location and website default to "", the avatar to
      the placeholder, interests to []; the handle is normalised. */
  function MapUser(data: Option<RawUser>): (u: User)
    ensures var d := data.GetOr(NoUser);
            && u.handle == NormalizeHandle(d.handle.GetOr(""))
            && u.name == d.name.GetOr("")
            && u.avatarUrl == Some(OrDefault(OrElse(d.avatar_url, d.avatarUrl), Placeholder))
            && u.bio == Some(d.bio.GetOr("")) && u.location == Some(d.location.GetOr(""))
            && u.website == Some(d.website.GetOr(""))
            && u.interests == Some(d.interests.GetOr([]))
            && u.onboardingComplete == Some(OnboardingFlag(d))
            && u.stats == MapStats(d.stats)
            && u.notificationsEnabled == Coalesce(d.notifications_enabled, d.notificationsEnabled)
            && u.isVerified == Coalesce(d.is_verified, d.isVerified)
            && u.createdAt == OrElse(d.created_at, d.createdAt)
            && u.id == d.id && u.email == d.email && u.language == d.language
  {
    var d := data.GetOr(NoUser);
    User(d.id, d.email, OrDefault(d.name, ""), NormalizeHandle(OrDefault(d.handle, "")),
         Some(OrDefault(OrElse(d.avatar_url, d.avatarUrl), Placeholder)),
         Some(OrDefault(d.bio, "")), Some(OrDefault(d.location, "")), Some(OrDefault(d.website, "")),
         d.language, Some(d.interests.GetOr([])),
         Coalesce(d.notifications_enabled, d.notificationsEnabled),
         Some(OnboardingFlag(d)), MapStats(d.stats),
         Coalesce(d.is_verified, d.isVerified), OrElse(d.created_at, d.createdAt))
  }

  /** A user as mapUser can produce it. */
  predicate CanonicalUser(u: User) {
    && NormalizeHandle(u.handle) == u.handle
    && Truthy(u.avatarUrl)
    && u.bio.Some? && u.location.Some? && u.website.Some?
    && u.interests.Some? && u.onboardingComplete.Some?
  }

  /** Every mapped user is canonical. */
  lemma MapUserCanonical(data: Option<RawUser>)
    ensures CanonicalUser(MapUser(data))
  {
    var d := data.GetOr(NoUser);
    NormalizeHandleIdempotent(OrDefault(d.handle, ""));
  }

  /** The backend's snake_case form of a user (the creation date under its
      camelCase key, since `created_at || createdAt` would drop an empty one). */
  function EncodeUser(u: User): RawUser {
    RawUser(u.id, u.email, Some(u.name), Some(u.handle), u.avatarUrl, None, u.bio, u.location, u.website,
            u.language, u.interests, u.notificationsEnabled, None, u.onboardingComplete, None,
            match u.stats case None => None case Some(s) => Some(RawStats(Some(s.followers), Some(s.following))),
            u.isVerified, None, None, u.createdAt)
  }

  /** Encoding a canonical user and mapping it back gives the same user. */
  lemma MapUserRoundTrip(u: User)
    requires CanonicalUser(u)
    ensures MapUser(Some(EncodeUser(u))) == u
  {
  }

  // ---------------------------------------------------------------------
  // mapContextProfile

  datatype RawContextProfile = RawContextProfile(
    intent: Option<string>,
    tone: Option<string>,
    assumptions: Option<string>,
    audience: Option<string>,
    coreArgument: Option<string>,
    core_argument: Option<string>)

  const NoProfile := RawContextProfile(None, None, None, None, None, None)

  /** mapContextProfile: five strings, "" where the record has nothing,
      coreArgument falling back to core_argument. */
  function MapContextProfile(data: Option<RawContextProfile>): (p: ContextProfile)
    ensures var d := data.GetOr(NoProfile);
            && p.intent == d.intent.GetOr("") && p.tone == d.tone.GetOr("")
            && p.assumptions == d.assumptions.GetOr("") && p.audience == d.audience.GetOr("")
            && (Truthy(d.coreArgument) ==> p.coreArgument == d.coreArgument.value)
            && (!Truthy(d.coreArgument) ==> p.coreArgument == d.core_argument.GetOr(""))
  {
    var d := data.GetOr(NoProfile);
    ContextProfile(OrDefault(d.intent, ""), OrDefault(d.tone, ""), OrDefault(d.assumptions, ""),
                   OrDefault(d.audience, ""), OrDefault(OrElse(d.coreArgument, d.core_argument), ""))
  }

  /** The profile createPost sends (camelCase keys). */
  function EncodeContextProfile(p: ContextProfile): RawContextProfile {
    RawContextProfile(Some(p.intent), Some(p.tone), Some(p.assumptions), Some(p.audience), Some(p.coreArgument), None)
  }

  /** Every profile survives the trip through its JSON form. */
  lemma MapContextProfileRoundTrip(p: ContextProfile)
    ensures MapContextProfile(Some(EncodeContextProfile(p))) == p
  {
  }

  // ---------------------------------------------------------------------
  // mapPost

  datatype RawPost = RawPost(
    id: Option<Scalar>,
    author_name: Option<string>,
    authorName: Option<string>,
    author: Option<RawUser>,
    author_handle: Option<string>,
    authorHandle: Option<string>,
    avatar_url: Option<string>,
    avatarUrl: Option<string>,
    content: Option<string>,
    image_url: Option<string>,
    imageUrl: Option<string>,
    context_profile: Option<RawContextProfile>,
    contextProfile: Option<RawContextProfile>,
    likes: Option<int>,
    likes_count: Option<int>,
    reply_count: Option<int>,
    replyCount: Option<int>,
    is_liked: Option<bool>,
    timestamp: Option<Stamp>,
    created_at: Option<string>)

  const NoPost := RawPost(None, None, None, None, None, None, None, None, None, None,
                          None, None, None, None, None, None, None, None, None, None)

  function AuthorField(author: Option<RawUser>, pick: RawUser -> Option<string>): Option<string> {
    if author.Some? then pick(author.value) else None
  }

  /** mapPost. */
  function MapPost(data: Option<RawPost>, freshId: string, now: int): (p: Post)
    ensures var d := data.GetOr(NoPost);
            && p.id == IdOr(d.id, freshId)
            && p.authorName == OrDefault(OrElse(OrElse(d.author_name, d.authorName), AuthorField(d.author, (a: RawUser) => a.name)), "")
            && p.authorHandle == NormalizeHandle(OrDefault(OrElse(OrElse(d.author_handle, d.authorHandle),
                                                                  AuthorField(d.author, (a: RawUser) => a.handle)), ""))
            && p.content == d.content.GetOr("")
            && p.imageUrl == Coalesce(d.image_url, d.imageUrl)
            && p.contextProfile == MapContextProfile(Coalesce(d.context_profile, d.contextProfile))
            && p.timestamp == StampOr(d.timestamp, d.created_at, now)
            && p.avatarUrl == Some(OrDefault(OrElse(OrElse(d.avatar_url, d.avatarUrl),
                                                    AuthorField(d.author, (a: RawUser) => a.avatar_url)), Placeholder))
            && Truthy(p.avatarUrl)
  {
    var d := data.GetOr(NoPost);
    Post(IdOr(d.id, freshId),
         OrDefault(OrElse(OrElse(d.author_name, d.authorName), AuthorField(d.author, (a: RawUser) => a.name)), ""),
         NormalizeHandle(OrDefault(OrElse(OrElse(d.author_handle, d.authorHandle), AuthorField(d.author, (a: RawUser) => a.handle)), "")),
         OrDefault(d.content, ""),
         Coalesce(d.image_url, d.imageUrl),
         StampOr(d.timestamp, d.created_at, now),
         MapContextProfile(if d.context_profile.Some? then d.context_profile else d.contextProfile),
         Coalesce(d.likes, d.likes_count).GetOr(0),
         Coalesce(d.reply_count, d.replyCount).GetOr(0),
         Some(OrDefault(OrElse(OrElse(d.avatar_url, d.avatarUrl), AuthorField(d.author, (a: RawUser) => a.avatar_url)), Placeholder)),
         d.is_liked.GetOr(false))
  }

  /** likes is `likes ?? likes_count ?? 0` and replyCount
      `reply_count ?? replyCount ?? 0`: a present 0 is kept, not skipped. */
  lemma MapPostCounts(data: RawPost, freshId: string, now: int)
    ensures var p := MapPost(Some(data), freshId, now);
            && (data.likes.Some? ==> p.likes == data.likes.value)
            && (data.likes.None? && data.likes_count.Some? ==> p.likes == data.likes_count.value)
            && (data.likes.None? && data.likes_count.None? ==> p.likes == 0)
            && (data.reply_count.Some? ==> p.replyCount == data.reply_count.value)
            && (data.reply_count.None? && data.replyCount.Some? ==> p.replyCount == data.replyCount.value)
            && (data.reply_count.None? && data.replyCount.None? ==> p.replyCount == 0)
  {
  }

  /** isLiked comes from is_liked alone. */
  lemma MapPostIsLiked(data: RawPost, freshId: string, now: int)
    ensures MapPost(Some(data), freshId, now).isLiked <==> data.is_liked == Some(true)
  {
  }

  /** A post as mapPost can produce it. */
  predicate CanonicalPost(p: Post) {
    NormalizeHandle(p.authorHandle) == p.authorHandle && Truthy(p.avatarUrl) && StampTruthy(p.timestamp)
  }

  /** The backend's snake_case form of a post. */
  function EncodePost(p: Post): RawPost {
    RawPost(Some(Str(p.id)), Some(p.authorName), None, None, Some(p.authorHandle), None, p.avatarUrl, None,
            Some(p.content), p.imageUrl, None, Some(EncodeContextProfile(p.contextProfile)), None,
            Some(p.likes), None, Some(p.replyCount), None, Some(p.isLiked), Some(p.timestamp), None)
  }

  /** Encoding a canonical post and mapping it back gives the same post. */
  lemma MapPostRoundTrip(p: Post, freshId: string, now: int)
    requires CanonicalPost(p)
    ensures MapPost(Some(EncodePost(p)), freshId, now) == p
  {
    MapContextProfileRoundTrip(p.contextProfile);
  }

  /** Every mapped post is canonical (the clock never reads 0). */
  lemma MapPostCanonical(data: Option<RawPost>, freshId: string, now: int)
    requires now != 0
    ensures CanonicalPost(MapPost(data, freshId, now))
  {
    var d := data.GetOr(NoPost);
    NormalizeHandleIdempotent(OrDefault(OrElse(OrElse(d.author_handle, d.authorHandle), AuthorField(d.author, (a: RawUser) => a.handle)), ""));
  }

  // ---------------------------------------------------------------------
  // mapComment, mapNotification, mapSpaceParticipant, mapSpace, mapSpaceMessage

  datatype RawComment = RawComment(
    id: Option<Scalar>,
    author: Option<RawUser>,
    content: Option<string>,
    timestamp: Option<Stamp>,
    created_at: Option<string>,
    is_ai_response: Option<bool>,
    isAiResponse: Option<bool>,
    reply_to_id: Option<string>,
    replyToId: Option<string>)

  const NoComment := RawComment(None, None, None, None, None, None, None, None, None)

  function MapComment(data: Option<RawComment>, freshId: string, now: int): (c: Comment)
    ensures var d := data.GetOr(NoComment);
            && c.id == IdOr(d.id, freshId) && c.author == MapUser(d.author)
            && c.content == d.content.GetOr("") && c.timestamp == StampOr(d.timestamp, d.created_at, now)
            && c.isAiResponse == Coalesce(d.is_ai_response, d.isAiResponse)
            && c.replyToId == Coalesce(d.reply_to_id, d.replyToId)
  {
    var d := data.GetOr(NoComment);
    Comment(IdOr(d.id, freshId), MapUser(d.author), OrDefault(d.content, ""), StampOr(d.timestamp, d.created_at, now),
            Coalesce(d.is_ai_response, d.isAiResponse), Coalesce(d.reply_to_id, d.replyToId))
  }

  datatype RawNotification = RawNotification(
    id: Option<Scalar>,
    kind: Option<string>,
    user: Option<RawUser>,
    post_preview: Option<string>,
    postPreview: Option<string>,
    timestamp: Option<Stamp>,
    created_at: Option<string>,
    read: Option<bool>,
    is_read: Option<bool>)

  const NoNotification := RawNotification(None, None, None, None, None, None, None, None, None)

  /** mapNotification: read is `read ?? is_read ?? false`. */
  function MapNotification(data: Option<RawNotification>, freshId: string, now: int): (n: Notification)
    ensures var d := data.GetOr(NoNotification);
            && n.id == IdOr(d.id, freshId) && n.kind == d.kind && n.user == MapUser(d.user)
            && n.postPreview == OrElse(d.post_preview, d.postPreview)
            && n.timestamp == StampOr(d.timestamp, d.created_at, now)
            && (d.read.Some? ==> n.read == d.read.value)
            && (d.read.None? && d.is_read.Some? ==> n.read == d.is_read.value)
            && (d.read.None? && d.is_read.None? ==> !n.read)
  {
    var d := data.GetOr(NoNotification);
    Notification(IdOr(d.id, freshId), d.kind, MapUser(d.user), OrElse(d.post_preview, d.postPreview),
                 StampOr(d.timestamp, d.created_at, now), Coalesce(d.read, d.is_read).GetOr(false))
  }

  datatype RawParticipant = RawParticipant(
    user: Option<RawUser>,
    role: Option<string>,
    is_muted: Option<bool>,
    is_speaking: Option<bool>,
    hand_raised: Option<bool>)

  /** mapSpaceParticipant: the three flags are booleans, false when missing. */
  function MapSpaceParticipant(data: Option<RawParticipant>): (p: SpaceParticipant)
    ensures var d := data.GetOr(RawParticipant(None, None, None, None, None));
            && p.user == MapUser(d.user) && p.role == d.role
            && (p.isMuted <==> d.is_muted == Some(true))
            && (p.isSpeaking <==> d.is_speaking == Some(true))
            && p.handRaised.Some? && (p.handRaised.value <==> d.hand_raised == Some(true))
  {
    var d := data.GetOr(RawParticipant(None, None, None, None, None));
    SpaceParticipant(MapUser(d.user), d.role, d.is_muted.GetOr(false), d.is_speaking.GetOr(false),
                     Some(d.hand_raised.GetOr(false)))
  }

  datatype RawSpace = RawSpace(
    id: Option<Scalar>,
    title: Option<string>,
    description: Option<string>,
    tags: Option<seq<string>>,
    host: Option<RawUser>,
    participants: Option<seq<RawParticipant>>,
    is_active: Option<bool>,
    isActive: Option<bool>,
    started_at: Option<string>,
    startedAt: Option<string>,
    listener_count: Option<int>,
    listenerCount: Option<int>)

  const NoSpace := RawSpace(None, None, None, None, None, None, None, None, None, None, None, None)

  function ListenerCount(d: RawSpace): (n: int)
    ensures d.listener_count.Some? ==> n == d.listener_count.value
    ensures d.listener_count.None? && d.listenerCount.Some? ==> n == d.listenerCount.value
    ensures d.listener_count.None? && d.listenerCount.None? && d.participants.Some? ==> n == |d.participants.value|
    ensures d.listener_count.None? && d.listenerCount.None? && d.participants.None? ==> n == 0
  {
    match Coalesce(d.listener_count, d.listenerCount)
    case Some(n) => n
    case None => if d.participants.Some? then |d.participants.value| else 0
  }

  /** mapSpace: isActive defaults to true; listenerCount falls back from
      listener_count to listenerCount to the participant count to 0. */
  function MapSpace(data: Option<RawSpace>, freshId: string): (s: Space)
    ensures var d := data.GetOr(NoSpace);
            && s.id == IdOr(d.id, freshId) && s.title == d.title.GetOr("")
            && s.description == Some(d.description.GetOr("")) && s.tags == d.tags.GetOr([])
            && s.host == MapUser(d.host)
            && |s.participants| == (if d.participants.Some? then |d.participants.value| else 0)
            && (forall i :: 0 <= i < |s.participants| ==>
                  d.participants.Some? && s.participants[i] == MapSpaceParticipant(Some(d.participants.value[i])))
            && (Truthy(d.started_at) ==> s.startedAt == Some(Text(d.started_at.value)))
            && (!Truthy(d.started_at) && d.startedAt.Some? ==> s.startedAt == Some(Text(d.startedAt.value)))
            && (!Truthy(d.started_at) && d.startedAt.None? ==> s.startedAt.None?)
            && (d.is_active.None? && d.isActive.None? ==> s.isActive)
            && (d.is_active.Some? ==> s.isActive == d.is_active.value)
            && (d.is_active.None? && d.isActive.Some? ==> s.isActive == d.isActive.value)
            && s.listenerCount == Some(ListenerCount(d))
  {
    var d := data.GetOr(NoSpace);
    var participants := if d.participants.Some?
                        then seq(|d.participants.value|, i requires 0 <= i < |d.participants.value| =>
                                   MapSpaceParticipant(Some(d.participants.value[i])))
                        else [];
    var started := OrElse(d.started_at, d.startedAt);
    Space(IdOr(d.id, freshId), OrDefault(d.title, ""), Some(OrDefault(d.description, "")), d.tags.GetOr([]),
          MapUser(d.host), participants, Coalesce(d.is_active, d.isActive).GetOr(true),
          if started.Some? then Some(Text(started.value)) else None, Some(ListenerCount(d)))
  }

  datatype RawSpaceMessage = RawSpaceMessage(
    id: Option<Scalar>,
    user: Option<RawUser>,
    content: Option<string>,
    timestamp: Option<Stamp>,
    created_at: Option<string>)

  function MapSpaceMessage(data: Option<RawSpaceMessage>, freshId: string, now: int): (m: SpaceMessage)
    ensures var d := data.GetOr(RawSpaceMessage(None, None, None, None, None));
            && m.id == IdOr(d.id, freshId) && m.user == MapUser(d.user)
            && m.content == d.content.GetOr("") && m.timestamp == StampOr(d.timestamp, d.created_at, now)
  {
    var d := data.GetOr(RawSpaceMessage(None, None, None, None, None));
    SpaceMessage(IdOr(d.id, freshId), MapUser(d.user), OrDefault(d.content, ""), StampOr(d.timestamp, d.created_at, now))
  }
}
