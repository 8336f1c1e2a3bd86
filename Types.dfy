/** The application's entities (types.ts). Optional TypeScript fields are
    `Option`s; `number | string` timestamps are `Stamp`s. */
module Types {
  import opened Util

  /** The context profile synthesised for every post. */
  datatype ContextProfile = ContextProfile(
    intent: string,
    tone: string,
    assumptions: string,
    audience: string,
    coreArgument: string)

  /** "user" | "model" | "system" */
  datatype Role = UserRole | ModelRole | SystemRole

  datatype Message = Message(id: string, role: Role, content: string, timestamp: int)

  /** A `number | string` timestamp. */
  datatype Stamp = Millis(ms: int) | Text(text: string)

  datatype UserStats = UserStats(followers: int, following: int)

  datatype User = User(
    id: Option<int>,
    email: Option<string>,
    name: string,
    handle: string,
    avatarUrl: Option<string>,
    bio: Option<string>,
    location: Option<string>,
    website: Option<string>,
    language: Option<string>,
    interests: Option<seq<string>>,
    notificationsEnabled: Option<bool>,
    onboardingComplete: Option<bool>,
    stats: Option<UserStats>,
    isVerified: Option<bool>,
    createdAt: Option<string>)

  /** A post; an absent `isLiked` is `false`, the value every reader of the
      field gives it. */
  datatype Post = Post(
    id: string,
    authorName: string,
    authorHandle: string,
    content: string,
    imageUrl: Option<string>,
    timestamp: Stamp,
    contextProfile: ContextProfile,
    likes: int,
    replyCount: int,
    avatarUrl: Option<string>,
    isLiked: bool)

  datatype Comment = Comment(
    id: string,
    author: User,
    content: string,
    timestamp: Stamp,
    isAiResponse: Option<bool>,
    replyToId: Option<string>)

  datatype Notification = Notification(
    id: string,
    kind: Option<string>,
    user: User,
    postPreview: Option<string>,
    timestamp: Stamp,
    read: bool)

  datatype AuthTokens = AuthTokens(accessToken: string, refreshToken: string, expiresIn: Option<int>)

  datatype SpaceParticipant = SpaceParticipant(
    user: User,
    role: Option<string>,
    isMuted: bool,
    isSpeaking: bool,
    handRaised: Option<bool>)

  datatype Space = Space(
    id: string,
    title: string,
    description: Option<string>,
    tags: seq<string>,
    host: User,
    participants: seq<SpaceParticipant>,
    isActive: bool,
    startedAt: Option<Stamp>,
    listenerCount: Option<int>)

  datatype SpaceMessage = SpaceMessage(id: string, user: User, content: string, timestamp: Stamp)

  /** A user with nothing but a name, a handle and an avatar, as the
      components build for delegate replies. */
  function BareUser(name: string, handle: string, avatarUrl: Option<string>): User {
    User(None, None, name, handle, avatarUrl, None, None, None, None, None, None, None, None, None, None)
  }
}
