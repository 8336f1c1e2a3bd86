/** The auth slice (store/authSlice.ts): the signed-in user and the token
    pair. The browser's localStorage entry the slice writes through is the
    `persisted` field. */
module AuthSlice {
  import opened Util
  import opened Types
  import opened Api
  import opened Mappers

  /** The token endpoint's answer. */
  datatype TokenResponse = TokenResponse(access_token: string, refresh_token: string, expires_in: Option<int>)

  datatype Session = Session(tokens: AuthTokens, user: User)

  datatype SignInKind = Login | Signup | Google

  function TokenPath(kind: SignInKind): string {
    match kind
    case Login => "/auth/login"
    case Signup => "/auth/register"
    case Google => "/auth/google"
  }

  function SignInFallback(kind: SignInKind): string {
    match kind
    case Login => "Unable to log in"
    case Signup => "Unable to sign up"
    case Google => "Unable to log in with Google"
  }

  function Tokens(res: TokenResponse): (t: AuthTokens)
    ensures t.accessToken == res.access_token && t.refreshToken == res.refresh_token && t.expiresIn == res.expires_in
  {
    AuthTokens(res.access_token, res.refresh_token, res.expires_in)
  }

  /** The two requests every sign-in makes: the token exchange, then
      /auth/me with the new access token. `me` is the second answer. */
  function Exchange(exchange: ApiResult<TokenResponse>, me: ApiResult<RawUser>, fallback: string): (s: Settled<Session>)
    ensures exchange.Failure? ==> s == Rejected(RejectMessage(exchange.message, fallback))
    ensures exchange.Success? && me.Failure? ==> s == Rejected(RejectMessage(me.message, fallback))
    ensures exchange.Success? && me.Success? ==> s == Fulfilled(Session(Tokens(exchange.value), MapUser(Some(me.value))))
  {
    match exchange
    case Failure(m) => Rejected(RejectMessage(m, fallback))
    case Success(res) => Attempt(me, (raw: RawUser) => Session(Tokens(res), MapUser(Some(raw))), fallback)
  }

  /** The token /auth/me is called with: the access token just issued. */
  function MeToken(exchange: TokenResponse): Option<string> {
    Some(exchange.access_token)
  }

  /** login, signup and loginWithGoogle differ only in endpoint and
      fallback message. */
  function SignIn(kind: SignInKind, exchange: ApiResult<TokenResponse>, me: ApiResult<RawUser>): (s: Settled<Session>)
    ensures s.Fulfilled? <==> exchange.Success? && me.Success?
    ensures s.Fulfilled? ==> s.payload.tokens == Tokens(exchange.value) && s.payload.user == MapUser(Some(me.value))
    ensures s.Rejected? ==> s.error != ""
  {
    Exchange(exchange, me, SignInFallback(kind))
  }

  function FetchCurrentUser(accessToken: Option<string>, me: ApiResult<RawUser>): (s: Settled<User>)
    ensures !HasToken(accessToken) ==> s == Rejected("No access token")
    ensures HasToken(accessToken) && me.Success? ==> s == Fulfilled(MapUser(Some(me.value)))
    ensures HasToken(accessToken) && me.Failure? ==> s == Rejected(RejectMessage(me.message, "Unable to load profile"))
  {
    if !HasToken(accessToken) then Rejected("No access token")
    else Attempt(me, (raw: RawUser) => MapUser(Some(raw)), "Unable to load profile")
  }

  /** refreshSession: needs the stored refresh token, and reports every
      failure with its own fallback. */
  function RefreshSession(refreshToken: Option<string>, exchange: ApiResult<TokenResponse>, me: ApiResult<RawUser>)
    : (s: Settled<Session>)
    ensures !HasToken(refreshToken) ==> s == Rejected("No refresh token")
    ensures HasToken(refreshToken) ==> s == Exchange(exchange, me, "Unable to refresh session")
  {
    if !HasToken(refreshToken) then Rejected("No refresh token")
    else Exchange(exchange, me, "Unable to refresh session")
  }

  // ---------------------------------------------------------------------
  // The slice

  class AuthState {
    var user: Option<User>
    var accessToken: Option<string>
    var refreshToken: Option<string>
    var loading: bool
    var error: Option<string>
    /** The "discuzz:auth" entry of localStorage. */
    var persisted: Option<AuthTokens>

    constructor(stored: Option<AuthTokens>)
      ensures user.None? && accessToken.None? && refreshToken.None? && !loading && error.None?
      ensures persisted == stored
    {
      user := None;
      accessToken := None;
      refreshToken := None;
      loading := false;
      error := None;
      persisted := stored;
    }

    /** logout: everything but loading is cleared, storage included. */
    method Logout()
      modifies this
      ensures user.None? && accessToken.None? && refreshToken.None? && error.None? && persisted.None?
      ensures loading == old(loading)
    {
      user := None;
      accessToken := None;
      refreshToken := None;
      error := None;
      persisted := None;
    }

    method SetUser(u: Option<User>)
      modifies this
      ensures user == u
      ensures accessToken == old(accessToken) && refreshToken == old(refreshToken)
      ensures loading == old(loading) && error == old(error) && persisted == old(persisted)
    {
      user := u;
    }

    /** setTokens: no tokens also means no user; tokens leave the user. */
    method SetTokens(tokens: Option<AuthTokens>)
      modifies this
      ensures tokens.None? ==> accessToken.None? && refreshToken.None? && user.None?
      ensures tokens.Some? ==> accessToken == Some(tokens.value.accessToken) &&
                               refreshToken == Some(tokens.value.refreshToken) && user == old(user)
      ensures persisted == tokens
      ensures loading == old(loading) && error == old(error)
    {
      accessToken := if tokens.Some? then Some(tokens.value.accessToken) else None;
      refreshToken := if tokens.Some? then Some(tokens.value.refreshToken) else None;
      if tokens.None? {
        user := None;
      }
      persisted := tokens;
    }

    /** login, signup, loginWithGoogle and fetchCurrentUser pending. */
    method Pending()
      modifies this
      ensures loading && error.None?
      ensures user == old(user) && accessToken == old(accessToken) && refreshToken == old(refreshToken)
      ensures persisted == old(persisted)
    {
      loading := true;
      error := None;
    }

    /** login, signup and loginWithGoogle fulfilled. */
    method SignedIn(session: Session)
      modifies this
      ensures !loading && user == Some(session.user)
      ensures accessToken == Some(session.tokens.accessToken) && refreshToken == Some(session.tokens.refreshToken)
      ensures persisted == Some(session.tokens) && error == old(error)
    {
      loading := false;
      user := Some(session.user);
      accessToken := Some(session.tokens.accessToken);
      refreshToken := Some(session.tokens.refreshToken);
      persisted := Some(session.tokens);
    }

    /** login, signup, loginWithGoogle and fetchCurrentUser rejected. */
    method Failed(message: string)
      modifies this
      ensures !loading && error == Some(message)
      ensures user == old(user) && accessToken == old(accessToken) && refreshToken == old(refreshToken)
      ensures persisted == old(persisted)
    {
      loading := false;
      error := Some(message);
    }

    method CurrentUserFulfilled(u: User)
      modifies this
      ensures !loading && user == Some(u)
      ensures accessToken == old(accessToken) && refreshToken == old(refreshToken)
      ensures error == old(error) && persisted == old(persisted)
    {
      loading := false;
      user := Some(u);
    }

    /** refreshSession.fulfilled: like a sign-in, but loading is untouched. */
    method Refreshed(session: Session)
      modifies this
      ensures user == Some(session.user)
      ensures accessToken == Some(session.tokens.accessToken) && refreshToken == Some(session.tokens.refreshToken)
      ensures persisted == Some(session.tokens)
      ensures loading == old(loading) && error == old(error)
    {
      user := Some(session.user);
      accessToken := Some(session.tokens.accessToken);
      refreshToken := Some(session.tokens.refreshToken);
      persisted := Some(session.tokens);
    }

    method RefreshRejected(message: string)
      modifies this
      ensures error == Some(message)
      ensures user == old(user) && accessToken == old(accessToken) && refreshToken == old(refreshToken)
      ensures loading == old(loading) && persisted == old(persisted)
    {
      error := Some(message);
    }
  }

  /** A failed sign-in always carries a message, whichever request failed. */
  lemma SignInFailureHasMessage(kind: SignInKind, exchange: ApiResult<TokenResponse>, me: ApiResult<RawUser>)
    ensures SignIn(kind, exchange, me).Rejected? ==>
              SignIn(kind, exchange, me).error == RejectMessage(if exchange.Failure? then exchange.message else me.message,
                                                               SignInFallback(kind))
  {
  }
}
