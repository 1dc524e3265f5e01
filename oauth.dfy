/** The OAuth routes: each callback loads the user named in the session or the
    query and upserts one account of its platform; disconnect filters the
    platform out. The session is an object the routes update in place; the
    provider calls are oracles and `now` is the clock in milliseconds. */
module OAuthRoutes {
  import opened Base
  import opened Platforms
  import opened UserModel
  import opened Accounts
  import opened SocialRoutes
  import TwitterApiClient
  import RedditApiClient

  /** The `express-session` fields the routes keep between two requests. */
  class Session {
    var userId: Option<string>
    var redditState: Option<string>

    constructor ()
      ensures userId.None? && redditState.None?
    {
      userId := None;
      redditState := None;
    }
  }

  /** Where a route sends the browser: a page of the frontend (the path after
      `FRONTEND_URL`), the Twitter sign-in, or Reddit's authorize page. */
  datatype Redirect =
    | Frontend(path: string)
    | TwitterSignIn
    | RedditAuthorize(params: seq<(string, string)>)

  const MissingUserId: string := "/accounts?error=missing_user_id"
  const UserNotFoundPage: string := "/accounts?error=user_not_found"

  function Connected(p: Platform): string {
    "/accounts?connected=" + PlatformName(p)
  }

  // ---------------------------------------------------------------------------
  // Twitter
  // ---------------------------------------------------------------------------

  /** `GET /twitter`: remember the user in the session and hand over to passport. */
  method TwitterStart(session: Session, userId: Option<string>) returns (r: Redirect)
    modifies session
    ensures !Truthy(userId) ==> r == Frontend(MissingUserId) && session.userId == old(session.userId)
    ensures Truthy(userId) ==> r == TwitterSignIn && session.userId == userId
    ensures session.redditState == old(session.redditState)
  {
    if !Truthy(userId) {
      return Frontend(MissingUserId);
    }
    session.userId := userId;
    r := TwitterSignIn;
  }

  /** The profile and tokens of a Twitter sign-in. */
  datatype TwitterProfile = TwitterProfile(id: string, username: string, token: string, tokenSecret: string)

  /** What the Twitter strategy hands the callback as `req.user`: the profile with
      its tokens, or, when the strategy's own lookup on `socialAccounts.twitter.id`
      found a user, that user document, which has no `profile` field. */
  datatype StrategyUser = SignedIn(profile: TwitterProfile) | UserDocument

  const TwitterFailedPage: string := "/accounts?error=twitter_connection_failed"

  /** `GET /twitter/callback`. `found` is what `findById(session.userId)` loads: a
      user, or null when none has that id (an id Mongoose cannot cast throws
      instead, and the `catch` reports it like a failed connection). Reading
      `profile.profile.id` on a user document throws before any update, and so
      does a refused save; both are caught and reported, and the session keeps
      the user. */
  method TwitterCallback(session: Session, user: StrategyUser, found: User?, freshId: nat, now: int)
    returns (r: Redirect)
    modifies session, found
    ensures !Truthy(old(session.userId)) ==> r == Frontend(MissingUserId)
    ensures Truthy(old(session.userId)) && found == null ==> r == Frontend(UserNotFoundPage)
    ensures !Truthy(old(session.userId)) || found == null ==> session.userId == old(session.userId)
    ensures found != null && (!Truthy(old(session.userId)) || user.UserDocument?) ==>
              found.socialAccounts == old(found.socialAccounts)
    ensures found != null && Truthy(old(session.userId)) && user.UserDocument? ==>
              r == Frontend(TwitterFailedPage) && session.userId == old(session.userId)
    ensures found != null && Truthy(old(session.userId)) && user.SignedIn? ==>
              var p := user.profile;
              && found.socialAccounts == Upsert(old(found.socialAccounts),
                   TwitterApiClient.TwitterAccount(freshId, p.id, p.username, p.token, p.tokenSecret, now))
              && (ValidAccounts(found.socialAccounts) ==> r == Frontend(Connected(Twitter)) && session.userId.None?)
              && (!ValidAccounts(found.socialAccounts) ==>
                    r == Frontend(TwitterFailedPage) && session.userId == old(session.userId))
    ensures session.redditState == old(session.redditState)
    ensures found != null ==> found.email == old(found.email) && found.name == old(found.name)
  {
    if !Truthy(session.userId) {
      return Frontend(MissingUserId);
    }
    if found == null {
      return Frontend(UserNotFoundPage);
    }
    if user.UserDocument? {
      return Frontend(TwitterFailedPage);
    }
    var p := user.profile;
    UpsertInPlace(found, TwitterApiClient.TwitterAccount(freshId, p.id, p.username, p.token, p.tokenSecret, now));
    if !ValidAccounts(found.socialAccounts) {
      return Frontend(TwitterFailedPage);
    }
    session.userId := None;
    r := Frontend(Connected(Twitter));
  }

  // ---------------------------------------------------------------------------
  // Telegram
  // ---------------------------------------------------------------------------

  /** The `getMe` envelope: `ok` and the bot's username. */
  datatype BotInfo = BotInfo(ok: bool, username: string)

  /** The account the Telegram setup stores: the channel is the id and the bot
      token the access token; there is no refresh token. */
  function TelegramAccount(freshId: nat, channelId: string, botUsername: string, botToken: string, now: int)
    : (a: SocialAccount)
    ensures a.platform == Telegram && a.id == channelId && a.accessToken == botToken
    ensures a.username == botUsername && a.refreshToken.None? && a.tokenExpiry.None? && a.isActive
  {
    NewAccount(freshId, Telegram, channelId, botUsername, botToken, None, None, now)
  }

  /** `GET /telegram`: the query checks, the bot check with `getMe` (made only
      when both parameters are given), then the upsert. */
  method TelegramSetup(userId: Option<string>, botToken: Option<string>, channelId: Option<string>,
                       getMe: string -> Result<BotInfo, HttpFailure>, found: User?, freshId: nat, now: int)
    returns (r: Redirect)
    modifies found
    ensures !Truthy(userId) ==> r == Frontend(MissingUserId)
    ensures Truthy(userId) && (!Truthy(botToken) || !Truthy(channelId)) ==>
              r == Frontend("/accounts/telegram-setup?userId=" + userId.value)
    ensures var ready := Truthy(userId) && Truthy(botToken) && Truthy(channelId);
            && (ready && getMe(botToken.value).Err? ==> r == Frontend("/accounts?error=telegram_connection_failed"))
            && (ready && getMe(botToken.value).Ok? && !getMe(botToken.value).value.ok ==>
                  r == Frontend("/accounts?error=invalid_bot_token"))
            && (ready && getMe(botToken.value).Ok? && getMe(botToken.value).value.ok && found == null ==>
                  r == Frontend(UserNotFoundPage))
    ensures found != null ==>
              if Truthy(userId) && Truthy(botToken) && Truthy(channelId)
                 && getMe(botToken.value).Ok? && getMe(botToken.value).value.ok
              then
                && found.socialAccounts == Upsert(old(found.socialAccounts),
                     TelegramAccount(freshId, channelId.value, getMe(botToken.value).value.username, botToken.value, now))
                && r == (if ValidAccounts(found.socialAccounts) then Frontend(Connected(Telegram))
                         else Frontend("/accounts?error=telegram_connection_failed"))
              else found.socialAccounts == old(found.socialAccounts)
    ensures found != null ==> found.email == old(found.email) && found.name == old(found.name)
  {
    if !Truthy(userId) {
      return Frontend(MissingUserId);
    }
    if !Truthy(botToken) || !Truthy(channelId) {
      return Frontend("/accounts/telegram-setup?userId=" + userId.value);
    }
    var botResponse := getMe(botToken.value);
    if botResponse.Err? {
      return Frontend("/accounts?error=telegram_connection_failed");
    }
    if !botResponse.value.ok {
      return Frontend("/accounts?error=invalid_bot_token");
    }
    if found == null {
      return Frontend(UserNotFoundPage);
    }
    UpsertInPlace(found, TelegramAccount(freshId, channelId.value, botResponse.value.username, botToken.value, now));
    if !ValidAccounts(found.socialAccounts) {
      return Frontend("/accounts?error=telegram_connection_failed");
    }
    r := Frontend(Connected(Telegram));
  }

  // ---------------------------------------------------------------------------
  // Reddit
  // ---------------------------------------------------------------------------

  /** The anti-forgery state: the user id, '_', the time. */
  function RedditState(userId: string, now: nat): (state: string)
    ensures userId <= state && |state| > |userId| && state[|userId|] == '_'
    ensures state[|userId| + 1..] == NatToString(now)
  {
    userId + "_" + NatToString(now)
  }

  /** Different users or different times never share a state, as long as the
      user ids have no '_'. */
  lemma RedditStateInjective(u1: string, n1: nat, u2: string, n2: nat)
    requires forall k :: 0 <= k < |u1| ==> u1[k] != '_'
    requires forall k :: 0 <= k < |u2| ==> u2[k] != '_'
    requires RedditState(u1, n1) == RedditState(u2, n2)
    ensures u1 == u2 && n1 == n2
  {
    NatToStringRoundTrip(n1);
    NatToStringRoundTrip(n2);
  }

  /** The query of the authorize URL that `GET /reddit` redirects to (the passport
      configuration's `getRedditAuthUrl`). It asks for three scopes, without
      `history`; it agrees with the Reddit client's own `getAuthUrl` in all
      other pairs. */
  function PassportAuthParams(clientId: string, state: string, redirectUri: string): (p: seq<(string, string)>)
    ensures |p| == 6 && p[0] == ("client_id", clientId) && p[1] == ("response_type", "code")
    ensures p[2] == ("state", state) && p[3] == ("redirect_uri", redirectUri) && p[4] == ("duration", "permanent")
    ensures p[5] == ("scope", "identity submit read")
    ensures p[..5] == RedditApiClient.AuthParams(clientId, state, redirectUri)[..5]
    ensures p[5] != RedditApiClient.AuthParams(clientId, state, redirectUri)[5]
  {
    [("client_id", clientId), ("response_type", "code"), ("state", state),
     ("redirect_uri", redirectUri), ("duration", "permanent"), ("scope", "identity submit read")]
  }

  /** `GET /reddit`: store the user and a fresh state; go to Reddit's authorize page. */
  method RedditStart(session: Session, userId: Option<string>, clientId: string, callbackUrl: string, now: nat)
    returns (r: Redirect)
    modifies session
    ensures !Truthy(userId) ==> r == Frontend(MissingUserId) && session.userId == old(session.userId)
                                && session.redditState == old(session.redditState)
    ensures Truthy(userId) ==>
              && session.userId == userId
              && session.redditState == Some(RedditState(userId.value, now))
              && r == RedditAuthorize(PassportAuthParams(clientId, RedditState(userId.value, now), callbackUrl))
  {
    if !Truthy(userId) {
      return Frontend(MissingUserId);
    }
    session.userId := userId;
    var state := RedditState(userId.value, now);
    session.redditState := Some(state);
    r := RedditAuthorize(PassportAuthParams(clientId, state, callbackUrl));
  }

  /** The token endpoint's answer to the code exchange, and the identity. */
  datatype TokenData = TokenData(accessToken: string, refreshToken: Option<string>, expiresIn: int)
  datatype RedditIdentity = RedditIdentity(id: string, name: string)

  /** The callback may proceed only without a provider error and with the state
      the session stored. */
  predicate StateAccepted(error: Option<string>, state: Option<string>, userId: Option<string>,
                          sessionState: Option<string>)
  {
    !Truthy(error) && Truthy(userId) && Truthy(sessionState) && state == sessionState
  }

  /** The account the Reddit callback stores; its token lives `expiresIn` seconds. */
  function RedditAccount(freshId: nat, who: RedditIdentity, tokens: TokenData, now: int): (a: SocialAccount)
    ensures a.platform == Reddit && a.id == who.id && a.username == who.name
    ensures a.accessToken == tokens.accessToken && a.refreshToken == tokens.refreshToken
    ensures a.tokenExpiry == Some(now + tokens.expiresIn * 1000) && a.isActive
  {
    NewAccount(freshId, Reddit, who.id, who.name, tokens.accessToken, tokens.refreshToken,
               Some(now + tokens.expiresIn * 1000), now)
  }

  /** `GET /reddit/callback`: the error and state checks come before any call to
      Reddit; a failed call or a refused save is caught and reported. The session
      is cleared only after a successful save. `found` is what `findById` loads, or
      null when no user has the id; an id Mongoose cannot cast throws instead and
      is reported like a failed connection. */
  method RedditCallback(session: Session, code: Option<string>, state: Option<string>, error: Option<string>,
                        exchange: Option<string> -> Result<TokenData, HttpFailure>,
                        identify: string -> Result<RedditIdentity, HttpFailure>,
                        found: User?, freshId: nat, now: int)
    returns (r: Redirect)
    modifies session, found
    ensures Truthy(error) ==> r == Frontend("/accounts?error=reddit_auth_denied")
    ensures !Truthy(error) && !StateAccepted(error, state, old(session.userId), old(session.redditState)) ==>
              r == Frontend("/accounts?error=invalid_state")
    ensures var proceeds := StateAccepted(error, state, old(session.userId), old(session.redditState));
            && (proceeds && (exchange(code).Err? || identify(exchange(code).value.accessToken).Err?) ==>
                  r == Frontend("/accounts?error=reddit_connection_failed"))
            && (proceeds && exchange(code).Ok? && identify(exchange(code).value.accessToken).Ok? && found == null ==>
                  r == Frontend(UserNotFoundPage))
    ensures found != null ==>
              if StateAccepted(error, state, old(session.userId), old(session.redditState))
                 && exchange(code).Ok? && identify(exchange(code).value.accessToken).Ok?
              then
                && found.socialAccounts == Upsert(old(found.socialAccounts),
                     RedditAccount(freshId, identify(exchange(code).value.accessToken).value, exchange(code).value, now))
                && (ValidAccounts(found.socialAccounts) ==>
                      r == Frontend(Connected(Reddit)) && session.userId.None? && session.redditState.None?)
                && (!ValidAccounts(found.socialAccounts) ==> r == Frontend("/accounts?error=reddit_connection_failed"))
              else found.socialAccounts == old(found.socialAccounts)
    ensures r != Frontend(Connected(Reddit)) ==>
              session.userId == old(session.userId) && session.redditState == old(session.redditState)
    ensures found != null ==> found.email == old(found.email) && found.name == old(found.name)
  {
    if Truthy(error) {
      return Frontend("/accounts?error=reddit_auth_denied");
    }
    if !StateAccepted(error, state, session.userId, session.redditState) {
      return Frontend("/accounts?error=invalid_state");
    }
    var tokens := exchange(code);
    if tokens.Err? {
      return Frontend("/accounts?error=reddit_connection_failed");
    }
    var who := identify(tokens.value.accessToken);
    if who.Err? {
      return Frontend("/accounts?error=reddit_connection_failed");
    }
    if found == null {
      return Frontend(UserNotFoundPage);
    }
    UpsertInPlace(found, RedditAccount(freshId, who.value, tokens.value, now));
    if !ValidAccounts(found.socialAccounts) {
      return Frontend("/accounts?error=reddit_connection_failed");
    }
    session.userId := None;
    session.redditState := None;
    r := Frontend(Connected(Reddit));
  }

  /** The state stored by the start route is the one its callback accepts, and
      no other. */
  lemma StartThenCallback(userId: string, now: nat, state: Option<string>)
    requires userId != ""
    ensures StateAccepted(None, state, Some(userId), Some(RedditState(userId, now)))
            <==> state == Some(RedditState(userId, now))
  {
  }

  // ---------------------------------------------------------------------------
  // Disconnect
  // ---------------------------------------------------------------------------

  /** Every account that was valid is still valid after a disconnect. */
  lemma DisconnectKeepsValid(accounts: seq<SocialAccount>, name: string)
    requires ValidAccounts(accounts)
    ensures ValidAccounts(Disconnect(accounts, name))
  {
    DisconnectRemoves(accounts, name);
  }

  /** `DELETE /disconnect/:platform` for the user `findById` loaded, or null when
      none has the id (an id Mongoose cannot cast throws, and the route answers
      500). The response lists the remaining accounts. */
  method DisconnectRoute(platform: string, found: User?) returns (r: Result<(string, seq<AccountView>), Failure>)
    modifies found
    ensures found == null ==> r == Err(UserNotFound)
    ensures found != null ==>
              && found.socialAccounts == Disconnect(old(found.socialAccounts), platform)
              && (ValidAccounts(found.socialAccounts) ==>
                    r == Ok((platform + " account disconnected successfully", Views(found.socialAccounts))))
              && (!ValidAccounts(found.socialAccounts) ==> r == Err(ServerError))
              && found.email == old(found.email) && found.name == old(found.name)
  {
    if found == null {
      return Err(UserNotFound);
    }
    found.socialAccounts := Disconnect(found.socialAccounts, platform);
    if !ValidAccounts(found.socialAccounts) {
      return Err(ServerError);
    }
    r := Ok((platform + " account disconnected successfully", Views(found.socialAccounts)));
  }
}
