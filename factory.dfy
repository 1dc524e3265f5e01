/** `SocialMediaApiFactory.createApi`: which client an account gets, and with
    which constructor arguments. */
module ApiFactory {
  import opened Base

  /** A constructed client, by the arguments its constructor receives. */
  datatype ApiClient =
    | TwitterClient(token: string, tokenSecret: string)
    | RedditClient(accessToken: string, refreshTokenValue: string)
    | TelegramClient(botToken: string)

  const TwitterNeedsBoth: string := "Twitter account requires both access token and refresh token."
  const RedditNeedsBoth: string := "Reddit account requires both access token and refresh token."

  function Unsupported(platform: string): string {
    "Unsupported platform: " + platform
  }

  /** The switch on the account's platform name. A `refreshToken` that is absent
      or empty is falsy. */
  function CreateApi(platform: string, accessToken: string, refreshToken: Option<string>)
    : (r: Result<ApiClient, string>)
    ensures r.Ok? <==> platform == "telegram" || ((platform == "twitter" || platform == "reddit") && Truthy(refreshToken))
    ensures platform == "twitter" && r.Ok? ==> r.value == TwitterClient(accessToken, refreshToken.value)
    ensures platform == "reddit" && r.Ok? ==> r.value == RedditClient(accessToken, refreshToken.value)
    ensures platform == "telegram" ==> r == Ok(TelegramClient(accessToken))
    ensures platform == "twitter" && r.Err? ==> r.error == TwitterNeedsBoth
    ensures platform == "reddit" && r.Err? ==> r.error == RedditNeedsBoth
    ensures platform !in {"twitter", "reddit", "telegram"} ==> r == Err(Unsupported(platform))
  {
    match platform
    case "twitter" =>
      if !Truthy(refreshToken) then Err(TwitterNeedsBoth) else Ok(TwitterClient(accessToken, refreshToken.value))
    case "reddit" =>
      if !Truthy(refreshToken) then Err(RedditNeedsBoth) else Ok(RedditClient(accessToken, refreshToken.value))
    case "telegram" => Ok(TelegramClient(accessToken))
    case _ => Err(Unsupported(platform))
  }

  /** The client matches the platform it was made for. */
  lemma CreateApiMatchesPlatform(platform: string, accessToken: string, refreshToken: Option<string>)
    requires CreateApi(platform, accessToken, refreshToken).Ok?
    ensures var c := CreateApi(platform, accessToken, refreshToken).value;
            && (c.TwitterClient? <==> platform == "twitter")
            && (c.RedditClient? <==> platform == "reddit")
            && (c.TelegramClient? <==> platform == "telegram")
  {
  }

  /** The Telegram client never depends on a refresh token. */
  lemma TelegramIgnoresRefreshToken(accessToken: string, t1: Option<string>, t2: Option<string>)
    ensures CreateApi("telegram", accessToken, t1) == CreateApi("telegram", accessToken, t2)
  {
  }
}
