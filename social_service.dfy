/** `SocialMediaService`: the Reddit refresh trigger, the options passed to a
    client's `post`, the profile identifier, and `refreshRedditToken`. */
module SocialService {
  import opened Base
  import opened Platforms
  import opened UserModel
  import opened Accounts
  import opened ApiFactory

  /** The refresh trigger of `publish` and `getUserProfile`: a Reddit account whose
      expiry is set and lies strictly before now. */
  predicate NeedsRefresh(account: SocialAccount, now: int) {
    account.platform == Reddit && account.tokenExpiry.Some? && now > account.tokenExpiry.value
  }

  /** Only Reddit accounts are ever refreshed, and the account a refresh rewrites is
      not due again at the same instant: its expiry is one hour later. */
  lemma RefreshEndsNeed(accounts: seq<SocialAccount>, subId: nat, token: string, now: int)
    ensures forall k :: 0 <= k < |accounts| && accounts[k].platform != Reddit ==> !NeedsRefresh(accounts[k], now)
    ensures FindById(accounts, subId).Some? ==>
              !NeedsRefresh(RefreshById(accounts, subId, token, now)[FindById(accounts, subId).value], now)
  {
  }

  /** The `options` object of `publish`. `subreddit` is the account's
      `subredditName`, which may itself be absent. */
  datatype PostOptions = PostOptions(media: seq<string>, chatId: Option<string>, subreddit: Option<string>)

  function OptionsFor(account: SocialAccount, images: seq<string>, videos: seq<string>): (o: PostOptions)
    ensures o.media == images + videos
    ensures o.chatId == (if account.platform == Telegram then Some(account.id) else None)
    ensures o.subreddit == (if account.platform == Reddit then account.subredditName else None)
    ensures account.platform == Twitter ==> o == PostOptions(images + videos, None, None)
  {
    var options := PostOptions(images + videos, None, None);
    if account.platform == Telegram then options.(chatId := Some(account.id))
    else if account.platform == Reddit then options.(subreddit := account.subredditName)
    else options
  }

  /** Images come before videos, each list in its own order. */
  lemma OptionsMediaOrder(account: SocialAccount, images: seq<string>, videos: seq<string>, k: nat)
    requires k < |images| + |videos|
    ensures var m := OptionsFor(account, images, videos).media;
            m[k] == if k < |images| then images[k] else videos[k - |images|]
  {
  }

  /** The identifier `getUserProfile` asks the client for. */
  function ProfileIdentifier(account: SocialAccount): (id: string)
    ensures account.platform == Twitter ==> id == account.id
    ensures account.platform != Twitter ==> id == account.username
  {
    if account.platform == Twitter then account.id else account.username
  }

  const RefreshFailed: string := "Failed to refresh Reddit token and save to DB."

  /** `refreshRedditToken(account)`. `refreshed` is what the Reddit client's
      `refreshToken()` gives (None when it throws); `owner` is the user that
      `findOne({'socialAccounts._id': account._id})` loads, or null. The save is
      the schema validation of the accounts; a rejected save throws as well. */
  method RefreshRedditToken(account: SocialAccount, refreshed: Option<string>, owner: User?, now: int)
    returns (r: Result<(), string>)
    modifies owner
    ensures refreshed.None? ==> r == Err(RefreshFailed)
    ensures refreshed.None? && owner != null ==> owner.socialAccounts == old(owner.socialAccounts)
    ensures refreshed.Some? && owner == null ==> r == Ok(())
    ensures refreshed.Some? && owner != null ==>
              && owner.socialAccounts == RefreshById(old(owner.socialAccounts), account.subId, refreshed.value, now)
              && (r.Ok? <==> FindById(old(owner.socialAccounts), account.subId).None?
                             || ValidAccounts(owner.socialAccounts))
              && (r.Err? ==> r.error == RefreshFailed)
    ensures owner != null ==> owner.email == old(owner.email) && owner.name == old(owner.name)
  {
    if refreshed.None? {
      return Err(RefreshFailed);
    }
    if owner == null {
      return Ok(());
    }
    var index := FindById(owner.socialAccounts, account.subId);
    if index.None? {
      return Ok(());
    }
    var i := index.value;
    owner.socialAccounts := owner.socialAccounts[i := owner.socialAccounts[i].(accessToken := refreshed.value)];
    owner.socialAccounts := owner.socialAccounts[i := owner.socialAccounts[i].(tokenExpiry := Some(now + RefreshedTokenLifetime))];
    r := if ValidAccounts(owner.socialAccounts) then Ok(()) else Err(RefreshFailed);
  }

  /** A refresh changes no account's `isActive`, and no account other than the one
      with that id. */
  lemma {:induction false} RefreshKeepsActive(accounts: seq<SocialAccount>, subId: nat, token: string, now: int)
    ensures var r := RefreshById(accounts, subId, token, now);
            forall k :: 0 <= k < |accounts| ==>
              r[k].isActive == accounts[k].isActive && r[k].platform == accounts[k].platform
              && (accounts[k].subId != subId ==> r[k] == accounts[k])
  {
    var r := RefreshById(accounts, subId, token, now);
    forall k | 0 <= k < |accounts|
      ensures r[k].isActive == accounts[k].isActive && r[k].platform == accounts[k].platform
              && (accounts[k].subId != subId ==> r[k] == accounts[k])
    {
      if FindById(accounts, subId).Some? && k == FindById(accounts, subId).value {
        assert accounts[k].subId == subId;
      }
    }
  }

  /** Whether the save after a successful refresh goes through: it is skipped when
      no account has the id, and otherwise validates the refreshed accounts. */
  predicate RefreshSaved(account: SocialAccount, token: string, before: seq<SocialAccount>, now: int) {
    FindById(before, account.subId).None? || ValidAccounts(RefreshById(before, account.subId, token, now))
  }

  /** The client `publish` and `getUserProfile` work with, after the refresh when
      one is due. The client is built from the `account` value the caller passed,
      which the refresh does not update: it keeps the old access token. */
  method PrepareClient(account: SocialAccount, refreshed: Option<string>, owner: User?, now: int)
    returns (r: Result<ApiClient, string>)
    modifies owner
    ensures !NeedsRefresh(account, now) ==>
              r == CreateApi(PlatformName(account.platform), account.accessToken, account.refreshToken)
              && (owner != null ==> owner.socialAccounts == old(owner.socialAccounts))
    ensures NeedsRefresh(account, now) && refreshed.None? ==> r == Err(RefreshFailed)
    ensures NeedsRefresh(account, now) && refreshed.Some? ==>
              && (owner != null ==>
                    owner.socialAccounts == RefreshById(old(owner.socialAccounts), account.subId, refreshed.value, now))
              && (if owner == null || RefreshSaved(account, refreshed.value, old(owner.socialAccounts), now)
                  then r == CreateApi(PlatformName(account.platform), account.accessToken, account.refreshToken)
                  else r == Err(RefreshFailed))
    ensures owner != null ==> owner.email == old(owner.email) && owner.name == old(owner.name)
  {
    if NeedsRefresh(account, now) {
      var refresh := RefreshRedditToken(account, refreshed, owner, now);
      if refresh.Err? {
        return Err(refresh.error);
      }
    }
    r := CreateApi(PlatformName(account.platform), account.accessToken, account.refreshToken);
  }

  /** The call `publish` makes: the client, the content and the options. */
  datatype PostCall = PostCall(client: ApiClient, content: string, options: PostOptions)

  method Publish(account: SocialAccount, content: string, images: seq<string>, videos: seq<string>,
                 refreshed: Option<string>, owner: User?, now: int)
    returns (r: Result<PostCall, string>)
    modifies owner
    ensures !NeedsRefresh(account, now) ==>
              && (owner != null ==> owner.socialAccounts == old(owner.socialAccounts))
              && match CreateApi(PlatformName(account.platform), account.accessToken, account.refreshToken)
                 case Err(m) => r == Err(m)
                 case Ok(c) => r == Ok(PostCall(c, content, OptionsFor(account, images, videos)))
    ensures NeedsRefresh(account, now) && refreshed.None? ==> r == Err(RefreshFailed)
    ensures NeedsRefresh(account, now) && refreshed.Some? ==>
              && (owner != null ==>
                    owner.socialAccounts == RefreshById(old(owner.socialAccounts), account.subId, refreshed.value, now))
              && (if owner == null || RefreshSaved(account, refreshed.value, old(owner.socialAccounts), now)
                  then (match CreateApi(PlatformName(account.platform), account.accessToken, account.refreshToken)
                       case Err(m) => r == Err(m)
                       case Ok(c) => r == Ok(PostCall(c, content, OptionsFor(account, images, videos))))
                  else r == Err(RefreshFailed))
    ensures r.Ok? ==> r.value.options == OptionsFor(account, images, videos) && r.value.content == content
    ensures r.Ok? ==>
              CreateApi(PlatformName(account.platform), account.accessToken, account.refreshToken) == Ok(r.value.client)
  {
    var client := PrepareClient(account, refreshed, owner, now);
    if client.Err? {
      return Err(client.error);
    }
    r := Ok(PostCall(client.value, content, OptionsFor(account, images, videos)));
  }

  /** The call `getUserProfile` makes: the client and the identifier. */
  method GetUserProfile(account: SocialAccount, refreshed: Option<string>, owner: User?, now: int)
    returns (r: Result<(ApiClient, string), string>)
    modifies owner
    ensures !NeedsRefresh(account, now) ==>
              && (owner != null ==> owner.socialAccounts == old(owner.socialAccounts))
              && match CreateApi(PlatformName(account.platform), account.accessToken, account.refreshToken)
                 case Err(m) => r == Err(m)
                 case Ok(c) => r == Ok((c, ProfileIdentifier(account)))
    ensures NeedsRefresh(account, now) && refreshed.None? ==> r == Err(RefreshFailed)
    ensures NeedsRefresh(account, now) && refreshed.Some? ==>
              && (owner != null ==>
                    owner.socialAccounts == RefreshById(old(owner.socialAccounts), account.subId, refreshed.value, now))
              && (if owner == null || RefreshSaved(account, refreshed.value, old(owner.socialAccounts), now)
                  then (match CreateApi(PlatformName(account.platform), account.accessToken, account.refreshToken)
                       case Err(m) => r == Err(m)
                       case Ok(c) => r == Ok((c, ProfileIdentifier(account))))
                  else r == Err(RefreshFailed))
    ensures r.Ok? ==> r.value.1 == ProfileIdentifier(account)
  {
    var client := PrepareClient(account, refreshed, owner, now);
    if client.Err? {
      return Err(client.error);
    }
    r := Ok((client.value, ProfileIdentifier(account)));
  }
}
