/** The account routes: the listing that projects each account to its public
    fields, and the toggle of one platform's `isActive`. */
module SocialRoutes {
  import opened Base
  import opened Platforms
  import opened UserModel
  import opened Accounts

  /** What the routes show of an account: no id and no token. */
  datatype AccountView = AccountView(platform: Platform, username: string, isActive: bool, connectedAt: int)

  function View(a: SocialAccount): (v: AccountView)
    ensures v.platform == a.platform && v.username == a.username
    ensures v.isActive == a.isActive && v.connectedAt == a.connectedAt
  {
    AccountView(a.platform, a.username, a.isActive, a.connectedAt)
  }

  /** `socialAccounts.map(acc => ({ platform, username, isActive, connectedAt }))`. */
  function Views(accounts: seq<SocialAccount>): (vs: seq<AccountView>)
    ensures |vs| == |accounts|
  {
    if accounts == [] then [] else [View(accounts[0])] + Views(accounts[1..])
  }

  /** The listing keeps the order: the k-th view shows the k-th account. */
  lemma {:induction false} ViewsSpec(accounts: seq<SocialAccount>, k: nat)
    requires k < |accounts|
    ensures Views(accounts)[k] == View(accounts[k])
  {
    if k > 0 {
      ViewsSpec(accounts[1..], k - 1);
    }
  }

  /** Same public fields, same listing: the tokens, ids and counters of the
      accounts never reach the response. */
  lemma {:induction false} ViewsHideSecrets(xs: seq<SocialAccount>, ys: seq<SocialAccount>)
    requires |xs| == |ys|
    requires forall k :: 0 <= k < |xs| ==> View(xs[k]) == View(ys[k])
    ensures Views(xs) == Views(ys)
  {
    if xs != [] {
      assert forall k :: 0 <= k < |xs[1..]| ==> xs[1..][k] == xs[k + 1] && ys[1..][k] == ys[k + 1];
      ViewsHideSecrets(xs[1..], ys[1..]);
    }
  }

  /** A toggle keeps a valid array valid, so its save is not refused. */
  lemma ToggleKeepsValid(accounts: seq<SocialAccount>, name: string)
    requires ValidAccounts(accounts) && Toggle(accounts, name).Some?
    ensures ValidAccounts(Toggle(accounts, name).value)
  {
    var i := FindPlatform(accounts, name).value;
    forall k | 0 <= k < |accounts| ensures ValidAccount(Toggle(accounts, name).value[k]) {
      if k != i {
        assert Toggle(accounts, name).value[k] == accounts[k];
      }
    }
  }

  /** A JSON error response. */
  datatype Failure = Failure(status: nat, message: string)

  const UserNotFound: Failure := Failure(404, "User not found")
  const AccountNotFound: Failure := Failure(404, "Social account not found")
  const ServerError: Failure := Failure(500, "Server error")

  /** `GET /accounts` for the user `findById` loaded (null when none). */
  function ListAccounts(found: User?): (r: Result<seq<AccountView>, Failure>)
    reads found
    ensures found == null <==> r == Err(UserNotFound)
    ensures found != null ==> r.Ok? && |r.value| == |found.socialAccounts|
  {
    if found == null then Err(UserNotFound) else Ok(Views(found.socialAccounts))
  }

  /** The toggle route's message. */
  function ToggleMessage(platform: string, isActive: bool): string {
    platform + " account " + (if isActive then "activated" else "deactivated")
  }

  /** `PATCH /accounts/:platform/toggle`: flip the first account of that
      platform, then save. */
  method ToggleAccount(platform: string, found: User?) returns (r: Result<(string, AccountView), Failure>)
    modifies found
    ensures found == null ==> r == Err(UserNotFound)
    ensures found != null && Toggle(old(found.socialAccounts), platform).None? ==>
              r == Err(AccountNotFound) && found.socialAccounts == old(found.socialAccounts)
    ensures found != null && Toggle(old(found.socialAccounts), platform).Some? ==>
              var i := FindPlatform(old(found.socialAccounts), platform).value;
              && found.socialAccounts == Toggle(old(found.socialAccounts), platform).value
              && found.socialAccounts[i].isActive == !old(found.socialAccounts[i].isActive)
              && (ValidAccounts(found.socialAccounts) ==>
                    r == Ok((ToggleMessage(platform, found.socialAccounts[i].isActive), View(found.socialAccounts[i]))))
              && (!ValidAccounts(found.socialAccounts) ==> r == Err(ServerError))
    ensures found != null ==> found.email == old(found.email) && found.name == old(found.name)
  {
    if found == null {
      return Err(UserNotFound);
    }
    var toggled := Toggle(found.socialAccounts, platform);
    if toggled.None? {
      return Err(AccountNotFound);
    }
    var i := FindPlatform(found.socialAccounts, platform).value;
    found.socialAccounts := toggled.value;
    var account := found.socialAccounts[i];
    if !ValidAccounts(found.socialAccounts) {
      return Err(ServerError);
    }
    r := Ok((ToggleMessage(platform, account.isActive), View(account)));
  }
}
