/** Operations on a user's embedded `socialAccounts` array: the upsert-by-platform
    of the OAuth callbacks, the disconnect filter, the toggle and the by-id token
    refresh. Each is a value function with its frame lemmas, and the in-place
    update of a loaded `User` document is a method proved against it. */
module Accounts {
  import opened Base
  import opened Platforms
  import opened UserModel

  /** `acc.platform === name`, for a name that comes from a request. */
  predicate OnPlatform(a: SocialAccount, name: string) {
    PlatformName(a.platform) == name
  }

  function FindPlatformFrom(accounts: seq<SocialAccount>, name: string, i: nat): (r: Option<nat>)
    requires i <= |accounts|
    decreases |accounts| - i
    ensures r.Some? ==> i <= r.value < |accounts| && OnPlatform(accounts[r.value], name)
    ensures r.Some? ==> forall k :: i <= k < r.value ==> !OnPlatform(accounts[k], name)
    ensures r.None? ==> forall k :: i <= k < |accounts| ==> !OnPlatform(accounts[k], name)
  {
    if i == |accounts| then None
    else if OnPlatform(accounts[i], name) then Some(i)
    else FindPlatformFrom(accounts, name, i + 1)
  }

  /** `findIndex(acc => acc.platform === name)`, None for -1. */
  function FindPlatform(accounts: seq<SocialAccount>, name: string): (r: Option<nat>)
    ensures r.Some? ==> r.value < |accounts| && OnPlatform(accounts[r.value], name)
    ensures r.Some? ==> forall k :: 0 <= k < r.value ==> !OnPlatform(accounts[k], name)
    ensures r.None? ==> forall k :: 0 <= k < |accounts| ==> !OnPlatform(accounts[k], name)
  {
    FindPlatformFrom(accounts, name, 0)
  }

  /** Replace the first account of `a`'s platform by `a`, or append `a`. */
  function Upsert(accounts: seq<SocialAccount>, a: SocialAccount): (r: seq<SocialAccount>)
    ensures var i := FindPlatform(accounts, PlatformName(a.platform));
            && (i.Some? ==> |r| == |accounts| && r[i.value] == a)
            && (i.None? ==> |r| == |accounts| + 1 && r[|accounts|] == a)
            && (forall k :: 0 <= k < |accounts| && i != Some(k) ==> r[k] == accounts[k])
  {
    match FindPlatform(accounts, PlatformName(a.platform))
    case Some(i) => accounts[i := a]
    case None => accounts + [a]
  }

  /** At most one account per platform. */
  predicate OnePerPlatform(accounts: seq<SocialAccount>) {
    forall i, j :: 0 <= i < j < |accounts| ==> accounts[i].platform != accounts[j].platform
  }

  /** Upserting keeps at most one account per platform. */
  lemma {:induction false} UpsertKeepsOnePerPlatform(accounts: seq<SocialAccount>, a: SocialAccount)
    requires OnePerPlatform(accounts)
    ensures OnePerPlatform(Upsert(accounts, a))
  {
    var r := Upsert(accounts, a);
    var found := FindPlatform(accounts, PlatformName(a.platform));
    forall i, j | 0 <= i < j < |r|
      ensures r[i].platform != r[j].platform
    {
      if found.None? {
        if j == |accounts| {
          assert !OnPlatform(accounts[i], PlatformName(a.platform));
        }
      } else if i == found.value {
        assert !OnPlatform(accounts[j], PlatformName(a.platform)) by {
          assert accounts[i].platform != accounts[j].platform;
        }
      } else if j == found.value {
        assert accounts[i].platform != accounts[j].platform;
      }
    }
  }

  /** After an upsert the account of that platform is found at the same place, so
      a second upsert of the same account changes nothing more. */
  lemma {:induction false} UpsertIdempotent(accounts: seq<SocialAccount>, a: SocialAccount)
    ensures Upsert(Upsert(accounts, a), a) == Upsert(accounts, a)
  {
    var r := Upsert(accounts, a);
    var name := PlatformName(a.platform);
    match FindPlatform(accounts, name)
    case Some(i) =>
      FirstOnPlatform(r, name, i);
    case None =>
      FirstOnPlatform(r, name, |accounts|);
  }

  /** The first account with that platform is the one `FindPlatform` returns. */
  lemma FirstOnPlatform(accounts: seq<SocialAccount>, name: string, i: nat)
    requires i < |accounts| && OnPlatform(accounts[i], name)
    requires forall k :: 0 <= k < i ==> !OnPlatform(accounts[k], name)
    ensures FindPlatform(accounts, name) == Some(i)
  {
  }

  /** `filter(acc => acc.platform !== name)`. */
  function Disconnect(accounts: seq<SocialAccount>, name: string): (r: seq<SocialAccount>)
    ensures |r| <= |accounts|
  {
    if accounts == [] then []
    else (if OnPlatform(accounts[0], name) then [] else [accounts[0]]) + Disconnect(accounts[1..], name)
  }

  /** What disconnect leaves holds no account of that platform, and only accounts
      that were there. */
  lemma {:induction false} DisconnectRemoves(accounts: seq<SocialAccount>, name: string)
    ensures forall k :: 0 <= k < |Disconnect(accounts, name)| ==>
              !OnPlatform(Disconnect(accounts, name)[k], name) && Disconnect(accounts, name)[k] in accounts
  {
    if accounts != [] {
      DisconnectRemoves(accounts[1..], name);
      var head := if OnPlatform(accounts[0], name) then [] else [accounts[0]];
      var rest := Disconnect(accounts[1..], name);
      var r := Disconnect(accounts, name);
      assert r == head + rest;
      forall k | 0 <= k < |r| ensures !OnPlatform(r[k], name) && r[k] in accounts {
        if k >= |head| {
          assert r[k] == rest[k - |head|];
          assert rest[k - |head|] in accounts[1..];
        }
      }
    }
  }

  /** Disconnect keeps every account of another platform. */
  lemma {:induction false} DisconnectKeepsOthers(accounts: seq<SocialAccount>, name: string, a: SocialAccount)
    requires a in accounts && !OnPlatform(a, name)
    ensures a in Disconnect(accounts, name)
  {
    if accounts[0] != a {
      DisconnectKeepsOthers(accounts[1..], name, a);
    }
  }

  /** Disconnect works element by element, so it keeps the others in their order. */
  lemma {:induction false} DisconnectConcat(x: seq<SocialAccount>, y: seq<SocialAccount>, name: string)
    ensures Disconnect(x + y, name) == Disconnect(x, name) + Disconnect(y, name)
  {
    if x == [] {
      assert x + y == y;
    } else {
      assert (x + y)[1..] == x[1..] + y;
      DisconnectConcat(x[1..], y, name);
    }
  }

  /** Without an account of that platform, disconnect changes nothing. */
  lemma {:induction false} DisconnectAbsent(accounts: seq<SocialAccount>, name: string)
    requires FindPlatform(accounts, name).None?
    ensures Disconnect(accounts, name) == accounts
  {
    if accounts != [] {
      assert FindPlatform(accounts[1..], name).None? by {
        forall k | 0 <= k < |accounts[1..]| ensures !OnPlatform(accounts[1..][k], name) {
          assert accounts[1..][k] == accounts[k + 1];
        }
      }
      DisconnectAbsent(accounts[1..], name);
    }
  }

  /** Flip `isActive` of the first account with that platform; None when there is none. */
  function Toggle(accounts: seq<SocialAccount>, name: string): (r: Option<seq<SocialAccount>>)
    ensures r.None? <==> FindPlatform(accounts, name).None?
    ensures r.Some? ==>
              var i := FindPlatform(accounts, name).value;
              && |r.value| == |accounts|
              && r.value[i] == accounts[i].(isActive := !accounts[i].isActive)
              && (forall k :: 0 <= k < |accounts| && k != i ==> r.value[k] == accounts[k])
  {
    match FindPlatform(accounts, name)
    case None => None
    case Some(i) => Some(accounts[i := accounts[i].(isActive := !accounts[i].isActive)])
  }

  /** Toggling twice restores the array. */
  lemma {:induction false} ToggleTwice(accounts: seq<SocialAccount>, name: string)
    requires Toggle(accounts, name).Some?
    ensures Toggle(Toggle(accounts, name).value, name) == Some(accounts)
  {
    var i := FindPlatform(accounts, name).value;
    var once := Toggle(accounts, name).value;
    FirstOnPlatform(once, name, i);
    assert once[i := once[i].(isActive := !once[i].isActive)] == accounts;
  }

  /** `findIndex(acc => acc._id equals subId)`. */
  function FindById(accounts: seq<SocialAccount>, subId: nat): (r: Option<nat>)
    ensures r.Some? ==> r.value < |accounts| && accounts[r.value].subId == subId
    ensures r.Some? ==> forall k :: 0 <= k < r.value ==> accounts[k].subId != subId
    ensures r.None? ==> forall k :: 0 <= k < |accounts| ==> accounts[k].subId != subId
  {
    if accounts == [] then None
    else if accounts[0].subId == subId then Some(0)
    else match FindById(accounts[1..], subId)
      case None => None
      case Some(k) => Some(k + 1)
  }

  /** The refresh's lifetime for a new Reddit access token: one hour. */
  const RefreshedTokenLifetime: int := 3600 * 1000

  /** Set the access token and a one-hour expiry on the account with that id. */
  function RefreshById(accounts: seq<SocialAccount>, subId: nat, token: string, now: int): (r: seq<SocialAccount>)
    ensures |r| == |accounts|
    ensures FindById(accounts, subId).None? ==> r == accounts
    ensures FindById(accounts, subId).Some? ==>
              var i := FindById(accounts, subId).value;
              && r[i].accessToken == token && r[i].tokenExpiry == Some(now + RefreshedTokenLifetime)
              && r[i] == accounts[i].(accessToken := token, tokenExpiry := Some(now + RefreshedTokenLifetime))
              && (forall k :: 0 <= k < |accounts| && k != i ==> r[k] == accounts[k])
  {
    match FindById(accounts, subId)
    case None => accounts
    case Some(i) => accounts[i := accounts[i].(accessToken := token, tokenExpiry := Some(now + RefreshedTokenLifetime))]
  }

  /** `findIndex` and then an element assignment or a `push`, on a loaded user. */
  method UpsertInPlace(user: User, a: SocialAccount)
    modifies user
    ensures user.socialAccounts == Upsert(old(user.socialAccounts), a)
    ensures user.email == old(user.email) && user.name == old(user.name)
  {
    var existing := FindPlatform(user.socialAccounts, PlatformName(a.platform));
    if existing.Some? {
      user.socialAccounts := user.socialAccounts[existing.value := a];
    } else {
      user.socialAccounts := user.socialAccounts + [a];
    }
  }
}
