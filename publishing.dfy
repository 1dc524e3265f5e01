/** The publish pass over a post's adapted entries, shared by the publish route
    and the scheduled-post worker, and the status derived from the entries. */
module Publishing {
  import opened Base
  import opened Platforms
  import opened PostModel
  import opened UserModel

  const NotConnected: string := "Social account not connected"

  /** The outcome of the platform call made for one entry: its response data, or
      the message of the error it threw. */
  datatype SendOutcome = Sent(data: string) | SendFailed(message: string)

  /** `socialAccounts.find(acc => acc.platform === platform && acc.isActive)`. */
  function FindActive(accounts: seq<SocialAccount>, platform: string): (r: Option<nat>)
    ensures r.Some? ==> r.value < |accounts| && accounts[r.value].isActive
                        && PlatformName(accounts[r.value].platform) == platform
    ensures r.None? ==> forall k :: 0 <= k < |accounts| ==>
                          !(accounts[k].isActive && PlatformName(accounts[k].platform) == platform)
  {
    if accounts == [] then None
    else if accounts[0].isActive && PlatformName(accounts[0].platform) == platform then Some(0)
    else match FindActive(accounts[1..], platform)
      case None => None
      case Some(k) => Some(k + 1)
  }

  /** One iteration of the loop on one entry. `outcome` is what the platform call
      gives when it is made. */
  function StepEntry(e: AdaptedEntry, accounts: seq<SocialAccount>, outcome: SendOutcome, now: int): (r: AdaptedEntry)
    ensures !e.isApproved ==> r == e
    ensures e.isApproved ==> r.publishStatus == Published || r.publishStatus == Failed
    ensures e.isApproved && FindActive(accounts, e.platform).None? ==>
              r == e.(publishStatus := Failed, errorMessage := Some(NotConnected))
    ensures e.isApproved && FindActive(accounts, e.platform).Some? && outcome.Sent? ==>
              r == e.(publishStatus := Published, publishedAt := Some(now))
    ensures e.isApproved && FindActive(accounts, e.platform).Some? && outcome.SendFailed? ==>
              r == e.(publishStatus := Failed, errorMessage := Some(outcome.message))
    ensures r.platform == e.platform && r.content == e.content && r.isApproved == e.isApproved
  {
    if !e.isApproved then e
    else if FindActive(accounts, e.platform).None? then
      e.(publishStatus := Failed, errorMessage := Some(NotConnected))
    else match outcome
      case Sent(_) => e.(publishStatus := Published, publishedAt := Some(now))
      case SendFailed(m) => e.(publishStatus := Failed, errorMessage := Some(m))
  }

  /** The entries after a full pass; `send(k)` is the outcome of the call for entry k. */
  function PassEntries(entries: seq<AdaptedEntry>, accounts: seq<SocialAccount>,
                       send: nat -> SendOutcome, now: int): (r: seq<AdaptedEntry>)
    ensures |r| == |entries|
    ensures forall k :: 0 <= k < |entries| ==> r[k] == StepEntry(entries[k], accounts, send(k), now)
  {
    seq(|entries|, k requires 0 <= k < |entries| => StepEntry(entries[k], accounts, send(k), now))
  }

  /** One item of the route's `results` array. */
  datatype PublishResult = PublishResult(platform: string, success: bool, data: Option<string>, error: Option<string>)

  function ResultFor(e: AdaptedEntry, accounts: seq<SocialAccount>, outcome: SendOutcome): (r: PublishResult)
    ensures r.platform == e.platform
  {
    if FindActive(accounts, e.platform).None? then PublishResult(e.platform, false, None, Some(NotConnected))
    else match outcome
      case Sent(d) => PublishResult(e.platform, true, Some(d), None)
      case SendFailed(m) => PublishResult(e.platform, false, None, Some(m))
  }

  /** The results pushed while walking the first n entries. */
  function PassResults(entries: seq<AdaptedEntry>, accounts: seq<SocialAccount>,
                       send: nat -> SendOutcome, n: nat): (r: seq<PublishResult>)
    requires n <= |entries|
    ensures |r| <= n
  {
    if n == 0 then []
    else PassResults(entries, accounts, send, n - 1)
         + (if entries[n - 1].isApproved then [ResultFor(entries[n - 1], accounts, send(n - 1))] else [])
  }

  /** The positions of the approved entries among the first n, in order. */
  function Approved(entries: seq<AdaptedEntry>, n: nat): (r: seq<nat>)
    requires n <= |entries|
    ensures forall j :: 0 <= j < |r| ==> r[j] < n && entries[r[j]].isApproved
    ensures forall j, k :: 0 <= j < k < |r| ==> r[j] < r[k]
  {
    if n == 0 then []
    else Approved(entries, n - 1) + (if entries[n - 1].isApproved then [n - 1] else [])
  }

  /** Every approved entry is in `Approved`. */
  lemma {:induction false} ApprovedComplete(entries: seq<AdaptedEntry>, n: nat, k: nat)
    requires k < n <= |entries| && entries[k].isApproved
    ensures k in Approved(entries, n)
  {
    if k < n - 1 { ApprovedComplete(entries, n - 1, k); }
  }

  /** `results` has one item per approved entry, in array order, and an item
      reports success exactly when its entry ended `published`. */
  lemma {:induction false} ResultsMatchEntries(entries: seq<AdaptedEntry>, accounts: seq<SocialAccount>,
                                               send: nat -> SendOutcome, now: int, n: nat)
    requires n <= |entries|
    ensures var res := PassResults(entries, accounts, send, n);
            var idx := Approved(entries, n);
            var after := PassEntries(entries, accounts, send, now);
            && |res| == |idx|
            && forall j :: 0 <= j < |res| ==>
                 && res[j].platform == entries[idx[j]].platform
                 && (res[j].success <==> after[idx[j]].publishStatus == Published)
                 && (!res[j].success ==> res[j].error == after[idx[j]].errorMessage)
  {
    if n > 0 {
      ResultsMatchEntries(entries, accounts, send, now, n - 1);
    }
  }

  /** `every(ac => !ac.isApproved || ac.publishStatus === 'published')`. */
  predicate AllPublished(entries: seq<AdaptedEntry>) {
    forall k :: 0 <= k < |entries| ==> !entries[k].isApproved || entries[k].publishStatus == Published
  }

  /** `some(ac => ac.isApproved && ac.publishStatus === 'failed')`. */
  predicate AnyFailed(entries: seq<AdaptedEntry>) {
    exists k :: 0 <= k < |entries| && entries[k].isApproved && entries[k].publishStatus == Failed
  }

  /** The post's `status` and `publishedAt` after the pass: published when every
      approved entry is, failed when one failed, and otherwise as before. */
  function Aggregate(entries: seq<AdaptedEntry>, status: PostStatus, publishedAt: Option<int>, now: int)
    : (r: (PostStatus, Option<int>))
    ensures AllPublished(entries) && !AnyFailed(entries) ==> r == (PostPublished, Some(now))
    ensures r.0 == PostPublished && status != PostPublished ==> AllPublished(entries) && r.1 == Some(now)
    ensures AnyFailed(entries) ==> r == (PostFailed, publishedAt)
    ensures !AllPublished(entries) && !AnyFailed(entries) ==> r == (status, publishedAt)
  {
    if AllPublished(entries) && !AnyFailed(entries) then (PostPublished, Some(now))
    else if AnyFailed(entries) then (PostFailed, publishedAt)
    else (status, publishedAt)
  }

  /** After a full pass the status is `published` exactly when no approved entry
      failed (in particular when none is approved) and `failed` otherwise: the
      branch that keeps the old status cannot be taken. */
  lemma {:induction false} StatusAfterPass(entries: seq<AdaptedEntry>, accounts: seq<SocialAccount>,
                                           send: nat -> SendOutcome, now: int,
                                           status: PostStatus, publishedAt: Option<int>)
    ensures var after := PassEntries(entries, accounts, send, now);
            var r := Aggregate(after, status, publishedAt, now);
            && (r == (PostPublished, Some(now)) <==>
                  forall k :: 0 <= k < |entries| && entries[k].isApproved ==> after[k].publishStatus != Failed)
            && (r.0 != PostPublished ==> r == (PostFailed, publishedAt))
  {
    var after := PassEntries(entries, accounts, send, now);
    if !AnyFailed(after) {
      forall k | 0 <= k < |after| && after[k].isApproved
        ensures after[k].publishStatus == Published
      {
        assert entries[k].isApproved;
      }
    }
  }

  /** With no approved entry, a pass publishes the post. */
  lemma {:induction false} NoApprovedPublishes(entries: seq<AdaptedEntry>, accounts: seq<SocialAccount>,
                                               send: nat -> SendOutcome, now: int,
                                               status: PostStatus, publishedAt: Option<int>)
    requires forall k :: 0 <= k < |entries| ==> !entries[k].isApproved
    ensures Aggregate(PassEntries(entries, accounts, send, now), status, publishedAt, now) == (PostPublished, Some(now))
  {
    StatusAfterPass(entries, accounts, send, now, status, publishedAt);
  }

  /** An approved entry that is already `published` is sent again; a failed send
      marks it failed. */
  lemma ResendsPublished(e: AdaptedEntry, accounts: seq<SocialAccount>, m: string, now: int)
    requires e.isApproved && e.publishStatus == Published && FindActive(accounts, e.platform).Some?
    ensures StepEntry(e, accounts, SendFailed(m), now).publishStatus == Failed
  {
  }

  /** A successful send keeps the error message of an earlier failure. */
  lemma SuccessKeepsError(e: AdaptedEntry, accounts: seq<SocialAccount>, d: string, now: int)
    requires e.isApproved && FindActive(accounts, e.platform).Some?
    ensures StepEntry(e, accounts, Sent(d), now).errorMessage == e.errorMessage
  {
  }

  /** A pass changes no schema-checked field, so a valid post stays valid. */
  lemma {:induction false} PassKeepsValid(originalContent: string, targetPlatforms: seq<string>,
                                          entries: seq<AdaptedEntry>, accounts: seq<SocialAccount>,
                                          send: nat -> SendOutcome, now: int)
    requires ValidFields(originalContent, targetPlatforms, entries)
    ensures ValidFields(originalContent, targetPlatforms, PassEntries(entries, accounts, send, now))
  {
    var after := PassEntries(entries, accounts, send, now);
    forall k | 0 <= k < |after| ensures ValidEntry(after[k]) {
      assert ValidEntry(entries[k]);
    }
  }

  /** The body of the loop for one entry: the entry's new value, and the item it
      pushes into `results` when it is approved. */
  method PublishEntry(e: AdaptedEntry, accounts: seq<SocialAccount>, outcome: SendOutcome, now: int)
    returns (updated: AdaptedEntry, pushed: seq<PublishResult>)
    ensures updated == StepEntry(e, accounts, outcome, now)
    ensures pushed == if e.isApproved then [ResultFor(e, accounts, outcome)] else []
  {
    updated, pushed := e, [];
    if !e.isApproved {
      return;
    }
    var account := FindActive(accounts, e.platform);
    if account.None? {
      updated := e.(publishStatus := Failed, errorMessage := Some(NotConnected));
      pushed := [PublishResult(e.platform, false, None, Some(NotConnected))];
      return;
    }
    match outcome {
      case Sent(d) =>
        updated := e.(publishStatus := Published, publishedAt := Some(now));
        pushed := [PublishResult(e.platform, true, Some(d), None)];
      case SendFailed(m) =>
        updated := e.(publishStatus := Failed, errorMessage := Some(m));
        pushed := [PublishResult(e.platform, false, None, Some(m))];
    }
  }

  /** The loop of the publish route over `post.adaptedContent`, updating each
      entry in place and pushing into `results`, then the status update. */
  method PublishPass(post: Post, accounts: seq<SocialAccount>, send: nat -> SendOutcome, now: int)
    returns (results: seq<PublishResult>)
    modifies post
    ensures post.adaptedContent == PassEntries(old(post.adaptedContent), accounts, send, now)
    ensures results == PassResults(old(post.adaptedContent), accounts, send, |old(post.adaptedContent)|)
    ensures (post.status, post.publishedAt)
            == Aggregate(post.adaptedContent, old(post.status), old(post.publishedAt), now)
    ensures post.originalContent == old(post.originalContent) && post.targetPlatforms == old(post.targetPlatforms)
    ensures post.userId == old(post.userId) && post.images == old(post.images) && post.videos == old(post.videos)
    ensures post.scheduledAt == old(post.scheduledAt)
  {
    ghost var entries := post.adaptedContent;
    ghost var target := PassEntries(entries, accounts, send, now);
    results := [];
    var i := 0;
    while i < |post.adaptedContent|
      invariant 0 <= i <= |entries| && |post.adaptedContent| == |entries|
      invariant forall k :: 0 <= k < i ==> post.adaptedContent[k] == target[k]
      invariant forall k :: i <= k < |entries| ==> post.adaptedContent[k] == entries[k]
      invariant results == PassResults(entries, accounts, send, i)
      invariant post.status == old(post.status) && post.publishedAt == old(post.publishedAt)
      invariant post.originalContent == old(post.originalContent) && post.targetPlatforms == old(post.targetPlatforms)
      invariant post.userId == old(post.userId) && post.images == old(post.images) && post.videos == old(post.videos)
      invariant post.scheduledAt == old(post.scheduledAt)
    {
      var updated, pushed := PublishEntry(post.adaptedContent[i], accounts, send(i), now);
      post.adaptedContent := post.adaptedContent[i := updated];
      results := results + pushed;
      i := i + 1;
    }
    assert post.adaptedContent == target;
    UpdateStatus(post, now);
  }

  /** The `every`/`some` status update at the end of a pass. */
  method UpdateStatus(post: Post, now: int)
    modifies post
    ensures (post.status, post.publishedAt) == Aggregate(post.adaptedContent, old(post.status), old(post.publishedAt), now)
    ensures post.adaptedContent == old(post.adaptedContent)
    ensures post.originalContent == old(post.originalContent) && post.targetPlatforms == old(post.targetPlatforms)
    ensures post.userId == old(post.userId) && post.images == old(post.images) && post.videos == old(post.videos)
    ensures post.scheduledAt == old(post.scheduledAt)
  {
    var allPublished := AllPublished(post.adaptedContent);
    var anyFailed := AnyFailed(post.adaptedContent);
    if allPublished && !anyFailed {
      post.status := PostPublished;
      post.publishedAt := Some(now);
    } else if anyFailed {
      post.status := PostFailed;
    }
  }
}
