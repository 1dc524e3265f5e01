/** The platform tag shared by posts and social accounts. */
module Platforms {
  import opened Base

  /** The schema enum `['twitter', 'telegram', 'reddit']`. */
  datatype Platform = Twitter | Telegram | Reddit

  function PlatformName(p: Platform): string {
    match p
    case Twitter => "twitter"
    case Telegram => "telegram"
    case Reddit => "reddit"
  }

  /** Enum validation: which strings the schemas accept as a platform. */
  function ParsePlatform(s: string): (r: Option<Platform>)
    ensures r.Some? ==> PlatformName(r.value) == s
  {
    if s == "twitter" then Some(Twitter)
    else if s == "telegram" then Some(Telegram)
    else if s == "reddit" then Some(Reddit)
    else None
  }

  /** Exactly the three names pass enum validation, and each names one platform. */
  lemma ParsePlatformExact(s: string, p: Platform)
    ensures ParsePlatform(s) == Some(p) <==> s == PlatformName(p)
  {
  }

  lemma PlatformNameInjective(p: Platform, q: Platform)
    ensures PlatformName(p) == PlatformName(q) ==> p == q
  {
  }
}

/** The Post document: `AdaptedContentSchema` and `PostSchema`. */
module PostModel {
  import opened Base
  import opened Platforms

  datatype PublishStatus = Pending | Published | Failed

  datatype PostStatus = Draft | Scheduled | PostPublished | PostFailed

  /** One adapted variant. `platform` holds the string the client sent; the enum is
      checked by `ValidEntry` when the document is saved. Times are milliseconds. */
  datatype AdaptedEntry = AdaptedEntry(
    platform: string,
    content: string,
    hashtags: seq<string>,
    isApproved: bool,
    publishedAt: Option<int>,
    publishStatus: PublishStatus,
    errorMessage: Option<string>,
    link: Option<string>,
    image: Option<string>,
    video: Option<string>,
    formattedContent: Option<string>)

  const MaxOriginalLength: nat := 2000

  /** A new entry as the schema builds it from the given fields: the omitted
      `isApproved` and `publishStatus` take their defaults. */
  function NewEntry(platform: string, content: string, hashtags: seq<string>,
                    link: Option<string>, image: Option<string>, video: Option<string>,
                    formattedContent: Option<string>): (e: AdaptedEntry)
    ensures !e.isApproved && e.publishStatus == Pending
    ensures e.publishedAt.None? && e.errorMessage.None?
    ensures e.platform == platform && e.content == content && e.hashtags == hashtags
    ensures e.link == link && e.image == image && e.video == video
    ensures e.formattedContent == formattedContent
  {
    AdaptedEntry(platform, content, hashtags, false, None, Pending, None,
                 link, image, video, formattedContent)
  }

  /** Schema validation of one entry: platform in the enum, `content` required
      (a required string rejects ""). */
  predicate ValidEntry(e: AdaptedEntry) {
    ParsePlatform(e.platform).Some? && e.content != ""
  }

  /** Schema validation of a post document's fields. */
  predicate ValidFields(originalContent: string, targetPlatforms: seq<string>,
                        adaptedContent: seq<AdaptedEntry>) {
    && originalContent != ""
    && |originalContent| <= MaxOriginalLength
    && (forall i :: 0 <= i < |targetPlatforms| ==> ParsePlatform(targetPlatforms[i]).Some?)
    && (forall i :: 0 <= i < |adaptedContent| ==> ValidEntry(adaptedContent[i]))
  }

  class Post {
    var userId: string
    var originalContent: string
    var images: seq<string>
    var videos: seq<string>
    var targetPlatforms: seq<string>
    var adaptedContent: seq<AdaptedEntry>
    var status: PostStatus
    var scheduledAt: Option<int>
    var publishedAt: Option<int>

    /** `new Post({...})` with `adaptedContent: []`; `status` takes its default. */
    constructor (userId: string, originalContent: string, images: seq<string>,
                 videos: seq<string>, targetPlatforms: seq<string>)
      ensures this.userId == userId && this.originalContent == originalContent
      ensures this.images == images && this.videos == videos
      ensures this.targetPlatforms == targetPlatforms
      ensures adaptedContent == [] && status == Draft
      ensures scheduledAt.None? && publishedAt.None?
    {
      this.userId := userId;
      this.originalContent := originalContent;
      this.images := images;
      this.videos := videos;
      this.targetPlatforms := targetPlatforms;
      adaptedContent := [];
      status := Draft;
      scheduledAt := None;
      publishedAt := None;
    }

    /** What `save()` validates. */
    predicate Valid()
      reads this
    {
      ValidFields(originalContent, targetPlatforms, adaptedContent)
    }
  }
}

/** The User document: `SocialAccountSchema` and `UserSchema`. */
module UserModel {
  import opened Base
  import opened Platforms

  /** One embedded social account; `subId` is the subdocument `_id`. */
  datatype SocialAccount = SocialAccount(
    subId: nat,
    platform: Platform,
    id: string,
    username: string,
    accessToken: string,
    refreshToken: Option<string>,
    tokenExpiry: Option<int>,
    isActive: bool,
    connectedAt: int,
    followersCount: int,
    memberCount: int,
    subscribers: int,
    subredditName: Option<string>)

  /** A plain account object cast into a subdocument: a fresh `_id`, and the
      schema defaults for everything not given (`isActive` true, `connectedAt`
      now, the three audience counters 0, no `subredditName`). */
  function NewAccount(subId: nat, platform: Platform, id: string, username: string,
                      accessToken: string, refreshToken: Option<string>,
                      tokenExpiry: Option<int>, now: int): (a: SocialAccount)
    ensures a.subId == subId && a.platform == platform && a.id == id
    ensures a.username == username && a.accessToken == accessToken
    ensures a.refreshToken == refreshToken && a.tokenExpiry == tokenExpiry
    ensures a.isActive && a.connectedAt == now
    ensures a.followersCount == 0 && a.memberCount == 0 && a.subscribers == 0
    ensures a.subredditName.None?
  {
    SocialAccount(subId, platform, id, username, accessToken, refreshToken,
                  tokenExpiry, true, now, 0, 0, 0, None)
  }

  /** Schema validation of one account: `id`, `username` and `accessToken` are
      required (a required string rejects ""); the rest is optional. */
  predicate ValidAccount(a: SocialAccount) {
    a.id != "" && a.username != "" && a.accessToken != ""
  }

  /** The schema puts no uniqueness constraint on the embedded array. */
  predicate ValidAccounts(accounts: seq<SocialAccount>) {
    forall i :: 0 <= i < |accounts| ==> ValidAccount(accounts[i])
  }

  class User {
    var email: string
    var name: string
    var socialAccounts: seq<SocialAccount>

    constructor (email: string, name: string)
      ensures this.email == NormalizeEmail(email) && this.name == Trim(name)
      ensures socialAccounts == []
    {
      this.email := NormalizeEmail(email);
      this.name := Trim(name);
      socialAccounts := [];
    }
  }

  const MinPasswordLength: nat := 6

  /** The `lowercase` and `trim` setters of the email path. */
  function NormalizeEmail(email: string): (r: string)
    ensures forall k :: 0 <= k < |r| ==> !('A' <= r[k] <= 'Z')
  {
    LowerAllSpec(Trim(email));
    LowerAll(Trim(email))
  }

  /** Validation errors, one per failing path, and the unique-index violation. */
  datatype SaveError = ValidationFailed(paths: seq<string>) | DuplicateKey(field: string)

  function FailingPaths(email: string, password: string, name: string): (paths: seq<string>)
    ensures "email" in paths <==> NormalizeEmail(email) == ""
    ensures "password" in paths <==> |password| < MinPasswordLength
    ensures "name" in paths <==> Trim(name) == ""
  {
    (if NormalizeEmail(email) == "" then ["email"] else [])
    + (if |password| < MinPasswordLength then ["password"] else [])
    + (if Trim(name) == "" then ["name"] else [])
  }

  /** Saving a new user among the stored emails: schema validation first, then the
      unique index on the normalized email. The result is the stored email. */
  function SaveNewUser(storedEmails: set<string>, email: string, password: string,
                       name: string): (r: Result<string, SaveError>)
    ensures r.Ok? <==> FailingPaths(email, password, name) == []
                        && NormalizeEmail(email) !in storedEmails
    ensures r.Ok? ==> r.value == NormalizeEmail(email) && r.value !in storedEmails
    ensures r.Err? && r.error.DuplicateKey? ==> r.error.field == "email"
  {
    var paths := FailingPaths(email, password, name);
    if paths != [] then Err(ValidationFailed(paths))
    else if NormalizeEmail(email) in storedEmails then Err(DuplicateKey("email"))
    else Ok(NormalizeEmail(email))
  }

  /** Emails differing only in case or surrounding whitespace collide. */
  lemma {:induction false} EmailCaseCollides(storedEmails: set<string>, e1: string, e2: string,
                                             password: string, name: string)
    requires SaveNewUser(storedEmails, e1, password, name).Ok?
    requires NormalizeEmail(e2) == NormalizeEmail(e1)
    ensures SaveNewUser(storedEmails + {NormalizeEmail(e1)}, e2, password, name).Err?
  {
  }

  /** Two accounts of the same platform are a valid array: only the upserts keep
      one account per platform. */
  lemma DuplicatePlatformsAccepted(now: int)
    ensures var a := NewAccount(1, Twitter, "1", "a", "t", None, None, now);
            var b := NewAccount(2, Twitter, "2", "b", "u", None, None, now);
            ValidAccounts([a, b]) && [a, b][0].platform == [a, b][1].platform
  {
  }
}
