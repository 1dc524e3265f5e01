/** The post routes: create (one adapted entry per requested platform), approve,
    and publish. The `Post` object is the document the route loaded or built;
    `save()` is its schema validation, which decides the response. */
module PostRoutes {
  import opened Base
  import opened Platforms
  import opened PostModel
  import opened UserModel
  import opened Adaptation
  import opened Publishing

  // ---------------------------------------------------------------------------
  // create
  // ---------------------------------------------------------------------------

  /** The request validators: `content` trimmed to 1..2000 characters, `platforms`
      an array with at least one element. Failing fields, in validator order. */
  function CreateErrors(content: string, platforms: seq<string>): (fields: seq<string>)
    ensures "content" in fields <==> !(1 <= |Trim(content)| <= MaxOriginalLength)
    ensures "platforms" in fields <==> platforms == []
    ensures forall k :: 0 <= k < |fields| ==> fields[k] == "content" || fields[k] == "platforms"
  {
    (if 1 <= |Trim(content)| <= MaxOriginalLength then [] else ["content"])
    + (if platforms != [] then [] else ["platforms"])
  }

  /** The entry pushed for one platform: the adapter's fields, or, when the adapter
      throws, the raw content with no hashtags. */
  function EntryFor(platform: string, content: string, videos: seq<string>, adaptThrows: bool): (e: AdaptedEntry)
    ensures e.platform == platform && !e.isApproved && e.publishStatus == Pending
    ensures adaptThrows ==> e.content == content && e.hashtags == []
    ensures !adaptThrows ==> e.link == Extracted(content).link && e.image == Extracted(content).image
  {
    if adaptThrows then NewEntry(platform, content, [], None, None, None, None)
    else
      var a := AdaptContent(platform, content, videos);
      NewEntry(platform, a.content, a.hashtags, a.link, a.image, a.video, a.formattedContent)
  }

  /** Each entry keeps the requested platform string, starts unapproved and
      pending, and carries either the adapter's fields or the raw content. */
  lemma EntryForSpec(platform: string, content: string, videos: seq<string>, adaptThrows: bool)
    ensures var e := EntryFor(platform, content, videos, adaptThrows);
            && e.platform == platform && !e.isApproved && e.publishStatus == Pending
            && e.publishedAt.None? && e.errorMessage.None?
            && (adaptThrows ==> e.content == content && e.hashtags == [] && e.link.None? && e.image.None?
                                && e.video.None? && e.formattedContent.None?)
            && (!adaptThrows ==>
                  var a := AdaptContent(platform, content, videos);
                  e.content == a.content && e.hashtags == a.hashtags && e.link == a.link
                  && e.image == a.image && e.video == a.video && e.formattedContent == a.formattedContent)
  {
  }

  /** The entries of a new post: one per element of `platforms`, in order and
      without de-duplication. `adaptThrows` holds the positions where the adapter
      throws. */
  function BuildEntries(content: string, platforms: seq<string>, videos: seq<string>,
                        adaptThrows: set<nat>): (r: seq<AdaptedEntry>)
    ensures |r| == |platforms|
    ensures forall k :: 0 <= k < |r| ==> r[k] == EntryFor(platforms[k], content, videos, k in adaptThrows)
  {
    seq(|platforms|, k requires 0 <= k < |platforms| => EntryFor(platforms[k], content, videos, k in adaptThrows))
  }

  /** One entry per requested platform, in the order requested, each unapproved
      and pending. */
  lemma BuildEntriesPending(content: string, platforms: seq<string>, videos: seq<string>, adaptThrows: set<nat>)
    ensures var r := BuildEntries(content, platforms, videos, adaptThrows);
            forall k :: 0 <= k < |r| ==>
              r[k].platform == platforms[k] && !r[k].isApproved && r[k].publishStatus == Pending
  {
    var r := BuildEntries(content, platforms, videos, adaptThrows);
    forall k | 0 <= k < |r|
      ensures r[k].platform == platforms[k] && !r[k].isApproved && r[k].publishStatus == Pending
    {
      EntryForSpec(platforms[k], content, videos, k in adaptThrows);
    }
  }

  /** The `try`/`catch` around one adaptation inside the create loop. */
  method AdaptForPlatform(platform: string, content: string, videos: seq<string>, adaptThrows: bool)
    returns (entry: AdaptedEntry)
    ensures entry == EntryFor(platform, content, videos, adaptThrows)
  {
    if adaptThrows {
      entry := NewEntry(platform, content, [], None, None, None, None);
    } else {
      var adaptation := AdaptContent(platform, content, videos);
      entry := NewEntry(platform, adaptation.content, adaptation.hashtags, adaptation.link,
                        adaptation.image, adaptation.video, adaptation.formattedContent);
    }
  }

  /** The create loop: one push into `post.adaptedContent` per platform. */
  method AdaptAll(post: Post, text: string, platforms: seq<string>, videos: seq<string>, adaptThrows: set<nat>)
    modifies post
    requires post.adaptedContent == []
    ensures post.adaptedContent == BuildEntries(text, platforms, videos, adaptThrows)
    ensures post.userId == old(post.userId) && post.originalContent == old(post.originalContent)
    ensures post.images == old(post.images) && post.videos == old(post.videos)
    ensures post.targetPlatforms == old(post.targetPlatforms) && post.status == old(post.status)
    ensures post.scheduledAt == old(post.scheduledAt) && post.publishedAt == old(post.publishedAt)
  {
    ghost var target := BuildEntries(text, platforms, videos, adaptThrows);
    for i := 0 to |platforms|
      invariant post.adaptedContent == target[..i]
      invariant post.userId == old(post.userId) && post.originalContent == old(post.originalContent)
      invariant post.images == old(post.images) && post.videos == old(post.videos)
      invariant post.targetPlatforms == old(post.targetPlatforms) && post.status == old(post.status)
      invariant post.scheduledAt == old(post.scheduledAt) && post.publishedAt == old(post.publishedAt)
    {
      var entry := AdaptForPlatform(platforms[i], text, videos, i in adaptThrows);
      TakeSnoc(target, i);
      post.adaptedContent := post.adaptedContent + [entry];
    }
    assert target[..|platforms|] == target;
  }

  datatype CreateOutcome =
    | CreateInvalid(fields: seq<string>)    // 400 with the validator errors
    | Created(post: Post)                   // 201
    | CreateServerError                     // 500: `save()` rejected the document

  method CreatePost(userId: string, content: string, platforms: seq<string>,
                    images: seq<string>, videos: seq<string>, adaptThrows: set<nat>)
    returns (r: CreateOutcome)
    ensures r.CreateInvalid? <==> CreateErrors(content, platforms) != []
    ensures r.CreateInvalid? ==> r.fields == CreateErrors(content, platforms)
    ensures r.Created? ==>
              && fresh(r.post)
              && r.post.userId == userId && r.post.originalContent == Trim(content)
              && r.post.images == images && r.post.videos == videos && r.post.targetPlatforms == platforms
              && r.post.adaptedContent == BuildEntries(Trim(content), platforms, videos, adaptThrows)
              && r.post.status == Draft && r.post.Valid()
    ensures r.CreateServerError? <==>
              CreateErrors(content, platforms) == []
              && !ValidFields(Trim(content), platforms, BuildEntries(Trim(content), platforms, videos, adaptThrows))
  {
    var errors := CreateErrors(content, platforms);
    if errors != [] {
      return CreateInvalid(errors);
    }
    // the `trim()` sanitizer rewrites the body field the handler then reads
    var text := Trim(content);
    var post := new Post(userId, text, images, videos, platforms);
    AdaptAll(post, text, platforms, videos, adaptThrows);
    if post.Valid() {
      r := Created(post);
    } else {
      r := CreateServerError;
    }
  }

  /** Creation needs every requested platform in the enum: a request naming any
      other platform passes the validators and fails at `save()`. */
  lemma CreateRejectsUnknownPlatform(content: string, platforms: seq<string>, videos: seq<string>,
                                     adaptThrows: set<nat>, k: nat)
    requires k < |platforms| && ParsePlatform(platforms[k]).None?
    ensures !ValidFields(Trim(content), platforms, BuildEntries(Trim(content), platforms, videos, adaptThrows))
  {
  }

  // ---------------------------------------------------------------------------
  // approve
  // ---------------------------------------------------------------------------

  /** The validators of the approve route: `platform` in the enum, and `content`,
      when given, non-empty once trimmed. */
  function ApproveErrors(platform: string, content: Option<string>): (fields: seq<string>)
    ensures "platform" in fields <==> ParsePlatform(platform).None?
    ensures "content" in fields <==> content.Some? && Trim(content.value) == ""
  {
    (if ParsePlatform(platform).Some? then [] else ["platform"])
    + (if content.Some? && Trim(content.value) == "" then ["content"] else [])
  }

  function FindEntry(entries: seq<AdaptedEntry>, platform: string): (r: Option<nat>)
    ensures r.Some? ==> r.value < |entries| && entries[r.value].platform == platform
    ensures r.Some? ==> forall k :: 0 <= k < r.value ==> entries[k].platform != platform
    ensures r.None? ==> forall k :: 0 <= k < |entries| ==> entries[k].platform != platform
  {
    if entries == [] then None
    else if entries[0].platform == platform then Some(0)
    else match FindEntry(entries[1..], platform)
      case None => None
      case Some(k) => Some(k + 1)
  }

  /** The first entry of that platform approved, its content replaced by the
      (trimmed) content when one is given; None when no entry has the platform. */
  function ApproveEntries(entries: seq<AdaptedEntry>, platform: string, content: Option<string>)
    : (r: Option<seq<AdaptedEntry>>)
    ensures r.None? <==> FindEntry(entries, platform).None?
    ensures r.Some? ==>
              var i := FindEntry(entries, platform).value;
              && |r.value| == |entries|
              && r.value[i].isApproved
              && r.value[i].content == (if content.Some? && Trim(content.value) != "" then Trim(content.value)
                                        else entries[i].content)
              && r.value[i] == entries[i].(isApproved := true, content := r.value[i].content)
              && (forall k :: 0 <= k < |entries| && k != i ==> r.value[k] == entries[k])
  {
    match FindEntry(entries, platform)
    case None => None
    case Some(i) =>
      var c := if content.Some? && Trim(content.value) != "" then Trim(content.value) else entries[i].content;
      Some(entries[i := entries[i].(isApproved := true, content := c)])
  }

  /** Approving keeps a valid post valid. */
  lemma {:induction false} ApproveKeepsValid(originalContent: string, targetPlatforms: seq<string>,
                                             entries: seq<AdaptedEntry>, platform: string, content: Option<string>)
    requires ValidFields(originalContent, targetPlatforms, entries)
    requires ApproveEntries(entries, platform, content).Some?
    ensures ValidFields(originalContent, targetPlatforms, ApproveEntries(entries, platform, content).value)
  {
    var r := ApproveEntries(entries, platform, content).value;
    forall k | 0 <= k < |r| ensures ValidEntry(r[k]) {
      assert ValidEntry(entries[k]);
    }
  }

  datatype ApproveOutcome =
    | ApproveInvalid(fields: seq<string>)   // 400
    | PostNotFound                          // 404 'Post not found'
    | EntryNotFound                         // 404 'Adapted content not found'
    | ContentApproved                       // 200
    | ApproveServerError                    // 500

  /** `post` is the result of the lookup by id and owner (null when none). */
  method ApprovePost(post: Post?, platform: string, content: Option<string>) returns (r: ApproveOutcome)
    modifies post
    ensures r.ApproveInvalid? <==> ApproveErrors(platform, content) != []
    ensures ApproveErrors(platform, content) == [] && post == null ==> r == PostNotFound
    ensures post != null && r.EntryNotFound? ==>
              FindEntry(old(post.adaptedContent), platform).None? && post.adaptedContent == old(post.adaptedContent)
    ensures post != null && (r.ContentApproved? || r.ApproveServerError?) ==>
              && ApproveEntries(old(post.adaptedContent), platform, content).Some?
              && post.adaptedContent == ApproveEntries(old(post.adaptedContent), platform, content).value
    ensures post != null && r.ContentApproved? ==> post.Valid()
    ensures post != null && ApproveErrors(platform, content) == [] ==>
              && (r == EntryNotFound <==> FindEntry(old(post.adaptedContent), platform).None?)
              && (FindEntry(old(post.adaptedContent), platform).Some? ==>
                    && (r == ContentApproved <==> post.Valid())
                    && (r == ApproveServerError <==> !post.Valid()))
    ensures var ok := ApproveErrors(platform, content) == [];
            post != null && old(post.Valid()) && ok && FindEntry(old(post.adaptedContent), platform).Some?
            ==> r.ContentApproved?
    ensures post != null ==> post.originalContent == old(post.originalContent)
                             && post.targetPlatforms == old(post.targetPlatforms) && post.status == old(post.status)
  {
    var errors := ApproveErrors(platform, content);
    if errors != [] {
      return ApproveInvalid(errors);
    }
    if post == null {
      return PostNotFound;
    }
    var found := FindEntry(post.adaptedContent, platform);
    if found.None? {
      return EntryNotFound;
    }
    var i := found.value;
    ghost var before := post.adaptedContent;
    post.adaptedContent := post.adaptedContent[i := post.adaptedContent[i].(isApproved := true)];
    if content.Some? && Trim(content.value) != "" {
      post.adaptedContent := post.adaptedContent[i := post.adaptedContent[i].(content := Trim(content.value))];
    }
    assert post.adaptedContent == ApproveEntries(before, platform, content).value;
    if old(post.Valid()) {
      ApproveKeepsValid(post.originalContent, post.targetPlatforms, before, platform, content);
    }
    r := if post.Valid() then ContentApproved else ApproveServerError;
  }

  // ---------------------------------------------------------------------------
  // publish
  // ---------------------------------------------------------------------------

  datatype PublishOutcome =
    | PublishPostNotFound                   // 404 'Post not found'
    | PublishUserNotFound                   // 404 'User not found'
    | PublishingCompleted(results: seq<PublishResult>)
    | PublishServerError

  /** The publish route: lookups, the pass over the entries, the status update and
      the save. */
  method PublishPost(post: Post?, user: User?, send: nat -> SendOutcome, now: int) returns (r: PublishOutcome)
    modifies post
    ensures post == null ==> r == PublishPostNotFound
    ensures post != null && user == null ==>
              && r == PublishUserNotFound && post.adaptedContent == old(post.adaptedContent)
              && post.status == old(post.status) && post.publishedAt == old(post.publishedAt)
    ensures post != null && user != null ==>
              && post.adaptedContent == PassEntries(old(post.adaptedContent), user.socialAccounts, send, now)
              && (post.status, post.publishedAt)
                 == Aggregate(post.adaptedContent, old(post.status), old(post.publishedAt), now)
              && (r.PublishingCompleted? <==> post.Valid())
              && (!r.PublishingCompleted? ==> r == PublishServerError)
              && (old(post.Valid()) ==> r.PublishingCompleted?)
              && (r.PublishingCompleted? ==>
                    r.results == PassResults(old(post.adaptedContent), user.socialAccounts, send,
                                             |old(post.adaptedContent)|))
  {
    if post == null {
      return PublishPostNotFound;
    }
    if user == null {
      return PublishUserNotFound;
    }
    ghost var valid := post.Valid();
    ghost var entries := post.adaptedContent;
    var results := PublishPass(post, user.socialAccounts, send, now);
    if valid {
      PassKeepsValid(post.originalContent, post.targetPlatforms, entries, user.socialAccounts, send, now);
    }
    r := if post.Valid() then PublishingCompleted(results) else PublishServerError;
  }
}
