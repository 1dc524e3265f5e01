/** The Twitter client: media uploads (simple for images, INIT/APPEND/FINALIZE in
    5 MiB chunks for videos, each item best-effort), the tweet body, the engagement
    sum over recent tweets, and the OAuth callback's upsert. Every HTTP request is
    answered by an oracle. */
module TwitterApiClient {
  import opened Base
  import opened Platforms
  import opened UserModel
  import opened Accounts

  // ---------------------------------------------------------------------------
  // The video test
  // ---------------------------------------------------------------------------

  /** `s` ends in `suffix` (lower-case ASCII), ignoring ASCII case. */
  predicate EndsWithCI(s: string, suffix: string) {
    |suffix| <= |s| && MatchesAtCI(s, |s| - |suffix|, suffix)
  }

  /** `url.match(/\.(mp4|mov|webm)$/i)`: the match is anchored at the end. */
  predicate IsVideoUrl(url: string) {
    EndsWithCI(url, ".mp4") || EndsWithCI(url, ".mov") || EndsWithCI(url, ".webm")
  }

  /** Ending in `suffix` ignoring case is the lower-cased string ending in it. */
  lemma EndsWithCILowered(s: string, suffix: string)
    ensures EndsWithCI(s, suffix) <==> OccursAt(LowerAll(s), suffix, |s| - |suffix|)
  {
    if |suffix| <= |s| {
      LowerAllSlice(s, |s| - |suffix|, |s|);
    }
  }

  /** The test is the lower-cased url ending in one of the three extensions. */
  lemma IsVideoUrlLowered(url: string)
    ensures var l := LowerAll(url);
            IsVideoUrl(url) <==> OccursAt(l, ".mp4", |url| - 4) || OccursAt(l, ".mov", |url| - 4)
                                 || OccursAt(l, ".webm", |url| - 5)
  {
    EndsWithCILowered(url, ".mp4");
    EndsWithCILowered(url, ".mov");
    EndsWithCILowered(url, ".webm");
  }

  lemma VideoUrlExamples()
    ensures IsVideoUrl("clip.MP4")
    ensures !IsVideoUrl("clip.mp4?dl=1")
    ensures !IsVideoUrl("photo.png")
  {
    assert LowerAll("clip.MP4"[4..8]) == ".mp4";
    assert "clip.mp4?dl=1"[8..13] != ".webm" by { assert "clip.mp4?dl=1"[8] != '.'; }
    assert LowerAll("clip.mp4?dl=1"[8..13]) != ".webm" by {
      LowerAllSpec("clip.mp4?dl=1"[8..13]);
      assert LowerAscii("clip.mp4?dl=1"[8]) != '.';
    }
    assert LowerAll("clip.mp4?dl=1"[9..13]) != ".mp4" by {
      LowerAllSpec("clip.mp4?dl=1"[9..13]);
      assert LowerAscii("clip.mp4?dl=1"[9]) != '.';
    }
    assert LowerAll("clip.mp4?dl=1"[9..13]) != ".mov" by {
      LowerAllSpec("clip.mp4?dl=1"[9..13]);
      assert LowerAscii("clip.mp4?dl=1"[9]) != '.';
    }
    assert LowerAll("photo.png"[5..9]) != ".mp4" by {
      LowerAllSpec("photo.png"[5..9]);
      assert LowerAscii("photo.png"[6]) != 'm';
    }
    assert LowerAll("photo.png"[5..9]) != ".mov" by {
      LowerAllSpec("photo.png"[5..9]);
      assert LowerAscii("photo.png"[6]) != 'm';
    }
    assert LowerAll("photo.png"[4..9]) != ".webm" by {
      LowerAllSpec("photo.png"[4..9]);
      assert LowerAscii("photo.png"[4]) != '.';
    }
  }

  // ---------------------------------------------------------------------------
  // The chunk plan of a video upload
  // ---------------------------------------------------------------------------

  const ChunkSize: nat := 5 * 1024 * 1024

  /** `buffer.slice(offset, offset + ChunkSize)`, which stops at the end. */
  function ChunkAt(buffer: seq<Byte>, offset: nat): (c: seq<Byte>)
    requires offset < |buffer|
    ensures 0 < |c| <= ChunkSize
  {
    if offset + ChunkSize <= |buffer| then buffer[offset..offset + ChunkSize] else buffer[offset..]
  }

  /** The chunks from segment `seg` on: offsets seg·C, (seg+1)·C, ... below the length. */
  function Chunks(buffer: seq<Byte>, seg: nat): (cs: seq<seq<Byte>>)
    decreases |buffer| - seg * ChunkSize
  {
    if seg * ChunkSize >= |buffer| then []
    else [ChunkAt(buffer, seg * ChunkSize)] + Chunks(buffer, seg + 1)
  }

  function Flatten(cs: seq<seq<Byte>>): seq<Byte> {
    if cs == [] then [] else cs[0] + Flatten(cs[1..])
  }

  /** The chunks put back together give the rest of the buffer. */
  lemma {:induction false} ChunksConcat(buffer: seq<Byte>, seg: nat)
    requires seg * ChunkSize <= |buffer|
    decreases |buffer| - seg * ChunkSize
    ensures Flatten(Chunks(buffer, seg)) == buffer[seg * ChunkSize..]
  {
    var o := seg * ChunkSize;
    if o < |buffer| {
      if o + ChunkSize <= |buffer| {
        assert (seg + 1) * ChunkSize == o + ChunkSize;
        ChunksConcat(buffer, seg + 1);
        assert Chunks(buffer, seg)[1..] == Chunks(buffer, seg + 1);
        assert buffer[o..] == buffer[o..o + ChunkSize] + buffer[o + ChunkSize..];
      } else {
        assert (seg + 1) * ChunkSize >= |buffer|;
        assert Chunks(buffer, seg + 1) == [];
        assert Chunks(buffer, seg)[1..] == [];
        assert buffer[o..] + [] == buffer[o..];
      }
    }
  }

  /** The chunks of a whole buffer concatenate to it. */
  lemma ChunksConcatAll(buffer: seq<Byte>)
    ensures Flatten(Chunks(buffer, 0)) == buffer
  {
    ChunksConcat(buffer, 0);
  }

  /** There are ceil(total / C) chunks from segment 0. */
  lemma {:induction false} ChunksCount(buffer: seq<Byte>, seg: nat)
    requires seg * ChunkSize <= |buffer|
    decreases |buffer| - seg * ChunkSize
    ensures |Chunks(buffer, seg)| == (|buffer| - seg * ChunkSize + ChunkSize - 1) / ChunkSize
  {
    var o := seg * ChunkSize;
    if o < |buffer| {
      assert (seg + 1) * ChunkSize == o + ChunkSize;
      if o + ChunkSize <= |buffer| {
        ChunksCount(buffer, seg + 1);
        assert (|buffer| - o + ChunkSize - 1) / ChunkSize
               == (|buffer| - (o + ChunkSize) + ChunkSize - 1) / ChunkSize + 1;
      } else {
        assert Chunks(buffer, seg + 1) == [];
      }
    }
  }

  // ---------------------------------------------------------------------------
  // The upload requests
  // ---------------------------------------------------------------------------

  /** One request to the upload endpoint. */
  datatype UploadCall =
    | ImageUpload(media: seq<Byte>)
    | Init(totalBytes: nat, mediaType: string, mediaCategory: string)
    | Append(mediaId: string, segmentIndex: nat, chunk: seq<Byte>)
    | Finalize(mediaId: string)

  /** The answer to an upload request: None when it throws, else the
      `media_id_string` of the response ("" where the response has none). */
  type Responder = UploadCall -> Option<string>

  function InitCall(buffer: seq<Byte>): UploadCall {
    Init(|buffer|, "video/mp4", "tweet_video")
  }

  /** The APPEND requests from segment `seg` on, until one throws. `ok` says
      whether they all went through. */
  function AppendRun(buffer: seq<Byte>, mediaId: string, seg: nat, respond: Responder)
    : (r: (seq<UploadCall>, bool))
    decreases |buffer| - seg * ChunkSize
  {
    if seg * ChunkSize >= |buffer| then ([], true)
    else
      var call := Append(mediaId, seg, ChunkAt(buffer, seg * ChunkSize));
      if respond(call).None? then ([call], false)
      else
        var rest := AppendRun(buffer, mediaId, seg + 1, respond);
        ([call] + rest.0, rest.1)
  }

  /** The requests of a video upload in full: INIT, one APPEND per chunk with
      consecutive segment indices, FINALIZE. */
  function VideoPlan(buffer: seq<Byte>, mediaId: string): seq<UploadCall> {
    var cs := Chunks(buffer, 0);
    [InitCall(buffer)]
    + seq(|cs|, k requires 0 <= k < |cs| => Append(mediaId, k, cs[k]))
    + [Finalize(mediaId)]
  }

  /** When no APPEND throws, they are the chunks in order, numbered from `seg`. */
  lemma {:induction false} AppendRunAllOk(buffer: seq<Byte>, mediaId: string, seg: nat, respond: Responder)
    requires AppendRun(buffer, mediaId, seg, respond).1
    decreases |buffer| - seg * ChunkSize
    ensures var calls := AppendRun(buffer, mediaId, seg, respond).0;
            var cs := Chunks(buffer, seg);
            && |calls| == |cs|
            && forall k :: 0 <= k < |cs| ==> calls[k] == Append(mediaId, seg + k, cs[k])
  {
    if seg * ChunkSize < |buffer| {
      AppendRunAllOk(buffer, mediaId, seg + 1, respond);
      var calls := AppendRun(buffer, mediaId, seg, respond).0;
      var cs := Chunks(buffer, seg);
      forall k | 0 <= k < |cs| ensures calls[k] == Append(mediaId, seg + k, cs[k]) {
        if k > 0 {
          assert calls[k] == AppendRun(buffer, mediaId, seg + 1, respond).0[k - 1];
          assert cs[k] == Chunks(buffer, seg + 1)[k - 1];
        }
      }
    }
  }

  /** The result of one video upload: the requests made and the id, which is
      recorded only once FINALIZE went through. */
  function VideoRun(buffer: seq<Byte>, respond: Responder): (r: (seq<UploadCall>, Option<string>))
  {
    match respond(InitCall(buffer))
    case None => ([InitCall(buffer)], None)
    case Some(m) =>
      var appends := AppendRun(buffer, m, 0, respond);
      if !appends.1 then ([InitCall(buffer)] + appends.0, None)
      else if respond(Finalize(m)).None? then ([InitCall(buffer)] + appends.0 + [Finalize(m)], None)
      else ([InitCall(buffer)] + appends.0 + [Finalize(m)], Some(m))
  }

  /** A video upload that succeeds made exactly the planned requests, in order,
      and yields the id INIT returned. */
  lemma VideoRunSucceeded(buffer: seq<Byte>, respond: Responder)
    requires VideoRun(buffer, respond).1.Some?
    ensures var m := VideoRun(buffer, respond).1.value;
            && respond(InitCall(buffer)) == Some(m)
            && VideoRun(buffer, respond).0 == VideoPlan(buffer, m)
  {
    var m := respond(InitCall(buffer)).value;
    AppendRunAllOk(buffer, m, 0, respond);
    var appends := AppendRun(buffer, m, 0, respond).0;
    var cs := Chunks(buffer, 0);
    assert appends == seq(|cs|, k requires 0 <= k < |cs| => Append(m, k, cs[k]));
  }

  /** The media id of one item, or None when any of its requests throws. */
  function ItemId(url: string, download: string -> Option<seq<Byte>>, respond: Responder): Option<string> {
    match download(url)
    case None => None
    case Some(bytes) =>
      if !IsVideoUrl(url) then respond(ImageUpload(bytes))
      else VideoRun(bytes, respond).1
  }

  /** The ids `uploadMedia` returns: those of the items that went through, in order. */
  function UploadedIds(urls: seq<string>, download: string -> Option<seq<Byte>>, respond: Responder)
    : seq<string>
  {
    if urls == [] then []
    else
      (match ItemId(urls[0], download, respond) case None => [] case Some(id) => [id])
      + UploadedIds(urls[1..], download, respond)
  }

  lemma {:induction false} UploadedIdsConcat(a: seq<string>, b: seq<string>,
                                             download: string -> Option<seq<Byte>>, respond: Responder)
    ensures UploadedIds(a + b, download, respond)
            == UploadedIds(a, download, respond) + UploadedIds(b, download, respond)
  {
    if a == [] {
      assert a + b == b;
    } else {
      assert (a + b)[1..] == a[1..] + b;
      UploadedIdsConcat(a[1..], b, download, respond);
    }
  }

  lemma {:induction false} FailedItemAlone(url: string, download: string -> Option<seq<Byte>>,
                                           respond: Responder)
    requires ItemId(url, download, respond).None?
    ensures UploadedIds([url], download, respond) == []
  {
    assert [url][1..] == [];
  }

  /** A failing item is skipped and nothing else changes. */
  lemma {:induction false} FailedItemSkipped(a: seq<string>, url: string, b: seq<string>,
                                             download: string -> Option<seq<Byte>>, respond: Responder)
    requires ItemId(url, download, respond).None?
    ensures UploadedIds(a + [url] + b, download, respond)
            == UploadedIds(a, download, respond) + UploadedIds(b, download, respond)
  {
    UploadedIdsConcat(a + [url], b, download, respond);
    UploadedIdsConcat(a, [url], download, respond);
    FailedItemAlone(url, download, respond);
    assert UploadedIds(a, download, respond) + [] == UploadedIds(a, download, respond);
  }

  /** The ids returned are at most one per item. */
  lemma {:induction false} UploadedIdsBound(urls: seq<string>, download: string -> Option<seq<Byte>>,
                                            respond: Responder)
    ensures |UploadedIds(urls, download, respond)| <= |urls|
  {
    if urls != [] {
      UploadedIdsBound(urls[1..], download, respond);
    }
  }

  // ---------------------------------------------------------------------------
  // The tweet
  // ---------------------------------------------------------------------------

  /** The JSON body of the tweet request; `media_ids` only when present. */
  datatype TweetBody = TweetBody(text: string, mediaIds: Option<seq<string>>)

  /** `media.media_ids` is attached only when at least one upload went through. */
  function TweetFor(text: string, ids: seq<string>): (b: TweetBody)
    ensures b.text == text
    ensures b.mediaIds.Some? <==> ids != []
    ensures b.mediaIds.Some? ==> b.mediaIds.value == ids
  {
    TweetBody(text, if ids != [] then Some(ids) else None)
  }

  /** The message of a failed publish: the first API error's message, else the
      client error's own. */
  function PublishFailure(e: HttpFailure): string {
    "Twitter publish failed: " + OrElse(e.body.firstErrorMessage, e.message)
  }

  /** One tweet of the timeline: the three counters, None when missing. */
  datatype TweetCounts = TweetCounts(favoriteCount: Option<int>, retweetCount: Option<int>, replyCount: Option<int>)

  /** What the timeline request gives: an array, or anything else. */
  datatype Timeline = NotAnArray | Tweets(tweets: seq<TweetCounts>)

  /** `x || 0` on a count. */
  function CountOrZero(x: Option<int>): int {
    if x.Some? then x.value else 0
  }

  datatype Engagement = Engagement(likes: int, retweets: int, replies: int)

  function SumEngagement(tweets: seq<TweetCounts>): Engagement {
    if tweets == [] then Engagement(0, 0, 0)
    else
      var rest := SumEngagement(tweets[..|tweets| - 1]);
      var t := tweets[|tweets| - 1];
      Engagement(rest.likes + CountOrZero(t.favoriteCount), rest.retweets + CountOrZero(t.retweetCount),
                 rest.replies + CountOrZero(t.replyCount))
  }

  /** The sums split over a concatenation of timelines. */
  lemma {:induction false} SumEngagementConcat(a: seq<TweetCounts>, b: seq<TweetCounts>)
    decreases |b|
    ensures var x := SumEngagement(a);
            var y := SumEngagement(b);
            SumEngagement(a + b) == Engagement(x.likes + y.likes, x.retweets + y.retweets, x.replies + y.replies)
  {
    if b == [] {
      assert a + b == a;
    } else {
      assert (a + b)[..|a + b| - 1] == a + b[..|b| - 1];
      SumEngagementConcat(a, b[..|b| - 1]);
    }
  }

  /** A tweet with none of the counters adds nothing. */
  lemma MissingCountersAddNothing(a: seq<TweetCounts>)
    ensures SumEngagement(a + [TweetCounts(None, None, None)]) == SumEngagement(a)
  {
    assert (a + [TweetCounts(None, None, None)])[..|a|] == a;
  }

  /** The client, holding the `token` it signs requests with. */
  class TwitterApi {
    var token: string
    var tokenSecret: string

    /** `new TwitterApi(accessToken, refreshToken)`: the second argument is the
        OAuth 1.0a token secret. */
    constructor (accessToken: string, refreshToken: string)
      ensures token == accessToken && tokenSecret == refreshToken
    {
      token := accessToken;
      tokenSecret := refreshToken;
    }

    /** One video upload: INIT, the APPEND loop over the chunks, FINALIZE. The
        result is the requests made and the id once FINALIZE went through. */
    method UploadVideo(buffer: seq<Byte>, respond: Responder) returns (calls: seq<UploadCall>, id: Option<string>)
      ensures (calls, id) == VideoRun(buffer, respond)
    {
      var init := InitCall(buffer);
      calls := [init];
      id := None;
      var initResp := respond(init);
      if initResp.None? {
        return;
      }
      var mediaId := initResp.value;
      ghost var whole := AppendRun(buffer, mediaId, 0, respond);
      var appended: seq<UploadCall> := [];
      assert appended + whole.0 == whole.0;
      var offset := 0;
      var segmentIndex := 0;
      while offset < |buffer|
        invariant offset == segmentIndex * ChunkSize
        invariant whole.0 == appended + AppendRun(buffer, mediaId, segmentIndex, respond).0
        invariant whole.1 == AppendRun(buffer, mediaId, segmentIndex, respond).1
        decreases |buffer| - offset
      {
        var call := Append(mediaId, segmentIndex, ChunkAt(buffer, offset));
        ghost var rest := AppendRun(buffer, mediaId, segmentIndex + 1, respond);
        assert respond(call).Some? ==>
                 AppendRun(buffer, mediaId, segmentIndex, respond) == ([call] + rest.0, rest.1);
        assert appended + ([call] + rest.0) == (appended + [call]) + rest.0;
        appended := appended + [call];
        if respond(call).None? {
          calls := calls + appended;
          return;
        }
        offset := offset + ChunkSize;
        segmentIndex := segmentIndex + 1;
      }
      assert appended + [] == appended;
      calls := calls + appended + [Finalize(mediaId)];
      if respond(Finalize(mediaId)).None? {
        return;
      }
      id := Some(mediaId);
    }

    /** `uploadMedia`: each item in its own `try`, the ids of those that went
        through pushed in order. */
    method UploadMedia(mediaUrls: seq<string>, download: string -> Option<seq<Byte>>, respond: Responder)
      returns (mediaIds: seq<string>)
      ensures mediaIds == UploadedIds(mediaUrls, download, respond)
    {
      mediaIds := [];
      for i := 0 to |mediaUrls|
        invariant mediaIds == UploadedIds(mediaUrls[..i], download, respond)
      {
        var url := mediaUrls[i];
        var id: Option<string> := None;
        var bytes := download(url);
        if bytes.Some? {
          if !IsVideoUrl(url) {
            id := respond(ImageUpload(bytes.value));
          } else {
            var _, videoId := UploadVideo(bytes.value, respond);
            id := videoId;
          }
        }
        assert id == ItemId(url, download, respond);
        UploadedIdsConcat(mediaUrls[..i], [url], download, respond);
        assert mediaUrls[..i + 1] == mediaUrls[..i] + [url];
        if id.Some? {
          mediaIds := mediaIds + [id.value];
        }
      }
      assert mediaUrls[..|mediaUrls|] == mediaUrls;
    }

    /** `post(text, { media })`: uploads when media is given, then the tweet
        request, answered by `send`. */
    method Post(text: string, media: seq<string>, download: string -> Option<seq<Byte>>, respond: Responder,
                send: TweetBody -> Result<string, HttpFailure>)
      returns (r: Result<string, string>)
      ensures var body := TweetFor(text, UploadedIds(media, download, respond));
              && (send(body).Ok? ==> r == Ok(send(body).value))
              && (send(body).Err? ==> r == Err(PublishFailure(send(body).error)))
    {
      var ids: seq<string> := [];
      if |media| > 0 {
        ids := UploadMedia(media, download, respond);
      }
      var body := TweetFor(text, ids);
      var response := send(body);
      if response.Err? {
        return Err(PublishFailure(response.error));
      }
      r := Ok(response.value);
    }

    /** `getRecentTweetsEngagement`: the three sums over the timeline, zero when
        the response is not an array. */
    method GetRecentTweetsEngagement(timeline: Result<Timeline, HttpFailure>) returns (r: Result<Engagement, string>)
      ensures timeline.Err? ==>
                r == Err("Failed to fetch Twitter recent tweets engagement: " + timeline.error.message)
      ensures timeline == Ok(NotAnArray) ==> r == Ok(Engagement(0, 0, 0))
      ensures timeline.Ok? && timeline.value.Tweets? ==> r == Ok(SumEngagement(timeline.value.tweets))
    {
      if timeline.Err? {
        return Err("Failed to fetch Twitter recent tweets engagement: " + timeline.error.message);
      }
      var totalLikes, totalRetweets, totalReplies := 0, 0, 0;
      if timeline.value.Tweets? {
        var tweets := timeline.value.tweets;
        for i := 0 to |tweets|
          invariant SumEngagement(tweets[..i]) == Engagement(totalLikes, totalRetweets, totalReplies)
        {
          assert tweets[..i + 1][..i] == tweets[..i];
          totalLikes := totalLikes + CountOrZero(tweets[i].favoriteCount);
          totalRetweets := totalRetweets + CountOrZero(tweets[i].retweetCount);
          totalReplies := totalReplies + CountOrZero(tweets[i].replyCount);
        }
        assert tweets[..|tweets|] == tweets;
      }
      r := Ok(Engagement(totalLikes, totalRetweets, totalReplies));
    }
  }

  // ---------------------------------------------------------------------------
  // handleOAuthCallback
  // ---------------------------------------------------------------------------

  /** The callback's outcome: the saved user, a rejected save, or the profile data
      for a sign-up. */
  datatype CallbackResult =
    | UserUpdated
    | CallbackSaveRejected
    | ProfileForSignup(profileId: string, token: string, tokenSecret: string)

  /** The account the callback stores: a plain object cast into a new subdocument. */
  function TwitterAccount(freshId: nat, profileId: string, username: string, token: string,
                          tokenSecret: string, now: int): (a: SocialAccount)
    ensures a.platform == Twitter && a.isActive && a.id == profileId && a.username == username
    ensures a.accessToken == token && a.refreshToken == Some(tokenSecret)
  {
    NewAccount(freshId, Twitter, profileId, username, token, Some(tokenSecret), None, now)
  }

  /** `handleOAuthCallback(profile, token, tokenSecret, userId)`. `found` is the user
      the lookup returned: `findById(userId)` when `userId` is given, otherwise
      `findOne` on the path `socialAccounts.twitter.id`. Which user, if any, that
      second query returns depends on the stored documents and on the driver's
      handling of a path the schema does not declare, so it is a parameter here. */
  method HandleOAuthCallback(profileId: string, username: string, token: string, tokenSecret: string,
                             found: User?, freshId: nat, now: int)
    returns (r: CallbackResult)
    modifies found
    ensures found == null <==> r == ProfileForSignup(profileId, token, tokenSecret)
    ensures found != null ==>
              && found.socialAccounts
                 == Upsert(old(found.socialAccounts), TwitterAccount(freshId, profileId, username, token, tokenSecret, now))
              && (r == UserUpdated <==> ValidAccounts(found.socialAccounts))
              && (r != UserUpdated ==> r == CallbackSaveRejected)
              && found.email == old(found.email) && found.name == old(found.name)
  {
    if found == null {
      return ProfileForSignup(profileId, token, tokenSecret);
    }
    UpsertInPlace(found, TwitterAccount(freshId, profileId, username, token, tokenSecret, now));
    r := if ValidAccounts(found.socialAccounts) then UserUpdated else CallbackSaveRejected;
  }
}
