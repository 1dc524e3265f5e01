/** The Reddit client: the authorization parameters, the token refresh that
    rewrites the client's access token, the media upload's file name, and `post`
    with its title, kind, subreddit and error extraction. Every HTTP request is
    answered by an oracle. */
module RedditApiClient {
  import opened Base

  // ---------------------------------------------------------------------------
  // getAuthUrl
  // ---------------------------------------------------------------------------

  const AuthorizeEndpoint: string := "https://www.reddit.com/api/v1/authorize"

  /** The query parameters of the authorization URL, in order. */
  function AuthParams(clientId: string, state: string, redirectUri: string): (p: seq<(string, string)>)
    ensures |p| == 6 && p[2] == ("state", state)
    ensures p[0] == ("client_id", clientId) && p[3] == ("redirect_uri", redirectUri)
    ensures p[1] == ("response_type", "code") && p[4] == ("duration", "permanent")
    ensures p[5] == ("scope", "identity submit read history")
  {
    [("client_id", clientId), ("response_type", "code"), ("state", state),
     ("redirect_uri", redirectUri), ("duration", "permanent"), ("scope", "identity submit read history")]
  }

  // ---------------------------------------------------------------------------
  // Pure parts of post
  // ---------------------------------------------------------------------------

  /** `text.split('\n')[0]`: the text up to its first line break. */
  function FirstLine(text: string): string {
    Before(text, '\n')
  }

  /** `text.split('\n')[0] || text.substring(0, 100)`: the first line when it is
      not empty, however long; otherwise the first 100 characters. */
  function Title(text: string): (t: string)
    ensures FirstLine(text) != "" ==> t == FirstLine(text)
    ensures FirstLine(text) == "" ==> t == Prefix(text, 100)
  {
    OrElse(FirstLine(text), Prefix(text, 100))
  }

  /** The title is not capped: a single line of any length is the whole title. */
  lemma TitleUncapped(text: string)
    requires forall k :: 0 <= k < |text| ==> text[k] != '\n'
    ensures Title(text) == text
  {
    BeforeWhole(text, '\n');
  }

  /** A text that starts with a line break is titled by its first 100 characters,
      the break included. */
  lemma TitleAfterLeadingBreak(text: string)
    requires |text| > 0 && text[0] == '\n'
    ensures Title(text) == Prefix(text, 100)
  {
  }

  /** `options.subreddit || 'test'`. */
  function SubredditFor(subreddit: Option<string>): (sr: string)
    ensures Truthy(subreddit) ==> sr == subreddit.value
    ensures !Truthy(subreddit) ==> sr == "test"
  {
    OrElse(if subreddit.Some? then subreddit.value else "", "test")
  }

  /** The submit request, with the bearer token it carries. */
  datatype Submit =
    | ImageSubmit(token: string, sr: string, title: string, url: string)
    | SelfSubmit(token: string, sr: string, title: string, text: string)

  /** What the submit endpoint answers: its data and `json.errors`, each error
      an array whose second element is the message. */
  datatype SubmitReply = SubmitReply(data: string, errors: seq<seq<string>>)

  /** The message thrown for a non-empty errors array: `errors[0][1]`, and ""
      (the message of `new Error(undefined)`) when that element is missing. */
  function FirstErrorMessage(errors: seq<seq<string>>): string
    requires |errors| > 0
  {
    if |errors[0]| > 1 then errors[0][1] else ""
  }

  /** `new Error(e.response?.data?.message || e.message || fallback).message`. */
  function Rethrown(e: HttpFailure, fallback: string): (m: string)
    ensures fallback != "" ==> m != ""
  {
    OrElse(OrElse(e.body.message, e.message), fallback)
  }

  const RefreshFailedMessage: string := "Failed to refresh Reddit token"
  const ImageFallback: string := "Reddit image upload failed"
  const PublishFallback: string := "Reddit publish failed"

  /** A message from the image branch passes the outer `catch` unchanged. */
  lemma ImageErrorKeepsMessage(e: HttpFailure)
    ensures Rethrown(Thrown(Rethrown(e, ImageFallback)), PublishFallback) == Rethrown(e, ImageFallback)
  {
  }

  /** An error array whose first entry has no message ends as the outer fallback. */
  lemma EmptyErrorFallsBack(errors: seq<seq<string>>, fallback: string)
    requires |errors| > 0 && |errors[0]| <= 1
    ensures Rethrown(Thrown(FirstErrorMessage(errors)), fallback) == fallback
  {
  }

  // ---------------------------------------------------------------------------
  // uploadMedia
  // ---------------------------------------------------------------------------

  /** `contentType.split('/')[1]`, rendered by the template string: the part
      between the first and the second '/', or "undefined" without a '/'. */
  function Subtype(contentType: string): (r: string)
    ensures AfterFirst(contentType, '/').None? ==> r == "undefined"
    ensures AfterFirst(contentType, '/').Some? ==> r <= AfterFirst(contentType, '/').value
  {
    match AfterFirst(contentType, '/')
    case None => "undefined"
    case Some(rest) => Before(rest, '/')
  }

  /** "type/subtype" yields the subtype; a type with no '/' yields "undefined". */
  lemma SubtypeOf(mainType: string, subtype: string)
    requires forall k :: 0 <= k < |mainType| ==> mainType[k] != '/'
    requires forall k :: 0 <= k < |subtype| ==> subtype[k] != '/'
    ensures Subtype(mainType + "/" + subtype) == subtype
    ensures Subtype(mainType) == "undefined"
  {
    AfterFirstPast(mainType, '/', subtype);
    BeforeWhole(subtype, '/');
    AfterFirstNone(mainType, '/');
  }

  /** The file name of an upload made at time `now`. */
  function UploadFileName(now: nat, contentType: string): string {
    "reddit_upload_" + NatToString(now) + "." + Subtype(contentType)
  }

  /** A downloaded media item: its bytes and its `content-type` header. */
  datatype Download = Download(bytes: seq<Byte>, contentType: Option<string>)

  datatype LeaseRequest = LeaseRequest(token: string, filepath: string, mimetype: string)
  datatype Lease = Lease(action: string, fields: seq<(string, string)>, assetId: string)
  datatype S3Upload = S3Upload(action: string, fields: seq<(string, string)>, filename: string,
                               contentType: string, bytes: seq<Byte>)

  /** Reading `split` of a missing header throws this TypeError. */
  const NoContentType: string := "Cannot read properties of undefined (reading 'split')"

  /** The remote side of one media upload. */
  datatype UploadOracles = UploadOracles(
    download: string -> Result<Download, HttpFailure>,
    lease: LeaseRequest -> Result<Lease, HttpFailure>,
    s3: S3Upload -> Result<(), HttpFailure>)

  /** `uploadMedia(mediaUrl)`: download, lease, S3 upload, the lease's asset id.
      `leaseNow` and `fileNow` are the two readings of the clock. */
  function UploadMedia(token: string, mediaUrl: string, io: UploadOracles, leaseNow: nat, fileNow: nat)
    : (r: Result<string, HttpFailure>)
    ensures r.Ok? ==> io.download(mediaUrl).Ok? && io.download(mediaUrl).value.contentType.Some?
    ensures r.Ok? ==>
              var ct := io.download(mediaUrl).value.contentType.value;
              && io.lease(LeaseRequest(token, UploadFileName(leaseNow, ct), ct)).Ok?
              && r.value == io.lease(LeaseRequest(token, UploadFileName(leaseNow, ct), ct)).value.assetId
  {
    match io.download(mediaUrl)
    case Err(e) => Err(e)
    case Ok(d) =>
      match d.contentType
      case None => Err(Thrown(NoContentType))
      case Some(ct) =>
        match io.lease(LeaseRequest(token, UploadFileName(leaseNow, ct), ct))
        case Err(e) => Err(e)
        case Ok(args) =>
          match io.s3(S3Upload(args.action, args.fields, UploadFileName(fileNow, ct), ct, d.bytes))
          case Err(e) => Err(e)
          case Ok(_) => Ok(args.assetId)
  }

  // ---------------------------------------------------------------------------
  // The client
  // ---------------------------------------------------------------------------

  /** What `post` does after a successful refresh to `token`. */
  function PostWith(token: string, text: string, subreddit: Option<string>, media: seq<string>,
                    io: UploadOracles, submit: Submit -> Result<SubmitReply, HttpFailure>,
                    leaseNow: nat, fileNow: nat): (r: Result<string, string>)
    ensures r.Err? ==> r.error != ""
    ensures |media| > 0 && r.Ok? ==> UploadMedia(token, media[0], io, leaseNow, fileNow).Ok?
    ensures |media| == 0 && r.Ok? ==>
              var s := SelfSubmit(token, SubredditFor(subreddit), Title(text), text);
              submit(s).Ok? && submit(s).value.errors == [] && r.value == submit(s).value.data
  {
    var title := Title(text);
    var sr := SubredditFor(subreddit);
    if |media| > 0 then
      match UploadMedia(token, media[0], io, leaseNow, fileNow)
      case Err(e) => Err(Rethrown(e, ImageFallback))
      case Ok(assetId) =>
        match submit(ImageSubmit(token, sr, title, assetId))
        case Err(e) => Err(Rethrown(e, ImageFallback))
        case Ok(reply) =>
          if |reply.errors| > 0 then Err(Rethrown(Thrown(FirstErrorMessage(reply.errors)), ImageFallback))
          else Ok(reply.data)
    else
      match submit(SelfSubmit(token, sr, title, text))
      case Err(e) => Err(Rethrown(e, PublishFallback))
      case Ok(reply) =>
        if |reply.errors| > 0 then Err(Rethrown(Thrown(FirstErrorMessage(reply.errors)), PublishFallback))
        else Ok(reply.data)
  }

  /** Media makes an image post of `media[0]` alone; without media the post is a
      self post carrying the text. Both go to `sr` or "test", titled `Title(text)`,
      with the refreshed token. */
  lemma PostWithKind(token: string, text: string, subreddit: Option<string>, media: seq<string>,
                     io: UploadOracles, submit: Submit -> Result<SubmitReply, HttpFailure>,
                     leaseNow: nat, fileNow: nat)
    ensures var r := PostWith(token, text, subreddit, media, io, submit, leaseNow, fileNow);
            var sr := SubredditFor(subreddit);
            && (|media| == 0 ==>
                  var s := SelfSubmit(token, sr, Title(text), text);
                  r == (if submit(s).Err? then Err(Rethrown(submit(s).error, PublishFallback))
                        else if |submit(s).value.errors| > 0
                        then Err(Rethrown(Thrown(FirstErrorMessage(submit(s).value.errors)), PublishFallback))
                        else Ok(submit(s).value.data)))
            && (|media| > 0 && r.Ok? ==>
                  var asset := UploadMedia(token, media[0], io, leaseNow, fileNow);
                  && asset.Ok?
                  && submit(ImageSubmit(token, sr, Title(text), asset.value)).Ok?
                  && r == Ok(submit(ImageSubmit(token, sr, Title(text), asset.value)).value.data))
            && (|media| > 0 ==> PostWith(token, text, subreddit, [media[0]], io, submit, leaseNow, fileNow) == r)
  {
  }

  /** A non-empty `json.errors` fails the post with `errors[0][1]`. */
  lemma SubmitErrorsFail(token: string, text: string, subreddit: Option<string>,
                         io: UploadOracles, submit: Submit -> Result<SubmitReply, HttpFailure>,
                         leaseNow: nat, fileNow: nat, message: string)
    requires var s := SelfSubmit(token, SubredditFor(subreddit), Title(text), text);
             submit(s).Ok? && |submit(s).value.errors| > 0
             && |submit(s).value.errors[0]| > 1 && submit(s).value.errors[0][1] == message && message != ""
    ensures PostWith(token, text, subreddit, [], io, submit, leaseNow, fileNow) == Err(message)
  {
  }

  class RedditApi {
    var accessToken: string
    var refreshTokenValue: string

    constructor (accessToken: string, refreshToken: string)
      ensures this.accessToken == accessToken && refreshTokenValue == refreshToken
    {
      this.accessToken := accessToken;
      refreshTokenValue := refreshToken;
    }

    /** `refreshToken()`: `response` is the token endpoint's answer to the
        refresh-token grant for `refreshTokenValue`. */
    method RefreshToken(response: Result<string, HttpFailure>) returns (r: Result<string, string>)
      modifies this
      ensures response.Ok? ==> r == Ok(response.value) && accessToken == response.value
      ensures response.Err? ==> r == Err(RefreshFailedMessage) && accessToken == old(accessToken)
      ensures refreshTokenValue == old(refreshTokenValue)
    {
      if response.Err? {
        return Err(RefreshFailedMessage);
      }
      accessToken := response.value;
      r := Ok(accessToken);
    }

    /** `post(text, { subreddit, media })`: the refresh always comes first, and
        its failure aborts the post. */
    method Post(text: string, subreddit: Option<string>, media: seq<string>,
                refresh: Result<string, HttpFailure>, io: UploadOracles,
                submit: Submit -> Result<SubmitReply, HttpFailure>, leaseNow: nat, fileNow: nat)
      returns (r: Result<string, string>)
      modifies this
      ensures refresh.Err? ==> r == Err(RefreshFailedMessage) && accessToken == old(accessToken)
      ensures refresh.Ok? ==>
                && accessToken == refresh.value
                && r == PostWith(refresh.value, text, subreddit, media, io, submit, leaseNow, fileNow)
      ensures refreshTokenValue == old(refreshTokenValue)
    {
      var refreshed := RefreshToken(refresh);
      if refreshed.Err? {
        return Err(Rethrown(Thrown(refreshed.error), PublishFallback));
      }
      var title := Title(text);
      var sr := SubredditFor(subreddit);
      if |media| > 0 {
        var assetId := UploadMedia(accessToken, media[0], io, leaseNow, fileNow);
        if assetId.Err? {
          return Err(Rethrown(Thrown(Rethrown(assetId.error, ImageFallback)), PublishFallback));
        }
        var response := submit(ImageSubmit(accessToken, sr, title, assetId.value));
        if response.Err? {
          return Err(Rethrown(Thrown(Rethrown(response.error, ImageFallback)), PublishFallback));
        }
        if |response.value.errors| > 0 {
          var inner := Rethrown(Thrown(FirstErrorMessage(response.value.errors)), ImageFallback);
          return Err(Rethrown(Thrown(inner), PublishFallback));
        }
        return Ok(response.value.data);
      }
      var response := submit(SelfSubmit(accessToken, sr, title, text));
      if response.Err? {
        return Err(Rethrown(response.error, PublishFallback));
      }
      if |response.value.errors| > 0 {
        return Err(Rethrown(Thrown(FirstErrorMessage(response.value.errors)), PublishFallback));
      }
      r := Ok(response.value.data);
    }
  }
}
