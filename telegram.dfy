/** The Telegram bot client: `post` sends one photo per media item or a single
    text message, and the bot and chat queries read Telegram's `ok`/`result`
    envelope. Every Bot API request is answered by an oracle. */
module TelegramApiClient {
  import opened Base

  /** The Bot API requests the client makes; `chatId` is None when the caller
      gave none. */
  datatype BotRequest =
    | SendPhoto(token: string, chatId: Option<string>, photo: string, caption: string)
    | SendMessage(token: string, chatId: Option<string>, text: string)

  /** The oracle answering a send request with its response data. */
  type Sender = BotRequest -> Result<string, HttpFailure>

  /** The message of the error `post` throws. */
  function SendFailure(e: HttpFailure): (m: string)
    ensures e.body.description != "" ==> m == "Failed to send Telegram message: " + e.body.description
    ensures e.body.description == "" ==> m == "Failed to send Telegram message: " + e.message
  {
    "Failed to send Telegram message: " + OrElse(e.body.description, e.message)
  }

  /** The photo request for media item k: the text is the caption of the first
      photo only. */
  function PhotoRequest(token: string, chatId: Option<string>, text: string, media: seq<string>, k: nat)
    : (req: BotRequest)
    requires k < |media|
    ensures req.SendPhoto? && req.photo == media[k] && req.token == token && req.chatId == chatId
    ensures req.caption == (if k == 0 then text else "")
  {
    SendPhoto(token, chatId, media[k], if k == 0 then text else "")
  }

  /** The first n photos sent in order: the requests made and, unless one
      failed, the responses collected. A failure ends the run. */
  function PhotoRun(token: string, chatId: Option<string>, text: string, media: seq<string>,
                    send: Sender, n: nat): (run: (seq<BotRequest>, Result<seq<string>, HttpFailure>))
    requires n <= |media|
  {
    if n == 0 then ([], Ok([]))
    else
      var (calls, r) := PhotoRun(token, chatId, text, media, send, n - 1);
      if r.Err? then (calls, r)
      else
        var req := PhotoRequest(token, chatId, text, media, n - 1);
        match send(req)
        case Err(e) => (calls + [req], Err(e))
        case Ok(d) => (calls + [req], Ok(r.value + [d]))
  }

  /** Once a photo has failed, the later items change nothing. */
  lemma {:induction false} PhotoRunStops(token: string, chatId: Option<string>, text: string,
                                         media: seq<string>, send: Sender, n: nat, m: nat)
    requires n <= m <= |media|
    requires PhotoRun(token, chatId, text, media, send, n).1.Err?
    ensures PhotoRun(token, chatId, text, media, send, m) == PhotoRun(token, chatId, text, media, send, n)
    decreases m
  {
    if m > n {
      PhotoRunStops(token, chatId, text, media, send, n, m - 1);
    }
  }

  /** The requests made are the photo requests in order, at most one per item,
      and every one before the last succeeded. */
  lemma {:induction false} PhotoRunRequests(token: string, chatId: Option<string>, text: string,
                                            media: seq<string>, send: Sender, n: nat)
    requires n <= |media|
    ensures |PhotoRun(token, chatId, text, media, send, n).0| <= n
    ensures PhotoRun(token, chatId, text, media, send, n).1.Ok? ==> |PhotoRun(token, chatId, text, media, send, n).0| == n
    ensures forall k :: 0 <= k < |PhotoRun(token, chatId, text, media, send, n).0| ==>
              PhotoRun(token, chatId, text, media, send, n).0[k] == PhotoRequest(token, chatId, text, media, k)
  {
    if n > 0 {
      PhotoRunRequests(token, chatId, text, media, send, n - 1);
      var prev := PhotoRun(token, chatId, text, media, send, n - 1);
      if prev.1.Ok? {
        var calls := PhotoRun(token, chatId, text, media, send, n).0;
        assert calls == prev.0 + [PhotoRequest(token, chatId, text, media, n - 1)];
        assert forall k :: 0 <= k < |prev.0| ==> calls[k] == prev.0[k];
      }
    }
  }

  /** A successful run sent every item, and its k-th response answers the k-th photo. */
  lemma {:induction false} PhotoRunSucceeded(token: string, chatId: Option<string>, text: string,
                                             media: seq<string>, send: Sender, n: nat, k: nat)
    requires k < n <= |media|
    requires PhotoRun(token, chatId, text, media, send, n).1.Ok?
    ensures |PhotoRun(token, chatId, text, media, send, n).0| == n
    ensures |PhotoRun(token, chatId, text, media, send, n).1.value| == n
    ensures send(PhotoRequest(token, chatId, text, media, k))
            == Ok(PhotoRun(token, chatId, text, media, send, n).1.value[k])
  {
    PhotoRunRequests(token, chatId, text, media, send, n);
    if k < n - 1 {
      PhotoRunSucceeded(token, chatId, text, media, send, n - 1, k);
    } else if n > 1 {
      PhotoRunSucceeded(token, chatId, text, media, send, n - 1, 0);
    }
  }

  /** A failed run ends with the request that failed. */
  lemma {:induction false} PhotoRunFailed(token: string, chatId: Option<string>, text: string,
                                          media: seq<string>, send: Sender, n: nat)
    requires n <= |media|
    requires PhotoRun(token, chatId, text, media, send, n).1.Err?
    ensures var calls := PhotoRun(token, chatId, text, media, send, n).0;
            |calls| > 0 && send(calls[|calls| - 1]) == Err(PhotoRun(token, chatId, text, media, send, n).1.error)
  {
    if PhotoRun(token, chatId, text, media, send, n - 1).1.Err? {
      PhotoRunFailed(token, chatId, text, media, send, n - 1);
    }
  }

  /** What `post` resolves to: the array of photo responses, or the one message
      response. */
  datatype Posted = Photos(responses: seq<string>) | Message(response: string)

  class TelegramApi {
    var botToken: string

    constructor (botToken: string)
      ensures this.botToken == botToken
    {
      this.botToken := botToken;
    }

    /** `post(text, { chatId, media })`: with media, one `sendPhoto` per item in
        order until one fails; without, exactly one `sendMessage`. `sent` is the
        requests made. */
    method Post(text: string, chatId: Option<string>, media: seq<string>, send: Sender)
      returns (sent: seq<BotRequest>, r: Result<Posted, string>)
      ensures |media| == 0 ==>
                && sent == [SendMessage(botToken, chatId, text)]
                && r == (match send(SendMessage(botToken, chatId, text))
                         case Ok(d) => Ok(Message(d))
                         case Err(e) => Err(SendFailure(e)))
      ensures |media| > 0 ==>
                var run := PhotoRun(botToken, chatId, text, media, send, |media|);
                && sent == run.0
                && r == (match run.1
                         case Ok(rs) => Ok(Photos(rs))
                         case Err(e) => Err(SendFailure(e)))
    {
      if |media| == 0 {
        var req := SendMessage(botToken, chatId, text);
        sent := [req];
        var response := send(req);
        r := if response.Ok? then Ok(Message(response.value)) else Err(SendFailure(response.error));
        return;
      }
      var responses: seq<string> := [];
      sent := [];
      var i := 0;
      while i < |media|
        invariant 0 <= i <= |media|
        invariant PhotoRun(botToken, chatId, text, media, send, i) == (sent, Ok(responses))
      {
        var caption := if i == 0 then text else "";
        var req := SendPhoto(botToken, chatId, media[i], caption);
        sent := sent + [req];
        var response := send(req);
        if response.Err? {
          assert PhotoRun(botToken, chatId, text, media, send, i + 1) == (sent, Err(response.error));
          PhotoRunStops(botToken, chatId, text, media, send, i + 1, |media|);
          return sent, Err(SendFailure(response.error));
        }
        responses := responses + [response.value];
        i := i + 1;
      }
      r := Ok(Photos(responses));
    }

    /** `getPost` is not supported for Telegram. */
    method GetPost(id: string) returns (r: Result<string, string>)
      ensures r == Err("getPost is not directly applicable for Telegram API in this context.")
    {
      r := Err("getPost is not directly applicable for Telegram API in this context.");
    }

    /** `deletePost` is not supported for Telegram. */
    method DeletePost(id: string) returns (r: Result<(), string>)
      ensures r == Err("deletePost is not directly applicable for Telegram API in this context.")
    {
      r := Err("deletePost is not directly applicable for Telegram API in this context.");
    }
  }

  /** The `getMe` envelope's `result`, or the thrown message on an HTTP failure. */
  function GetUserProfile(getMe: Result<string, HttpFailure>): (r: Result<string, string>)
    ensures getMe.Ok? <==> r.Ok?
    ensures getMe.Ok? ==> r.value == getMe.value
    ensures getMe.Err? ==> r.error == "Failed to fetch Telegram bot profile: " + getMe.error.message
  {
    match getMe
    case Ok(result) => Ok(result)
    case Err(e) => Err("Failed to fetch Telegram bot profile: " + e.message)
  }

  /** The `getChatMembersCount` envelope. */
  datatype CountReply = CountReply(ok: bool, result: int, description: string)

  const CountPrefix: string := "Failed to fetch Telegram chat members count: "

  /** `getChatMembersCount(chatId)`: the count exactly when Telegram says `ok`;
      a refusal is rethrown with its description, or a default text. */
  function GetChatMembersCount(reply: Result<CountReply, HttpFailure>): (r: Result<int, string>)
    ensures r.Ok? <==> reply.Ok? && reply.value.ok
    ensures r.Ok? ==> r.value == reply.value.result
    ensures reply.Ok? && !reply.value.ok ==>
              r == Err(CountPrefix + OrElse(reply.value.description, "Failed to get chat members count"))
    ensures reply.Err? ==> r == Err(CountPrefix + reply.error.message)
  {
    match reply
    case Err(e) => Err(CountPrefix + e.message)
    case Ok(data) =>
      if data.ok then Ok(data.result)
      else Err(CountPrefix + OrElse(data.description, "Failed to get chat members count"))
  }
}
