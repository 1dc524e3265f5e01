/** The rule-based content adapter: `extractLinkAndImage` and `adaptContent`. */
module Adaptation {
  import opened Base

  // ---------------------------------------------------------------------------
  // The two regular expressions, by their backtracking semantics.
  //   image: /(https?:\/\/[^\s]+\.(jpg|jpeg|png|gif))/i   first match only
  //   url:   /(https?:\/\/[^\s]+)/g                       all matches
  // ---------------------------------------------------------------------------

  /** Length of the `https?://` scheme at p (0 when absent); `ci` = case-insensitive. */
  function SchemeLen(s: string, p: nat, ci: bool): (n: nat)
    ensures n == 0 || n == 7 || n == 8
    ensures n > 0 ==> p + n <= |s|
  {
    if ci then
      (if MatchesAtCI(s, p, "https://") then 8 else if MatchesAtCI(s, p, "http://") then 7 else 0)
    else
      (if OccursAt(s, "https://", p) then 8 else if OccursAt(s, "http://", p) then 7 else 0)
  }

  /** The end of the run of non-space characters starting at i. */
  function RunEnd(s: string, i: nat): (e: nat)
    requires i <= |s|
    decreases |s| - i
    ensures i <= e <= |s|
  {
    if i == |s| || IsJsSpace(s[i]) then i else RunEnd(s, i + 1)
  }

  /** `[^\s]+` is greedy: the run takes every non-space character up to the next
      space or the end of the text. */
  lemma {:induction false} RunEndSpec(s: string, i: nat)
    requires i <= |s|
    decreases |s| - i
    ensures var e := RunEnd(s, i);
            && (forall k :: i <= k < e ==> !IsJsSpace(s[k]))
            && (e < |s| ==> IsJsSpace(s[e]))
  {
    if i < |s| && !IsJsSpace(s[i]) {
      RunEndSpec(s, i + 1);
    }
  }

  /** Length of the extension alternative `(jpg|jpeg|png|gif)` that matches at i,
      tried in that order, ignoring case; 0 when none does. */
  function ExtLen(s: string, i: nat): (n: nat)
    ensures n == 0 || n == 3 || n == 4
    ensures n > 0 ==> i + n <= |s|
  {
    if MatchesAtCI(s, i, "jpg") then 3
    else if MatchesAtCI(s, i, "jpeg") then 4
    else if MatchesAtCI(s, i, "png") then 3
    else if MatchesAtCI(s, i, "gif") then 3
    else 0
  }

  /** After the scheme ending at q, `[^\s]+` takes k characters, then `\.` and an
      extension follow. */
  predicate DotExtAfter(s: string, q: nat, k: nat) {
    q + k < |s| && s[q + k] == '.' && ExtLen(s, q + k + 1) > 0
  }

  /** Backtracking of the greedy `[^\s]+` from k characters down to 1: the first,
      that is the largest, length after which `\.ext` matches. */
  function GreedyDot(s: string, q: nat, k: nat): (r: Option<nat>)
    decreases k
    ensures r.Some? ==> 1 <= r.value <= k && DotExtAfter(s, q, r.value)
  {
    if k == 0 then None
    else if DotExtAfter(s, q, k) then Some(k)
    else GreedyDot(s, q, k - 1)
  }

  /** Backtracking settles on the longest run that an extension follows, and fails
      only when no run length works. */
  lemma {:induction false} GreedyDotLargest(s: string, q: nat, k: nat)
    decreases k
    ensures var r := GreedyDot(s, q, k);
            && (r.Some? ==> forall j :: r.value < j <= k ==> !DotExtAfter(s, q, j))
            && (r.None? <==> forall j :: 1 <= j <= k ==> !DotExtAfter(s, q, j))
  {
    if k == 0 {
    } else if DotExtAfter(s, q, k) {
      assert GreedyDot(s, q, k) == Some(k);
    } else {
      GreedyDotLargest(s, q, k - 1);
      assert GreedyDot(s, q, k) == GreedyDot(s, q, k - 1);
    }
  }

  /** End of the image match that starts at p, if one does. */
  function ImageMatchAt(s: string, p: nat): (r: Option<nat>)
    ensures r.Some? ==> SchemeLen(s, p, true) > 0 && p < r.value <= |s|
  {
    var n := SchemeLen(s, p, true);
    if n == 0 then None
    else
      var q := p + n;
      match GreedyDot(s, q, RunEnd(s, q) - q)
      case None => None
      case Some(k) => Some(q + k + 1 + ExtLen(s, q + k + 1))
  }

  function FirstImageFrom(s: string, p: nat): (r: Option<(nat, nat)>)
    requires p <= |s|
    decreases |s| - p
    ensures r.Some? ==> p <= r.value.0 && ImageMatchAt(s, r.value.0) == Some(r.value.1)
  {
    if ImageMatchAt(s, p).Some? then Some((p, ImageMatchAt(s, p).value))
    else if p == |s| then None
    else FirstImageFrom(s, p + 1)
  }

  /** The leftmost image match, as start and end positions. */
  function FirstImage(s: string): (r: Option<(nat, nat)>)
    ensures r.Some? ==> ImageMatchAt(s, r.value.0) == Some(r.value.1)
  {
    FirstImageFrom(s, 0)
  }

  /** No image match starts between p and the one found (or the end, when none is). */
  lemma {:induction false} FirstImageFromNoEarlier(s: string, p: nat, j: nat)
    requires p <= j <= |s|
    requires FirstImageFrom(s, p).None? || j < FirstImageFrom(s, p).value.0
    decreases j - p
    ensures ImageMatchAt(s, j).None?
  {
    if j > p {
      assert FirstImageFrom(s, p) == FirstImageFrom(s, p + 1);
      FirstImageFromNoEarlier(s, p + 1, j);
    }
  }

  /** The image is the leftmost match, and there is none only when no position
      starts a match. */
  lemma FirstImageLeftmost(s: string)
    ensures var r := FirstImage(s);
            && (r.Some? ==> forall j :: 0 <= j < r.value.0 ==> ImageMatchAt(s, j).None?)
            && (r.None? ==> forall j :: 0 <= j <= |s| ==> ImageMatchAt(s, j).None?)
  {
    forall j | 0 <= j <= |s| && (FirstImage(s).None? || j < FirstImage(s).value.0)
      ensures ImageMatchAt(s, j).None?
    {
      FirstImageFromNoEarlier(s, 0, j);
    }
  }

  /** End of the url match (case-sensitive scheme, then `[^\s]+` greedily) at p. */
  function UrlMatchAt(s: string, p: nat): (r: Option<nat>)
    ensures r.Some? ==> SchemeLen(s, p, false) > 0
    ensures r.Some? ==> p + SchemeLen(s, p, false) < r.value <= |s|
  {
    var n := SchemeLen(s, p, false);
    if n == 0 then None
    else if RunEnd(s, p + n) == p + n then None
    else Some(RunEnd(s, p + n))
  }

  /** The matches of the global url expression from position p on: each search
      resumes at the end of the previous match. */
  function UrlMatchesFrom(s: string, p: nat): (r: seq<string>)
    requires p <= |s|
    decreases |s| - p
  {
    if p == |s| then []
    else match UrlMatchAt(s, p)
      case Some(e) => [s[p..e]] + UrlMatchesFrom(s, e)
      case None => UrlMatchesFrom(s, p + 1)
  }

  /** `content.match(urlRegex)`, with `null` as the empty sequence. */
  function UrlMatches(s: string): seq<string> {
    UrlMatchesFrom(s, 0)
  }

  predicate HasScheme(m: string) {
    "http://" <= m || "https://" <= m
  }

  lemma UrlMatchAtScheme(s: string, p: nat)
    requires UrlMatchAt(s, p).Some?
    ensures HasScheme(s[p..UrlMatchAt(s, p).value])
  {
    var e := UrlMatchAt(s, p).value;
    var n := SchemeLen(s, p, false);
    assert s[p..e][..n] == s[p..p + n];
  }

  /** Every url match starts with `http://` or `https://`. */
  lemma {:induction false} UrlMatchesFromScheme(s: string, p: nat)
    requires p <= |s|
    decreases |s| - p
    ensures forall k :: 0 <= k < |UrlMatchesFrom(s, p)| ==> HasScheme(UrlMatchesFrom(s, p)[k])
  {
    if p < |s| {
      match UrlMatchAt(s, p)
      case Some(e) =>
        UrlMatchesFromScheme(s, e);
        UrlMatchAtScheme(s, p);
        var rest := UrlMatchesFrom(s, e);
        var r := UrlMatchesFrom(s, p);
        assert r == [s[p..e]] + rest;
        forall k | 0 <= k < |r| ensures HasScheme(r[k]) {
          if k > 0 {
            assert r[k] == rest[k - 1];
            assert HasScheme(rest[k - 1]);
          } else {
            assert r[k] == s[p..e];
            assert HasScheme(s[p..e]);
          }
        }
      case None =>
        UrlMatchesFromScheme(s, p + 1);
        assert UrlMatchesFrom(s, p) == UrlMatchesFrom(s, p + 1);
    }
  }

  // ---------------------------------------------------------------------------
  // extractLinkAndImage
  // ---------------------------------------------------------------------------

  datatype Extraction = Extraction(cleanedContent: string, link: Option<string>, image: Option<string>)

  /** The first of `links` that differs from `image` (any, when there is no image). */
  function FirstOther(links: seq<string>, image: Option<string>): (r: Option<nat>)
    ensures r.Some? ==> r.value < |links| && (image.None? || links[r.value] != image.value)
  {
    if links == [] then None
    else if image.None? || links[0] != image.value then Some(0)
    else match FirstOther(links[1..], image)
      case None => None
      case Some(k) => Some(k + 1)
  }

  /** The link chosen is the first that differs from the image; every earlier one
      equals it, and there is none only when all do. */
  lemma {:induction false} FirstOtherFirst(links: seq<string>, image: Option<string>)
    ensures var r := FirstOther(links, image);
            && (r.Some? ==> forall j :: 0 <= j < r.value ==> image.Some? && links[j] == image.value)
            && (r.None? ==> forall j :: 0 <= j < |links| ==> image.Some? && links[j] == image.value)
  {
    if links != [] && image.Some? && links[0] == image.value {
      FirstOtherFirst(links[1..], image);
    }
  }

  /** The text once the first image match is cut out (first occurrence) and trimmed. */
  function AfterImage(s: string): string {
    match FirstImage(s)
    case None => s
    case Some((p, e)) => Trim(ReplaceFirst(s, s[p..e], ""))
  }

  /** What `extractLinkAndImage` returns. */
  function Extracted(s: string): (x: Extraction)
    ensures x.link.Some? && x.image.Some? ==> x.link.value != x.image.value
  {
    var image := match FirstImage(s) case None => None case Some((p, e)) => Some(s[p..e]);
    var c1 := AfterImage(s);
    var links := UrlMatches(c1);
    match FirstOther(links, image)
    case None => Extraction(c1, None, image)
    case Some(k) => Extraction(Trim(ReplaceFirst(c1, links[k], "")), Some(links[k]), image)
  }

  /** Text containing `pat` somewhere has a first occurrence, no later than that one. */
  lemma OccursFound(s: string, pat: string, j: nat)
    requires OccursAt(s, pat, j)
    ensures IndexOf(s, pat).Some? && IndexOf(s, pat).value <= j
  {
    IndexFromFirst(s, pat, 0);
  }

  /** Every url match occurs in the text it was matched in. */
  lemma {:induction false} UrlMatchesFromFound(s: string, p: nat)
    requires p <= |s|
    decreases |s| - p
    ensures forall k :: 0 <= k < |UrlMatchesFrom(s, p)| ==> IndexOf(s, UrlMatchesFrom(s, p)[k]).Some?
  {
    if p < |s| {
      match UrlMatchAt(s, p)
      case Some(e) =>
        UrlMatchesFromFound(s, e);
        OccursFound(s, s[p..e], p);
        var r := UrlMatchesFrom(s, p);
        assert r == [s[p..e]] + UrlMatchesFrom(s, e);
        forall k | 0 <= k < |r| ensures IndexOf(s, r[k]).Some? {
          if k > 0 {
            assert r[k] == UrlMatchesFrom(s, e)[k - 1];
          }
        }
      case None =>
        UrlMatchesFromFound(s, p + 1);
        assert UrlMatchesFrom(s, p) == UrlMatchesFrom(s, p + 1);
    }
  }

  /** Replacing a pattern that occurs by nothing cuts its first occurrence out. */
  lemma CutFirstOccurrence(t: string, pat: string)
    requires IndexOf(t, pat).Some?
    ensures var i := IndexOf(t, pat).value;
            ReplaceFirst(t, pat, "") == t[..i] + t[i + |pat|..]
  {
    var i := IndexOf(t, pat).value;
    assert t[..i] + "" + t[i + |pat|..] == t[..i] + t[i + |pat|..];
  }

  /** The image is the text of the leftmost image match, and there is none only
      when no position starts one; the link search then works on the text with
      that image cut out once and trimmed. */
  lemma ExtractedImageSpec(s: string)
    ensures var x := Extracted(s);
            && (x.image.None? ==> AfterImage(s) == s && forall j :: 0 <= j <= |s| ==> ImageMatchAt(s, j).None?)
            && (x.image.Some? ==> AfterImage(s) == Trim(ReplaceFirst(s, x.image.value, "")))
            && (x.image.Some? ==>
                  exists p :: 0 <= p <= |s| && ImageMatchAt(s, p).Some?
                              && x.image.value == s[p..ImageMatchAt(s, p).value]
                              && forall j :: 0 <= j < p ==> ImageMatchAt(s, j).None?)
  {
    FirstImageLeftmost(s);
    if FirstImage(s).Some? {
      var p := FirstImage(s).value.0;
      assert ImageMatchAt(s, p).Some? && p <= |s|;
    }
  }

  /** The link is a url match of the image-stripped text that has a scheme and is
      not the image, and every match before it is the image; there is no link
      only when every match is the image. Its first occurrence is cut out of
      that text, which is then trimmed. */
  lemma ExtractedLinkSpec(s: string)
    ensures var x := Extracted(s);
            var t := AfterImage(s);
            var links := UrlMatches(t);
            && (x.link.None? ==> x.cleanedContent == t
                                 && forall j :: 0 <= j < |links| ==> x.image.Some? && links[j] == x.image.value)
            && (x.link.Some? ==>
                  && HasScheme(x.link.value) && (x.image.None? || x.link.value != x.image.value)
                  && (exists k :: 0 <= k < |links| && links[k] == x.link.value
                                  && forall j :: 0 <= j < k ==> x.image.Some? && links[j] == x.image.value)
                  && IndexOf(t, x.link.value).Some?
                  && x.cleanedContent == Trim(t[..IndexOf(t, x.link.value).value]
                                              + t[IndexOf(t, x.link.value).value + |x.link.value|..]))
  {
    var x := Extracted(s);
    var t := AfterImage(s);
    var links := UrlMatches(t);
    FirstOtherFirst(links, x.image);
    var r := FirstOther(links, x.image);
    if r.Some? {
      var k := r.value;
      UrlMatchesFromScheme(t, 0);
      UrlMatchesFromFound(t, 0);
      assert links[k] == x.link.value;
      assert HasScheme(links[k]) && IndexOf(t, links[k]).Some?;
      assert x.cleanedContent == Trim(ReplaceFirst(t, links[k], ""));
      CutFirstOccurrence(t, links[k]);
    }
  }

  /** The `for ... of` walk over the url matches, with its `break` at the first
      one that is not the image. */
  method FindOtherLink(links: seq<string>, image: Option<string>) returns (found: Option<nat>)
    ensures found == FirstOther(links, image)
  {
    FirstOtherFirst(links, image);
    found := None;
    var i := 0;
    while i < |links|
      invariant 0 <= i <= |links|
      invariant forall j :: 0 <= j < i ==> image.Some? && links[j] == image.value
      invariant FirstOther(links, image).None? || i <= FirstOther(links, image).value
    {
      if image.None? || links[i] != image.value {
        found := Some(i);
        return;
      }
      i := i + 1;
    }
  }

  /** `extractLinkAndImage`: reassigns `content`, `image` and `link` in turn. */
  method ExtractLinkAndImage(original: string) returns (cleanedContent: string, link: Option<string>, image: Option<string>)
    ensures Extraction(cleanedContent, link, image) == Extracted(original)
  {
    var content := original;
    image := None;
    link := None;
    match FirstImage(content) {
      case Some((p, e)) =>
        image := Some(content[p..e]);
        content := Trim(ReplaceFirst(content, image.value, ""));
      case None =>
    }
    assert content == AfterImage(original);
    var links := UrlMatches(content);
    var found := FindOtherLink(links, image);
    if found.Some? {
      link := Some(links[found.value]);
      content := Trim(ReplaceFirst(content, links[found.value], ""));
    }
    cleanedContent := content;
  }

  // ---------------------------------------------------------------------------
  // adaptContent
  // ---------------------------------------------------------------------------

  /** The `AdaptedContent` record the adapter returns. */
  datatype Adapted = Adapted(
    content: string,
    hashtags: seq<string>,
    explanation: string,
    link: Option<string>,
    image: Option<string>,
    video: Option<string>,
    formattedContent: Option<string>)

  const TwitterMaxLength: nat := 280
  /** The length budgeted for a link (the t.co length); only the budget uses it. */
  const ShortLinkLength: nat := 23
  const Ellipsis: string := "..."

  /** The Telegram markers, kept as the code spells them. */
  const LinkMarker: string := "\U{F0}\U{178}\U{201D}\U{2014}"
  const ImageMarker: string := "\U{F0}\U{178}\U{2013}\U{BC}\U{EF}\U{B8}"
  const VideoMarker: string := "\U{F0}\U{178}\U{17D}\U{AC}"
  const BroadcastMarker: string := "\U{F0}\U{178}\U{201C}\U{A2}"

  /** `media?.videos[0]` when there is one. */
  function FirstVideo(videos: seq<string>): (v: Option<string>)
    ensures v.Some? <==> |videos| > 0
    ensures v.Some? ==> v.value == videos[0]
  {
    if |videos| > 0 then Some(videos[0]) else None
  }

  /** A `${x ? ... : ''}` segment: `text` when `x` is truthy, "" otherwise. */
  function When(x: Option<string>, text: string): (r: string)
    ensures Truthy(x) ==> r == text
    ensures !Truthy(x) ==> r == ""
  {
    if Truthy(x) then text else ""
  }

  /** Room left for the text: 280 less the link budget less 2. */
  function TwitterSpace(hasLink: bool): (n: nat)
    ensures n == if hasLink then 255 else 278
  {
    TwitterMaxLength - (if hasLink then ShortLinkLength else 0) - 2
  }

  /** The text cut to fit: `space - 3` characters and "..." when it is longer. */
  function Shorten(text: string, space: nat): (r: string)
    requires space >= 3
    ensures |r| <= space
    ensures |text| <= space ==> r == text
    ensures |text| > space ==> |r| == space && r == text[..space - 3] + Ellipsis
  {
    if |text| > space then Prefix(text, space - 3) + Ellipsis else text
  }

  function ForTwitter(x: Extraction, video: Option<string>): (a: Adapted)
    ensures !Truthy(x.link) ==> |a.content| <= 278
    ensures !Truthy(x.link) && |x.cleanedContent| <= 278 ==> a.content == x.cleanedContent
    ensures !Truthy(x.link) && |x.cleanedContent| > 278 ==>
              a.content == x.cleanedContent[..275] + Ellipsis
    ensures Truthy(x.link) ==> exists text: string | |text| <= 255 ::
              a.content == text + " " + x.link.value && text == Shorten(x.cleanedContent, 255)
    ensures a.hashtags == ["social", "twitter"] && a.formattedContent.None?
    ensures a.link == x.link && a.image == x.image && a.video == video
  {
    var text := Shorten(x.cleanedContent, TwitterSpace(Truthy(x.link)));
    Adapted(if Truthy(x.link) then text + " " + x.link.value else text,
            ["social", "twitter"],
            "Trimmed to 280 chars. Link shortened. Added hashtags.",
            x.link, x.image, video, None)
  }

  /** The preview lines of the Telegram variant, in the order link, image, video. */
  function TelegramLines(link: Option<string>, image: Option<string>, video: Option<string>): string {
    When(link, "\n" + LinkMarker + " " + (if link.Some? then link.value else ""))
    + When(image, "\n" + ImageMarker + " " + (if image.Some? then image.value else ""))
    + When(video, "\n" + VideoMarker + " " + (if video.Some? then video.value else ""))
  }

  function ForTelegram(x: Extraction, video: Option<string>): (a: Adapted)
    ensures a.content == x.cleanedContent + TelegramLines(x.link, x.image, video) + " " + BroadcastMarker
    ensures a.hashtags == ["telegram", "broadcast"] && a.formattedContent.None?
    ensures a.link == x.link && a.image == x.image && a.video == video
  {
    var finalContent := x.cleanedContent + TelegramLines(x.link, x.image, video);
    Adapted(finalContent + " " + BroadcastMarker, ["telegram", "broadcast"],
            "Added emoji, link/image/video previews, and hashtags.",
            x.link, x.image, video, None)
  }

  /** The Reddit title: the first 100 characters, and "..." when there were more. */
  function RedditTitle(cleaned: string): (t: string)
    ensures |t| <= 103
    ensures |cleaned| <= 100 ==> t == cleaned
    ensures |cleaned| > 100 ==> t == cleaned[..100] + Ellipsis
  {
    Prefix(cleaned, 100) + (if |cleaned| > 100 then Ellipsis else "")
  }

  /** The Markdown body: optional link line, the text, optional image and video embeds. */
  function RedditBody(cleaned: string, link: Option<string>, image: Option<string>,
                      video: Option<string>): string {
    When(link, "[Link](" + (if link.Some? then link.value else "") + ")\n\n")
    + cleaned
    + When(image, "\n\n![image](" + (if image.Some? then image.value else "") + ")")
    + When(video, "\n\n[Video](" + (if video.Some? then video.value else "") + ")")
  }

  function ForReddit(x: Extraction, video: Option<string>): (a: Adapted)
    ensures a.content == RedditBody(x.cleanedContent, x.link, x.image, video)
    ensures a.formattedContent == Some("**" + RedditTitle(x.cleanedContent) + "**\n\n" + a.content)
    ensures a.hashtags == ["reddit", "discussion"]
    ensures a.link == x.link && a.image == x.image && a.video == video
  {
    var body := RedditBody(x.cleanedContent, x.link, x.image, video);
    Adapted(body, ["reddit", "discussion"],
            "Added Reddit formatting. Link, image, and video embedded in Markdown.",
            x.link, x.image, video, Some("**" + RedditTitle(x.cleanedContent) + "**\n\n" + body))
  }

  /** The switch of `adaptContent` on the platform name, over the extracted parts
      `x` and the first video. */
  function AdaptExtraction(platform: string, originalContent: string, x: Extraction,
                           video: Option<string>): (a: Adapted)
    ensures a.video == video && a.link == x.link && a.image == x.image
    ensures a.formattedContent.Some? <==> platform == "reddit"
  {
    match platform
    case "twitter" => ForTwitter(x, video)
    case "telegram" => ForTelegram(x, video)
    case "reddit" => ForReddit(x, video)
    case _ => Adapted(originalContent, [], "No adaptation performed.", x.link, x.image, video, None)
  }

  /** `adaptContent(platform, originalContent, { videos })`: extraction, then the
      switch; `images` is not read. */
  function AdaptContent(platform: string, originalContent: string, videos: seq<string>): (a: Adapted)
    ensures a.link == Extracted(originalContent).link && a.image == Extracted(originalContent).image
    ensures a.video == (if |videos| > 0 then Some(videos[0]) else None)
    ensures a.formattedContent.Some? <==> platform == "reddit"
    ensures a.link.Some? ==> HasScheme(a.link.value) && (a.image.None? || a.link.value != a.image.value)
  {
    ExtractedLinkSpec(originalContent);
    AdaptExtraction(platform, originalContent, Extracted(originalContent), FirstVideo(videos))
  }

  // ---------------------------------------------------------------------------
  // Properties of the adapter, over any extraction
  // ---------------------------------------------------------------------------

  /** An unknown platform gets the original, uncleaned content and no hashtags. */
  lemma AdaptUnknownPlatform(platform: string, originalContent: string, x: Extraction, video: Option<string>)
    requires platform !in {"twitter", "telegram", "reddit"}
    ensures var a := AdaptExtraction(platform, originalContent, x, video);
            && a.content == originalContent && a.hashtags == [] && a.formattedContent.None?
            && a.explanation == "No adaptation performed."
  {
  }

  /** Without a link, the Twitter variant never exceeds 278 characters (not 280). */
  lemma TwitterWithoutLinkBound(originalContent: string, x: Extraction, video: Option<string>)
    requires !Truthy(x.link)
    ensures |AdaptExtraction("twitter", originalContent, x, video).content| <= 278
  {
  }

  /** With a link, the 23-character budget only shortens the text: the link is
      appended at its full length, so the variant can exceed 280 characters. */
  lemma {:induction false} TwitterWithLinkLength(originalContent: string, x: Extraction, video: Option<string>)
    requires Truthy(x.link)
    ensures var a := AdaptExtraction("twitter", originalContent, x, video);
            |a.content| == |Shorten(x.cleanedContent, 255)| + 1 + |x.link.value|
            && |a.content| <= 256 + |x.link.value|
            && a.content[|a.content| - |x.link.value|..] == x.link.value
  {
    var text := Shorten(x.cleanedContent, 255);
    var a := AdaptExtraction("twitter", originalContent, x, video);
    assert a.content == text + " " + x.link.value;
  }

  /** The fixed hashtag pairs of the three platforms, and none otherwise. */
  lemma HashtagsPerPlatform(platform: string, originalContent: string, x: Extraction, video: Option<string>)
    ensures var h := AdaptExtraction(platform, originalContent, x, video).hashtags;
            && (platform == "twitter" ==> h == ["social", "twitter"])
            && (platform == "telegram" ==> h == ["telegram", "broadcast"])
            && (platform == "reddit" ==> h == ["reddit", "discussion"])
            && (platform !in {"twitter", "telegram", "reddit"} ==> h == [])
  {
  }

  /** With nothing to embed, the Reddit body is the cleaned text itself and the
      formatted variant puts the bold title in front of it. */
  lemma RedditPlainText(originalContent: string, x: Extraction)
    requires !Truthy(x.link) && !Truthy(x.image)
    ensures var a := AdaptExtraction("reddit", originalContent, x, None);
            && a.content == x.cleanedContent
            && a.formattedContent == Some("**" + RedditTitle(x.cleanedContent) + "**\n\n" + x.cleanedContent)
  {
  }

  /** With nothing to preview, the Telegram variant is the cleaned text and the
      trailing marker. */
  lemma TelegramPlainText(originalContent: string, x: Extraction)
    requires !Truthy(x.link) && !Truthy(x.image)
    ensures AdaptExtraction("telegram", originalContent, x, None).content
            == x.cleanedContent + " " + BroadcastMarker
  {
  }

  // A worked instance of extraction: text without a '.' holds no image, and the
  // global url expression splits at whitespace.

  lemma FirstUrlAt0()
    ensures UrlMatchAt("http://a http://b", 0) == Some(8)
  {
    var s := "http://a http://b";
    assert !OccursAt(s, "https://", 0) by { assert s[4] != "https://"[4]; }
    assert s[0..7] == "http://";
    assert RunEnd(s, 8) == 8;
  }

  lemma NoUrlAt8()
    ensures UrlMatchAt("http://a http://b", 8).None?
  {
    var s := "http://a http://b";
    assert s[8] == ' ';
    assert !OccursAt(s, "https://", 8) by { assert s[8..16][0] == s[8]; }
    assert !OccursAt(s, "http://", 8) by { assert s[8..15][0] == s[8]; }
  }

  lemma SecondUrlAt9()
    ensures UrlMatchAt("http://a http://b", 9) == Some(17)
  {
    var s := "http://a http://b";
    assert !OccursAt(s, "https://", 9) by { assert s[13] != "https://"[4]; }
    assert s[9..16] == "http://";
    assert RunEnd(s, 16) == 17;
  }

  lemma UrlMatchesTwo()
    ensures UrlMatches("http://a http://b") == ["http://a", "http://b"]
  {
    var s := "http://a http://b";
    FirstUrlAt0();
    NoUrlAt8();
    SecondUrlAt9();
    assert UrlMatchesFrom(s, 9) == [s[9..17]] + UrlMatchesFrom(s, 17);
    assert s[9..17] == "http://b";
    assert UrlMatchesFrom(s, 8) == UrlMatchesFrom(s, 9);
    assert s[0..8] == "http://a";
  }

  lemma CutFirst()
    ensures Trim(ReplaceFirst("http://a http://b", "http://a", "")) == "http://b"
  {
    var s := "http://a http://b";
    assert OccursAt(s, "http://a", 0);
    assert IndexOf(s, "http://a") == Some(0);
    assert ReplaceFirst(s, "http://a", "") == " http://b";
    var u := " http://b";
    assert DropLeading(u, JsSpaces) == "http://b" by {
      assert u[1..] == "http://b";
      assert !IsJsSpace(u[1]);
    }
    assert DropTrailing("http://b", JsSpaces) == "http://b" by {
      assert !IsJsSpace('b');
    }
  }

  lemma ConcreteA()
    ensures Extracted("http://a http://b") == Extraction("http://b", Some("http://a"), None)
  {
    var s := "http://a http://b";
    NoDotNoImageFrom(s, 0);
    assert AfterImage(s) == s;
    UrlMatchesTwo();
    assert FirstOther(UrlMatches(s), None) == Some(0);
    CutFirst();
  }

  lemma UrlMatchesOne()
    ensures UrlMatches("http://b") == ["http://b"]
  {
    var t := "http://b";
    assert UrlMatchAt(t, 0) == Some(8) by {
      assert !OccursAt(t, "https://", 0) by { assert t[4] != "https://"[4]; }
      assert t[0..7] == "http://";
      assert RunEnd(t, 7) == 8;
    }
    assert t[0..8] == t;
  }

  lemma CutWhole()
    ensures Trim(ReplaceFirst("http://b", "http://b", "")) == ""
  {
    var t := "http://b";
    assert OccursAt(t, t, 0);
    assert ReplaceFirst(t, t, "") == "";
  }

  lemma ConcreteB()
    ensures Extracted("http://b") == Extraction("", Some("http://b"), None)
  {
    var t := "http://b";
    NoDotNoImageFrom(t, 0);
    assert AfterImage(t) == t;
    UrlMatchesOne();
    CutWhole();
  }

  /** Extraction is not idempotent: the cleaned text of one pass still holds
      a link that a second pass removes. */
  lemma ExtractionNotIdempotent()
    ensures var once := Extracted("http://a http://b");
            var twice := Extracted(once.cleanedContent);
            once.link == Some("http://a") && twice.link == Some("http://b")
            && twice.cleanedContent != once.cleanedContent
  {
    ConcreteA();
    ConcreteB();
  }

  lemma {:induction false} NoDotNoImageFrom(s: string, p: nat)
    requires p <= |s|
    requires forall k :: 0 <= k < |s| ==> s[k] != '.'
    decreases |s| - p
    ensures FirstImageFrom(s, p).None?
  {
    if p < |s| { NoDotNoImageFrom(s, p + 1); }
  }
}
