/** `OpenAIService`: the AI adaptation with its rule-based fallback. The chat
    completion itself is an input: the reply the service received. */
module AiAdaptation {
  import opened Base

  /** What the service returns: the parsed reply object, or the fallback. */
  datatype AiAdapted = AiAdapted(content: string, hashtags: seq<string>, explanation: Option<string>)

  const FallbackExplanation: string := "Fallback adaptation due to AI service unavailability"
  const PhoneMarker: string := "\U{1F4F1}"

  /** `fallbackAdaptation`: a switch on the platform name with no default case. */
  function FallbackAdaptation(originalContent: string, platform: string): (r: AiAdapted)
    ensures r.explanation == Some(FallbackExplanation)
    ensures platform == "twitter" ==>
              (if |originalContent| > 250 then |r.content| == 250 && r.content == originalContent[..247] + "..."
               else r.content == originalContent)
    ensures platform == "telegram" ==> r.content == originalContent + " " + PhoneMarker
    ensures platform == "reddit" ==>
              r.content == "**" + Prefix(originalContent, 50) + "...**\n\n" + originalContent
    ensures platform !in {"twitter", "telegram", "reddit"} ==>
              r.content == originalContent && r.hashtags == []
    ensures forall k :: 0 <= k < |r.hashtags| ==> |r.hashtags[k]| > 0 && r.hashtags[k][0] == '#'
  {
    match platform
    case "twitter" =>
      AiAdapted(if |originalContent| > 250 then Prefix(originalContent, 247) + "..." else originalContent,
                ["#social", "#content"], Some(FallbackExplanation))
    case "telegram" =>
      AiAdapted(originalContent + " " + PhoneMarker, ["#telegram", "#content", "#social"],
                Some(FallbackExplanation))
    case "reddit" =>
      AiAdapted("**" + Prefix(originalContent, 50) + "...**\n\n" + originalContent,
                ["#reddit", "#discussion", "#community"], Some(FallbackExplanation))
    case _ => AiAdapted(originalContent, [], Some(FallbackExplanation))
  }

  /** A parsed reply's `content` field (absent, a string) and whether `hashtags`
      is an array (and then its elements). */
  datatype ReplyObject = ReplyObject(content: Option<string>, hashtags: Option<seq<string>>,
                                     explanation: Option<string>)

  /** The outcome of the chat completion as the service sees it. */
  datatype AiReply =
    | CallFailed                 // the request throws
    | NoContent                  // `choices[0]?.message?.content` is missing or ""
    | Unparseable                // `JSON.parse` throws
    | Parsed(obj: ReplyObject)

  /** The reply is used as it is when its `content` is truthy and its `hashtags`
      is an array. */
  predicate Usable(reply: AiReply) {
    reply.Parsed? && Truthy(reply.obj.content) && reply.obj.hashtags.Some?
  }

  /** `adaptContent`: every thrown error, raised or caught, ends in the fallback. */
  function AdaptWithAi(originalContent: string, platform: string, reply: AiReply): (r: AiAdapted)
    ensures Usable(reply) ==>
              r == AiAdapted(reply.obj.content.value, reply.obj.hashtags.value, reply.obj.explanation)
    ensures !Usable(reply) ==> r == FallbackAdaptation(originalContent, platform)
  {
    if Usable(reply) then
      AiAdapted(reply.obj.content.value, reply.obj.hashtags.value, reply.obj.explanation)
    else FallbackAdaptation(originalContent, platform)
  }

  /** The result always carries a non-empty content when the original does. */
  lemma {:induction false} AiContentNonEmpty(originalContent: string, platform: string, reply: AiReply)
    requires originalContent != ""
    ensures AdaptWithAi(originalContent, platform, reply).content != ""
  {
    if !Usable(reply) {
      var r := FallbackAdaptation(originalContent, platform);
      if platform == "twitter" && |originalContent| > 250 {
        assert |r.content| == 250;
      } else if platform == "telegram" {
        assert |r.content| > |originalContent|;
      } else if platform == "reddit" {
        assert r.content[0] == '*';
      }
    }
  }

  /** The Reddit heading carries "..." even for content shorter than 50 characters. */
  lemma RedditFallbackShort(originalContent: string)
    requires |originalContent| < 50
    ensures FallbackAdaptation(originalContent, "reddit").content
            == "**" + originalContent + "...**\n\n" + originalContent
  {
  }
}
