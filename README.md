# SocialCross core, modelled in Dafny

SocialCross lets a user write one post and publish it to Twitter (X), Telegram and
Reddit. The backend stores users with their connected social accounts and posts with
one adapted variant per platform. Each variant is produced by a deterministic
adaptation step. It is approved per platform and then published, either right away or
by a delayed job. A small Python service reads a brand name and colours from a logo.

This project models that core as Dafny. It covers:

- the Mongoose schemas and their `save()` validation;
- the adaptation (link and image extraction, per-platform formatting) and the AI
  fallback;
- the post routes (create, approve, publish) and the publishing worker with its status
  aggregation;
- the account upserts of the OAuth callbacks, disconnect and toggle;
- the API factory and the social-media service (token refresh, post options);
- the three platform clients (Twitter chunked video upload, Telegram photo loop, Reddit
  title, upload lease and error mapping);
- the error handler and the upload filter;
- the logo analysis.

Remote calls (HTTP, the database lookups, the OpenAI reply, OCR and the colour
palette) are parameters of the model: an oracle function from request to result, or the
reply itself. Times are integer milliseconds passed in as `now`. Documents whose fields
the routes update in place (`Post`, `User`, the OAuth session, the Reddit client's token,
the job queue) are Dafny classes. The operations on them are methods whose
postconditions give the whole new state in terms of specification functions. Lemmas
then prove the properties about those functions.

Behaviours of the code that are easy to misread; the model follows the code:

- The Twitter text budget is 278 characters without a link and 255 with one. It is not
  280.
- Link and image extraction is not idempotent: a second pass removes the next link.
- A post with no approved variant becomes `published` after a publishing pass.
- Variants that are already published are sent again.
- A failed Reddit token refresh does not deactivate the account.
- A file with a disallowed MIME type is answered with status 500, not 400. The upload
  filter raises a plain `Error`, and the error handler gives that the default status.
- `post.ts` calls `SocialMediaService.publishToTwitter` and the other per-platform
  publish methods, which the service does not define. The publish route and the worker
  therefore take each send's outcome as a parameter.

## Model

| member | source | states |
|---|---|---|
| Base.OrElse | backend/src/services/api/RedditApi.ts:62 | JavaScript `a \|\| b` on strings: the result is `a` unless `a` is empty, then `b`; it is empty only when both are |
| Base.TrimSpec | backend/src/services/adaptationService.ts:23 | `trim()` removes exactly the maximal leading and trailing runs of ECMAScript whitespace and keeps the middle as a slice of the input |
| Base.DropLeadingSpec | python-microservice/app.py:38 | the leading part of a strip is all whitespace, the remainder is a suffix of the input, and it starts with a non-space |
| Base.DropTrailingSpec | python-microservice/app.py:38 | the trailing part of a strip is all whitespace, the remainder is a prefix of the input, and it ends with a non-space |
| Base.IndexFromFirst | backend/src/services/adaptationService.ts:32 | the index `replace` substitutes at is the first occurrence of the pattern; no earlier position matches, and none matches when it finds nothing |
| Base.AfterFirst | backend/src/services/api/RedditApi.ts:203 | `split('/')[1]` exists exactly when a '/' occurs, and is the text after the first '/' |
| Base.BeforeSpec | backend/src/services/api/RedditApi.ts:62 | `split(c)[0]` contains no `c` and is a prefix of the input, stopping at the first `c` |
| Base.SplitJoin | python-microservice/app.py:40 | `split('\n')` loses nothing: joining the parts with '\n' gives back the input |
| Base.LowerAllSpec | backend/src/models/User.ts:54 | the model's lowering maps each character to its ASCII lower case, position by position (narrower than `toLowerCase`; see Left out) |
| Base.NatToStringRoundTrip | backend/src/routes/oauth.ts:162 | the decimal rendering of a timestamp parses back to the same number |
| Platforms.ParsePlatformExact | backend/src/models/Post.ts:33-37 | the platform enum accepts exactly the names of the three platforms |
| Platforms.PlatformNameInjective | backend/src/models/User.ts:31-35 | distinct platforms have distinct names |
| PostModel.NewEntry | backend/src/models/Post.ts:32-52 | a new variant is unapproved, `pending`, with no publish time or error, and keeps every given field |
| PostModel.Post.constructor | backend/src/models/Post.ts:54-81 | a new post keeps its fields, has no variants, and its status defaults to `draft` |
| UserModel.NewAccount | backend/src/models/User.ts:30-47 | an account cast from a plain object takes the schema defaults: active, connected now, counters 0, no subreddit |
| UserModel.User.constructor | backend/src/models/User.ts:49-72 | a new user's email is trimmed and lower-cased, the name trimmed, and there are no accounts |
| UserModel.NormalizeEmail | backend/src/models/User.ts:50-56 | a stored email is trimmed and contains no upper-case ASCII letter (other letters are kept; see Left out) |
| UserModel.FailingPaths | backend/src/models/User.ts:49-72 | validation reports `email`, `password` or `name` exactly when that field is empty after normalisation or the password is shorter than 6 |
| UserModel.SaveNewUser | backend/src/models/User.ts:50-56 | a user is saved exactly when validation passes and the normalised email is not taken; a duplicate is reported on `email` |
| UserModel.EmailCaseCollides | backend/src/models/User.ts:52-55 | two emails that differ only in case or surrounding whitespace cannot both be saved |
| UserModel.DuplicatePlatformsAccepted | backend/src/models/User.ts:69 | the schema itself accepts two accounts of the same platform |
| Accounts.FindPlatform | backend/src/routes/oauth.ts:62-64 | `findIndex` by platform: the index of the first account on that platform, or none when there is none |
| Accounts.Upsert | backend/src/routes/oauth.ts:76-80 | the upsert replaces the first account on the platform, or appends when there is none, and leaves every other account unchanged |
| Accounts.UpsertKeepsOnePerPlatform | backend/src/routes/oauth.ts:76-80 | upserting keeps the invariant of at most one account per platform |
| Accounts.UpsertIdempotent | backend/src/routes/oauth.ts:76-80 | upserting the same account twice is the same as upserting it once |
| Accounts.FirstOnPlatform | backend/src/routes/oauth.ts:62-64 | `findIndex` by platform finds the first account on that platform |
| Accounts.Disconnect | backend/src/routes/oauth.ts:242-244 | filtering out a platform never makes the array longer |
| Accounts.DisconnectRemoves | backend/src/routes/oauth.ts:242-244 | after disconnect no account is on that platform, and each remaining one was there before |
| Accounts.DisconnectKeepsOthers | backend/src/routes/oauth.ts:242-244 | every account on another platform survives disconnect |
| Accounts.DisconnectConcat | backend/src/routes/oauth.ts:242-244 | the filter distributes over concatenation, so order is kept |
| Accounts.DisconnectAbsent | backend/src/routes/oauth.ts:242-244 | disconnecting a platform with no account changes nothing |
| Accounts.Toggle | backend/src/routes/social.ts:41-46 | the toggle fails exactly when no account is on the platform; otherwise it flips `isActive` of the first one and nothing else |
| Accounts.ToggleTwice | backend/src/routes/social.ts:46 | toggling twice restores the accounts |
| Accounts.FindById | backend/src/services/socialMediaService.ts:60 | the index of the first account with the subdocument id, or none |
| Accounts.RefreshById | backend/src/services/socialMediaService.ts:60-63 | the refresh sets the new token and an expiry of now plus one hour on the matched account only; with no match nothing changes |
| Accounts.UpsertInPlace | backend/src/routes/oauth.ts:76-80 | the user's accounts become the upsert of the old accounts; email and name are kept |
| Adaptation.GreedyDotLargest | backend/src/services/adaptationService.ts:14 | the greedy `[^\s]+` before `.ext` backtracks to the last dot that gives an image extension, and finds none only when there is none |
| Adaptation.FirstImageLeftmost | backend/src/services/adaptationService.ts:20-24 | the image found is the leftmost match of the image pattern; none is found only when no position matches |
| Adaptation.UrlMatchAtScheme | backend/src/services/adaptationService.ts:13 | every URL match starts with `http://` or `https://` |
| Adaptation.UrlMatchesFromScheme | backend/src/services/adaptationService.ts:27 | every link `match` returns starts with a scheme |
| Adaptation.FirstOtherFirst | backend/src/services/adaptationService.ts:27-36 | the link chosen is the first one that differs from the image; all earlier links equal the image |
| Adaptation.Extracted | backend/src/services/adaptationService.ts:12-39 | the extracted link never equals the extracted image |
| Adaptation.ExtractedImageSpec | backend/src/services/adaptationService.ts:14-24 | the image is the text of the leftmost image match, none only when no position starts one; the rest of the extraction works on the content with that image cut out once and trimmed |
| Adaptation.ExtractedLinkSpec | backend/src/services/adaptationService.ts:26-36 | the link is a url match of the image-stripped text, has a scheme, differs from the image, and every earlier match is the image; none only when every match is the image; its first occurrence is cut out and the text trimmed |
| Adaptation.FindOtherLink | backend/src/services/adaptationService.ts:27-36 | the loop over the links returns the first link other than the image |
| Adaptation.ExtractLinkAndImage | backend/src/services/adaptationService.ts:12-39 | the extraction returns the cleaned text, link and image that the specification function defines |
| Adaptation.FirstVideo | backend/src/services/adaptationService.ts:49 | the video is the first of the videos, and there is none when the list is empty |
| Adaptation.Shorten | backend/src/services/adaptationService.ts:59-61 | shortening keeps text that fits and otherwise cuts it to `space - 3` characters plus "...", so the result always fits |
| Adaptation.ForTwitter | backend/src/services/adaptationService.ts:52-73 | without a link the text fits 278 characters; with one it is text shortened to 255, a space, then the link; the hashtags are fixed |
| Adaptation.ForTelegram | backend/src/services/adaptationService.ts:75-86 | the text is followed by the link, image and video lines and the broadcast marker; the hashtags are fixed |
| Adaptation.RedditTitle | backend/src/services/adaptationService.ts:89 | the title is the first 100 characters, with "..." added only when the text is longer |
| Adaptation.ForReddit | backend/src/services/adaptationService.ts:88-101 | the body is the text plus the media lines, and the formatted content is the bold title, a blank line, then the body |
| Adaptation.AdaptExtraction | backend/src/services/adaptationService.ts:51-112 | every branch of the switch passes the link, image and video through, and only `reddit` gets formatted content |
| Adaptation.AdaptContent | backend/src/services/adaptationService.ts:41-113 | the result carries the extracted link and image and the first video; a link always has a scheme and differs from the image; only `reddit` gets formatted content |
| Adaptation.AdaptUnknownPlatform | backend/src/services/adaptationService.ts:103-111 | an unknown platform gets the original content, no hashtags and the fixed explanation |
| Adaptation.TwitterWithoutLinkBound | backend/src/services/adaptationService.ts:52-63 | a tweet without a link has at most 278 characters |
| Adaptation.TwitterWithLinkLength | backend/src/services/adaptationService.ts:54-63 | a tweet with a link is at most 256 characters plus the link, and it ends with the full link |
| Adaptation.HashtagsPerPlatform | backend/src/services/adaptationService.ts:67 | the hashtags depend only on the platform |
| Adaptation.RedditPlainText | backend/src/services/adaptationService.ts:88-101 | a Reddit post without link or media has the cleaned text as its body |
| Adaptation.TelegramPlainText | backend/src/services/adaptationService.ts:75-86 | a Telegram message without link or media is the text plus the marker |
| Adaptation.UrlMatchesTwo | backend/src/services/adaptationService.ts:13 | two space-separated links are both matched, in order |
| Adaptation.ExtractionNotIdempotent | backend/src/services/adaptationService.ts:27-36 | extracting again from the cleaned text takes out a second link |
| Adaptation.NoDotNoImageFrom | backend/src/services/adaptationService.ts:14 | text without a dot holds no image URL |
| AiAdaptation.FallbackAdaptation | backend/src/services/openaiService.ts:93-117 | the fallback cuts a long tweet to 247 characters plus "...", adds the phone marker for Telegram, builds the bold Reddit title, and gives only '#' hashtags |
| AiAdaptation.AdaptWithAi | backend/src/services/openaiService.ts:58-90 | a usable reply is returned as is; a missing, unparsable or ill-shaped reply gives the fallback |
| AiAdaptation.AiContentNonEmpty | backend/src/services/openaiService.ts:75-89 | for non-empty input the adapted content is never empty |
| AiAdaptation.RedditFallbackShort | backend/src/services/openaiService.ts:107 | a short Reddit text is repeated in full as the bold title |
| Publishing.FindActive | backend/src/routes/post.ts:195-197 | the account used is an active account on the variant's platform; none means no such account exists |
| Publishing.StepEntry | backend/src/routes/post.ts:192-246 | an unapproved variant is untouched; with no active account it fails with "Social account not connected"; otherwise the send's outcome decides published-at-now or failed with the message |
| Publishing.PassEntries | backend/src/routes/post.ts:192-246 | the pass updates each variant by its own step and keeps the length |
| Publishing.Approved | backend/src/routes/post.ts:193 | the results are listed for the approved variants only, in increasing order |
| Publishing.ApprovedComplete | backend/src/routes/post.ts:193 | every approved variant gets a result |
| Publishing.ResultsMatchEntries | backend/src/routes/post.ts:199-245 | the n-th result names the n-th approved variant's platform; it says success exactly when that variant is now published, and an error carries its message |
| Publishing.Aggregate | backend/src/routes/post.ts:249-261 | any failure makes the post failed; all approved published and none failed makes it published at now; otherwise the status is kept |
| Publishing.StatusAfterPass | backend/src/routes/post.ts:249-261 | after a pass the post is published exactly when no approved variant failed, and failed otherwise |
| Publishing.NoApprovedPublishes | backend/src/routes/post.ts:249-261 | a post with no approved variant becomes published |
| Publishing.ResendsPublished | backend/src/routes/post.ts:193 | a published variant is sent again, and a failed send marks it failed |
| Publishing.SuccessKeepsError | backend/src/routes/post.ts:227-230 | a successful send does not clear an earlier error message |
| Publishing.PassResults | backend/src/routes/post.ts:189-246 | the first n variants give at most n results |
| Publishing.PassKeepsValid | backend/src/routes/post.ts:263 | a publishing pass keeps the post valid for `save()` |
| Publishing.PublishEntry | backend/src/routes/post.ts:193-245 | one loop iteration updates the variant by its step and pushes a result only for an approved variant |
| Publishing.PublishPass | backend/src/routes/post.ts:189-261 | the loop leaves the variants, results and status that the specification functions give, and keeps the other fields |
| Publishing.UpdateStatus | backend/src/jobs/postScheduler.ts:71-83 | the worker's status update is the aggregation over the variants |
| PostRoutes.CreateErrors | backend/src/routes/post.ts:16-17 | the create request is rejected on `content` exactly when the trimmed text is not 1 to 2000 characters, and on `platforms` exactly when none are given |
| PostRoutes.EntryFor | backend/src/routes/post.ts:66-91 | a new variant keeps the platform string, starts unapproved and `pending`, and carries the raw text when the adapter throws, the extracted link and image otherwise |
| PostRoutes.EntryForSpec | backend/src/routes/post.ts:66-91 | each variant is the adaptation's output, or the original text with nothing else when the adaptation throws; it starts unapproved and `pending` |
| PostRoutes.BuildEntries | backend/src/routes/post.ts:66-91 | one variant per requested platform, in order |
| PostRoutes.BuildEntriesPending | backend/src/routes/post.ts:70-80 | every new variant names its platform, is unapproved and `pending` |
| PostRoutes.AdaptForPlatform | backend/src/routes/post.ts:67-90 | one loop iteration builds the variant the specification function defines |
| PostRoutes.AdaptAll | backend/src/routes/post.ts:66-91 | the loop fills the variants as specified and changes no other field |
| PostRoutes.CreatePost | backend/src/routes/post.ts:15-103 | invalid input gives 400 with the failing fields; otherwise a new draft post with the trimmed text and the built variants, saved when it is valid and a server error when it is not |
| PostRoutes.CreateRejectsUnknownPlatform | backend/src/models/Post.ts:33-37 | an unknown platform name makes the save fail |
| PostRoutes.ApproveErrors | backend/src/routes/post.ts:130-131 | the approve request is rejected on `platform` exactly for a name outside the enum, and on `content` for a blank replacement |
| PostRoutes.FindEntry | backend/src/routes/post.ts:149-152 | the variant approved is the first one on that platform |
| PostRoutes.ApproveEntries | backend/src/routes/post.ts:149-157 | approval fails exactly when no variant is on the platform; otherwise it approves the first one, replaces its content when a non-blank one is given, and changes nothing else |
| PostRoutes.ApproveKeepsValid | backend/src/routes/post.ts:154-159 | approving keeps a valid post valid |
| PostRoutes.ApprovePost | backend/src/routes/post.ts:129-169 | covers the 400, 404 post, 404 variant and success cases; the variant 404 comes exactly when no variant is on the platform; with one, the route succeeds exactly when the updated post validates, and reports a server error otherwise |
| PostRoutes.PublishPost | backend/src/routes/post.ts:172-274 | a missing post or user gives 404 and changes nothing; otherwise the variants and status are those of one publishing pass, and the results are reported exactly when the updated post validates |
| Scheduler.WorkerPass | backend/src/jobs/postScheduler.ts:30-68 | the worker's loop updates the variants by one pass and changes no other field |
| Scheduler.ProcessJob | backend/src/jobs/postScheduler.ts:15-92 | a missing post or user fails the job; otherwise the pass and the aggregation are applied and the job completes with its post id exactly when the save validates |
| Scheduler.ScheduleDelay | backend/src/jobs/postScheduler.ts:96-100 | the delay is the scheduled time minus now, and a delay that is not positive is an error |
| Scheduler.JobId | backend/src/jobs/postScheduler.ts:104 | the job id is `post-` followed by the post id |
| Scheduler.JobIdInjective | backend/src/jobs/postScheduler.ts:104 | distinct posts get distinct job ids |
| Scheduler.AddJob | backend/src/jobs/postScheduler.ts:102-105 | adding puts the post's job in the queue and leaves every other entry; a job id already present is kept |
| Scheduler.CancelJob | backend/src/jobs/postScheduler.ts:109-114 | cancelling removes exactly the post's job |
| Scheduler.CancelAbsent | backend/src/jobs/postScheduler.ts:111 | cancelling a job that is not queued changes nothing |
| Scheduler.AddJobTwice | backend/src/jobs/postScheduler.ts:104 | scheduling the same post twice keeps the first job |
| Scheduler.AddThenCancel | backend/src/jobs/postScheduler.ts:95-114 | cancelling right after scheduling restores the queue |
| Scheduler.OtherJobsUntouched | backend/src/jobs/postScheduler.ts:95-114 | scheduling or cancelling one post does not touch another post's job |
| Scheduler.PostQueue.constructor | backend/src/jobs/postScheduler.ts:11 | the queue starts empty |
| Scheduler.PostQueue.SchedulePost | backend/src/jobs/postScheduler.ts:95-106 | a past time is an error and leaves the queue; otherwise the job is added with the delay |
| Scheduler.PostQueue.CancelScheduledPost | backend/src/jobs/postScheduler.ts:109-114 | the queue becomes the queue without the post's job |
| ApiFactory.CreateApi | backend/src/services/SocialMediaApiFactory.ts:8-25 | Telegram always gets a client; Twitter and Reddit need a refresh token; anything else is "Unsupported platform" |
| ApiFactory.CreateApiMatchesPlatform | backend/src/services/SocialMediaApiFactory.ts:9-21 | the client built is the one for the account's platform |
| ApiFactory.TelegramIgnoresRefreshToken | backend/src/services/SocialMediaApiFactory.ts:20-21 | the Telegram client does not depend on the refresh token |
| SocialService.OptionsFor | backend/src/services/socialMediaService.ts:17-24 | the media are the images then the videos; Telegram adds the chat id and Reddit the subreddit |
| SocialService.OptionsMediaOrder | backend/src/services/socialMediaService.ts:17 | each media item is the image or video at the matching position |
| SocialService.ProfileIdentifier | backend/src/services/socialMediaService.ts:36 | Twitter is looked up by id and the others by username |
| SocialService.RefreshRedditToken | backend/src/services/socialMediaService.ts:53-72 | a failed refresh gives the fixed error and changes nothing; otherwise the owner's matching account gets the token and the one-hour expiry |
| SocialService.RefreshKeepsActive | backend/src/services/socialMediaService.ts:62-63 | a refresh keeps every account's platform and active flag |
| SocialService.RefreshEndsNeed | backend/src/services/socialMediaService.ts:11-64 | only Reddit accounts are due for a refresh, and the account a refresh rewrites is not due again at the same instant |
| SocialService.PrepareClient | backend/src/services/socialMediaService.ts:11-16 | an expired Reddit token is refreshed first; the owner's accounts are the refreshed ones; the client is the factory's for the account exactly when the refresh and its save succeed, and the fixed error otherwise |
| SocialService.Publish | backend/src/services/socialMediaService.ts:10-27 | after a due refresh (accounts stated, save decides) the post call goes to the factory's client with the content and the options for the account; a failed refresh or save gives the fixed error |
| SocialService.GetUserProfile | backend/src/services/socialMediaService.ts:29-38 | after a due refresh (accounts stated, save decides) the profile is asked from the factory's client with the platform's identifier; a failed refresh or save gives the fixed error |
| TwitterApiClient.VideoUrlExamples | backend/src/services/api/TwitterApi.ts:212 | the video test is a case-insensitive suffix test: a query string hides the extension |
| TwitterApiClient.IsVideoUrlLowered | backend/src/services/api/TwitterApi.ts:212 | a url is a video exactly when, lower-cased, it ends in `.mp4`, `.mov` or `.webm` |
| TwitterApiClient.ChunksConcatAll | backend/src/services/api/TwitterApi.ts:249-265 | the APPEND chunks concatenate to the whole video |
| TwitterApiClient.ChunksCount | backend/src/services/api/TwitterApi.ts:249-251 | the number of chunks is the size divided by 5 MiB, rounded up |
| TwitterApiClient.AppendRunAllOk | backend/src/services/api/TwitterApi.ts:251-265 | when every APPEND succeeds, call k sends chunk k with segment index k |
| TwitterApiClient.VideoRunSucceeded | backend/src/services/api/TwitterApi.ts:231-276 | a video's id is the INIT response, and the calls are INIT, the APPENDs and FINALIZE |
| TwitterApiClient.UploadedIdsConcat | backend/src/services/api/TwitterApi.ts:208-286 | the ids are collected item by item, in order |
| TwitterApiClient.FailedItemSkipped | backend/src/services/api/TwitterApi.ts:278-285 | a failed item is skipped and the others are still uploaded |
| TwitterApiClient.UploadedIdsBound | backend/src/services/api/TwitterApi.ts:205-288 | there are at most as many ids as media URLs |
| TwitterApiClient.TweetFor | backend/src/services/api/TwitterApi.ts:98-107 | the tweet has the text and carries media ids only when there are some |
| TwitterApiClient.SumEngagementConcat | backend/src/services/api/TwitterApi.ts:186-198 | the engagement totals add up over concatenated timelines |
| TwitterApiClient.MissingCountersAddNothing | backend/src/services/api/TwitterApi.ts:186-198 | a tweet without metrics counts as zero |
| TwitterApiClient.TwitterApi.constructor | backend/src/services/api/TwitterApi.ts:16-31 | the client keeps the token and the token secret |
| TwitterApiClient.TwitterApi.UploadVideo | backend/src/services/api/TwitterApi.ts:231-276 | the chunked upload loop makes the calls and returns the id the specification function gives |
| TwitterApiClient.TwitterApi.UploadMedia | backend/src/services/api/TwitterApi.ts:205-288 | the loop returns the ids of the items that uploaded |
| TwitterApiClient.TwitterApi.Post | backend/src/services/api/TwitterApi.ts:96-126 | the tweet with the uploaded ids is sent; a failure is mapped to the publish error message |
| TwitterApiClient.TwitterApi.GetRecentTweetsEngagement | backend/src/services/api/TwitterApi.ts:176-203 | the totals of the timeline, zero for a non-array reply, and the prefixed message on failure |
| TwitterApiClient.TwitterAccount | backend/src/services/api/TwitterApi.ts:69-77 | the account is on Twitter, active, with the profile's id and name, the token, and the secret as refresh token |
| TwitterApiClient.HandleOAuthCallback | backend/src/services/api/TwitterApi.ts:55-94 | whichever lookup ran decides: no user found returns the profile for sign-up; a found user gets the account upserted, and the save decides the result |
| TelegramApiClient.SendFailure | backend/src/services/api/TelegramApi.ts:39-42 | the error names the API's description, or the message when there is none |
| TelegramApiClient.PhotoRequest | backend/src/services/api/TelegramApi.ts:16-28 | photo k of the post is sent to the chat, with the text as caption only on the first |
| TelegramApiClient.PhotoRunStops | backend/src/services/api/TelegramApi.ts:16-28 | after a failed photo no further photo is sent |
| TelegramApiClient.PhotoRunRequests | backend/src/services/api/TelegramApi.ts:16-28 | call k is the request for photo k, and all are made when none fails |
| TelegramApiClient.PhotoRunSucceeded | backend/src/services/api/TelegramApi.ts:27 | response k is the reply to photo k |
| TelegramApiClient.PhotoRunFailed | backend/src/services/api/TelegramApi.ts:39-42 | the error reported is the last call's failure |
| TelegramApiClient.TelegramApi.constructor | backend/src/services/api/TelegramApi.ts:8-10 | the client keeps the bot token |
| TelegramApiClient.TelegramApi.Post | backend/src/services/api/TelegramApi.ts:12-43 | with media the photo loop runs as specified; without media one message is sent; a failure gives the Telegram error |
| TelegramApiClient.TelegramApi.GetPost | backend/src/services/api/TelegramApi.ts:45-47 | always the fixed "not applicable" error |
| TelegramApiClient.TelegramApi.DeletePost | backend/src/services/api/TelegramApi.ts:49-51 | always the fixed "not applicable" error |
| TelegramApiClient.GetUserProfile | backend/src/services/api/TelegramApi.ts:53-61 | the bot profile on success, the prefixed message on failure |
| TelegramApiClient.GetChatMembersCount | backend/src/services/api/TelegramApi.ts:63-77 | the count exactly when the reply is ok; otherwise the description or the fixed text, prefixed |
| RedditApiClient.AuthParams | backend/src/services/api/RedditApi.ts:16-26 | the authorize URL carries the client id, `code`, the state, the redirect, `permanent` and the four scopes |
| RedditApiClient.Title | backend/src/services/api/RedditApi.ts:62 | the title is the first line, or the first 100 characters when that line is empty |
| RedditApiClient.TitleUncapped | backend/src/services/api/RedditApi.ts:62 | a one-line text is its own title, however long |
| RedditApiClient.TitleAfterLeadingBreak | backend/src/services/api/RedditApi.ts:62 | a text starting with a line break takes its first 100 characters |
| RedditApiClient.SubredditFor | backend/src/services/api/RedditApi.ts:74 | the subreddit given, or `test` |
| RedditApiClient.Rethrown | backend/src/services/api/RedditApi.ts:93-96 | the re-thrown message is never empty |
| RedditApiClient.ImageErrorKeepsMessage | backend/src/services/api/RedditApi.ts:93-96 | the outer handler keeps the message of the image handler |
| RedditApiClient.EmptyErrorFallsBack | backend/src/services/api/RedditApi.ts:116-123 | an API error whose first entry has no message gives the handler's fallback text |
| RedditApiClient.Subtype | backend/src/services/api/RedditApi.ts:203 | the file extension is the text after the first '/', up to the next one, or `undefined` |
| RedditApiClient.SubtypeOf | backend/src/services/api/RedditApi.ts:203 | `image/png` gives `png`, and a type without '/' gives `undefined` |
| RedditApiClient.UploadMedia | backend/src/services/api/RedditApi.ts:191-232 | an asset id needs a download with a content type and a lease for that file name and type; the id is the lease's |
| RedditApiClient.PostWith | backend/src/services/api/RedditApi.ts:58-124 | an error message is never empty; an image post needs an uploaded asset; a self post succeeds only on a reply without errors, with its data |
| RedditApiClient.PostWithKind | backend/src/services/api/RedditApi.ts:63-119 | without media a self post is submitted and its errors are mapped; with media only the first is uploaded and linked |
| RedditApiClient.SubmitErrorsFail | backend/src/services/api/RedditApi.ts:116-118 | a reply listing errors fails with the first error's message |
| RedditApiClient.RedditApi.constructor | backend/src/services/api/RedditApi.ts:11-14 | the client keeps both tokens |
| RedditApiClient.RedditApi.RefreshToken | backend/src/services/api/RedditApi.ts:234-257 | a refresh stores and returns the new token, and a failure keeps the old one and gives the fixed error |
| RedditApiClient.RedditApi.Post | backend/src/services/api/RedditApi.ts:58-124 | the token is refreshed first; a failed refresh stops the post; otherwise the post is the one the specification function gives |
| SocialRoutes.View | backend/src/routes/social.ts:16-21 | the listing shows platform, username, active flag and connection time |
| SocialRoutes.ViewsSpec | backend/src/routes/social.ts:16-21 | entry k of the listing is the view of account k |
| SocialRoutes.ViewsHideSecrets | backend/src/routes/social.ts:16-21 | the listing does not depend on tokens or ids |
| SocialRoutes.ToggleKeepsValid | backend/src/routes/social.ts:46-47 | toggling keeps the accounts valid |
| SocialRoutes.ListAccounts | backend/src/routes/social.ts:9-28 | a missing user gives 404; otherwise one view per account |
| SocialRoutes.ToggleAccount | backend/src/routes/social.ts:31-62 | missing user or account gives 404; otherwise the flag is flipped, saved, and the message and view are returned |
| OAuthRoutes.Session.constructor | backend/src/routes/oauth.ts:24-38 | a session starts without a user id or Reddit state |
| OAuthRoutes.TwitterStart | backend/src/routes/oauth.ts:24-38 | without a user id the user is sent back with an error; otherwise the id is kept in the session and sign-in starts |
| OAuthRoutes.TwitterCallback | backend/src/routes/oauth.ts:40-91 | covers the missing id and missing user cases; a user document from the strategy fails the connection and changes nothing; otherwise the account is upserted, and a clean save connects Twitter and clears the session while a refused one fails and keeps it |
| OAuthRoutes.TelegramAccount | backend/src/routes/oauth.ts:130-137 | the account is on Telegram, active, with the channel id, the bot's name and the bot token |
| OAuthRoutes.TelegramSetup | backend/src/routes/oauth.ts:94-151 | covers each redirect for missing input, a failed or rejected `getMe` and a missing user; otherwise the account is upserted and saved |
| OAuthRoutes.RedditState | backend/src/routes/oauth.ts:162 | the state is the user id, '_' and the time |
| OAuthRoutes.RedditStateInjective | backend/src/routes/oauth.ts:162 | for ids without '_', the state determines both id and time |
| OAuthRoutes.PassportAuthParams | backend/src/config/passport.ts:12-23 | the route's authorize URL carries the client id, `code`, the state, the redirect, `permanent` and three scopes; it differs from the client's `getAuthUrl` only in the scope |
| OAuthRoutes.RedditStart | backend/src/routes/oauth.ts:154-167 | the user id and state go into the session and the user is sent to the passport authorize URL with that state |
| OAuthRoutes.RedditAccount | backend/src/routes/oauth.ts:199-208 | the account is on Reddit with the identity and tokens, and expires `expires_in` seconds after now |
| OAuthRoutes.RedditCallback | backend/src/routes/oauth.ts:169-227 | covers denial, a bad state, failed exchange or identity, and a missing user; otherwise the account is upserted and a clean save clears the session |
| OAuthRoutes.StartThenCallback | backend/src/routes/oauth.ts:179-181 | after a start, a callback is accepted exactly when it returns the same state |
| OAuthRoutes.DisconnectKeepsValid | backend/src/routes/oauth.ts:242-246 | disconnecting keeps the accounts valid |
| OAuthRoutes.DisconnectRoute | backend/src/routes/oauth.ts:230-262 | a missing user gives 404; otherwise the platform's accounts are removed and the remaining ones listed |
| ErrorHandler.HandleError | backend/src/middleware/errorHandler.ts:5-48 | validation gives 400 with the field messages; a duplicate key 400 naming the field; a bad token 401; upload errors 400; others their status or 500 |
| ErrorHandler.ValidationFirst | backend/src/middleware/errorHandler.ts:14-20 | a validation error is answered as such whatever else it carries |
| ErrorHandler.StatusCodeOnlyForOther | backend/src/middleware/errorHandler.ts:45-47 | `statusCode` only matters in the default branch |
| ErrorHandler.MessageNonEmpty | backend/src/middleware/errorHandler.ts:5-48 | outside the upload branch the message is never empty |
| Upload.FileFilter | backend/src/middleware/upload.ts:6-14 | a file is accepted exactly when its MIME type is in the list of seven, otherwise "Invalid file type" |
| Upload.AllowedAreMedia | backend/src/middleware/upload.ts:7 | every accepted type is an image or a video |
| Upload.FilterExamples | backend/src/middleware/upload.ts:7-12 | PNG and QuickTime pass; SVG, PDF and an upper-case type do not |
| Upload.Rejection | backend/src/middleware/upload.ts:16-22 | an upload is rejected exactly when its type is not allowed or it exceeds 25 MiB |
| Upload.RejectionStatus | backend/src/middleware/upload.ts:12-19 | a bad type is answered with 500 and an oversize file with 400 "File too large" |
| LogoService.Hex02Digits | python-microservice/app.py:61-62 | `{:02x}` of a byte is exactly two lower-case hex digits |
| LogoService.HexDigitValue | python-microservice/app.py:61-62 | each hex digit reads back as its value |
| LogoService.Hex02RoundTrip | python-microservice/app.py:61-62 | a two-digit byte reads back as itself |
| LogoService.RgbToHexRoundTrip | python-microservice/app.py:61-62 | `#rrggbb` is 7 characters and its pairs read back as the three components |
| LogoService.RgbToHex | python-microservice/app.py:61-62 | the colour is '#' followed by the three two-digit-or-longer components |
| LogoService.HexColorsSpec | python-microservice/app.py:64 | colour k of the list is the hex of palette entry k |
| LogoService.FirstNonBlank | python-microservice/app.py:40-41 | the brand line is the first non-blank line; none means all lines are blank |
| LogoService.BrandName | python-microservice/app.py:37-44 | without OCR text the brand name is the default |
| LogoService.BrandNameSpec | python-microservice/app.py:37-44 | the brand name is the first non-blank stripped line, or the default when there is none |
| LogoService.OneLineBrand | python-microservice/app.py:40-41 | a one-line text gives its stripped self |
| LogoService.StripStripped | python-microservice/app.py:38-40 | stripping twice is stripping once |
| LogoService.AnalyzeLogo | python-microservice/app.py:18-78 | a missing or unnamed file gives 400 and an unreadable one 500; otherwise the brand, the palette's hex colours and the first as dominant, with defaults when there is no palette |

## Left out

- HTTP, the database, Redis and sessions are not modelled as I/O. Every remote reply is a
  parameter (an oracle function or the reply value). A function oracle answers the same
  request with the same reply each time.
- The OAuth 1.0a signing, the multipart form encoding, the S3 upload body and
  `URLSearchParams` encoding are left out. The model keeps the name/value pairs, not the
  encoded text.
- `Date.now()` and `new Date()` become `now` parameters. `uploadMedia` reads the clock
  twice, so the Reddit upload takes `leaseNow` and `fileNow`.
- String lengths count Unicode scalar values. JavaScript counts UTF-16 code units, so
  the 278, 255, 100 and 2000 limits differ for text outside the basic plane.
- The OpenAI request and the prompt texts are left out. Only the handling of its reply is
  modelled.
- bcrypt hashing, JWT checks, the passport strategies and the auth and user routes are
  not part of this model.
- Cloudinary storage of uploads is not part of this model. The upload model is the
  filter, the size limit and the handler's answer.
- BullMQ's delay timer and retries are left out. The queue is a map from job id to job.
- `getReachStats` on all clients is left out. So are Twitter's `getPost`, `deletePost`
  and `getUserProfile`, and Reddit's `getPost`, `deletePost`, `getUserProfile` and
  token-exchange helpers, because each forwards one HTTP call.
- Tesseract OCR, ColorThief and PIL are parameters. Palette entries are natural numbers,
  so a negative component is not modelled.
- `Upload.Rejection`: the "File too large" text is multer's own message, written into the
  model.
- `PostRoutes.PublishPost` and `Scheduler.ProcessJob`: each send's outcome is a
  parameter, because the per-platform publish methods they call are not defined.
- `Base.LowerAllSpec`: lowers ASCII letters only. JavaScript's `toLowerCase` also lowers
  other letters, such as 'É'.
- `UserModel.NormalizeEmail`: only ASCII letters are lowered, so "É@x.io" is stored
  unchanged, where the source stores "é@x.io".
- `UserModel.User.constructor`: the email is lowered by the same ASCII-only rule.
- `UserModel.SaveNewUser`: the duplicate test compares ASCII-lowered emails, so it accepts
  both "É@x.io" and "é@x.io", which the source would reject as duplicates.
- `UserModel.EmailCaseCollides`: holds for case that differs in ASCII letters only.
- `TwitterApiClient.HandleOAuthCallback`: `found` is whichever lookup ran, `findById` or
  the `findOne` on `socialAccounts.twitter.id`. What that query returns depends on the
  stored documents and on the driver's handling of a path the schema does not declare.
- `OAuthRoutes.TwitterCallback`: when the strategy's own lookup finds a user, the strategy
  also rewrites and saves that user's Twitter tokens before the route runs. That save is
  not modelled; the route's answer to the user document it receives is.
- `Publishing.Aggregate`: `publishedAt` is the pass's `now`. The source reads the clock
  again at that point.
