# Discuzz.ai client core in Dafny

Discuzz.ai is a social feed where an author's post carries a *context
profile*: intent, tone, assumptions, audience and core argument. The author
builds the profile through an AI interview before publishing. Readers then
question an *AI delegate* that answers for the author.

This project models the client side of that system:

- the compose state machine (draft, interview, summary, review);
- the generator service with its fixed fallbacks;
- the two server routes that shape the prompts (transcript lines, last-five history window);
- the delegate chat controllers;
- the Redux slices for posts, users, comments, notifications, spaces and auth;
- the JSON mappers and the API helper;
- the small rules embedded in the page and its views: feed partition, search filter, profile filters, onboarding wizard, tag picker, profile editor, login form.

The form of each module follows its source:

- Stateful components and reducers become classes. Each class has the source's fields, one method per handler or reducer case, and `modifies` clauses.
- Pure helpers become functions with named results and lemmas.
- Every network or LLM answer is a parameter: `Fetched`, `Outcome`, `ApiResult` or `Settled`. So is every clock value, generated id and stored value.

Modules, one per file:

| Module | Source |
|---|---|
| `Util` | shared helpers: option, filter, join/split, ASCII lower-casing, JS `trim` blankness, integer printing |
| `Types` | the records of `types.ts` |
| `Api` | `lib/api.ts` |
| `Mappers` | `store/mappers.ts` |
| `Generation` | `services/geminiService.ts`, `app/api/context-profile/route.ts` and `app/api/delegate/route.ts` |
| `ComposeFlow` | `components/ComposeFlow.tsx` |
| `DelegateChat` | `components/InteractionModal.tsx` and `components/AiChatModal.tsx` |
| `PostsSlice`, `UsersSlice`, `CommentsSlice`, `NotificationsSlice`, `SpacesSlice`, `AuthSlice` | the six slices |
| `Page` | `app/page.tsx` |
| `FeedView`, `ExploreView`, `ProfileView`, `Onboarding`, `SpaceCreation`, `EditProfile`, `LoginView` | the matching components |

A reducer case is a method on the slice class that takes the action payload. A thunk is a function from its inputs and the server's answer to `Fulfilled(payload)` or `Rejected(message)`.

Where two parts of the source disagree, a lemma states the disagreement rather than hiding it:

- The client and server fallback profiles differ in `coreArgument`: `Generation.FallbackProfilesDisagree`.
- The delegate prompt ignores the audience: `Generation.InstructionIgnoresAudience`.
- The feed view and the page filter the Following tab differently: `FeedView.DiffersFromPageFilter`.
- The profile's following list matches handles case-insensitively, but its button label matches exactly: `ProfileView.ListedButLabelledFollow`.
- The unread counter decrements even for a notification that was already read: `NotificationsSlice.UnreadCountCanDrift`.

## Model

| member | source | states |
|---|---|---|
| Api.RejectMessage | store/postsSlice.ts:77 | `error?.message \|\| fallback`: the message when it is non-empty, otherwise the fallback |
| Api.Attempt | store/postsSlice.ts:57-79 | a thunk's try/catch: fulfilled iff the request succeeded, with the mapped payload; otherwise rejected with the message or the fallback, never empty when the fallback is not |
| Api.DefaultBase | lib/api.ts:1 | the configured base with one trailing "/" removed, or "http://localhost:8000" when it is unset or empties out; never empty |
| Api.ApiPrefix | lib/api.ts:2 | the configured prefix when it is non-empty, otherwise "/api/v1" |
| Api.BuildUrl | lib/api.ts:4-8 | a path starting with "http" is returned as-is; "/api/..." becomes base+path; any other path becomes base+prefix+path, with one "/" inserted when the path lacks it |
| Api.BuildUrlEndsWithPath | lib/api.ts:4-8 | whatever the branch, the built URL ends with the path itself |
| Api.FromDefinedEntryPrefix | lib/api.ts:18-21 | a pair kept from a prefix of the entries is kept from all of them |
| Api.KeptPairs | lib/api.ts:18-21 | every entry with a defined value yields its (key, String(value)) pair; every pair comes from such an entry |
| Api.KeptPairsStep | lib/api.ts:18-21 | one more entry appends its pair at the end when its value is defined and nothing otherwise: insertion order and repeats are kept |
| Api.KeptPairsAppend | lib/api.ts:18-21 | the pairs of two consecutive runs of entries are the first run's pairs followed by the second's |
| Api.JoinNonEmpty | lib/api.ts:22-23 | joining non-empty parts gives "" iff there are no parts |
| Api.QueryStringShape | lib/api.ts:15-24 | an absent query gives ""; otherwise the result is "" when nothing survives, and when something does it is "?" followed by the `escape(key)=escape(value)` parts of the kept pairs joined by "&" |
| Api.AllUndefinedGivesEmpty | lib/api.ts:18-23 | a query whose values are all undefined gives "" |
| Api.BuildQueryString | lib/api.ts:15-24 | the forEach loop computes exactly `QueryString`, the specification above |
| Api.FinalHeaders | lib/api.ts:30-36 | a token sets Authorization to "Bearer token"; without one the caller's Authorization, if any, is kept as given; Content-Type application/json is added only for a non-empty, non-FormData body when none is set; every other header is kept |
| Api.Decode | lib/api.ts:44-52 | an empty body gives null, parsable text the parsed JSON, anything else the raw text |
| Api.ErrorMessage | lib/api.ts:55 | a non-empty JSON `detail`; else a non-empty JSON `message`; else, and for non-JSON data always, the status text |
| Api.Settle | lib/api.ts:54-60 | success iff the response is ok, carrying the decoded body; otherwise a failure carrying the error message |
| Api.PlainTextErrorUsesStatus | lib/api.ts:54-58 | an error response with an empty or unparsable body fails with exactly the status text |
| Mappers.OrElse | store/mappers.ts:11 | JS `a \|\| b` on optional strings: `a` when it is present and non-empty, else `b` |
| Mappers.OrDefault | store/mappers.ts:12-14 | JS `a \|\| "default"`: the value when present and non-empty, else the default |
| Mappers.Coalesce | store/mappers.ts:17 | JS `a ?? b`: `a` when present, else `b` |
| Mappers.NormalizeHandle | store/mappers.ts:7-10 | "" stays ""; a handle starting with "@" is kept; any other handle gets one "@" in front |
| Mappers.NormalizeHandleIdempotent | store/mappers.ts:7-10 | normalizing twice is normalizing once: no doubled "@" |
| Mappers.StampOr | store/mappers.ts:55 | `timestamp \|\| created_at \|\| Date.now()` with the clock as a parameter |
| Mappers.IdOr | store/mappers.ts:42 | `String(id ?? uuid)`: a string id is kept, a numeric id printed, an absent id replaced by the fresh one |
| Mappers.OnboardingFlag | store/mappers.ts:18-22 | the explicit flag when present (snake case first), otherwise true iff interests is a non-empty array |
| Mappers.MapStats | store/mappers.ts:23-28 | absent stats stay absent; present stats default followers and following to 0 |
| Mappers.MapUser | store/mappers.ts:3-31 | every User field from its raw field(s) with the source's `\|\|`/`??` defaults and the normalized handle |
| Mappers.MapUserCanonical | store/mappers.ts:3-31 | every mapped user is canonical: normalized handle, non-empty avatar, and bio, location, website, interests and onboarding flag present |
| Mappers.MapUserRoundTrip | store/mappers.ts:3-31 | encoding a canonical user and mapping it back gives the same user |
| Mappers.MapContextProfile | store/mappers.ts:33-39 | five strings, "" for missing fields; coreArgument falls back to core_argument |
| Mappers.MapContextProfileRoundTrip | store/mappers.ts:33-39 | mapping an encoded profile gives the profile back |
| Mappers.MapPost | store/mappers.ts:41-56 | every Post field from its raw fields and the author fallback, with the normalized handle |
| Mappers.MapPostCounts | store/mappers.ts:52-53 | likes = likes ?? likes_count ?? 0 and replyCount = reply_count ?? replyCount ?? 0, so a present 0 is kept |
| Mappers.MapPostIsLiked | store/mappers.ts:54 | isLiked is true iff `is_liked` is true |
| Mappers.MapPostRoundTrip | store/mappers.ts:41-56 | a canonical post survives encoding and mapping |
| Mappers.MapPostCanonical | store/mappers.ts:41-56 | every mapped post is canonical: normalized handle, non-empty avatar, truthy timestamp (given a non-zero clock) |
| Mappers.MapComment | store/mappers.ts:58-65 | id, mapped author, content default "", timestamp fallback and the two optional flags |
| Mappers.MapNotification | store/mappers.ts:67-74 | read = read ?? is_read ?? false; id and timestamp fallbacks; mapped user |
| Mappers.MapSpaceParticipant | store/mappers.ts:76-82 | each flag is true only when its raw field is true |
| Mappers.ListenerCount | store/mappers.ts:93 | listener_count, else listenerCount, else the participant count, else 0 |
| Mappers.MapSpace | store/mappers.ts:84-94 | title/description default "", tags default []; each participant is `mapSpaceParticipant` of the raw one at the same index; isActive defaults to true; startedAt is `started_at \|\| startedAt` |
| Mappers.MapSpaceMessage | store/mappers.ts:96-101 | id, mapped user, content default "" and timestamp fallback |
| Generation.InterviewQuestions | services/geminiService.ts:14-32 | on success `data.questions` unchanged; on any failure exactly the three fallback questions |
| Generation.ClientFallbackProfile | services/geminiService.ts:49-55 | the neutral profile whose coreArgument is the draft |
| Generation.ContextProfileFor | services/geminiService.ts:36-57 | the server's profile on success, the client fallback profile on any failure |
| Generation.AsProfile | types.ts:1-7 | a complete route profile read field by field as the client's profile |
| Generation.ProfileReplyFrom | services/geminiService.ts:38-46 | no reply when the network fails; otherwise ok iff the status is 2xx, with a complete route profile readable as it is |
| Generation.ProfileEndToEndResult | services/geminiService.ts:36-57 | end to end, the client fallback (draft as core argument) appears only when the network fails; every failure inside the route reaches the client as the route's fallback, with an empty core argument; a complete parsed profile arrives as it is |
| Generation.DelegateRequestFor | services/geminiService.ts:67-71 | the request forwards post, profile, query and the whole chat history unmodified |
| Generation.DelegateReply | services/geminiService.ts:60-80 | the server's reply on success, "I am unable to respond at this moment." otherwise |
| Generation.InterviewKeepsAnyCount | services/geminiService.ts:23-24 | a successful answer keeps its length, zero included |
| Generation.InterviewErrorStatusFallsBack | services/geminiService.ts:22 | a non-2xx answer gives the fallback questions whatever its body |
| Generation.TranscriptLines | app/api/context-profile/route.ts:19 | one "ROLE: content" line per message, role upper-cased, in message order |
| Generation.TranscriptLinesRecoverable | app/api/context-profile/route.ts:19 | splitting the transcript on "\n" gives back the lines when no content has a line break |
| Generation.LineHasNoBreak | app/api/context-profile/route.ts:19 | a speaker label plus line-free content is a single line |
| Generation.ProfileRoute | app/api/context-profile/route.ts:13-67 | always status 200; a bad request, a missing key, a failed model call, an empty text or unparsable JSON give the fallback; parsed JSON is returned as it is |
| Generation.ProfileRouteEmptyText | app/api/context-profile/route.ts:51-52 | an empty model text gives the fallback profile |
| Generation.ProfileRouteDoesNotValidate | app/api/context-profile/route.ts:54-55 | a parsed profile missing fields is returned as-is |
| Generation.FallbackProfilesDisagree | app/api/context-profile/route.ts:58-64 | the server fallback has coreArgument "" where the client's has the draft; the other four fields agree |
| Generation.HistoryWindow | app/api/delegate/route.ts:20 | the last min(5, n) entries, a suffix of the history in its order |
| Generation.HistoryLines | app/api/delegate/route.ts:19-22 | one line per windowed entry, "Reader" for the user and "Author Delegate" for every other role |
| Generation.EmptyHistoryText | app/api/delegate/route.ts:19-22 | an empty history gives an empty history text |
| Generation.HistoryTextLines | app/api/delegate/route.ts:19-22 | the history text splits back into exactly min(5, n) lines |
| Generation.InstructionIgnoresAudience | app/api/delegate/route.ts:24-58 | for every request, key and model call, changing only the profile's audience leaves the route's reply unchanged |
| Generation.DelegateContents | app/api/delegate/route.ts:46-51 | the contents are the header, the history text, then "Reader: query" and the trailer |
| Generation.DelegateRoute | app/api/delegate/route.ts:13-63 | always status 200 with a non-empty reply; failures give the fixed fallback |
| Generation.DelegateEndToEndReply | app/api/delegate/route.ts:57-61 | through service and route, the reader always gets a non-empty reply |
| ComposeFlow.ReplayShape | components/ComposeFlow.tsx:89-102 | a replay to index i has 1 + 2i messages: the intro, then answer j and question j+1 for each j < i |
| ComposeFlow.SameChatAppend | components/ComposeFlow.tsx:89-102 | equality up to timestamps is preserved by concatenation |
| ComposeFlow.ReplayTimeless | components/ComposeFlow.tsx:77-106 | a replay depends only on (questions, answers, index), up to timestamps |
| ComposeFlow.ReplayReadsEarlierAnswers | components/ComposeFlow.tsx:89-102 | a replay to index i reads no answer at or after i |
| ComposeFlow.CleanHistoryShape | components/ComposeFlow.tsx:170-173 | the synthesis transcript has 2n messages alternating model question i and user answer i |
| ComposeFlow.ComposeTranscriptLines | components/ComposeFlow.tsx:170-173 | the server turns that transcript into "MODEL: question" / "USER: answer" lines |
| ComposeFlow.EditAtKeepsInv | components/ComposeFlow.tsx:77-106 | replaying keeps the composer invariant |
| ComposeFlow.SendAnswerKeepsInv | components/ComposeFlow.tsx:125-165 | storing a non-blank answer keeps the composer invariant |
| ComposeFlow.Composer.constructor | components/ComposeFlow.tsx:20-33 | starts at DRAFT with everything empty |
| ComposeFlow.Composer.SetDraft | components/ComposeFlow.tsx:285 | changes only the draft |
| ComposeFlow.Composer.SetAnswerInput | components/ComposeFlow.tsx:430 | changes only the answer box |
| ComposeFlow.Composer.AttachImage | components/ComposeFlow.tsx:205-212 | sets only the attached image |
| ComposeFlow.Composer.DetachImage | components/ComposeFlow.tsx:298 | clears only the attached image |
| ComposeFlow.Composer.StartInterview | components/ComposeFlow.tsx:42-61 | a blank draft changes nothing; otherwise answers are n empty strings and the index is 0; INTERVIEW is entered only with at least one question, with one intro message |
| ComposeFlow.Composer.EditAt | components/ComposeFlow.tsx:77-106 | the loop builds exactly `Replay(questions, answers, index)`, prefills answers[index] and keeps questions and answers |
| ComposeFlow.Composer.Back | components/ComposeFlow.tsx:108-123 | INTERVIEW at 0 goes to DRAFT emptying the queue and keeping the draft; at i > 0 replays i-1; SUMMARY replays the last index; REVIEW goes to SUMMARY keeping the profile |
| ComposeFlow.Composer.SendAnswer | components/ComposeFlow.tsx:125-165 | a blank answer is a no-op; otherwise only answers[index] changes, one user message is appended, and the next question follows or SUMMARY is reached |
| ComposeFlow.Composer.Synthesize | components/ComposeFlow.tsx:167-177 | sends the draft and the clean transcript, stores the resulting profile and moves to REVIEW |
| ComposeFlow.Composer.FinalPublish | components/ComposeFlow.tsx:185-202 | no profile, no post; otherwise content = draft, profile attached, 0 likes and 0 replies |
| DelegateChat.GreetingsNameAuthor | components/InteractionModal.tsx:37 | both greeting texts name the post's author |
| DelegateChat.AiReplyComment | components/InteractionModal.tsx:111-122 | the AI reply is flagged isAiResponse, replies to the trigger, and is signed "<author> (AI Delegate)" with the author's handle and avatar |
| DelegateChat.InteractionModal.constructor | components/InteractionModal.tsx:19-45 | starts with the tab and context flag from the props and one welcome message when a post is open |
| DelegateChat.InteractionModal.PropsChanged | components/InteractionModal.tsx:31-45 | a post resets the chat to exactly the welcome message and resets the tab and context flag |
| DelegateChat.InteractionModal.SetInput | components/InteractionModal.tsx:21 | changes only the private input |
| DelegateChat.InteractionModal.SetPublicInput | components/InteractionModal.tsx:29 | changes only the public input |
| DelegateChat.InteractionModal.BeginSendPrivate | components/InteractionModal.tsx:55-70 | blank input or no post: nothing; otherwise appends the user message, clears the input, sets typing and sends the pre-append history |
| DelegateChat.InteractionModal.FinishSendPrivate | components/InteractionModal.tsx:72-84 | appends exactly one model message with the reply and clears typing |
| DelegateChat.InteractionModal.BeginPostComment | components/InteractionModal.tsx:87-108 | a blank comment is a no-op; otherwise appends the user comment first and asks with an empty history |
| DelegateChat.InteractionModal.FinishPostComment | components/InteractionModal.tsx:110-125 | appends exactly the AI reply comment and clears typing |
| DelegateChat.PublicReplyPromptHasNoHistory | components/InteractionModal.tsx:103-108 | the public reply request carries an empty history |
| DelegateChat.AiChatModal.constructor | components/AiChatModal.tsx:16-32 | starts with exactly the intro message |
| DelegateChat.AiChatModal.PostChanged | components/AiChatModal.tsx:23-32 | a post change resets the messages to the intro naming the author |
| DelegateChat.AiChatModal.SetInput | components/AiChatModal.tsx:18 | changes only the input |
| DelegateChat.AiChatModal.BeginSend | components/AiChatModal.tsx:40-59 | blank input: nothing; otherwise appends the user message, clears the input, sets typing and sends the pre-append history |
| DelegateChat.AiChatModal.FinishSend | components/AiChatModal.tsx:60-71 | appends exactly one model message with the reply and clears typing |
| PostsSlice.BothFeeds | store/postsSlice.ts:39-48 | the feeds map has both feeds, each with its given state |
| PostsSlice.MapPosts | store/postsSlice.ts:74 | every raw post mapped, in order |
| PostsSlice.FeedQuery | store/postsSlice.ts:55-66 | feed name, page (default 1) and per_page (default 20) |
| PostsSlice.FeedQueryNeverEmpty | store/postsSlice.ts:55-66 | the feed query string is never empty |
| PostsSlice.FetchFeed | store/postsSlice.ts:50-80 | fulfilled iff the request succeeds, with the mapped items and the page data; otherwise "Unable to load feed" or the message |
| PostsSlice.CreatePostBody | store/postsSlice.ts:103-119 | the body carries content, image and history unchanged and the profile in snake case |
| PostsSlice.CreatePostProfileRoundTrip | store/postsSlice.ts:103-119 | mapping the sent profile back gives the profile |
| PostsSlice.CreatePost | store/postsSlice.ts:82-127 | no token rejects with "You must be logged in to post"; otherwise the mapped post or the error |
| PostsSlice.LikeMethod | store/postsSlice.ts:138 | DELETE iff currently liked, POST iff not |
| PostsSlice.ToggleLike | store/postsSlice.ts:129-149 | no token rejects; success returns the negated isLiked and the server's count |
| PostsSlice.StripAt | store/postsSlice.ts:156 | removes exactly one leading "@" |
| PostsSlice.FetchUserPosts | store/postsSlice.ts:151-170 | fulfilled under the key "@"+stripped handle with the mapped posts, or rejected |
| PostsSlice.UserPostsKeyMatchesAuthorHandle | store/postsSlice.ts:165 | for a non-empty handle the key equals the mapper's normalized handle; "" is the exception |
| PostsSlice.SearchPosts | store/postsSlice.ts:172-187 | the mapped results, or "Search failed" or the message |
| PostsSlice.UpdatePostCollection | store/postsSlice.ts:189-190 | only posts with the id are updated; length and order are kept |
| PostsSlice.UpdateKeepsIds | store/postsSlice.ts:189-190 | an id-preserving updater keeps every id in place |
| PostsSlice.LikeUpdateIdempotent | store/postsSlice.ts:233-242 | applying the same like payload twice equals applying it once |
| PostsSlice.AddCommentBumpsOnce | store/postsSlice.ts:254-268 | addComment raises replyCount by exactly 1 on matching posts and changes nothing else |
| PostsSlice.UpdateAllBuckets | store/postsSlice.ts:243-249 | same keys and lengths; in every bucket a post with the id is replaced by the updater's result and every other post is kept at its place |
| PostsSlice.PostsState.constructor | store/postsSlice.ts:39-48 | two initial feeds, no user posts, no results, not creating, no error |
| PostsSlice.PostsState.ClearSearch | store/postsSlice.ts:196-198 | empties only the search results |
| PostsSlice.PostsState.FetchFeedPending | store/postsSlice.ts:202-205 | sets loading on the named feed only |
| PostsSlice.PostsState.FetchFeedFulfilled | store/postsSlice.ts:206-213 | page > 1 appends, otherwise replaces; records page, perPage and hasNext and clears loading |
| PostsSlice.PostsState.FetchFeedRejected | store/postsSlice.ts:214-218 | clears loading on the named feed and records the error |
| PostsSlice.PostsState.CreatePostPending | store/postsSlice.ts:219-222 | sets creating and clears the error |
| PostsSlice.PostsState.CreatePostFulfilled | store/postsSlice.ts:223-228 | prepends to the foryou feed and to the author's bucket, creating it; following untouched |
| PostsSlice.PostsState.CreatePostRejected | store/postsSlice.ts:229-232 | clears creating and records the error |
| PostsSlice.PostsState.UpdateUserPosts | store/postsSlice.ts:243-249 | the forEach over buckets computes `UpdateAllBuckets` |
| PostsSlice.PostsState.UpdateEverywhere | store/postsSlice.ts:235-249 | updates the post in both feeds and every bucket, nothing else |
| PostsSlice.PostsState.ToggleLikeFulfilled | store/postsSlice.ts:233-250 | sets isLiked and likes on matching posts in both feeds and every bucket; each feed's paging and loading fields and the rest of the state are kept |
| PostsSlice.PostsState.AddCommentFulfilled | store/postsSlice.ts:254-268 | bumps replyCount on matching posts in both feeds and every bucket; each feed's paging and loading fields and the rest of the state are kept |
| PostsSlice.PostsState.FetchUserPostsFulfilled | store/postsSlice.ts:269-272 | replaces only that handle's bucket |
| PostsSlice.PostsState.SearchFulfilled | store/postsSlice.ts:276-278 | replaces the search results |
| PostsSlice.PostsState.RecordError | store/postsSlice.ts:251-253 | records the error, nothing else |
| PostsSlice.PostsState.Logout | store/postsSlice.ts:282-290 | resets both feeds, empties user posts and results; the error is kept |
| UsersSlice.NormalizeHandle | store/usersSlice.ts:24 | the result starts with "@" and is the lower-cased handle with an "@" ensured |
| UsersSlice.NormalizeHandleIdempotent | store/usersSlice.ts:24 | normalizing twice is normalizing once |
| UsersSlice.NormalizeHandleIgnoresCase | store/usersSlice.ts:24 | letter case does not matter |
| UsersSlice.AgreesWithMapperOnLowerCase | store/usersSlice.ts:24 | on a non-empty lower-case handle it agrees with the mapper's normalization |
| UsersSlice.MapUsers | store/usersSlice.ts:31 | every raw user mapped, in order |
| UsersSlice.SearchUsers | store/usersSlice.ts:26-36 | the mapped users, or "User search failed" or the message |
| UsersSlice.FetchUserProfile | store/usersSlice.ts:38-49 | the mapped user, or "Unable to load profile" or the message |
| UsersSlice.FetchFollowing | store/usersSlice.ts:51-62 | the mapped users, or "Unable to load following list" or the message |
| UsersSlice.FollowUser | store/usersSlice.ts:64-78 | no token rejects with "Login required"; success yields the normalized handle |
| UsersSlice.UnfollowUser | store/usersSlice.ts:80-94 | no token rejects with "Login required"; success yields the normalized handle |
| UsersSlice.Keys | store/usersSlice.ts:122 | the normalized handle of each user, in payload order |
| UsersSlice.UpsertProfiles | store/usersSlice.ts:123-125 | the keys are the old ones plus every payload key |
| UsersSlice.UpsertKeepsOthers | store/usersSlice.ts:123-125 | a profile whose key is not in the payload is unchanged |
| UsersSlice.UpsertLastWins | store/usersSlice.ts:123-125 | each key maps to the last payload user with that key |
| UsersSlice.UsersState.constructor | store/usersSlice.ts:17-22 | everything empty |
| UsersSlice.UsersState.SearchPending | store/usersSlice.ts:102-105 | sets loading and clears the error |
| UsersSlice.UsersState.SearchFulfilled | store/usersSlice.ts:106-109 | replaces the results and clears loading |
| UsersSlice.UsersState.SearchRejected | store/usersSlice.ts:110-113 | clears loading and records the error |
| UsersSlice.UsersState.FetchUserProfileFulfilled | store/usersSlice.ts:114-117 | stores the profile under its normalized handle; other profiles unchanged |
| UsersSlice.UsersState.FetchUserProfileRejected | store/usersSlice.ts:118-120 | records the error only |
| UsersSlice.UsersState.FetchFollowingFulfilled | store/usersSlice.ts:121-126 | following = normalized handles in payload order; profiles upserted |
| UsersSlice.UsersState.FollowFulfilled | store/usersSlice.ts:127-131 | adds the handle only if absent |
| UsersSlice.UsersState.UnfollowFulfilled | store/usersSlice.ts:132-134 | removes every occurrence, keeping the rest in order |
| UsersSlice.UsersState.Logout | store/usersSlice.ts:135-139 | clears following, results and profiles |
| UsersSlice.FollowIdempotent | store/usersSlice.ts:127-131 | following twice is following once; no duplicate is ever added |
| UsersSlice.UnfollowKeepsOthers | store/usersSlice.ts:132-134 | exactly the other handles remain, still duplicate-free |
| CommentsSlice.EnsureBucket | store/commentsSlice.ts:67-72 | creates an empty bucket only when the key is missing; existing buckets untouched |
| CommentsSlice.EnsureBucketIdempotent | store/commentsSlice.ts:67-72 | ensuring twice is ensuring once |
| CommentsSlice.MapComments | store/commentsSlice.ts:32 | every raw comment mapped, in order |
| CommentsSlice.FetchComments | store/commentsSlice.ts:27-37 | the mapped comments for the post, or "Unable to load comments" or the message |
| CommentsSlice.AddComment | store/commentsSlice.ts:39-65 | no token rejects with "Login required"; success yields the mapped comment for the post |
| CommentsSlice.CommentsState.constructor | store/commentsSlice.ts:23-25 | empty map |
| CommentsSlice.CommentsState.ClearComments | store/commentsSlice.ts:78-80 | deletes only that key |
| CommentsSlice.CommentsState.FetchPending | store/commentsSlice.ts:84-88 | sets loading and clears the error on that post's bucket only |
| CommentsSlice.CommentsState.FetchFulfilled | store/commentsSlice.ts:89-94 | replaces that post's items and clears loading |
| CommentsSlice.CommentsState.FetchRejected | store/commentsSlice.ts:95-99 | clears loading and records the error on that bucket |
| CommentsSlice.CommentsState.AddFulfilled | store/commentsSlice.ts:100-104 | appends one comment to that post's list |
| CommentsSlice.CommentsState.AddRejected | store/commentsSlice.ts:105-108 | records the error on that post's bucket |
| CommentsSlice.CommentsState.Logout | store/commentsSlice.ts:109-111 | empties the map |
| CommentsSlice.AppendComment | store/commentsSlice.ts:100-104 | the post's bucket exists afterwards and no other key is added |
| CommentsSlice.AppendCommentOnlyThatPost | store/commentsSlice.ts:100-104 | the list grows by exactly that comment at the end; other posts untouched |
| NotificationsSlice.NotificationsQuery | store/notificationsSlice.ts:32 | unread_only is true only when asked for |
| NotificationsSlice.FetchNotifications | store/notificationsSlice.ts:22-39 | no token rejects with "Login required"; success gives the mapped items and unread_count or 0 |
| NotificationsSlice.MarkAllRead | store/notificationsSlice.ts:41-52 | no token rejects; success fulfils |
| NotificationsSlice.MarkNotificationRead | store/notificationsSlice.ts:54-68 | no token rejects; success yields the id |
| NotificationsSlice.AllRead | store/notificationsSlice.ts:89-92 | every item read, otherwise unchanged; length and order kept |
| NotificationsSlice.MarkRead | store/notificationsSlice.ts:93-94 | only items with the id become read |
| NotificationsSlice.MarkEachIsMarkAll | store/notificationsSlice.ts:89-94 | marking every id one by one equals marking all |
| NotificationsSlice.MarkReadAll | store/notificationsSlice.ts:93-94 | marking a list of ids keeps the length |
| NotificationsSlice.MarkReadAllShape | store/notificationsSlice.ts:93-94 | an item ends read iff it was read or its id was marked |
| NotificationsSlice.DecrementUnread | store/notificationsSlice.ts:95 | max(0, count-1): never negative |
| NotificationsSlice.UnreadCountCanDrift | store/notificationsSlice.ts:93-95 | marking an already-read notification changes no item yet lowers the count |
| NotificationsSlice.NotificationsState.constructor | store/notificationsSlice.ts:16-20 | empty, count 0 |
| NotificationsSlice.NotificationsState.FetchPending | store/notificationsSlice.ts:76-79 | sets loading and clears the error |
| NotificationsSlice.NotificationsState.FetchFulfilled | store/notificationsSlice.ts:80-84 | replaces items and the count |
| NotificationsSlice.NotificationsState.FetchRejected | store/notificationsSlice.ts:85-88 | clears loading and records the error |
| NotificationsSlice.NotificationsState.MarkAllReadFulfilled | store/notificationsSlice.ts:89-92 | all read, count 0 |
| NotificationsSlice.NotificationsState.MarkReadFulfilled | store/notificationsSlice.ts:93-96 | marks the id read and decrements the count, not below 0 |
| NotificationsSlice.NotificationsState.Logout | store/notificationsSlice.ts:97-102 | resets items, count, loading and error |
| SpacesSlice.WithToken | store/spacesSlice.ts:37-38 | no token rejects with "Login required", otherwise the attempt |
| SpacesSlice.FetchSpaces | store/spacesSlice.ts:24-31 | the spaces mapped one by one, or the error |
| SpacesSlice.CreateSpace | store/spacesSlice.ts:33-51 | token guard, then the mapped space or the error |
| SpacesSlice.JoinSpace | store/spacesSlice.ts:53-70 | token guard, then the space id with the mapped participant |
| SpacesSlice.LeaveSpace | store/spacesSlice.ts:72-89 | token guard, then the space id |
| SpacesSlice.EndSpace | store/spacesSlice.ts:91-105 | token guard, then the space id |
| SpacesSlice.FetchSpaceMessages | store/spacesSlice.ts:107-117 | the space id with its messages mapped one by one |
| SpacesSlice.SendSpaceMessage | store/spacesSlice.ts:119-137 | token guard, then the space id with the mapped message |
| SpacesSlice.ToggleHandRaise | store/spacesSlice.ts:139-156 | token guard, then the space id with the server's flag |
| SpacesSlice.EndSpaceRemovesEveryMatch | store/spacesSlice.ts:196-202 | no remaining space has the id and every other space is kept |
| SpacesSlice.SpacesState.constructor | store/spacesSlice.ts:17-22 | empty |
| SpacesSlice.SpacesState.SetCurrentSpace | store/spacesSlice.ts:162-164 | sets only the current space |
| SpacesSlice.SpacesState.FetchPending | store/spacesSlice.ts:168-171 | sets loading and clears the error |
| SpacesSlice.SpacesState.FetchFulfilled | store/spacesSlice.ts:172-175 | replaces the active spaces |
| SpacesSlice.SpacesState.FetchRejected | store/spacesSlice.ts:176-179 | clears loading and records the error |
| SpacesSlice.SpacesState.CreateFulfilled | store/spacesSlice.ts:180-183 | sets the current space and prepends it |
| SpacesSlice.SpacesState.JoinFulfilled | store/spacesSlice.ts:184-189 | appends the participant only when the current space matches |
| SpacesSlice.SpacesState.LeaveFulfilled | store/spacesSlice.ts:190-195 | clears the current space on a match; active spaces untouched |
| SpacesSlice.SpacesState.EndFulfilled | store/spacesSlice.ts:196-202 | removes every space with the id and clears the current one on a match |
| SpacesSlice.SpacesState.MessagesFulfilled | store/spacesSlice.ts:203-206 | replaces that space's messages only |
| SpacesSlice.SpacesState.SendFulfilled | store/spacesSlice.ts:207-211 | appends to that space's messages, creating the list |
| SpacesSlice.SpacesState.Logout | store/spacesSlice.ts:212-216 | empties spaces and messages and clears the current space |
| AuthSlice.Tokens | store/authSlice.ts:60-64 | the token pair is taken field by field from the response |
| AuthSlice.Exchange | store/authSlice.ts:47-73 | a failed exchange or a failed /auth/me rejects with its message or the fallback; both succeeding gives tokens and mapped user |
| AuthSlice.SignIn | store/authSlice.ts:47-129 | fulfilled iff both requests succeed, with their tokens and user; a rejection always has a message |
| AuthSlice.FetchCurrentUser | store/authSlice.ts:131-145 | no access token rejects; otherwise the mapped user or the error |
| AuthSlice.RefreshSession | store/authSlice.ts:147-176 | no refresh token rejects; otherwise the exchange with "Unable to refresh session" |
| AuthSlice.SignInFailureHasMessage | store/authSlice.ts:69-71 | a failed sign-in reports the failing request's message or the fallback |
| AuthSlice.AuthState.constructor | store/authSlice.ts:37-43 | no user, no tokens, not loading |
| AuthSlice.AuthState.Logout | store/authSlice.ts:182-188 | clears user, tokens, error and storage; loading kept |
| AuthSlice.AuthState.SetUser | store/authSlice.ts:189-191 | sets only the user |
| AuthSlice.AuthState.SetTokens | store/authSlice.ts:192-199 | none clears both tokens and the user; tokens set both and keep the user |
| AuthSlice.AuthState.Pending | store/authSlice.ts:203-206 | loading on, error cleared |
| AuthSlice.AuthState.SignedIn | store/authSlice.ts:207-213 | loading off; user and both tokens from the payload, persisted |
| AuthSlice.AuthState.Failed | store/authSlice.ts:214-217 | loading off; error = message |
| AuthSlice.AuthState.CurrentUserFulfilled | store/authSlice.ts:252-255 | loading off; user set |
| AuthSlice.AuthState.Refreshed | store/authSlice.ts:260-265 | user and tokens updated, loading untouched |
| AuthSlice.AuthState.RefreshRejected | store/authSlice.ts:266-268 | records the error only |
| Page.RestoredTheme | app/page.tsx:26-29 | a stored theme applies only when it is exactly "light" or "dark" |
| Page.ThemeRoundTrip | app/page.tsx:25-34 | a theme written to storage is restored as itself |
| Page.LikeToggled | app/page.tsx:64-78 | only matching posts flip isLiked, likes +1 when newly liked and -1 when unliked |
| Page.LikeTwiceRestores | app/page.tsx:64-78 | liking twice restores the posts |
| Page.FollowingPosts | app/page.tsx:164-172 | posts whose author is followed or is the user, exact match |
| Page.DisplayPosts | app/page.tsx:164-172 | For You shows all posts, Following the filter above |
| Page.OwnPostsAlwaysFollowing | app/page.tsx:169 | the user's own posts are always on the Following tab |
| Page.AppPage.constructor | app/page.tsx:20-52 | logged out, dark theme, FEED view, foryou tab, the given user, posts and follow set |
| Page.AppPage.RestoreTheme | app/page.tsx:25-34 | applies the stored theme and writes the result back |
| Page.AppPage.SetTheme | app/page.tsx:32-34 | sets and stores the theme |
| Page.AppPage.HandlePublish | app/page.tsx:54-62 | prepends the post, closes compose, FEED view, foryou tab |
| Page.AppPage.HandleLike | app/page.tsx:64-78 | posts become `LikeToggled` of the old ones |
| Page.AppPage.HandleToggleFollow | app/page.tsx:80-101 | flips membership; following count +1 on add, -1 on remove |
| Page.AppPage.HandleUpdateProfile | app/page.tsx:103-105 | replaces the current user |
| Page.AppPage.HandleLogin | app/page.tsx:282 | logs in |
| Page.AppPage.HandleLogout | app/page.tsx:107-110 | logs out and shows the FEED view |
| Page.AppPage.Displayed | app/page.tsx:164-172 | all posts on For You; on Following exactly `FollowingPosts` of the posts, the follow set and the user's handle; always drawn from the posts |
| Page.FollowThenUnfollow | app/page.tsx:80-101 | following then unfollowing a new handle restores the set |
| FeedView.AuthorKey | components/FeedView.tsx:25 | one leading "@" removed, lower-cased |
| FeedView.AuthorKeyIgnoresCaseAndAt | components/FeedView.tsx:25 | handles differing only in case or a leading "@" share a key |
| FeedView.FollowedKeys | components/FeedView.tsx:49-54 | exactly the followed keys plus the user's own key |
| FeedView.ForYouPosts | components/FeedView.tsx:56-61 | posts whose author key is not followed, in order |
| FeedView.FollowingPosts | components/FeedView.tsx:56-61 | posts whose author key is followed, in order |
| FeedView.DisplayPosts | components/FeedView.tsx:56-61 | the tab's list |
| FeedView.TabsPartition | components/FeedView.tsx:56-61 | the tabs split the posts: lengths add up, multisets add up, both are ordered subsequences |
| FeedView.OwnPostsNeverForYou | components/FeedView.tsx:53-58 | the user's own posts never appear on For You |
| FeedView.DiffersFromPageFilter | components/FeedView.tsx:25-61 | a post by "alice" with "@Alice" followed shows here but not on the page's tab; own posts show on the page's For You but not here |
| ExploreView.FilteredPosts | components/ExploreView.tsx:17-22 | kept iff the lower-cased query occurs in content, name or handle; an ordered subsequence |
| ExploreView.EmptyQueryKeepsAll | components/ExploreView.tsx:17-22 | the empty query keeps every post |
| ExploreView.CaseInsensitiveQuery | components/ExploreView.tsx:19-21 | queries equal up to case give the same result |
| ExploreView.LowerCaseQuery | components/ExploreView.tsx:19-21 | a query and its lower-cased form give the same result |
| ProfileView.UserPosts | components/ProfileView.tsx:47 | exactly the posts by the user's handle, in order |
| ProfileView.LikedPosts | components/ProfileView.tsx:48 | exactly the liked posts, in order |
| ProfileView.FollowUsers | components/ProfileView.tsx:66-72 | empty input gives []; the following list keeps users whose handle or lower-cased handle is followed; otherwise all |
| ProfileView.FollowButtonLabel | components/ProfileView.tsx:336 | "Unfollow" iff the exact handle is followed |
| ProfileView.ListedButLabelledFollow | components/ProfileView.tsx:66-72 | "@Bob" is listed with "@bob" followed but labelled "Follow" |
| Onboarding.BackUndoesNext | components/OnBoardingFlow.tsx:81-86 | back undoes next; only VERIFICATION has no previous step |
| Onboarding.InitialLanguage | components/OnBoardingFlow.tsx:35-36 | the user's language when offered, else "English"; always offered |
| Onboarding.Toggle | components/OnBoardingFlow.tsx:65-70 | flips membership of the item only; duplicate-free stays duplicate-free |
| Onboarding.ToggleTwice | components/OnBoardingFlow.tsx:65-70 | toggling twice restores the members, and the exact list when the item was absent |
| Onboarding.OnboardingFlow.constructor | components/OnBoardingFlow.tsx:26-36 | VERIFICATION, empty code, the user's interests and initial language |
| Onboarding.OnboardingFlow.VerificationChange | components/OnBoardingFlow.tsx:41-46 | input longer than one character is ignored; otherwise only that digit changes |
| Onboarding.OnboardingFlow.ProfileChange | components/OnBoardingFlow.tsx:60-63 | changes only the named field |
| Onboarding.OnboardingFlow.ToggleInterest | components/OnBoardingFlow.tsx:65-70 | toggles the interest only |
| Onboarding.OnboardingFlow.ToggleLanguage | components/OnBoardingFlow.tsx:65-70 | toggles the language only |
| Onboarding.OnboardingFlow.ToggleFollow | components/OnBoardingFlow.tsx:73-78 | toggles the follow only |
| Onboarding.OnboardingFlow.NextEnabled | components/OnBoardingFlow.tsx:124 | verify needs all six digits; FOLLOWS needs a follow; PERMISSIONS needs not saving |
| Onboarding.OnboardingFlow.Next | components/OnBoardingFlow.tsx:81-97 | advances one step; at PERMISSIONS completes only when not saving, with the sets as lists |
| Onboarding.OnboardingFlow.Back | components/OnBoardingFlow.tsx:349-356 | moves exactly one step back |
| SpaceCreation.RemoveOnce | components/SpaceCreationModal.tsx:22-23 | removing a present tag from a duplicate-free list shortens it by one |
| SpaceCreation.SpaceCreationModal.constructor | components/SpaceCreationModal.tsx:13-14 | empty title and tags |
| SpaceCreation.SpaceCreationModal.SetTitle | components/SpaceCreationModal.tsx:13 | changes only the title |
| SpaceCreation.SpaceCreationModal.ToggleTag | components/SpaceCreationModal.tsx:21-27 | a selected tag is removed keeping order; an unselected one is appended only below 3; at most 3, no duplicates |
| SpaceCreation.SpaceCreationModal.CanStart | components/SpaceCreationModal.tsx:150-151 | enabled iff the title has a non-space character |
| SpaceCreation.SpaceCreationModal.Start | components/SpaceCreationModal.tsx:150-151 | starts only when enabled, with the untrimmed title and the tags |
| EditProfile.InitialForm | components/EditProfileModal.tsx:16-21 | the user's fields, "" for missing bio, location and website |
| EditProfile.Merged | components/EditProfileModal.tsx:35-38 | the four fields replaced, every other field kept |
| EditProfile.UntouchedSave | components/EditProfileModal.tsx:16-38 | saving an untouched form changes nothing unless a field was missing, which becomes "" |
| EditProfile.EditProfileModal.constructor | components/EditProfileModal.tsx:16-22 | the form from the user, not loading |
| EditProfile.EditProfileModal.Change | components/EditProfileModal.tsx:24-27 | changes only the named field |
| EditProfile.EditProfileModal.Submit | components/EditProfileModal.tsx:29-34 | sets loading and schedules a save that holds the form as it is at submit |
| EditProfile.EditProfileModal.SaveElapsed | components/EditProfileModal.tsx:34-41 | the oldest scheduled save fires: the user merged with the form captured at its submit, then loading cleared and the dialog closed |
| EditProfile.EditDuringSaveIsLost | components/EditProfileModal.tsx:24-41 | a name typed after submit and before the timer fires does not reach the saved user |
| LoginView.LoginForm.constructor | components/LoginView.tsx:12-18 | closed: landing, empty fields, no errors |
| LoginView.LoginForm.SetEmail | components/LoginView.tsx:136 | changes only the email |
| LoginView.LoginForm.SetPassword | components/LoginView.tsx:144 | changes only the password |
| LoginView.LoginForm.ResetState | components/LoginView.tsx:20-26 | clears fields, errors and loading; step kept |
| LoginView.LoginForm.CloseModal | components/LoginView.tsx:28-31 | resets and returns to landing |
| LoginView.LoginForm.Open | components/LoginView.tsx:162-165 | resets every field and error, then opens the step |
| LoginView.LoginForm.BeginSubmitAuth | components/LoginView.tsx:33-39 | a click while loading (disabled button) does nothing; a missing field sets "Email and password are required" and sends nothing; otherwise loading starts, the form error clears and the callback receives the credentials |
| LoginView.LoginForm.FinishSubmitAuth | components/LoginView.tsx:40-51 | once the callback settles: success closes the dialog; failure sets the message or "Unable to authenticate", keeping step and fields; loading ends |
| LoginView.LoginForm.BeginGoogle | components/LoginView.tsx:54-60 | a click while loading does nothing; unconfigured sets "Google Sign-In is not configured" and tries nothing; otherwise loading starts and the Google error clears |
| LoginView.LoginForm.GooglePopupSettled | components/LoginView.tsx:61-68 | a popup error sets the message or "Google sign-in failed" and ends loading; a token goes on to onGoogleLogin with loading kept |
| LoginView.LoginForm.FinishGoogle | components/LoginView.tsx:63-69 | once onGoogleLogin settles: success closes the dialog; failure sets the message or "Google sign-in failed"; loading ends |
| LoginView.SecondSubmitRefused | components/LoginView.tsx:33-52 | a second submit while the first is in flight sends nothing |

## Left out

- Network, LLM and Firebase calls are parameters (`Fetched`, `Outcome`, `ApiResult`, `Settled`). The wording and quality of generated text are not modelled.
- Generation.InterviewQuestions, Generation.ContextProfileFor and Generation.DelegateReply: a 2xx body that parses but lacks the field read (`questions`, `profile`, `response`) makes the source return `undefined` (services/geminiService.ts:24, 46, 75). The model folds that case into `Fail`, so it gives the fallback instead.
- Generation.ContextProfileFor: the reply is typed over complete profiles. The route returns parsed JSON unchecked (`ProfileRouteDoesNotValidate`), and the client passes it on as is (services/geminiService.ts:44-46). A profile with missing fields therefore reaches the composer in the source. In the model, `ProfileReplyFrom` delivers it as an unreadable body, so the client fallback is used instead. `ProfileEndToEndResult` states the end-to-end result for every complete profile and every failure path.
- `app/api/interview/route.ts` is not part of this model. Its only logic is the same three-question fallback modelled in `Generation.InterviewQuestions`.
- ComposeFlow.Composer.StartInterview: the catch branch (components/ComposeFlow.tsx:62-71) is not modelled. The service never rejects, so that branch is reachable only when the server's `questions` is not an array, and a 2xx body without `questions` is not modelled either.
- The floating-point progress bar in ComposeFlow (`getProgress`) is not modelled.
- Timers are collapsed into atomic steps. These are the ComposeFlow send delay, the InteractionModal reply delay and the EditProfile save delay; EditProfile keeps its two phases as `Submit` and `SaveElapsed`, with the forms captured by the pending timers as a queue.
- ComposeFlow's `isLoading` flag (components/ComposeFlow.tsx:21, 44, 73, 168, 181) is not modelled. `StartInterview` and `Synthesize` are atomic steps, so the flag is false before and after each of them. The guard that a disabled, loading button gives against a second click while the request is pending is not captured.
- Each `await` in the chat handlers and in LoginView's handlers splits the handler into a Begin and a Finish method; LoginView's Google handler has a step for each of its two awaits. Interleavings of several pending replies are not modelled.
- `Date.now()`, `crypto.randomUUID()` and generated ids are parameters.
- The image upload through FileReader is reduced to the data URL it produces (`AttachImage`).
- localStorage is a field. AuthSlice's `persisted` stands for the `discuzz:auth` entry and Page's `savedTheme` for `discuzz-theme`. Reading and writing the real storage, and the JSON encoding of the stored value, are not modelled.
- Lower-casing is ASCII-only and `trim` uses the common JS whitespace characters. Unicode case mapping is not modelled.
- Api.ErrorMessage: `detail` and `message` are strings or absent. An error body whose `detail` is an array or object (FastAPI validation errors) is not admitted. The source would render that as its `String(...)` form, such as "[object Object]".
- URLSearchParams percent-encoding is an opaque `escape` parameter.
- Header names are matched exactly; the case-insensitivity of `Headers` is not modelled.
- A Comment's `replyToId` is a string; the numeric form the type allows is not modelled.
- `toggleHandRaise` has a thunk but no reducer case, so it has no state method.
- Presentation and plumbing are not modelled: view switching, scrolling, console logging, focus handling in the verification boxes, the SpaceCreation schedule and recording toggles, the ProfileView tabs and mock replies, and the Redux thunk/action machinery.
- Mock data from `constants.tsx` enters as constructor parameters.
- Page.AppPage.HandleToggleFollow requires the current user to have stats, because the source dereferences `prev.stats!`.
- UsersSlice.UsersState.FetchFollowingFulfilled: the profiles map is specified by its keys, by `UpsertKeepsOthers` and by `UpsertLastWins`. The value for a key repeated in one payload is the last user with that key, as in the source.
