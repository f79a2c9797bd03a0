# CampusSync core, modelled in Dafny

CampusSync is a campus web app. It is a front end over a hosted document store and an
authentication service, plus a small server bridge to a generative-AI HTTP API. This
project models the parts of it that make decisions:

- **AI facade** (`Gemini`, web/lib/gemini.ts):
  - the offline assistant, which picks one of four canned replies by keyword precedence on the lower-cased prompt;
  - `cleanBase64`;
  - the bridge call, which turns every failure into the offline reply;
  - the structured-reply extraction: a greedy `[...]` or `{...}` span, parsed, with a fixed default per task.
- **Server bridge** (`AiRoute`, web/app/api/ai/route.ts): POST /api/ai tries four models in a fixed order. It answers with the first one that replies, and with 500 when all fail or the body cannot be read.
- **Static fallback routers**:
  - `FallbackTable` holds the table and route key shared by both routers;
  - `StaticFallback` models web/api-fallback.js;
  - `NetlifyFallback` models web/netlify/functions/api-fallback.js: CORS headers, OPTIONS, POST body parsing, and the keyword routing on "help-desk".
- **Clubs**:
  - `Clubs`: the record types of web/lib/data/clubs.ts and the two list queries the components use;
  - `ClubCard`: the action a card offers and its member count;
  - `ManageClubModal`: the pending-request dialog;
  - `CreateClubModal`: the form as a class, the new club record, and the submit handler.
- **Auth provider** (`AuthContext`, web/context/AuthContext.tsx): a class holding `user`, `userData`, `loading` and the profile subscription. It has one method per auth event, profile snapshot, profile update, logout and cleanup.

Network calls, `JSON.parse`, the auth service and the document store are replaced by their outcomes. Each becomes a parameter: a `BridgeOutcome`, a sequence of per-model `ModelOutcome`s, a partial `parse` function, `Snapshot` events, and `writeOk`/`signOutOk` flags.

The canned texts are long Markdown documents. Each stands here as an opaque constant holding its opening line. What matters is which one is chosen, and that none of them holds `[` or `{`.

## Model

| member | source | states |
|---|---|---|
| Strings.LowerChar | web/lib/gemini.ts:25 | an upper-case ASCII letter becomes the matching lower-case letter; every other character is kept |
| Strings.Lower | web/lib/gemini.ts:25 | lowering keeps the length and maps each character on its own |
| Strings.LowerAppend | web/lib/gemini.ts:25 | lowering distributes over concatenation |
| Strings.LowerIdempotent | web/lib/gemini.ts:25 | lowering twice is lowering once |
| Strings.ContainsIffOccurs | web/lib/gemini.ts:28 | `includes` holds exactly when the word occurs at some position |
| Strings.ContainsInfix | web/lib/gemini.ts:28 | a text includes any word placed inside it |
| Strings.FirstIndexOf | web/lib/gemini.ts:98 | gives the first position of the character, and is none exactly when the character is absent |
| Strings.LastIndexOf | web/api-fallback.js:68 | gives the last position of the character, and is none exactly when the character is absent |
| Gemini.ChooseOfflineReply | web/lib/gemini.ts:24-94 | study plan exactly when a study keyword is mentioned; help exactly when a help keyword is and no study keyword; lost and found exactly when only a lost/found keyword is; otherwise general |
| Gemini.OfflineAIResponse | web/lib/gemini.ts:24-94 | the canned text of the reply `ChooseOfflineReply` picks: the study-plan text when a study keyword is mentioned, else the help text for a help keyword, else the lost-and-found text for lost/found, else the general text |
| Gemini.OfflineReplyIgnoresCase | web/lib/gemini.ts:24-25 | prompts that lower-case alike get the same offline reply |
| Gemini.OfflineReplyOfLowered | web/lib/gemini.ts:25 | lower-casing the prompt first does not change the reply |
| Gemini.KeywordSurvivesLowering | web/lib/gemini.ts:25-28 | a keyword written in any letter case anywhere in the prompt is still found after lowering |
| Gemini.StudyKeywordWins | web/lib/gemini.ts:28-29 | "study" or "subjects", in any case, gives the study-plan reply whatever else the prompt says |
| Gemini.HelpKeywordBeatsLostFound | web/lib/gemini.ts:45-46 | with no study keyword, "help", "issue" or "problem" gives the help reply, even when "lost" or "found" also appear |
| Gemini.LostFoundKeywordRoutes | web/lib/gemini.ts:62-63 | with neither study nor help keywords, "lost" or "found" gives the lost-and-found reply |
| Gemini.GeneralReplyIffNoKeyword | web/lib/gemini.ts:79-80 | the general reply is given exactly when no keyword group is mentioned |
| Gemini.RepliesBracketFree | web/lib/gemini.ts:29-93 | none of the four canned replies holds '[' or '{' |
| Gemini.OfflineResponseBracketFree | web/lib/gemini.ts:24-93 | the offline reply to any prompt is bracket-free |
| Gemini.BeforeComma | web/lib/gemini.ts:98 | the comma-free prefix that ends at the first comma or at the end of the text |
| Gemini.CleanBase64 | web/lib/gemini.ts:97-100 | without a comma the input comes back unchanged; with one, the result is the text after the first comma up to the next comma or the end; the result never holds a comma |
| Gemini.CleanBase64Idempotent | web/lib/gemini.ts:97-100 | cleaning twice is cleaning once |
| Gemini.DataUrlReducedToPayload | web/lib/gemini.ts:98 | a data URL `header,payload` is reduced to its payload |
| Gemini.CallInternalAI | web/lib/gemini.ts:1-21 | a delivered reply is returned as is; a non-OK status or a thrown error gives the offline reply to the same prompt |
| Gemini.GreedySpan | web/lib/gemini.ts:141 | none exactly when no opening character comes before a closing one; otherwise the span from the leftmost opening character to the last closing character |
| Gemini.FindMatches | web/lib/gemini.ts:137-144 | with no `[...]` span the result is `[]`; otherwise it is the parsed span, or `[]` when parsing fails |
| Gemini.ClassifyNotice | web/lib/gemini.ts:152-158 | with no `{...}` span the result is {medium, general}; otherwise it is the parsed span, or that default when parsing fails |
| Gemini.ClassifyTicket | web/lib/gemini.ts:160-167 | with no `{...}` span the result is {low, general, "Issue reported"}; otherwise it is the parsed span, or that default when parsing fails |
| Gemini.TicketRequest | web/lib/gemini.ts:163 | for a non-empty image the request is ("image", the cleaned image), which holds no comma; otherwise it is ("text", nothing) |
| Gemini.WholeTextIsSpan | web/lib/gemini.ts:141 | a text that opens and closes with the pair is its own span |
| Gemini.EmptyIdsJsonIsFixedPoint | web/lib/gemini.ts:141-142 | the literal "[]" goes through the extraction to no matches |
| Gemini.NoticeDefaultJsonIsFixedPoint | web/lib/gemini.ts:155-156 | the default notice literal goes through the extraction to the default notice class |
| Gemini.TicketDefaultJsonIsFixedPoint | web/lib/gemini.ts:164-165 | the default ticket literal goes through the extraction to the default ticket class |
| Gemini.BracketFreeHasNoSpan | web/lib/gemini.ts:141 | a text without '[' and '{' has neither span |
| Gemini.BridgeDownGivesDefaults | web/lib/gemini.ts:137-167 | with the bridge down, matching gives `[]` and both classifiers give their defaults |
| AiRoute.Kind | web/app/api/ai/route.ts:5 | the body's `type`, or "text" when it is absent |
| AiRoute.Parts | web/app/api/ai/route.ts:23-25 | the prompt (a part without text when it is absent) always comes first; a second, image part is sent exactly when type (default "text") is "image" and imageUrl is non-empty |
| AiRoute.ReplyText | web/app/api/ai/route.ts:38 | the first candidate's first text, or "No response" when it is absent or empty |
| AiRoute.FirstAnswered | web/app/api/ai/route.ts:15-45 | the position of the first model that answered, with every earlier model failed; none when all failed |
| AiRoute.Post | web/app/api/ai/route.ts:3-52 | an unreadable body gives 500 "Internal Server Error" with its message and no model call; otherwise model i is called in order with the same parts, exactly k+1 calls are made when model k is the first to answer, and the reply names that model; when all fail, all four are called and the reply is 500 "All models failed" |
| FallbackTable.KeysAndTextsDistinct | web/api-fallback.js:3-66 | the four entries have different keys and different texts |
| FallbackTable.OwnEntry | web/api-fallback.js:3-66 | an own entry is found exactly for the four keys |
| FallbackTable.Resolve | web/api-fallback.js:69 | each key gives its own entry; every other key gives the default entry |
| FallbackTable.ResolveKey | web/api-fallback.js:69 | every entry is reached by its own key |
| FallbackTable.PropertyAsWritten | web/api-fallback.js:69 | indexing the object literal is undefined exactly off its four keys and the inherited member names |
| FallbackTable.LookupAsWritten | web/api-fallback.js:69 | as written, the lookup is never undefined; off the inherited member names it is the corrected entry; on them it is not a table entry |
| FallbackTable.SerialisedAsWritten | web/api-fallback.js:71 | as written, the reply has a string text exactly for a table entry, an empty-object text exactly for `__proto__`, and otherwise no text field |
| FallbackTable.LookupAsWrittenAgreesOffPrototype | web/api-fallback.js:69 | off the inherited member names, the lookup as written is the corrected lookup |
| FallbackTable.ConstructorKeyLosesText | web/api-fallback.js:69-71 | as written, "constructor" gives a reply without a text field and "__proto__" gives an empty-object text, where the default entry was meant |
| FallbackTable.LastSegment | web/api-fallback.js:68 | the text after the last '/': a slash-free suffix of the URL that a '/' precedes unless it is the whole URL |
| FallbackTable.LastSegmentOfPath | web/api-fallback.js:68 | the last segment of `prefix/key` is `key` |
| StaticFallback.Handle | web/api-fallback.js:68-71 | status 200, with the text of the entry the URL's last segment resolves to |
| StaticFallback.HandleAsWritten | web/api-fallback.js:68-71 | as written, off the inherited member names, the reply text is the corrected entry |
| StaticFallback.KnownRoutes | web/api-fallback.js:68-69 | each of the four keys, under any path prefix, gets its own entry |
| StaticFallback.UnknownRoutesGetDefault | web/api-fallback.js:69 | every other last segment gets the default entry |
| StaticFallback.TrailingSlashGetsDefault | web/api-fallback.js:68-69 | a URL ending in '/' gets the default entry |
| StaticFallback.ConstructorRouteAsWritten | web/api-fallback.js:68-71 | "/api/constructor" gets no text from the handler as written, and the default entry from the corrected one |
| NetlifyFallback.RouteKey | web/netlify/functions/api-fallback.js:89-90 | a non-empty last segment is the key; an empty one becomes "default" |
| NetlifyFallback.RouteKeyResolvesLikeLastSegment | web/netlify/functions/api-fallback.js:89-103 | the "default" substitution never changes the entry chosen |
| NetlifyFallback.PromptOf | web/netlify/functions/api-fallback.js:14-21 | the body is read only for POST; a parsed POST body gives its own `prompt` member, an unparsable one acts as `{}` and gives no prompt; reading the prompt fails exactly for a POST body that parses to null |
| NetlifyFallback.HelpDeskRoute | web/netlify/functions/api-fallback.js:95-100 | study planner exactly when "study", "subjects" or "schedule" is mentioned; lost-found exactly when only "lost" or "found" is; none (fall through to the table) exactly when neither group is |
| NetlifyFallback.Route | web/netlify/functions/api-fallback.js:13-104 | throws exactly for a null POST body or a non-string prompt on "help-desk"; off "help-desk" the answer is the table entry of the last segment; on "help-desk" it is never the default entry: no prompt gives the help-desk entry, and a text prompt gives its keyword route or else the help-desk entry |
| NetlifyFallback.BodyIgnoredUnlessPost | web/netlify/functions/api-fallback.js:13-21 | for methods other than POST the body makes no difference, and the reply is the table entry of the last segment |
| NetlifyFallback.UnparsableBodyIsEmpty | web/netlify/functions/api-fallback.js:16-20 | an unparsable POST body acts as `{}`: the table entry of the last segment |
| NetlifyFallback.PromptIgnoredOffHelpDesk | web/netlify/functions/api-fallback.js:93-104 | off "help-desk", the prompt is ignored |
| NetlifyFallback.HelpDeskKey | web/netlify/functions/api-fallback.js:89-90 | a URL ending in "/help-desk" has the key "help-desk" |
| NetlifyFallback.HelpDeskTextPrompt | web/netlify/functions/api-fallback.js:93-103 | on "help-desk" a text prompt is routed by keyword, falling back to the help-desk entry |
| NetlifyFallback.HelpDeskNoKeyword | web/netlify/functions/api-fallback.js:93-103 | on "help-desk" a text prompt without any routing keyword gets the help-desk entry |
| NetlifyFallback.ConstructorRouteAsWritten | web/netlify/functions/api-fallback.js:89-104 | as written, "/api/constructor" gets a reply without text from this router, where the corrected routing gives the default entry |
| NetlifyFallback.HelpDeskStudyKeyword | web/netlify/functions/api-fallback.js:95-97 | "study", "subjects" or "schedule", in any case, gives the study-planner entry |
| NetlifyFallback.HelpDeskLostFoundKeyword | web/netlify/functions/api-fallback.js:98-99 | with no study keyword, "lost" or "found" gives the lost-found entry |
| NetlifyFallback.ServerResponse.SetHeader | web/netlify/functions/api-fallback.js:4-6 | sets one header and leaves status and body alone |
| NetlifyFallback.ServerResponse.Status | web/netlify/functions/api-fallback.js:9 | sets the status and leaves headers and body alone |
| NetlifyFallback.ServerResponse.End | web/netlify/functions/api-fallback.js:9 | sends an empty body |
| NetlifyFallback.ServerResponse.Json | web/netlify/functions/api-fallback.js:104 | sends a JSON `text` body |
| NetlifyFallback.Handle | web/netlify/functions/api-fallback.js:2-105 | the three CORS headers are set on every request; OPTIONS gets 200 with an empty body; every other request gets 200 with the routed entry's text, or throws (a null POST body, or a non-string prompt on "help-desk") leaving status and body unset |
| Clubs.WithStatus | web/components/clubs/manage-club-modal.tsx:26 | keeps exactly the members with the given status |
| Clubs.WithStatusAppend | web/components/clubs/manage-club-modal.tsx:26 | the filter keeps the members' order: it works piecewise on a concatenation |
| Clubs.StatusesPartition | web/lib/data/clubs.ts:17 | the pending and approved members together make up the whole list |
| Clubs.FindMember | web/components/clubs/club-card.tsx:18 | the first entry with that user id; none exactly when the user has no entry |
| Clubs.FindMemberAppend | web/components/clubs/club-card.tsx:18 | entries appended after the first match change nothing; without a match, the appended list decides |
| ClubCard.Membership | web/components/clubs/club-card.tsx:18-20 | none exactly when the current user has no entry; otherwise the status of one of their entries |
| ClubCard.ActionFor | web/components/clubs/club-card.tsx:51-67 | exactly one of four actions: Manage exactly for the creator; otherwise Member, Pending Approval or Join according to the current user's first entry; Join passes the club's own id |
| ClubCard.MemberCount | web/components/clubs/club-card.tsx:46 | the count of approved members: the pending ones are all that it leaves out |
| ClubCard.CreatorAlwaysManages | web/components/clubs/club-card.tsx:17-51 | the creator gets Manage whatever the members list says |
| ClubCard.FirstEntryDecides | web/components/clubs/club-card.tsx:18 | only the current user's first entry counts |
| ClubCard.JoinRequestShowsPending | web/components/clubs/club-card.tsx:59-64 | a user offered Join who is appended as pending then sees Pending Approval, and the count does not move |
| ClubCard.ApprovalRaisesCount | web/components/clubs/club-card.tsx:46 | approving one pending entry raises the member count by exactly one |
| ManageClubModal.RowsOf | web/components/clubs/manage-club-modal.tsx:42-63 | one row per pending member, in order, with that member's name and (club id, user id) for both buttons |
| ManageClubModal.Render | web/components/clubs/manage-club-modal.tsx:24-70 | nothing exactly when there is no club; "No pending requests." exactly when no member is pending; otherwise the rows of the pending members in order |
| ManageClubModal.RowsFollowPendingMembers | web/components/clubs/manage-club-modal.tsx:26-63 | a pending member gets the row at their position among the pending members, with the club's id and their own id on both buttons |
| ManageClubModal.EveryRowIsPendingMember | web/components/clubs/manage-club-modal.tsx:26-63 | every row belongs to a pending member; approved members never get one |
| CreateClubModal.NewClub | web/components/clubs/create-club-modal.tsx:45-52 | name, description and category copied; the creator is the current user and the only member, approved; the poster is the uploaded URI, or the default URL when there is none |
| CreateClubModal.NewClubIsManagedByCreator | web/components/clubs/create-club-modal.tsx:45-52 | once stored, a new club offers its creator Manage, counts one member and has no pending requests |
| CreateClubModal.CreateClubForm.constructor | web/components/clubs/create-club-modal.tsx:25-28 | empty name and description, "Tech" selected, no poster |
| CreateClubModal.CreateClubForm.SetName | web/components/clubs/create-club-modal.tsx:76 | sets the name only |
| CreateClubModal.CreateClubForm.SetDescription | web/components/clubs/create-club-modal.tsx:115 | sets the description only |
| CreateClubModal.CreateClubForm.SetCategory | web/components/clubs/create-club-modal.tsx:98-108 | sets the category, one of the four the select offers |
| CreateClubModal.CreateClubForm.SetPoster | web/components/clubs/create-club-modal.tsx:34-36 | sets the poster URI only |
| CreateClubModal.CreateClubForm.Submit | web/components/clubs/create-club-modal.tsx:41-59 | an empty name or description does nothing; otherwise the new club is handed over, then the dialog is closed, then name, description and poster are cleared and the category is kept |
| AuthContext.Merge | web/context/AuthContext.tsx:93-94 | keys of the new data win, every other key of the old profile is kept, and a missing profile counts as empty |
| AuthContext.MergeIdempotent | web/context/AuthContext.tsx:93-94 | merging the same data twice is merging it once |
| AuthContext.ProfileOf | web/context/AuthContext.tsx:52 | the stored fields, with the signed-in uid overriding any stored uid |
| AuthContext.AuthProvider.constructor | web/context/AuthContext.tsx:28-30 | no user, no profile, loading |
| AuthContext.AuthProvider.OnAuthChanged | web/context/AuthContext.tsx:36-71 | the previous subscription is cancelled first; sign-in records the user and subscribes to their profile, leaving profile and loading alone; sign-out clears user and profile and ends loading |
| AuthContext.AuthProvider.OnSnapshot | web/context/AuthContext.tsx:49-66 | an existing document becomes the profile with the subscribed uid; a missing one clears the profile; an error leaves the profile alone; each ends loading; the user never changes |
| AuthContext.AuthProvider.UpdateUserData | web/context/AuthContext.tsx:89-99 | no user: nothing happens; otherwise the merge is written to the user's document; on success the local profile becomes that merge; on failure the error is rethrown and the profile is unchanged |
| AuthContext.AuthProvider.Logout | web/context/AuthContext.tsx:80-87 | a successful sign-out navigates to "/login"; a failed one is swallowed |
| AuthContext.AuthProvider.Dispose | web/context/AuthContext.tsx:74-77 | the auth listener and any profile subscription are cancelled |
| AuthContext.EventsNeverRestartLoading | web/context/AuthContext.tsx:36-99 | once loading is over, no sequence of auth events, snapshots, updates, logouts and cleanups starts it again, and the provider stays consistent |
| AuthContext.FirstSignIn | web/context/AuthContext.tsx:44-62 | after the first sign-in the children show only once the profile has reported, with the document's fields and the uid, or no profile |
| AuthContext.SwitchKeepsPreviousProfile | web/context/AuthContext.tsx:44-45 | signing in as another user keeps the previous profile until the new subscription reports |

## Left out

- Network, foreign calls and the host platform are outcomes or parameters, not code:
  - `fetch` to the bridge and to the model API;
  - `JSON.parse` (a partial function whose only assumption is that it reads each fixed default literal as that default);
  - the auth service's listener and sign-out;
  - the document store's subscription and write;
  - router navigation;
  - the browser file reader (the poster URI is an input).
- Logging (`console.log`, `console.error`) is left out.
- `toLowerCase` is modelled for ASCII letters only. Non-ASCII case mappings are not modelled, so the case-insensitivity lemmas cover ASCII case only.
- The canned texts are abbreviated to their opening line. Bracket-freeness and distinctness are stated about these stand-ins.
- The prompt-wrapping helpers in web/lib/gemini.ts are not modelled: `chatWithGeminiV2`, `generateSummaryV2`, `translateTextV2`, `generateStudyPlanV2` and `analyzeImageV2`. They only build a prompt around the bridge call. Their catch branches are dead for string prompts, because the bridge call already absorbs every failure.
- Gemini.CallInternalAI: an OK bridge reply without a string `text` field (the facade would return `undefined`) is not modelled.
- Gemini.FindMatches, Gemini.ClassifyNotice, Gemini.ClassifyTicket: a parse that succeeds with a value of another shape is not modelled; `parse` returns values of the expected type or fails.
- Lost-and-found candidate filtering beyond the extraction step is not part of this model.
- AiRoute.Post: each field of the request body is a string or absent. A field given as null, a number or another JSON value is not modelled. The generation settings (token limit, temperature), the API key and the request URL are left out.
- NetlifyFallback.Route: a prompt is either absent/falsy, a non-empty string, or a truthy non-string (which makes the handler throw on "help-desk"). The exact JSON value is not kept.
- AuthContext: profile values are kept as strings, not arbitrary JSON values. The store's merge of the write into the stored document is not modelled; `write` is the document sent. Events are delivered one at a time, so the asynchronous interleavings of a pending write with snapshots are not modelled. Events of a cancelled subscription are taken as never delivered.
- Club records: `createdAt` and the Firestore helpers of web/lib/data/clubs.ts are left out. The join, approve and reject handlers belong to the clubs page, which is not part of this model.
- The UI layout of every component is left out: dialogs, images, badges, the card's click-to-view and the dialog's open state.

## Findings

| source | as written | input that shows it | evidently intended | confidence | as-written member | corrected member |
|---|---|---|---|---|---|---|
| web/api-fallback.js:69 | the lookup of `path`, with the default entry when it is falsy, indexes a plain object literal, so the names it inherits from Object.prototype are found as well, and they are truthy | GET /api/constructor: `path` is "constructor", the lookup gives the Object constructor function, and `{ text: fn }` serialises to `{}`; "/api/__proto__" gives `{"text":{}}` | any key that is not one of the four table keys gets the default entry | high that the lookup behaves so; not executed | StaticFallback.ConstructorRouteAsWritten | StaticFallback.Handle |
| web/netlify/functions/api-fallback.js:103 | the same inherited-member lookup on the same table, reached for every key outside the help-desk keyword routes | a GET whose URL ends in "/constructor" gives a reply without a text field | any key that is not one of the four table keys gets the default entry | high that the lookup behaves so; not executed | NetlifyFallback.ConstructorRouteAsWritten | NetlifyFallback.Handle |
