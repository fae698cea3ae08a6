# JobGenie front end — verified model

A Dafny model of the logic inside the JobGenie web front end. It covers:

- the job-listings search and "load more" window;
- the upload page's file checks and upload flow;
- the JWT helpers (`setToken`, `getToken`, `removeToken`, `apiFetch`);
- the current-user hook and its JWT payload decoder;
- the embedding-task poller and the recommendation-task starter;
- the staged progress indicator;
- the recommendations page, its job cards and the assistant chat;
- the resume summary's skill chips;
- the preferences form.

Everything outside the program is an input:

- **Network.** Every request becomes an input describing what the endpoint answers. The status endpoint becomes a function `k ↦ reply to the k-th status request`.
- **Time.** Timers and `Date.now()` become explicit elapsed-time or timestamp parameters.
- **Storage.** `localStorage` is a string-to-string map held by a `Browser.Storage` object.
- **Library decoders.** `atob`, `decodeURIComponent` and `JSON.parse` are parameters that either return a value or throw.

React state becomes the fields of a class per component. Event handlers become methods that state the new value of every field. Pure expressions become functions with lemmas.

Shared modules:

- `Wrappers`: `Option`, `Result`, map lookup and `Min`.
- `JsText`: the JavaScript string primitives used. These are `toLowerCase` and `toUpperCase` on ASCII, `trim` tested for emptiness with ECMAScript's white-space set, `includes`, and `split`/`join` on one character.
- `Json`: untyped values, truthiness, `||`, and `String()`.
- `Browser`: `localStorage`.

## Model

| member | source | states |
|---|---|---|
| JsText.ToLower | src/app/components/JobListings/JobListings.tsx:59-63 | lower-casing keeps the length and folds each letter in place |
| JsText.ToLowerIdempotent | src/app/components/JobListings/JobListings.tsx:59-63 | lower-casing an already lower-cased string changes nothing |
| JsText.ToUpper | src/app/upload/page.tsx:195 | upper-casing keeps the length and raises each letter in place |
| JsText.BlankIffTrimmedEmpty | src/app/components/JobListings/JobListings.tsx:54 | `!s.trim()` holds exactly when trimming white space from both ends leaves the empty string |
| JsText.IncludesIffScan | src/app/components/JobListings/JobListings.tsx:61-63 | `s.includes(sub)` holds exactly when a left-to-right scan of the offsets finds `sub`, and then `sub` is no longer than `s` |
| JsText.Split | src/app/hooks/useCurrentUser.ts:11 | `split` on one character yields at least one part and no part holds the separator |
| JsText.JoinSplit | src/app/hooks/useCurrentUser.ts:11 | joining the parts of a split with the separator restores the string |
| JsText.SplitLength | src/app/hooks/useCurrentUser.ts:11 | a split has one more part than the string has separators |
| JsText.SplitWithoutSeparator | src/app/hooks/useCurrentUser.ts:11 | a string without the separator splits into itself alone |
| JsText.SplitWithSeparator | src/app/upload/page.tsx:195 | a string holding the separator has a second part, so `[1]` exists |
| JsText.SplitAfterPiece | src/app/hooks/useCurrentUser.ts:11 | a separator-free piece and a separator split off as the first part, in front of the split of the rest |
| Json.Property | src/app/hooks/useCurrentUser.ts:38-39 | `payload.key` is an own key's value on an object; on a string it is the inherited HTML method of that name (`sub` among them), a truthy function; on a built-in method `name` is its name; on any other value it is `undefined` |
| Json.Or | src/app/components/ChatWidget.tsx:15-23 | `a \|\| b` is `a` when `a` is truthy and `b` otherwise |
| Json.NatToDecimal | src/app/components/ResumeAnalysis.tsx:72 | a number's decimal text is a non-empty digit string that denotes the number; zero is the single digit `0` and no longer text starts with `0`, so distinct numbers get distinct texts |
| Json.IntToDecimal | src/app/components/ChatWidget.tsx:58 | `String(n)` for an integer is `-` and the digits of `-n` exactly when `n` is negative, otherwise the digits of `n`; the digits never start with a redundant `0` |
| Json.FalsyValues | src/app/hooks/useCurrentUser.ts:38 | a value is falsy exactly when it is `null`, `false`, `0` or `""`; every other value (objects, arrays and functions included) is truthy |
| Json.ToJsString | src/app/components/ChatWidget.tsx:58 | `String(v)` leaves a string as it is, writes a number's decimal text, and is never empty for anything but a string or an array |
| Json.JoinElements | src/app/components/ChatWidget.tsx:58 | joining past the last element gives nothing, and each element after the first is preceded by a comma |
| Json.ArrayTextJoinsElements | src/app/components/ChatWidget.tsx:58 | `String()` of an array is its elements' texts joined by `,`, with `null` elements contributing nothing; an empty array prints as nothing |
| Wrappers.Lookup | src/app/utils/auth.ts:6-8 | `getItem` (and `job[key]`) yields the stored value exactly for a present key, `null` otherwise |
| Browser.Put | src/app/utils/auth.ts:2-4 | after `setItem` the key reads as the new value, every other key as before, and the key set gains the key |
| Browser.Delete | src/app/utils/auth.ts:10-12 | after `removeItem` the key reads `null`, every other key as before, and the key set loses the key |
| Browser.Storage.GetItem | src/app/utils/auth.ts:6-8 | reading the store is `Lookup` on its current contents |
| Browser.Storage.SetItem | src/app/utils/startrecommendationtask.ts:21 | writing updates the store by `Put` and nothing else |
| Browser.Storage.RemoveItem | src/app/utils/auth.ts:10-12 | removing updates the store by `Delete` and nothing else |
| Auth.SetToken | src/app/utils/auth.ts:2-4 | the token is stored under `token` |
| Auth.GetToken | src/app/utils/auth.ts:6-8 | the result is present exactly when `token` is stored, and it is the stored value |
| Auth.RemoveToken | src/app/utils/auth.ts:10-12 | `token` is deleted from the store |
| Auth.SetThenGet | src/app/utils/auth.ts:2-8 | reading the token right after storing it gives the stored token |
| Auth.RemoveThenGet | src/app/utils/auth.ts:6-12 | reading the token right after removing it gives `null` |
| Auth.FromPairs | src/app/utils/auth.ts:22-29 | assigning the pairs in turn gives at most one entry per pair, since a repeated name collapses to one entry |
| Auth.FromPairsLastWins | src/app/utils/auth.ts:22-29 | copying pairs in order defines exactly the keys of the pairs, and a key's value comes from its last pair |
| Auth.NormalisedHeaders | src/app/utils/auth.ts:21-32 | no headers give an empty record, a plain record is copied as given, and a `Headers` object and a pair array are both copied pair by pair |
| Auth.CopyPairs | src/app/utils/auth.ts:23-29 | the `forEach` copy loop builds the same record as assigning the pairs in order |
| Auth.ApiFetch | src/app/utils/auth.ts:17-38 | the request keeps the URL, the `auth` flag and the other options; its headers are the normalised caller headers, plus `Authorization: Bearer <token>` exactly when `auth` is set and a non-empty token is stored |
| Auth.BearerInjected | src/app/utils/auth.ts:33-36 | adding the bearer header sets only `Authorization`, and every other caller header stays as given |
| CurrentUser.ToStandardAlphabet | src/app/hooks/useCurrentUser.ts:12 | the translation keeps the length; it maps `-` to `+` and `_` to `/` and leaves every other character as is |
| CurrentUser.NoUrlAlphabetLeft | src/app/hooks/useCurrentUser.ts:12 | no `-` or `_` is left after the translation |
| CurrentUser.HexValue | src/app/hooks/useCurrentUser.ts:17 | a decoded hex digit is below 16 and re-encodes to the same character |
| CurrentUser.HexValueOfDigit | src/app/hooks/useCurrentUser.ts:17 | every lower-case hex digit decodes to its value |
| CurrentUser.ToHex | src/app/hooks/useCurrentUser.ts:17 | `toString(16)` is non-empty and ends with the digit of `n % 16` |
| CurrentUser.PaddedHexIsLowByte | src/app/hooks/useCurrentUser.ts:17 | padding `toString(16)` with `00` and keeping the last two digits gives the two hex digits of the low byte of the code |
| CurrentUser.Escape | src/app/hooks/useCurrentUser.ts:17 | the per-character escape is `%` followed by the two hex digits of the low byte of the character's code |
| CurrentUser.PercentEncode | src/app/hooks/useCurrentUser.ts:14-19 | the encoding is exactly three characters per input character |
| CurrentUser.PercentEncodeGroups | src/app/hooks/useCurrentUser.ts:14-19 | the i-th group of three is the escape of the i-th character |
| CurrentUser.PercentDecode | src/app/hooks/useCurrentUser.ts:13-19 | a successful decode consumes three characters per decoded character |
| CurrentUser.DecodeOneEscape | src/app/hooks/useCurrentUser.ts:17 | one escape of a byte-valued character decodes back to that character |
| CurrentUser.PercentRoundTrip | src/app/hooks/useCurrentUser.ts:13-19 | on a binary string (every code below 256, as `atob` returns) decoding the percent encoding gives the string back |
| CurrentUser.DecodePayload | src/app/hooks/useCurrentUser.ts:12-24 | when `atob`, `decodeURIComponent` and `JSON.parse` all succeed the payload is what `JSON.parse` returned; a non-null payload means all three succeeded, so any failure gives `null` |
| CurrentUser.ParseJwt | src/app/hooks/useCurrentUser.ts:9-25 | a token without `.` has no second segment and parses to `null` |
| CurrentUser.OnlyPayloadSegmentMatters | src/app/hooks/useCurrentUser.ts:11 | only the second segment is decoded; the header and the signature play no part |
| CurrentUser.DeriveUser | src/app/hooks/useCurrentUser.ts:32-42 | a missing or empty token gives no user; a user exists exactly when the payload and its `sub` are truthy; its email is `sub` and its name is `payload.name` |
| CurrentUser.DotlessTokenHasNoUser | src/app/hooks/useCurrentUser.ts:11-41 | a token without `.` never yields a user |
| CurrentUser.ObjectPayloadYieldsUser | src/app/hooks/useCurrentUser.ts:37-39 | a `header.payload.signature` token whose payload segment decodes to an object with a truthy `sub` yields the user with that `sub` as email and the object's own `name`, if any, as name |
| CurrentUser.StringPayloadYieldsUser | src/app/hooks/useCurrentUser.ts:37-39 | a payload that parses to a non-empty string yields a user whose `email` is the inherited method `String.prototype.sub` and whose `name` is `undefined` |
| CurrentUser.CurrentUserHook.RunEffect | src/app/hooks/useCurrentUser.ts:30-43 | outside a browser the state stays as it was; in a browser the user is derived from the stored token |
| JobListings.Matches | src/app/components/JobListings/JobListings.tsx:60-64 | a length bound only: a job matches only when the lower-cased query is no longer than its title, company or source; containment itself is stated by `JobListings.SearchKeepsExactlyMatches` |
| JobListings.MatchesIgnoresFieldCase | src/app/components/JobListings/JobListings.tsx:60-64 | the filter ignores the case of the job's fields: lower-casing them first changes no verdict |
| JobListings.Search | src/app/components/JobListings/JobListings.tsx:60-64 | the filter never yields more jobs than it was given |
| JobListings.SubsequenceReflexive | src/app/components/JobListings/JobListings.tsx:38-55 | a list is a subsequence of itself, so resetting the filter keeps the invariant |
| JobListings.SearchIsSubsequence | src/app/components/JobListings/JobListings.tsx:60-64 | the filtered jobs are jobs from the list, in their original order |
| JobListings.SearchCount | src/app/components/JobListings/JobListings.tsx:60-64 | each matching job keeps its full multiplicity and each other job disappears |
| JobListings.SearchKeepsExactlyMatches | src/app/components/JobListings/JobListings.tsx:60-64 | a job is in the result exactly when it is in the list and its title, company or source contains the lower-cased query |
| JobListings.JobListings.ReceiveJobs | src/app/components/JobListings/JobListings.tsx:37-39 | fetched data replaces both the job list and the filtered list |
| JobListings.JobListings.HandleSearch | src/app/components/JobListings/JobListings.tsx:51-68 | a blank query restores all jobs and keeps the window; any other query filters by its lower-cased form and resets the window to 50; the fetched list never changes |
| JobListings.JobListings.LoadMoreJobs | src/app/components/JobListings/JobListings.tsx:70-72 | the window grows by exactly 50 and nothing else changes |
| JobListings.JobListings.Displayed | src/app/components/JobListings/JobListings.tsx:106 | the cards shown are the first `min(visible, n)` filtered jobs |
| JobListings.JobListings.ShowingCount | src/app/components/JobListings/JobListings.tsx:126 | the "Showing" count is the smaller of the window and the number of matches |
| JobListings.JobListings.ShowingCountIsDisplayed | src/app/components/JobListings/JobListings.tsx:106-126 | the "Showing" count equals the number of cards shown |
| JobListings.JobListings.ShowsNoResults | src/app/components/JobListings/JobListings.tsx:101 | the "no results" panel shows exactly when no card is drawn |
| JobListings.JobListings.ShowsLoadMore | src/app/components/JobListings/JobListings.tsx:101-111 | "Load More" is offered exactly when some filtered job is not shown |
| RecommendationTask.ErrorMessage | src/app/utils/startEmbedderTask.ts:48 | an `Error` gives its message, anything else the fixed unknown-error text |
| RecommendationTask.StartOutcome | src/app/utils/startrecommendationtask.ts:5-26 | the start succeeds exactly on an ok response, with the body returned unchanged; a thrown error is rethrown as is and a failed response throws the fixed message |
| RecommendationTask.StoreAfterStart | src/app/utils/startrecommendationtask.ts:21 | the task id is stored exactly after a successful start, and no other key changes |
| RecommendationTask.StartRecommendationTask | src/app/utils/startrecommendationtask.ts:5-26 | posts the user's e-mail; the result and the new store are those of the reply |
| EmbedderTask.StatusPath | src/app/utils/startEmbedderTask.ts:15 | the status request goes to the fixed 22-character prefix `/precompute-embedding/` followed by the task id |
| EmbedderTask.StatusPathInjective | src/app/utils/startEmbedderTask.ts:15 | distinct tasks are polled at distinct paths |
| EmbedderTask.Failed | src/app/utils/startEmbedderTask.ts:33-49 | a failed run has status `error`, carries the given message and no recommendation task id |
| EmbedderTask.Poll | src/app/utils/startEmbedderTask.ts:13-51 | a run entered at attempt `a` issues more than `a` and at most 31 status requests |
| EmbedderTask.PollTrace | src/app/utils/startEmbedderTask.ts:33-42 | every reply before the last one of a run was a pending reply |
| EmbedderTask.PollLastReply | src/app/utils/startEmbedderTask.ts:13-51 | the last reply decides the result, and the result is never pending. A `completed` reply starts the recommendation task; the result is completed with its task id exactly when that start succeeds. A thrown error gives its message and a failed response the status-failure message. A pending last reply ends the run only at the bound, with the timeout |
| EmbedderTask.PollStopsAtFirstDecisiveReply | src/app/utils/startEmbedderTask.ts:17-42 | polling stops at the first reply that is not pending |
| EmbedderTask.PollTimesOut | src/app/utils/startEmbedderTask.ts:33-38 | a server that never says `completed` is polled 31 times and yields the timeout, without starting a recommendation task |
| EmbedderTask.PullEmbedderTask | src/app/utils/startEmbedderTask.ts:8-54 | the loop returns the run of the recursive poller: its result, one status request per attempt to the task's path, one second of sleep between polls, and a recommendation start (with its store update) exactly when the run started one |
| EmbedderTask.CompletedStoresTaskId | src/app/utils/startEmbedderTask.ts:23-30 | after a completed run the stored `recommendation_task_id` is the id the result reports |
| RecommendationProgress.TotalDuration | src/app/components/RecommendationProgress.tsx:25 | the summed duration is zero exactly when every stage is instant |
| RecommendationProgress.TotalIsTwelveSeconds | src/app/components/RecommendationProgress.tsx:10-25 | the four stages add up to 12000 ms |
| RecommendationProgress.TotalDurationStep | src/app/components/RecommendationProgress.tsx:25 | extending the prefix by one stage adds that stage's duration |
| RecommendationProgress.PrefixDurationMonotone | src/app/components/RecommendationProgress.tsx:36-38 | cumulative durations never decrease along the stages |
| RecommendationProgress.StageCovers | src/app/components/RecommendationProgress.tsx:36-46 | a stage covers an elapsed time only if it is one of the stages and lasts some time |
| RecommendationProgress.StageCoverUnique | src/app/components/RecommendationProgress.tsx:36-46 | at most one stage covers any elapsed time |
| RecommendationProgress.LookupStage | src/app/components/RecommendationProgress.tsx:36-46 | the loop finds a stage exactly while time remains, and the stage it finds covers the elapsed time |
| RecommendationProgress.Progress | src/app/components/RecommendationProgress.tsx:32 | progress lies between 0 and 100; it is 100 exactly once the total has elapsed, and before that it is `elapsed / total * 100` |
| RecommendationProgress.ProgressMonotone | src/app/components/RecommendationProgress.tsx:32 | progress never goes backwards as time passes |
| RecommendationProgress.StageIndicator | src/app/components/RecommendationProgress.tsx:116-122 | a stage's dot is done before the current stage, active at it and upcoming after it (three disjoint cases) |
| RecommendationProgress.LabelEmphasised | src/app/components/RecommendationProgress.tsx:124 | a stage's name is drawn dark exactly when its dot is not upcoming |
| RecommendationProgress.ProgressTracker.Tick | src/app/components/RecommendationProgress.tsx:27-56 | one tick sets the progress and moves to the stage covering the elapsed time, or keeps the stage once all time has elapsed. The warning latches after 5 s, and the interval stops at the total duration |
| RecommendationProgress.ProgressTracker.Unmount | src/app/components/RecommendationProgress.tsx:58 | unmounting stops the interval and changes nothing else |
| ResumeUpload.Validate | src/app/upload/page.tsx:37-51 | a file is refused for its type exactly when the type is not PDF, DOC or DOCX; a valid type is refused for size exactly above 5 MiB; otherwise it is accepted |
| ResumeUpload.SizeBoundary | src/app/upload/page.tsx:44 | exactly 5 MiB is accepted and one byte more is too large |
| ResumeUpload.TypeLabel | src/app/upload/page.tsx:195 | the type label exists exactly when the MIME type holds `/` (otherwise rendering it throws) |
| ResumeUpload.TypeLabelOfPieces | src/app/upload/page.tsx:195 | the label of `a/b` is `b` in upper case |
| ResumeUpload.SplitPieces | src/app/upload/page.tsx:195 | a type made of two slash-free pieces splits into exactly those pieces |
| ResumeUpload.AcceptedTypeLabels | src/app/upload/page.tsx:195 | every accepted file has a label; PDF reads `PDF`, Word 97 reads `MSWORD` and DOCX reads its OOXML subtype in upper case |
| ResumeUpload.UploadPage.ValidateAndSetFile | src/app/upload/page.tsx:37-51 | a refused file changes nothing; an accepted one becomes the held file and clears the success flag |
| ResumeUpload.UploadPage.HandleDrop | src/app/upload/page.tsx:21-29 | only the first dropped file is validated, and an empty drop changes nothing |
| ResumeUpload.UploadPage.HandleFileChange | src/app/upload/page.tsx:31-35 | only the first picked file is validated, and an empty pick changes nothing |
| ResumeUpload.UploadPage.BeginUpload | src/app/upload/page.tsx:53-75 | without a file nothing happens; without an e-mail nothing is sent and `uploading` ends false; otherwise the file and e-mail are sent |
| ResumeUpload.UploadPage.FinishUpload | src/app/upload/page.tsx:76-85 | success is set only by an ok response, and `uploading` is always cleared |
| ResumeUpload.UploadPage.HandleUpload | src/app/upload/page.tsx:53-86 | every attempt that holds a file ends with `uploading` false; the request and success flag follow the e-mail and the reply; the held file never changes |
| ResumeUpload.UploadPage.RemoveFile | src/app/upload/page.tsx:92-96 | the file and the success flag are cleared |
| Chat.TextOrEmpty | src/app/components/ChatWidget.tsx:15-20 | the title (or company) when it is present and truthy, otherwise `""` |
| Chat.MatchReasons | src/app/components/ChatWidget.tsx:21-23 | Key Requirements when truthy, else Bonus Skills when truthy, else the empty list; the result is always truthy |
| Chat.SelectionText | src/app/components/ChatWidget.tsx:58 | the selection line is `Selected job: "`, the title's text, `" at ` and the company's text, in that order and nothing else |
| Chat.SelectionTextOfStrings | src/app/components/ChatWidget.tsx:58 | a job with a string title and company is announced by exactly those strings |
| Chat.SelectionTextOfBareJob | src/app/components/ChatWidget.tsx:15-58 | a job with neither field is announced with empty quotes and no company |
| CurrentUser.CurrentUserHook.constructor | src/app/hooks/useCurrentUser.ts:28 | the hook starts with no user (`null`) |
| JobCard.JobCardState.constructor | src/app/components/JobCard.tsx:25 | a card starts with its details collapsed |
| JobListings.JobListings.constructor | src/app/components/JobListings/JobListings.tsx:19-24 | the listing starts with no jobs, no filtered jobs, a window of 25 cards and an empty query, and satisfies the invariant the handlers keep |
| RecommendationProgress.ProgressTracker.constructor | src/app/components/RecommendationProgress.tsx:18-20 | the tracker starts at the first stage with progress 0, the warning hidden and the interval running |
| Recommendations.RecommendationsPage.constructor | src/app/recommendations/page.tsx:24-26 | the page starts loading, with no selection and only the preview listed, so "View More" is hidden at first |
| ResumeUpload.UploadPage.constructor | src/app/upload/page.tsx:10-12 | the page starts with no file, not uploading and no success message |
| SelectPreferences.PreferencesForm.constructor | src/app/components/SelectPreferences.tsx:18-20 | the form starts with the three preference lists empty |
| Chat.ChatWidget.constructor | src/app/components/ChatWidget.tsx:26-35 | the chat starts with the greeting alone, an empty input and no typing or quick replies |
| Chat.ChatWidget.SetInput | src/app/components/ChatWidget.tsx:166 | typing sets the input and nothing else |
| Chat.ChatWidget.HandleJobSelected | src/app/components/ChatWidget.tsx:52-67 | selecting a job appends exactly the user's selection line (id from the first `Date.now()`) and the bot's follow-up (id one more than the second), and shows the quick replies |
| Chat.ChatWidget.SelectedJobChanged | src/app/components/ChatWidget.tsx:42-46 | an absent job changes nothing; a present job appends exactly its selection line and the follow-up and shows the quick replies |
| Chat.ChatWidget.HandleQuickReply | src/app/components/ChatWidget.tsx:69-72 | a quick reply fills the input and hides the chips |
| Chat.ChatWidget.HandleSendMessage | src/app/components/ChatWidget.tsx:74-80 | blank input changes nothing; otherwise exactly one user message with the untrimmed input is appended, the input is cleared, typing shows and one reply is scheduled |
| Chat.ChatWidget.DeliverReply | src/app/components/ChatWidget.tsx:81-91 | the delayed reply appends exactly one bot message and clears typing |
| JobCard.MatchTier | src/app/components/JobCard.tsx:59-61 | 85 and above is green, 70 up to below 85 blue and below 70 yellow, for any score including fractional ones (three disjoint cases) |
| JobCard.ExpandCaption | src/app/components/JobCard.tsx:114 | the caption is "Hide details" exactly while the section is open, and "Why this job?" otherwise |
| JobCard.TierMonotone | src/app/components/JobCard.tsx:59-61 | a higher score never gets a lower tier |
| JobCard.CardAvatar | src/app/components/JobCard.tsx:45-50 | a truthy logo is drawn as an image; otherwise the avatar shows the company's first character, or nothing for an empty name |
| JobCard.JobCardState.ToggleExpand | src/app/components/JobCard.tsx:27-32 | the section flips, and `onSelect` is called exactly when the card is not selected |
| JobCard.JobCardState.Click | src/app/components/JobCard.tsx:40-129 | the card body and the Apply button (whose click bubbles to the card) select the job. The expand button toggles the section without reaching the card, and "Show more like this" does nothing. No click selects twice |
| Recommendations.RecommendationsPage.FinishLoading | src/app/recommendations/page.tsx:28-34 | the loading timer clears `loading` and nothing else |
| Recommendations.RecommendationsPage.ShownJobs | src/app/recommendations/page.tsx:94 | the listed jobs are a prefix of the jobs: the first `min(5, n)`, or all `n` after "View More" |
| Recommendations.RecommendationsPage.ViewMoreVisible | src/app/recommendations/page.tsx:74-102 | "View More" is hidden while loading; once loaded it shows exactly when some job is not listed |
| Recommendations.RecommendationsPage.IsSelected | src/app/recommendations/page.tsx:98 | the selected job's own card is marked, and no card is marked before a selection |
| Recommendations.RecommendationsPage.SelectionById | src/app/recommendations/page.tsx:98 | cards are marked by id, so two marked cards share an id |
| Recommendations.RecommendationsPage.ViewMore | src/app/recommendations/page.tsx:106 | "View More" shows every job from then on |
| Recommendations.RecommendationsPage.SelectJob | src/app/recommendations/page.tsx:99 | the chosen job becomes the selected one and its card is marked |
| Recommendations.RecommendationsPage.ClickCard | src/app/recommendations/page.tsx:97-99 | a card click selects the card's job when the card calls `onSelect`; the expand button selects only an unselected card |
| Recommendations.FiveJobsFitThePreview | src/app/data/samplejobs.js:3-79 | with the sample's five jobs, every job is listed and "View More" never shows |
| ResumeAnalysis.ShownSkills | src/app/components/ResumeAnalysis.tsx:65 | the chips are the first `min(6, n)` skills, in order |
| ResumeAnalysis.OverflowCount | src/app/components/ResumeAnalysis.tsx:70-72 | the badge appears exactly when there are more than six skills, with a positive count |
| ResumeAnalysis.BadgeText | src/app/components/ResumeAnalysis.tsx:72 | the badge is `+`, digits denoting the count, then ` more`; the digits start with `0` only for the count zero, `+0 more` |
| ResumeAnalysis.BadgeCountsHiddenSkills | src/app/components/ResumeAnalysis.tsx:65-72 | a drawn badge's number is the count of skills left out of the chips |
| ResumeAnalysis.ShownPlusBadgeIsTotal | src/app/components/ResumeAnalysis.tsx:65-72 | chips plus the badge's count equal the number of skills; without a badge every skill is shown |
| ResumeAnalysis.ShownSkillsStable | src/app/components/ResumeAnalysis.tsx:65 | adding skills never removes a chip that was shown |
| SelectPreferences.PreferencesForm.HandleSelectChange | src/app/components/SelectPreferences.tsx:48-55 | the `jobType` and `experienceLevel` selects each set their own list to `[value]`; any other name changes nothing |
| SelectPreferences.PreferencesForm.TitleChange | src/app/components/SelectPreferences.tsx:92 | typing sets the title list to `[value]` |
| SelectPreferences.PreferencesForm.TitleFocus | src/app/components/SelectPreferences.tsx:93-97 | focusing resets the title to `['']` exactly when the field's text is the held title |
| SelectPreferences.PreferencesForm.ChipClick | src/app/components/SelectPreferences.tsx:102-117 | a chip sets the title to exactly its option, which is then highlighted; being a submit button inside the form, it also submits the form with that title and the other two lists |
| SelectPreferences.PreferencesForm.TitleInputValue | src/app/components/SelectPreferences.tsx:91 | the field shows the held title, or `""` when there is none |
| SelectPreferences.PreferencesForm.AtMostOneChip | src/app/components/SelectPreferences.tsx:111 | at most one chip is highlighted, and it is the title the field shows |
| SelectPreferences.PreferencesForm.HandleSubmit | src/app/components/SelectPreferences.tsx:57-64 | the three lists are forwarded unchanged, each holding at most one value |

## Left out

- Network I/O: every `fetch` and `response.json()` becomes an input reply. HTTP, the worker and backend URLs, and JSON parsing are not modelled.
- The WebSocket job stream that the recommendations page's `WSJob` type comes from is not modelled. That type is not defined in the modelled files, so job records in the chat are string-keyed maps.
- Timers and `Date.now()` become parameters, one per call (the chat's selection takes two). Nothing is claimed about the ids' uniqueness. The stale `currentStage` comparison inside the progress interval is modelled as assigning the stage found.
- `atob`, `decodeURIComponent` and `JSON.parse` are abstract parameters. `CurrentUser.PercentDecode` is an independent byte-level inverse of the percent step, not `decodeURIComponent`, which also decodes UTF-8.
- CurrentUser.PercentRoundTrip: is stated for binary strings (codes below 256, which is what `atob` returns). For larger codes the step keeps only the low byte, as `CurrentUser.Escape` states.
- JsText.ToLower: folds ASCII letters only; JavaScript's full Unicode case mapping is not modelled. The same holds for `JsText.ToUpper`.
- Json.JsonValue: numbers are integers; fractional JSON numbers, `NaN` and infinities are not modelled.
- Json.Property: of the members a value inherits from its prototype, only the HTML methods of strings and the `name` of a built-in method are modelled. Others such as `length` or `toString` are not. The hook reads only `sub` and `name`, and for those two keys the model is exact.
- JobListings.JobListings.constructor: the listing's `isLoading` and `error` states (JobListings.tsx:21-22) and the loading and error panels they control are not modelled. A failed fetch only sets the error text and leaves both job lists empty, so `ReceiveJobs` models the one path that changes the lists.
- Logging: the `console.log` and `console.error` calls (JobListings.tsx:28 and 41, upload/page.tsx:68, startEmbedderTask.ts:45, startrecommendationtask.ts:20 and 24, preference/page.tsx:15 and 25) are not modelled; they change no state the model tracks.
- Json.IntToDecimal: does not model the exponent notation `String()` uses for magnitudes of 1e21 and above.
- JsText.Split: strings are sequences of Unicode code points, whereas JavaScript strings are UTF-16 code units. `split`, `charAt(0)` (in `JobCard.CardAvatar`) and `length` therefore differ for characters outside the Basic Multilingual Plane.
- JobCard.MatchTier: scores are exact reals; a `NaN` score, which the source shows yellow, is not modelled.
- RecommendationTask.StoreAfterStart: the ok reply's body is taken to be an object with a string `task_id`, as the function's declared return type says. A body without one would store `"undefined"` (or the value's `String()`), and a `null` body would throw at `data.task_id`; neither is modelled.
- EmbedderTask.CompletedStoresTaskId: holds under the same typed-body reading as `RecommendationTask.StoreAfterStart`. For an untyped `task_id` the stored text and the reported id would differ.
- SelectPreferences.PreferencesForm.ChipClick: the submission it returns is what `onSubmit` receives. The preference page's POST of it to `/api/v1/search` is not part of this model. The model takes the click's state update to be committed before the `submit` event, as React does for a user's click.
- The preference form's option lists and the chat's two quick-reply texts are inputs; their texts are not reproduced.
- RecommendationProgress.Progress: uses exact rationals instead of floating point. The `Math.round` percentage display is not modelled.
- The upload page's size display `toFixed(2)` is floating-point formatting and is not modelled.
- The toast notifications, the upload `FormData` layout and the drag-over handler are presentation and are not modelled.
- The DOM `activeElement` clearing in the preference chip handler and the chat's scroll-to-bottom are browser mechanics and are left out.
- The job listings' loading spinner and fetch-error panel are not modelled. Only the successful fetch (`ReceiveJobs`) is.
- The sample jobs' texts are not reproduced. `Recommendations.FiveJobsFitThePreview` uses only their count.
- `RecommendationLoader.tsx`, the marketing components, navigation and layout hold no logic and are not part of this model.
- `apiFetch` copies a `Headers` object by its `forEach` pairs. Header-name normalisation inside the browser's `Headers` class is not modelled.
- Behaviour of the code worth noting:
  - A status of `"error"` from the poll endpoint is retried like `"pending"`. It is not a terminal failure.
  - The poller makes up to 31 status requests, because the counter is checked before it is incremented.
  - The timeout message says "5 minutes", although the bound is about 30 seconds of sleep.
  - Completing a task writes `recommendation_task_id`. Nothing in the modelled code clears it.
