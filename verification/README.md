# FOG marketplace client: the sequential logic inside its handlers

FOG is a freelance and local-task marketplace. Its web client is written in React and
talks to a hosted database and to a generative-AI API. This project models the
deterministic logic inside the client's event handlers and effects, and proves
properties of it:

- **the messaging inbox** (`components/MessageWidget.tsx`): the list of conversations,
  keyed by the other user's id. The model covers the open-request guard, the
  placeholder for a new conversation, reconciling the active conversation after a
  refresh, marking a conversation read together with the clamped unread badge, the
  optimistic send, the choice of message for the AI-assisted reply, and the
  Buying/Selling tabs.
- **the data-access layer** (`services/apiService.ts`): the `isUUID` guard and the
  "no query for an invalid id" rule of every guarded read and write. It also covers
  the row-to-view-model mappers, the choice of messages to mark read, and the
  transaction sign rule.
- **the job board** (`pages/FreelancePage.tsx`): the case-insensitive search, the
  newest-first ordering, the selection screen, and the empty-result message.
- **the AI chat** (`components/ChatWidget.tsx`): the greeting, the send guard, the
  history handed to the model, streaming into one placeholder message, and the
  apology on error.
- **the rewards hub** (`pages/RewardsHubPage.tsx`): the optimistic set of completed
  tasks with its rollback, the split into Micro-Tasks and Promotions, and the button
  labels.
- **the auth context** (`hooks/useAuth.tsx`): the three-attempt profile fetch, the
  outcomes of sign-in and sign-out, the partial-update merge, and `isAuthenticated`.

Every answer from the database, the RPCs or the AI stream is a parameter. API calls
take an `Answer` (rows, or an error). Guarded calls return a `Call`, which is
`NoQuery` when the id guard answered before any query was built. The profile fetch
takes a function from attempt number to result. The streamed reply is a sequence of
chunks plus a flag saying whether the stream then failed. Ids and timestamps built
from `Date.now()` are parameters too.

Modules: `Wrappers` (Option and Result), `Seqs` (filter, and "keeps relative order"),
`Text` (JavaScript `trim`, ASCII `toLowerCase`, `includes`, `split(' ')[0]`, integer
printing), `Types` (the records of `types.ts`), `Uuid` and `ApiService`
(`services/apiService.ts`), `MessageWidget`, `ChatWidget`, `FreelancePage`,
`RewardsHub` and `UseAuth`.

Representation choices:
- Timestamps are integers. Money, ratings and points are integers.
- `null` and optional fields are `Option`.
- A job is `Job(info, postedBy)`. `JobInfo` is `Omit<Job, 'postedBy'>`, the type of a
  user's work history.
- `toLowerCase` folds ASCII letters only.

## Model

| member | source | states |
|---|---|---|
| Uuid.HexGroupsLength | services/apiService.ts:7 | a string made of hyphen-separated hex groups is exactly as long as the groups plus one hyphen between each two |
| Uuid.UuidLength | services/apiService.ts:7 | every string `isUUID` accepts has length 36 |
| Uuid.UuidLayoutIff | services/apiService.ts:7 | the 8-4-4-4-12 pattern accepts exactly the 36-character strings with hyphens at 8, 13, 18 and 23 and a hex digit of either case everywhere else |
| Uuid.UuidOfGroups | services/apiService.ts:7 | any five hex-digit groups of lengths 8, 4, 4, 4 and 12, joined by hyphens, are accepted |
| Uuid.UuidAcceptsMixedCase | services/apiService.ts:7 | a UUID mixing upper- and lower-case hex digits is accepted |
| Uuid.UuidRejectsShort | services/apiService.ts:7 | a string missing its last group is rejected |
| Uuid.CheckUuid | services/apiService.ts:7 | a left-to-right scan returns true exactly for the strings the pattern accepts |
| Uuid.ValidIdIff | services/apiService.ts:97 | for a present id, the `!id` test adds nothing to `isUUID`: the id passes the guard iff it is a UUID |
| ApiService.MapProfile | services/apiService.ts:12-30 | every profile column is carried over (reading the stored columns back gives the row), while `workHistory` starts as [] and `unreadMessages` as 0 |
| ApiService.MapMessage | services/apiService.ts:386-395 | a message row is carried over column for column (reading the row back gives it), and `jobSubject` is always '' |
| ApiService.MapMessages | services/apiService.ts:386-395 | the mapping keeps the number and order of rows, and the i-th message reads back as the i-th row |
| ApiService.UnreadIdsToMark | services/apiService.ts:381 | an id is selected iff some fetched row with that id is addressed to the user and has a null `read_at` |
| ApiService.SignOf | services/apiService.ts:456 | the sign is '+' exactly for Deposit and Earning, and '-' exactly for Withdrawal and Expense |
| ApiService.MapTransaction | services/apiService.ts:452-459 | the amount text starts with the type's sign and then '$' and the two-decimal amount; every other column is copied |
| ApiService.GetJobById | services/apiService.ts:96-111 | an invalid id gives null without a query, and only such an id skips the query. For a valid id, an error gives null and otherwise the fetched job (or null) is returned |
| ApiService.GetUserById | services/apiService.ts:113-153 | an invalid id gives null without a query. A user comes back iff the profile row exists. Its profile columns are the row's, its work history is the jobs answer (or [] on error), and its unread count is what `getUnreadMessageCount` gives |
| ApiService.GetJobsByUserId | services/apiService.ts:156-167 | a missing or non-UUID id gives [] and issues no query, and only such an id does. For a valid id, an error gives [] and otherwise the fetched rows are returned |
| ApiService.GetBidsByJobId | services/apiService.ts:226-252 | a missing or non-UUID job id gives [] and issues no query, and only such an id does. For a valid id, an error gives [] and otherwise the fetched rows are returned |
| ApiService.GetCommentsByJobId | services/apiService.ts:283-305 | a missing or non-UUID job id gives [] and issues no query, and only such an id does. For a valid id, an error gives [] and otherwise the fetched rows are returned |
| ApiService.GetActivities | services/apiService.ts:462-476 | a missing or non-UUID id gives [] and issues no query, and only such an id does. For a valid id, an error gives [] and otherwise the fetched rows are returned |
| ApiService.GetConversations | services/apiService.ts:348-365 | an invalid id gives [] and issues no query, and only such an id skips the query. For a valid id, the RPC's non-null data is returned, and an error or null data gives [] |
| ApiService.GetTransactions | services/apiService.ts:440-460 | an invalid id gives [] without a query, and an error answer gives []. Otherwise each fetched row becomes one transaction, in order, mapped with the sign rule |
| ApiService.GuardedList | services/apiService.ts:156-166 | the shared list-read shape: the guard skips the query exactly for an invalid id and gives []; for a valid id, an error gives [] and otherwise the fetched rows are returned |
| ApiService.GetMessagesForConversation | services/apiService.ts:367-396 | either id invalid gives [] without a query. Otherwise the rows are mapped, and a read-marking update is issued iff some message is unread and addressed to the user; it lists exactly those ids |
| ApiService.GetUnreadMessageCount | services/apiService.ts:398-411 | an invalid id gives 0 without a query; a non-zero count comes only from a successful answer carrying that count, so an error or a missing count gives 0 |
| ApiService.GetFreelanceJobs | services/apiService.ts:68-80 | an error gives []; otherwise the fetched jobs are returned as they are |
| ApiService.UpdateJob | services/apiService.ts:196-212 | an invalid job id throws "Invalid job ID for update." before any query; success exactly when the id is valid and the update did not fail, returning the job unchanged; a failed update throws exactly the update's error message |
| ApiService.DeleteJob | services/apiService.ts:214-224 | an invalid id returns `{success: false, id}` without a query; `success` is true exactly for a valid id whose delete did not fail, and a failed delete throws its error message instead of resolving |
| ApiService.AddBid | services/apiService.ts:254-281 | an invalid job id throws "Invalid job ID for bid." before any query. Success exactly when the id is valid and the insert returned a row, and that row is returned; a failed insert throws a non-empty message |
| ApiService.AddComment | services/apiService.ts:307-329 | an invalid job id throws "Invalid job ID for comment." before any query. Success exactly when the id is valid and the insert returned a row, and that row is returned; a failed insert throws a non-empty message |
| ApiService.GuardedInsert | services/apiService.ts:255-266 | the shared insert shape succeeds exactly for a valid id whose insert returned a row, and then returns that row |
| ApiService.AddMessage | services/apiService.ts:331-346 | success iff the RPC did not fail, and it then returns the optimistic message unchanged; otherwise it throws the RPC's message |
| ApiService.CompleteRewardTask | services/apiService.ts:478-483 | success exactly when the task id is a UUID |
| MessageWidget.HandleOpenRequest | components/MessageWidget.tsx:34-39 | the request sets the target and opens the widget iff the id is present and non-empty, a user is signed in, and the id is not the user's own; otherwise nothing changes |
| MessageWidget.OpenRequestKeepsNoSelfTarget | components/MessageWidget.tsx:36 | the pending target is never the signed-in user, and accepting a request keeps it so |
| MessageWidget.FindIndex | components/MessageWidget.tsx:149 | returns the first index whose other user matches, or -1 exactly when none does |
| MessageWidget.Find | components/MessageWidget.tsx:71 | returns nothing exactly when no entry matches, and otherwise the first match |
| MessageWidget.WithoutKey | components/MessageWidget.tsx:84 | drops every entry of one other user, keeps the rest in order, and leaves every other user's count as it was |
| MessageWidget.PutFirst | components/MessageWidget.tsx:84 | the new entry comes first and is its user's only entry; the rest keep their relative order and their per-user counts; the length changes by one minus the old count; unique keys stay unique |
| MessageWidget.Placeholder | components/MessageWidget.tsx:77-82 | the placeholder has no unread messages and sits on the Buying side. Its last message is empty and unread, from the current user to the other user, with subject "New Conversation" |
| MessageWidget.ReconcileActive | components/MessageWidget.tsx:89-93 | the active conversation is dropped iff the refreshed list has no entry for its other user, or that entry's `isBuying` disagrees with the current tab; otherwise it is kept |
| MessageWidget.Refresh | components/MessageWidget.tsx:65-99 | runs only when open with a user, and always loads the fetched list. A non-empty pending target is cleared: if listed it becomes active, and if not listed but its profile exists, the `Placeholder` for the current user and that profile is put first and made active. Without such a target, the active conversation is reconciled. Nothing else changes |
| MessageWidget.RefreshOpensPendingTarget | components/MessageWidget.tsx:70-88 | when the fetched profile is the pending target's, the refresh leaves that user's conversation active and in the list, and clears the target |
| MessageWidget.MarkRead | components/MessageWidget.tsx:117 | keeps the length, zeroes the unread count of the opened user's entries, and leaves every other entry unchanged |
| MessageWidget.DecrementBadge | components/MessageWidget.tsx:113-116 | the badge becomes max(0, badge - u), where u is the unread count of the first entry for that user (0 if none). It changes only when u is positive and the badge is non-zero, and a non-negative badge never goes below 0 or above its old value |
| MessageWidget.MarkReadTotal | components/MessageWidget.tsx:113-117 | marking read removes at least the first matching entry's unread count from the total |
| MessageWidget.OpenConversation | components/MessageWidget.tsx:110-121 | with an active conversation and a user: the fetched messages are shown, that conversation's entries are marked read, and the badge is decremented. Without them, the messages are cleared. Nothing else changes |
| MessageWidget.OpenConversationKeepsBadgeCovers | components/MessageWidget.tsx:113-117 | if the badge covered the unread total before, it still covers it after opening a conversation |
| MessageWidget.OpenConversationIdempotent | components/MessageWidget.tsx:110-121 | opening the same conversation again leaves the list and the badge as they are |
| MessageWidget.NewMessage | components/MessageWidget.tsx:136-145 | the message goes from the user to the active conversation's other user, unread. Its content is "Sent attachment: <name>" when a file is attached and the typed text otherwise. It keeps the conversation's job id and subject |
| MessageWidget.SendListUpdate | components/MessageWidget.tsx:148-154 | an absent conversation leaves the list unchanged. Otherwise the updated conversation comes first with the new last message and the rest keep their order. With unique keys the length is kept |
| MessageWidget.HandleSendMessage | components/MessageWidget.tsx:127-159 | nothing happens without a user, without an active conversation, or with blank text and no attachment. Otherwise the message is appended and the list updated, and the attachment is cleared only if the send did not throw |
| MessageWidget.BlankTextSendsNothing | components/MessageWidget.tsx:134 | text made only of white space, with no attachment, sends nothing |
| MessageWidget.LastFromOthers | components/MessageWidget.tsx:163 | picks the latest message not sent by the user, and nothing exactly when every message is the user's |
| MessageWidget.AiAssistDraft | components/MessageWidget.tsx:161-173 | the input takes the reply exactly when there is a user, an active conversation, and a message from someone else; otherwise it is unchanged |
| MessageWidget.OnTab | components/MessageWidget.tsx:196 | a tab shows, in order, exactly the conversations whose `isBuying` matches it |
| MessageWidget.TabsPartition | components/MessageWidget.tsx:196 | every conversation appears on exactly one of the two tabs |
| ChatWidget.GreetingName | components/ChatWidget.tsx:24 | the greeted name is the user's name up to its first space (all of it if it has none), or "there" without a user |
| ChatWidget.Welcome | components/ChatWidget.tsx:21-25 | the welcome message has id 'ai-welcome', comes from the AI, and greets that name |
| ChatWidget.WelcomeNameRecoverable | components/ChatWidget.tsx:24 | the greeted name can be read back out of the welcome text |
| ChatWidget.OnOpen | components/ChatWidget.tsx:27-32 | opening resets the transcript to exactly the welcome message and clears `hasInteracted`; a closed chat is untouched |
| ChatWidget.History | components/ChatWidget.tsx:53-58 | the history has no more entries than the transcript, and each entry carries exactly one text part |
| ChatWidget.HistoryIsFilterMap | components/ChatWidget.tsx:53-58 | the history is the transcript without the welcome message, with each message mapped in order |
| ChatWidget.HistoryAppend | components/ChatWidget.tsx:53-58 | the history of a concatenation is the concatenation of the histories |
| ChatWidget.HistoryOne | components/ChatWidget.tsx:54-57 | the welcome message contributes nothing. Any other message contributes one entry: role 'user' for the user and 'model' for the AI, with its content as the text part |
| ChatWidget.SendHistory | components/ChatWidget.tsx:48-58 | the history sent is the earlier history followed by the new user message |
| ChatWidget.OnOpenHistoryEmpty | components/ChatWidget.tsx:27-32 | right after opening, the transcript contributes nothing to the model's history |
| ChatWidget.FirstSendHistory | components/ChatWidget.tsx:27-58 | the first message sent after opening reaches the model with a history holding that message alone |
| ChatWidget.ReplaceById | components/ChatWidget.tsx:75 | one streaming update rewrites the messages with the placeholder's id and leaves every other message as it was |
| ChatWidget.Stream | components/ChatWidget.tsx:72-76 | after the chunks arrive, the placeholder holds their concatenation and no other message has changed |
| ChatWidget.ReplyShape | components/ChatWidget.tsx:63-86 | with a fresh placeholder id, the reply keeps earlier messages, adds the placeholder with the joined chunks, then one apology if the stream failed |
| ChatWidget.SentTranscriptShape | components/ChatWidget.tsx:42-86 | with fresh ids, a send appends the user's message, then the reply, then the apology on failure, and keeps everything before |
| ChatWidget.HandleSendMessage | components/ChatWidget.tsx:38-89 | a blank text or a loading reply makes the send a no-op; otherwise the chat is marked interacted, the transcript grows by at least two messages, and `isLoading` ends false |
| ChatWidget.BlankOrBusySendIgnored | components/ChatWidget.tsx:39 | white-space-only text, or a send while loading, changes nothing |
| FreelancePage.FilteredJobs | pages/FreelancePage.tsx:34-38 | a job is kept iff the lower-cased term occurs in its lower-cased title, its description, or one of its skills |
| FreelancePage.FilteredJobsCount | pages/FreelancePage.tsx:34-38 | a matching job appears in the filtered list as often as it was loaded, so duplicates are kept; a job that does not match appears nowhere in it |
| FreelancePage.FilteredJobsOrderAndIdempotence | pages/FreelancePage.tsx:34 | the filtered jobs keep the loaded order, and filtering them again with the same term changes nothing |
| FreelancePage.EmptySearchKeepsAll | pages/FreelancePage.tsx:34-38 | an empty search term keeps every job |
| FreelancePage.TitleMatchKept | pages/FreelancePage.tsx:35 | a job whose title contains the term, ignoring case, is kept |
| FreelancePage.Insert | pages/FreelancePage.tsx:29 | inserting into a newest-first list keeps it newest first and adds exactly that job |
| FreelancePage.SortNewestFirst | pages/FreelancePage.tsx:29 | the sorted jobs are a permutation of the fetched ones, ordered by `createdAt`, newest first |
| FreelancePage.SortKeepsSorted | pages/FreelancePage.tsx:29 | a list already newest first is left as it is |
| FreelancePage.Initial | pages/FreelancePage.tsx:17 | the selection screen starts shown iff the navigation came from 'HomePageFindTalent' |
| FreelancePage.OnNavigation | pages/FreelancePage.tsx:19-24 | any other origin forces the selection screen off; nothing else changes |
| FreelancePage.SelectionNeverReturns | pages/FreelancePage.tsx:20-23 | once the selection screen is off, no navigation brings it back |
| FreelancePage.SelectionAfterNavigation | pages/FreelancePage.tsx:17-24 | after a navigation the selection screen is up iff it was up and the navigation came from 'HomePageFindTalent' |
| FreelancePage.InitialStable | pages/FreelancePage.tsx:17-24 | on a fresh page, the navigation effect leaves the initial state as it is |
| FreelancePage.OnJobsLoaded | pages/FreelancePage.tsx:26-32 | after loading, the jobs are the fetched ones, newest first, and loading is over |
| FreelancePage.OnChooseFreelance | pages/FreelancePage.tsx:48-50 | the "Freelance Job" button closes the selection screen and changes nothing else |
| FreelancePage.ChooseFreelanceThenNoJobsFound | pages/FreelancePage.tsx:40-98 | after choosing "Freelance Job" and loading, "No Jobs Found" shows iff no fetched job matches the search |
| FreelancePage.NoJobsFoundIff | pages/FreelancePage.tsx:40-98 | after loading, "No Jobs Found" shows iff the selection screen (which returns early) is off and no fetched job matches the search |
| RewardsHub.HandleAction | pages/RewardsHubPage.tsx:25-41 | nothing happens without a user or for an id already completed. Otherwise the id is added, and removed again only if the call threw |
| RewardsHub.MarkCompleted | pages/RewardsHubPage.tsx:28 | the optimistic step adds exactly the task id and nothing else |
| RewardsHub.RollbackRestores | pages/RewardsHubPage.tsx:35-39 | removing the id again restores the set as it was before the action |
| RewardsHub.InvalidTaskStaysCompleted | pages/RewardsHubPage.tsx:25-41 | a non-UUID task id resolves with success false, yet stays marked completed |
| RewardsHub.InvalidTaskExample | pages/RewardsHubPage.tsx:31 | the id "survey-1" is rejected by the completion call, yet its button reads "Completed" |
| RewardsHub.HandleActionChecked | pages/RewardsHubPage.tsx:25-41 | corrected handler: the id stays in the set iff the call resolved with success, and nothing else changes |
| RewardsHub.CheckedMarksOnlyCompleted | pages/RewardsHubPage.tsx:25-41 | with the corrected handler and the real completion call, a task is marked completed iff its id is a UUID |
| RewardsHub.Promotions | pages/RewardsHubPage.tsx:153 | a fetched task is listed as a promotion iff its title contains "Social" (case-sensitive) |
| RewardsHub.MicroTasks | pages/RewardsHubPage.tsx:133 | a fetched task is listed as a micro-task iff its title does not contain "Social" |
| RewardsHub.TasksPartition | pages/RewardsHubPage.tsx:133-153 | every reward task is in exactly one group, as often as it was fetched, and each group keeps the fetched order |
| RewardsHub.ButtonLabel | pages/RewardsHubPage.tsx:141 | a completed id's button reads 'Completed'; any other shows its own text |
| RewardsHub.SurveyText | pages/RewardsHubPage.tsx:121 | a survey button's own text ends in " Points" after the printed number |
| RewardsHub.SurveyTextReadsPoints | pages/RewardsHubPage.tsx:121 | the number before " Points" reads back as the survey's points. Its digits give the magnitude, with a leading '-' exactly when the points are negative |
| RewardsHub.EnabledButtonShowsOwnText | pages/RewardsHubPage.tsx:120-121 | a button that is not disabled (`ButtonDisabled`, the `disabled={completedTasks.has(id)}` of lines 120 and 140) shows its own text |
| UseAuth.FirstProfile | hooks/useAuth.tsx:32-36 | the first non-null answer among the three attempts; null exactly when all three were null |
| UseAuth.FetchProfile | hooks/useAuth.tsx:32-36 | at most three attempts are made. The loop stops at the first attempt that returns a profile. Every earlier attempt returned null, and a null result means all three were made |
| UseAuth.ApplyProfile | hooks/useAuth.tsx:38-46 | with a profile, the user is that profile and the counter its `unreadMessages`; without one, no user and 0 |
| UseAuth.LoadUserProfile | hooks/useAuth.tsx:27-47 | the outcome is that of the first profile found, and without a user the counter is 0 |
| UseAuth.OnAuthChange | hooks/useAuth.tsx:69-77 | the session is stored, and `isAuthenticated` (`IsAuthenticated`, the `!!session?.user` of line 88) holds iff it has a user. Without one, the user is cleared and the counter is 0; with one, the profile is loaded |
| UseAuth.Initialize | hooks/useAuth.tsx:56-66 | `isInitializing` ends false whether or not a session exists, and `isAuthenticated` holds iff the session has a user. With a session user, the state is the outcome of loading the first profile found, unread counter included; without one, user and counter are untouched. A state with no user and a zero counter keeps that invariant |
| UseAuth.Merge | hooks/useAuth.tsx:51 | every supplied field is overwritten and every other field keeps its value |
| UseAuth.UpdateUser | hooks/useAuth.tsx:49-53 | nothing happens without a user; otherwise exactly the supplied fields change |
| UseAuth.UpdateUserIdempotent | hooks/useAuth.tsx:49-53 | applying the same partial update twice is the same as once |
| UseAuth.EmptyPatchKeepsUser | hooks/useAuth.tsx:49-53 | an update that supplies no field leaves the user as it was |
| Text.TrimEmptyIffBlank | components/ChatWidget.tsx:39 | `text.trim()` is empty iff every character is ECMAScript white space or a line terminator |
| Text.ToLower | pages/FreelancePage.tsx:35-37 | lower-casing keeps the length and folds exactly 'A'..'Z' |
| Text.IncludesIff | pages/FreelancePage.tsx:35-37 | `includes` holds iff the needle occurs as a contiguous block somewhere in the text |
| Text.FirstWord | components/ChatWidget.tsx:24 | `split(' ')[0]` is the longest space-free prefix, followed by a space or the end of the string |
| Text.ParseNatToString | pages/RewardsHubPage.tsx:121 | printing a natural number in decimal and reading it back gives the number |
| Text.IntToString | pages/RewardsHubPage.tsx:121 | a negative number prints as '-' followed by the digits of its magnitude; a non-negative one prints as its digits |
| Text.ParseIntToString | pages/RewardsHubPage.tsx:121 | printing an integer and reading it back, sign included, gives the integer |

## Left out

- Network, database and AI clients: query builders, the RPCs `get_user_conversations`,
  `send_message` and `increment_points`, and the Gemini API. Their results are parameters.
- Timers and async plumbing: the 15-second unread-count polling, the 500 ms retry delay
  (only the attempt count is kept), promise interleavings and React effect scheduling.
  Each effect is a single transition applied to the state it sees.
- Ids and timestamps built from `Date.now()` and `new Date()`: they are parameters.
- Rendering, CSS, scrolling, the body-overflow toggle, the microphone (`getUserMedia`),
  the file picker and the DOM input element (`!input` in the send guard, `form.reset()`).
- `mapJob`, `mapActivity`, and the bid, comment, conversation and work-history mappers:
  they only rename snake_case columns to camelCase, so the model takes their answers
  already in view-model shape.
- `addJob`, `claimAdPoints`, `getLocalTasks`, `getTestimonials`, `getSurveys`,
  `getRewardTasks`, `getEarningsBreakdown` and `getMonthlyActivity`: these calls are
  unguarded pass-throughs or static data.
- The `Number(amount).toFixed(2)` of floating-point amounts: amounts are integer cents, so
  there is no rounding.
- ApiService.Fixed2: states only the shape of the two-decimal text (a '.' before the last
  two characters), not its digits, because formatting is out of scope beyond the sign rule.
- FreelancePage: the "Local Task" button of the selection screen (line 56) only navigates to
  another page; routing is not modelled.
- FreelancePage.SortNewestFirst: does not state stability among jobs with equal
  timestamps, and dates that do not parse (`NaN` in the comparator) are not representable.
- ChatWidget.Stream: each chunk is a string. A chunk whose `text` is undefined would append
  "undefined" in the source.
- ChatWidget.HandleSendMessage: the transcript shape is stated for fresh message ids only.
  A placeholder id equal to an earlier message's id would overwrite that message too.
  Closing and reopening the chat while a reply streams is not modelled.
- UseAuth.UpdateUser: a field explicitly set to `undefined` in the partial update is
  treated as absent, whereas the object spread would copy the `undefined`.
- `logout` only calls the auth client's sign-out. Its effect on the state is `OnAuthChange`
  with no session.
- RewardsHub.SurveyTextReadsPoints: points are integers of magnitude below 10^21. JavaScript
  prints larger numbers in exponent form ("1e+21") and fractional ones with a decimal point,
  where the read-back would fail.
- Text.IntToString: prints every digit, which is `String(n)` only for integers of magnitude
  below 10^21; exponent form and fractions are not modelled.
- UseAuth: `unreadMessages || 0` is the value itself, because the counter is an integer.
- The open request's `userId` is an `Option<string>`. A non-string detail value is not
  representable.
- MessageWidget: switching tabs re-runs the refresh. That is `Refresh` applied to the
  state with the new tab. Clearing the target (MessageWidget.tsx:88) also re-runs it,
  because the effect depends on `targetUserId` (line 99). That second `getConversations`
  races the `getUserById` that builds the placeholder: if it resolves last, it replaces the
  list holding the placeholder by the fetched one. Each run is one `Refresh`; their
  interleaving, and the stale `activeConversation` its closure reads, are not modelled.
- pages/LoginPage.tsx, pages/SignupPage.tsx, pages/ProfilePage.tsx, pages/AboutPage.tsx,
  components/FoundersSection.tsx and components/PieChart.tsx are presentation or mock
  sign-in and are not part of this model.

## Findings

| source | as written | input that shows it | evidently intended | confidence | as-written member | corrected member |
|---|---|---|---|---|---|---|
| pages/RewardsHubPage.tsx:25-41 | `handleAction` rolls back only when `completeRewardTask` throws, but that call never throws. It reports an invalid id by resolving with `{ success: false }`, which the handler ignores | a task or survey whose id is not a UUID, e.g. "survey-1": the call resolves with success false and the button still reads "Completed" | an unsuccessful completion is rolled back like a thrown one | medium, not executed | RewardsHub.InvalidTaskExample | RewardsHub.CheckedMarksOnlyCompleted |
