# ScrollStop core in Dafny

ScrollStop is a browser extension with a small server behind it. The
extension counts how long the user spends on sites they track. Once the
site's time limit is reached, the site is blocked behind a quiz. Answering
enough questions correctly in a row unblocks it, resets its time and reports
the result to the user's study room. The server generates quiz questions
from uploaded documents and keeps score for the members of each room.

This project models the logic of that core and proves its properties:

- **The extension's background coordinator** (`ServiceWorker`, `QuizSession`,
  `TimeAccrual`, `DomainMatch`):
  - the class `ServiceWorker.Worker` holds the current tab and domain, the
    last tick time and the per-domain quiz sessions;
  - its message handlers and the time tick update that state;
  - each handler is proved equal to a pure specification function over an
    `Engine` value. Lemmas about those functions state what the handlers do:
    the guards, the answer transitions, unblocking, accrual and blocking, and
    the invariants the handlers preserve.
- **The extension's storage layer** (`Storage`): a key-value store with three
  blobs (settings, user and time tracking).
- **The settings page's list logic** (`SettingsPage`): toggling, adding with
  normalisation, and removing tracked domains.
- **The server address normalisation** (`ServerConfig`).
- **The server's question generator** (`QuizGenerator`): the retry policy,
  the validation filter, storing generated questions and picking random
  questions.
- **The server's room bookkeeping** (`RoomManager`): rooms, memberships,
  scores and the leaderboard, over tables modelled as sequences of rows.

Conventions:

- Time stamps are integer milliseconds. Accumulated time is a `real` number
  of seconds.
- JavaScript truthiness is spelt out wherever the source relies on it. For
  example, an empty room id counts as "no room", and a tab id of 0 counts as
  "no tab".
- Messages to tabs and reports to the server are appended to an `outbox` log
  rather than sent.

Behaviour of the code that the model keeps as written:

- A site is tracked when an enabled entry occurs anywhere inside its domain
  name. This is a substring test, so with the default list `netflix.com`
  counts as tracked because it contains `x.com` (`DomainMatch.DefaultsTrackNetflix`).
- Adding `https://` on the settings page adds an entry with the empty domain,
  which then tracks every site (`SettingsPage.SchemeOnlyAddsEmptyDomain`,
  `DomainMatch.EmptyEntryTracksEverything`).
- The "pick a different answer" guard compares only the selected index with
  the last wrong one. Moving to the next question clears it.
- The "next question" handler moves on whatever the current answer state is.
- The validator accepts a fractional correct index such as 1.5. The
  extension compares the chosen option's whole-number index with it
  strictly, so such a question can never be answered right; only moving on
  gets past it (`QuizSession.FractionalIndexUnanswerable`).
- A completion report whose request is rejected throws out of the answer
  handler after the domain is unblocked. Its spent session is never deleted
  and its tabs are not told to unblock (see "## Findings"). The coordinator
  keeps this; `ServiceWorker.GuardedAnswerAt` is the corrected transition.
- `slice(0, count)` with a negative count keeps all but the last `-count`
  rows, so that call can return more than `count` questions.

## Model

| member | source | states |
|---|---|---|
| Text.Trim | extension/src/popup/pages/Settings.tsx:47-49 | `trim()` keeps one contiguous slice of the input and drops only whitespace on either side of it; the result is empty exactly when the input is all whitespace, and otherwise neither starts nor ends with whitespace |
| Text.TrimKeepsTrimmed | extension/src/popup/pages/Settings.tsx:47-49 | a non-empty string that neither starts nor ends with whitespace is its own trim |
| Text.TrimIdempotent | extension/src/popup/pages/Settings.tsx:48-49 | trimming twice is trimming once |
| Text.Includes | extension/src/background/service-worker.ts:48-49 | `includes` holds exactly when the needle occurs at some position of the string |
| Text.ToUpperAscii | server/src/services/roomManager.ts:42 | upper-casing keeps the length, capitalises each lower-case letter and changes nothing else |
| Text.ToUpperAsciiIdempotent | server/src/services/roomManager.ts:8 | upper-casing an already upper-cased code changes nothing |
| Text.NatToDecimal | extension/src/background/service-worker.ts:270-274 | the decimal rendering of the remaining count is a non-empty string of digits with no leading zero |
| Text.DecimalRoundTrip | extension/src/background/service-worker.ts:270-274 | reading the rendered count back gives the number |
| ServerConfig.StripTrailingSlashes | extension/src/lib/serverConfig.ts:5 | the result is a prefix of the input, does not end in `/`, and everything removed was `/` |
| ServerConfig.ServerBaseUrl | extension/src/lib/serverConfig.ts:1-5 | the server base address never ends in `/` |
| ServerConfig.ApiBaseUrl | extension/src/lib/serverConfig.ts:6 | the API base is the server base followed by `/api`, with no doubled slash |
| ServerConfig.NoTrailingSlashUnchanged | extension/src/lib/serverConfig.ts:5 | an address without a trailing slash is unchanged |
| ServerConfig.StripIdempotent | extension/src/lib/serverConfig.ts:5 | normalising twice is normalising once |
| ServerConfig.StripRemovesOnlyTrailingSlashes | extension/src/lib/serverConfig.ts:5 | any number of trailing slashes after a slash-free end is removed, and nothing else |
| ServerConfig.DefaultBase | extension/src/lib/serverConfig.ts:1-6 | with no environment value the bases are `http://localhost:3001` and `http://localhost:3001/api` |
| Storage.SettingsOrDefault | extension/src/lib/storage.ts:10-13 | stored settings if present, otherwise the defaults |
| Storage.TimeTrackingOrEmpty | extension/src/lib/storage.ts:55-58 | the stored time data if present, otherwise the empty map |
| Storage.Merge | extension/src/lib/storage.ts:19 | each settings field is the update's value when the update supplies it, and the current value otherwise |
| Storage.MergeNothing | extension/src/lib/storage.ts:19 | an empty update leaves the settings as they are |
| Storage.MergeFull | extension/src/lib/storage.ts:19 | an update supplying every field replaces the settings |
| Storage.MergeIdempotent | extension/src/lib/storage.ts:19 | applying the same update twice is applying it once |
| Storage.MergeThen | extension/src/lib/storage.ts:19 | two updates in a row equal one combined update where the later field wins |
| Storage.ResetDomain | extension/src/lib/storage.ts:64-71 | a present domain gets zero seconds and is unblocked; no domain is added or removed; other records are untouched |
| Storage.ResetDomainIdempotent | extension/src/lib/storage.ts:64-71 | resetting twice is resetting once |
| Storage.Store.GetSettings | extension/src/lib/storage.ts:10-13 | returns the stored settings, or the defaults when nothing is stored |
| Storage.Store.SaveSettings | extension/src/lib/storage.ts:15-22 | stores and returns the current settings merged with the update; the other blobs are unchanged |
| Storage.Store.GetUser | extension/src/lib/storage.ts:32-35 | returns the stored user, or none |
| Storage.Store.GetTimeTracking | extension/src/lib/storage.ts:55-58 | returns the stored time data, or the empty map |
| Storage.Store.SaveTimeTracking | extension/src/lib/storage.ts:60-62 | replaces the whole time blob; the other blobs are unchanged |
| Storage.Store.ResetDomainTime | extension/src/lib/storage.ts:64-71 | writes back the loaded time data with the domain reset |
| SettingsPage.StripSchemeAndWww | extension/src/popup/pages/Settings.tsx:50 | the result is a suffix of the input; it drops exactly a leading `https://` or `http://` followed by `www.`, or just the scheme, or just `www.`, and is the input itself when none of them leads |
| SettingsPage.StripWww | extension/src/popup/pages/Settings.tsx:50 | a leading `www.` is dropped and nothing else changes |
| SettingsPage.StripHttpsWww | extension/src/popup/pages/Settings.tsx:50 | `https://www.` followed by a host and path gives that host and path |
| SettingsPage.NormalizeDomain | extension/src/popup/pages/Settings.tsx:48-51 | the domain is never longer than the input, and blank input gives the empty domain |
| SettingsPage.NormalizeUrl | extension/src/popup/pages/Settings.tsx:48-51 | `https://www.<host>/<path>` normalises to `<host>` for any single-line host without `/` |
| SettingsPage.DropPathAtHost | extension/src/popup/pages/Settings.tsx:51 | a host followed by `/` and a single-line path keeps the host |
| SettingsPage.DropPath | extension/src/popup/pages/Settings.tsx:51 | the result is the longest prefix before the first place where a path starts |
| SettingsPage.DropPathSingleLine | extension/src/popup/pages/Settings.tsx:51 | on one line, the kept part has no `/`, and the cut is made at the first `/` |
| SettingsPage.NormalizedHasNoSlash | extension/src/popup/pages/Settings.tsx:48-51 | a normalised single-line domain contains no `/` |
| SettingsPage.SliceIsOneLine | extension/src/popup/pages/Settings.tsx:48-51 | every slice of a single-line input is single-line |
| SettingsPage.ToggleAt | extension/src/popup/pages/Settings.tsx:39-44 | only entry `index` has its `enabled` flipped; the length, the order and the other entries are unchanged |
| SettingsPage.ToggleTwice | extension/src/popup/pages/Settings.tsx:39-44 | toggling the same entry twice restores the list |
| SettingsPage.RemoveAt | extension/src/popup/pages/Settings.tsx:61-65 | exactly entry `index` is removed and the rest keep their order; an index outside the list removes nothing |
| SettingsPage.AddEntry | extension/src/popup/pages/Settings.tsx:46-57 | nothing is added exactly when the input is blank or its normalised domain is already listed; otherwise one enabled entry with the normalised domain is appended |
| SettingsPage.AddBlankIsNoOp | extension/src/popup/pages/Settings.tsx:47 | blank input adds nothing |
| SettingsPage.AddDomainKeepsDistinct | extension/src/popup/pages/Settings.tsx:52-57 | adding keeps the listed domains pairwise distinct |
| SettingsPage.SchemeOnlyAddsEmptyDomain | extension/src/popup/pages/Settings.tsx:48-57 | the input `https://` appends an enabled entry with the empty domain |
| SettingsPage.SettingsPanel.constructor | extension/src/popup/pages/Settings.tsx:16-19 | the page starts with no settings, empty input and no saved flag |
| SettingsPage.SettingsPanel.Load | extension/src/popup/pages/Settings.tsx:21-28 | the page's settings become the stored settings |
| SettingsPage.SettingsPanel.HandleSave | extension/src/popup/pages/Settings.tsx:30-37 | before loading nothing happens; afterwards the page's settings merged with the update become both the page state and the stored settings |
| SettingsPage.SettingsPanel.ToggleDomain | extension/src/popup/pages/Settings.tsx:39-44 | saves the list with one entry toggled |
| SettingsPage.SettingsPanel.AddDomain | extension/src/popup/pages/Settings.tsx:46-59 | saves the list with the new entry and clears the input, or changes nothing |
| SettingsPage.SettingsPanel.RemoveDomain | extension/src/popup/pages/Settings.tsx:61-65 | saves the list with one entry removed |
| DomainMatch.ExtractDomain | extension/src/background/service-worker.ts:37-44 | no host name gives none; otherwise the host name with one leading `www.` removed |
| DomainMatch.WwwStrippedOnce | extension/src/background/service-worker.ts:40 | only one `www.` is removed |
| DomainMatch.IsTracked | extension/src/background/service-worker.ts:46-51 | true exactly when some enabled entry's domain occurs inside the domain |
| DomainMatch.DisabledTracksNothing | extension/src/background/service-worker.ts:46-51 | a list with every entry disabled tracks nothing |
| DomainMatch.SubstringQuirk | extension/src/background/service-worker.ts:48-49 | an `x.com` entry also tracks `xx.com` |
| DomainMatch.DefaultsTrackNetflix | extension/src/background/service-worker.ts:46-51 | the default list tracks `netflix.com` |
| DomainMatch.EmptyEntryTracksEverything | extension/src/background/service-worker.ts:46-51 | an enabled empty entry tracks every domain |
| QuizSession.FallbackQuestions | extension/src/background/service-worker.ts:53-86 | five questions, each with four options and a correct index in 0..3, none with an explanation |
| QuizSession.FetchQuizQuestions | extension/src/background/service-worker.ts:88-113 | without a room, without a token, or when the fetch fails the fallback set; otherwise the fetched questions |
| QuizSession.FallbackAvailable | extension/src/background/service-worker.ts:88-113 | in every fallback case the session gets five well-formed questions |
| QuizSession.NewSession | extension/src/background/service-worker.ts:171-182 | a fresh session has index 0, streak 0, 5 required, no wrong answers and no last wrong choice |
| QuizSession.EnsureSession | extension/src/background/service-worker.ts:171-184 | an existing session is kept; a missing one is created fresh; other domains are untouched |
| QuizSession.EnsureIdempotent | extension/src/background/service-worker.ts:171-184 | ensuring a session twice is ensuring it once, whatever questions the second call would fetch |
| QuizSession.CurrentQuestion | extension/src/background/service-worker.ts:253-255 | the question shown is one of the session's questions |
| QuizSession.Answer | extension/src/background/service-worker.ts:257-303 | a correct answer adds 1 to the streak and clears the last wrong choice; it completes exactly at the required streak and otherwise advances the index by 1. A repeated wrong choice changes nothing. A new wrong choice resets the streak, records the choice, appends one entry for the question and keeps the index |
| QuizSession.Next | extension/src/background/service-worker.ts:318-319 | the index goes up by 1 and the last wrong choice is cleared; the streak and wrong answers are unchanged |
| QuizSession.TransitionsKeepSessionOk | extension/src/background/service-worker.ts:257-319 | an answer that does not complete the quiz, and moving on, keep the requirement at 5 and the streak below it |
| QuizSession.NewSessionOk | extension/src/background/service-worker.ts:171-182 | a fresh session satisfies that invariant |
| QuizSession.SpentTransitions | extension/src/background/service-worker.ts:257-303 | a completing answer leaves a spent session (streak at the requirement, guard clear). A spent session completes on its next right answer, any other answer resets it to a well-formed one, and moving on keeps it spent |
| QuizSession.RepeatedWrongIsNoOp | extension/src/background/service-worker.ts:278-303 | giving the same wrong answer again leaves the session unchanged |
| QuizSession.FractionalIndexUnanswerable | extension/src/background/service-worker.ts:257-303 | with a fractional correct index no choice is right: every answer stays on the question and either resets the streak or, repeating the last wrong choice, changes nothing |
| QuizSession.AnswerFeedback | extension/src/background/service-worker.ts:268-302 | the feedback is of the "correct" kind exactly when the answer is correct. A right answer that leaves the quiz running reads "Correct - N more to go", where N is the requirement minus the new streak. A repeated wrong choice asks for a different answer. A new wrong answer starts with "Wrong answer." and differs from that bare text exactly when the question has a non-blank explanation, which then ends the text trimmed |
| QuizSession.BuildBlockMessage | extension/src/background/service-worker.ts:115-130 | the message carries the session's questions and index, so the question it shows is the session's current question, together with its counters, its last wrong choice and the given feedback |
| QuizSession.StreakIsTrailingRightAnswers | extension/src/background/service-worker.ts:257-303 | over any answer sequence, the streak is the number of correct answers since the last new wrong answer, and the quiz completes exactly when that count reaches the requirement |
| QuizSession.WrongAnswersCountNewWrong | extension/src/background/service-worker.ts:290-297 | the wrong-answer log grows by one entry per new wrong answer and keeps its earlier entries |
| QuizSession.FallbackAnswerKey | extension/src/background/service-worker.ts:53-86 | the correct indices of the fallback questions are 2, 1, 1, 1, 2 |
| QuizSession.ScenarioFirstFour | extension/src/background/service-worker.ts:257-303 | on a five-question set with key 2,1,1,1,2, the answers 2,1,0,0 leave a streak of 0 on the third question, with one wrong entry and the repeated wrong answer ignored |
| QuizSession.ScenarioFirstSix | extension/src/background/service-worker.ts:257-303 | the answers 2,1,0,0,1,1 then leave a streak of 2 on the fifth question, with no wrong choice displayed |
| QuizSession.ScenarioRun | extension/src/background/service-worker.ts:257-303 | on a five-question set with that key, the answers 2,1,0,0,1,1,2,2,1 complete the quiz with one wrong entry |
| QuizSession.FallbackScenario | extension/src/background/service-worker.ts:53-86 | that walkthrough on the fallback set completes with one wrong entry |
| TimeAccrual.ElapsedSeconds | extension/src/background/service-worker.ts:327 | the elapsed time in milliseconds is exactly 1000 times the result, so it is non-negative when time moves forward |
| TimeAccrual.ElapsedAdds | extension/src/background/service-worker.ts:327 | the seconds elapsed over two consecutive intervals add up to those over the whole interval |
| TimeAccrual.LimitSeconds | extension/src/background/service-worker.ts:347 | the limit in seconds is a whole number of minutes, exactly the given number, so a positive limit is at least 60 seconds |
| TimeAccrual.TwoTicksAddUp | extension/src/background/service-worker.ts:325-351 | two ticks below the limit accrue together exactly the time elapsed since the first tick began |
| TimeAccrual.Accrue | extension/src/background/service-worker.ts:335-349 | nothing is saved exactly when the domain is already blocked. Otherwise the record is created if missing and gains exactly the elapsed time, `lastActive` becomes now, and it is blocked exactly when the total reaches the limit; other records are untouched |
| TimeAccrual.BlockedStaysBlocked | extension/src/background/service-worker.ts:340 | a tick never changes a blocked domain |
| TimeAccrual.SteadyTicksBlockAtLimit | extension/src/background/service-worker.ts:325-362 | from no data, n one-second ticks give min(n, limit) seconds, blocked exactly once n reaches the limit |
| TimeAccrual.UsageSeconds | extension/src/background/service-worker.ts:203-204 | the reported usage is the floor of the recorded total, or 0 without a record |
| ServiceWorker.SenderDomain | extension/src/background/service-worker.ts:244 | a missing tab or an empty URL gives no domain; otherwise the extracted domain |
| ServiceWorker.WithRoom | extension/src/background/service-worker.ts:232-235 | every wrong answer is tagged with the room id and nothing else changes |
| ServiceWorker.CompletionReports | extension/src/background/service-worker.ts:213-238 | a report is sent exactly when there is a room and a token; its score and total are the required count |
| ServiceWorker.EnsureAt | extension/src/background/service-worker.ts:171-184 | only the session map changes, as `EnsureSession` says |
| ServiceWorker.BroadcastAt | extension/src/background/service-worker.ts:151-162 | a snapshot of the domain's session is sent when it has one, and nothing else changes |
| ServiceWorker.GuardsHold | extension/src/background/service-worker.ts:244-251 | without a domain, or with an unblocked one, answering, moving on and syncing change nothing, and answering does not throw |
| ServiceWorker.AnswerWhileRunning | extension/src/background/service-worker.ts:268-303 | an answer that does not complete the quiz never aborts; it updates only that session and broadcasts it with feedback |
| ServiceWorker.AnswerCompletes | extension/src/background/service-worker.ts:261-266 | on completion the domain's time is reset and unblocked, and other records stay. Unless the report aborts, the session is deleted and the report (if any) and an unblock are sent. When it aborts, the completed session stays in place and nothing is sent |
| ServiceWorker.RepeatedWrongOnlyNotifies | extension/src/background/service-worker.ts:278-288 | a repeated wrong answer only re-sends the session with "Pick a different answer" |
| ServiceWorker.NextMovesOn | extension/src/background/service-worker.ts:312-320 | on a blocked domain the index goes up by 1 and the last wrong choice is cleared, with streak and wrong answers untouched |
| ServiceWorker.TickSkipsBlocked | extension/src/background/service-worker.ts:335-340 | a tick on a blocked domain changes nothing |
| ServiceWorker.TickAccrues | extension/src/background/service-worker.ts:335-362 | a tick on a tracked, unblocked domain saves the accrued data; when the limit is reached the domain is blocked, its session ensured and broadcast |
| ServiceWorker.EnsureKeepsSessionsOk | extension/src/background/service-worker.ts:171-184 | ensuring a session keeps every session well-formed |
| ServiceWorker.AnswerKeepsSessionsOk | extension/src/background/service-worker.ts:240-304 | answering keeps every session well-formed: streak below the requirement, or spent |
| ServiceWorker.NextKeepsSessionsOk | extension/src/background/service-worker.ts:306-321 | moving on keeps every session well-formed |
| ServiceWorker.SyncKeepsSessionsOk | extension/src/background/service-worker.ts:186-197 | syncing a tab keeps every session well-formed |
| ServiceWorker.TickKeepsSessionsOk | extension/src/background/service-worker.ts:325-362 | a tick keeps every session well-formed |
| ServiceWorker.GuardedAnswerKeepsSessionsBlocked | extension/src/background/service-worker.ts:257-303 | with the report's failure caught, an answer keeps every session on a blocked domain |
| ServiceWorker.AnswerKeepsSessionsAccounted | extension/src/background/service-worker.ts:240-304 | as written, after an answer every session is on a blocked domain or spent |
| ServiceWorker.NextKeepsSessionsAccounted | extension/src/background/service-worker.ts:306-321 | the same for moving on |
| ServiceWorker.SyncKeepsSessionsAccounted | extension/src/background/service-worker.ts:186-197 | the same for syncing a tab |
| ServiceWorker.TickKeepsSessionsAccounted | extension/src/background/service-worker.ts:325-362 | the same for a tick |
| ServiceWorker.RejectedReportLeavesStaleSession | extension/src/background/service-worker.ts:213-266 | when a room and token are set and the report's request is rejected, the domain is unblocked with zero time, but its spent session stays and nothing is sent. Blocking the domain again keeps that session, and one right answer then completes the quiz |
| ServiceWorker.GuardedCompletionUnblocks | extension/src/background/service-worker.ts:261-266 | with the report's failure caught, completion always deletes the session, unblocks the domain with zero time, and ends by sending the unblock |
| ServiceWorker.NextKeepsSessionsBlocked | extension/src/background/service-worker.ts:306-321 | moving on keeps every session on a blocked domain |
| ServiceWorker.SyncKeepsSessionsBlocked | extension/src/background/service-worker.ts:186-197 | the same for syncing a tab |
| ServiceWorker.TickKeepsSessionsBlocked | extension/src/background/service-worker.ts:325-362 | the same for a tick |
| ServiceWorker.Worker.constructor | extension/src/background/service-worker.ts:20-34 | no tab, no domain, `lastTick` is now, no sessions |
| ServiceWorker.Worker.FetchQuestions | extension/src/background/service-worker.ts:88-113 | returns the questions `FetchQuizQuestions` chooses for the stored settings and user |
| ServiceWorker.Worker.EnsureQuizState | extension/src/background/service-worker.ts:171-184 | updates the sessions as `EnsureAt` and returns the domain's session |
| ServiceWorker.Worker.BroadcastQuizState | extension/src/background/service-worker.ts:151-162 | appends the snapshot `BroadcastAt` describes |
| ServiceWorker.Worker.BroadcastUnblock | extension/src/background/service-worker.ts:164-169 | appends one unblock message for the domain |
| ServiceWorker.Worker.ConsumeDomainUsageAndUnblock | extension/src/background/service-worker.ts:199-211 | returns the floored usage; a present domain is reset and saved; an absent one leaves the store unchanged |
| ServiceWorker.Worker.SubmitQuizCompletion | extension/src/background/service-worker.ts:213-238 | throws exactly when a room and a token are set and the request is rejected; then nothing is sent, and otherwise the reports `CompletionReports` gives are appended |
| ServiceWorker.Worker.SyncBlockedTab | extension/src/background/service-worker.ts:186-197 | matches `SyncSpec`: with a tab and a blocked domain the session is ensured and sent to that tab, otherwise nothing changes |
| ServiceWorker.Worker.AnswerQuestion | extension/src/background/service-worker.ts:253-303 | the state afterwards is `AnswerAt` of the state before, under the report's outcome; it throws exactly when the report aborts |
| ServiceWorker.Worker.CorrectAnswer | extension/src/background/service-worker.ts:257-276 | the same for a correct answer, including completion and the aborted report |
| ServiceWorker.Worker.HandleQuizAnswer | extension/src/background/service-worker.ts:240-304 | the state afterwards is `AnswerSpec` of the state before, and the session invariant is kept. The reply's `success` is false exactly when the completion report aborts the handler |
| ServiceWorker.Worker.HandleNextQuestion | extension/src/background/service-worker.ts:306-321 | the state afterwards is `NextSpec` of the state before, and the session invariant is kept |
| ServiceWorker.Worker.MoveOn | extension/src/background/service-worker.ts:315-320 | past the guard, the state afterwards is `NextAt` of the state before: the session is ensured and, when it has questions, advanced by one with the wrong choice cleared and re-broadcast |
| ServiceWorker.Worker.TriggerBlock | extension/src/background/service-worker.ts:353-362 | saves the data with the domain blocked, then ensures and broadcasts its session |
| ServiceWorker.Worker.TickTimeTracking | extension/src/background/service-worker.ts:325-351 | `lastTick` becomes now and the state is `TickSpec` of the state before |
| ServiceWorker.Worker.AccrueFocused | extension/src/background/service-worker.ts:335-350 | the tick's work on a tracked focused domain, as `AccrueAt` |
| ServiceWorker.Worker.SaveAccrued | extension/src/background/service-worker.ts:344-350 | the accrued map is saved, and the domain is blocked and broadcast exactly when its total reaches the limit in seconds (`SaveAccruedAt`) |
| ServiceWorker.Worker.OnFocusLost | extension/src/background/service-worker.ts:412-417 | a tick, then no current domain |
| ServiceWorker.Worker.GetStatus | extension/src/background/service-worker.ts:465-477 | blocked and time spent come from the current domain's record (false and 0 without one); the limit is minutes times 60 |
| QuizGenerator.Pow2Add | server/src/services/quizGenerator.ts:37 | `2^(a+b)` is `2^a * 2^b` |
| QuizGenerator.DelaysDouble | server/src/services/quizGenerator.ts:37 | each wait `withRetry` reports is twice the one before |
| QuizGenerator.GenerateWithRetry | server/src/services/quizGenerator.ts:21-45 | with the defaults that question generation relies on, since its call at line 74 passes none (3 retries, 3000 ms base): one to four calls, waits of 3000, 6000 and 12000 ms in that order, never "Max retries exceeded", and a first-call success returned at once |
| QuizGenerator.WithRetry | server/src/services/quizGenerator.ts:21-45 | at most `maxRetries + 1` calls, and none when `maxRetries` is negative ("Max retries exceeded"). Every call before the last failed with status 429 or 503. A success is returned at once. A failure is rethrown when it is not retryable or the last attempt is used up. The wait after failed call k is `baseDelay * 2^k` |
| QuizGenerator.Validate | server/src/services/quizGenerator.ts:98-107 | every kept question passes the test and comes from the input; every passing input question is kept |
| QuizGenerator.ValidateAppend | server/src/services/quizGenerator.ts:98-107 | filtering distributes over concatenation, so the order is kept |
| QuizGenerator.ValidateOne | server/src/services/quizGenerator.ts:98-107 | a single question is kept exactly when it passes the test |
| QuizGenerator.FractionalIndexPasses | server/src/services/quizGenerator.ts:102-104 | a correct index of 1.5 passes the test |
| QuizGenerator.StoredExplanation | server/src/services/quizGenerator.ts:132 | a stored explanation is the trimmed, non-empty text; a blank or missing one is stored as null |
| QuizGenerator.QuestionTable.GenerateAndStore | server/src/services/quizGenerator.ts:116-138 | inserts one row per valid question, in order, with the document, room, timestamp and stored explanation; returns the number inserted |
| QuizGenerator.RoomRows | server/src/services/quizGenerator.ts:141-144 | every selected row is a row of the room, and every row of the room is selected |
| QuizGenerator.RoomRowsAppend | server/src/services/quizGenerator.ts:141-144 | selecting distributes over concatenation, so table order and duplicates are kept |
| QuizGenerator.RoomRowsOne | server/src/services/quizGenerator.ts:141-144 | a single row is selected exactly when it belongs to the room |
| QuizGenerator.StoredBatchIsServable | server/src/services/quizGenerator.ts:124-144 | rows stored for a room are added, in order, to that room's selection and leave other rooms' selections unchanged |
| QuizGenerator.SliceEnd | server/src/services/quizGenerator.ts:152 | `slice(0, count)` keeps `min(count, n)` rows, and with a negative count all but the last `-count` |
| QuizGenerator.GetRandomQuestions | server/src/services/quizGenerator.ts:140-159 | a room without questions gives none; otherwise the first shuffled rows up to the slice end, at most `count` when `count` is not negative |
| QuizGenerator.ServedFromRoom | server/src/services/quizGenerator.ts:140-159 | every served question comes from a row of that room |
| QuizGenerator.ThroughMappingAsWritten | server/src/services/quizGenerator.ts:132 | through the table mapping as written, every row loses its explanation and nothing else |
| QuizGenerator.ExplanationLostAsWritten | server/src/services/quizGenerator.ts:132 | as written, a question generated with the explanation "Because" is served with none |
| QuizGenerator.ExplanationServed | server/src/services/quizGenerator.ts:157 | with the column mapped, a served question carries its trimmed explanation, or none when it was missing or blank |
| RoomManager.FirstIndex | server/src/services/roomManager.ts:39-42 | the first position matching the condition, or none when no row matches |
| RoomManager.RoomMembers | server/src/services/roomManager.ts:91-101 | at most one line per membership, each for a member of the room |
| RoomManager.RoomMembersAppend | server/src/services/roomManager.ts:91-101 | the join distributes over the membership table, so table order is kept |
| RoomManager.RoomMembersOne | server/src/services/roomManager.ts:91-101 | one membership row gives a line exactly when it is in the room and its user exists; the line carries that user's name and the row's score, streak and quiz count |
| RoomManager.RoomWithMembers | server/src/services/roomManager.ts:87-111 | none exactly when no room has the id; otherwise the first room row with the id, its name, code, creator and creation time, with its joined members |
| RoomManager.JoinMembers | server/src/services/roomManager.ts:38-71 | "Room not found" exactly when no room has the upper-cased code. Otherwise an existing member leaves the table unchanged, and a new member gets one appended row with zero score, streak and quizzes and the join time |
| RoomManager.JoinTwice | server/src/services/roomManager.ts:48-58 | joining again adds no second membership |
| RoomManager.JoinIgnoresCase | server/src/services/roomManager.ts:42 | a code and its upper-cased form join the same room |
| RoomManager.Credited | server/src/services/roomManager.ts:127-129 | the row gains the increase in score and one each in streak and quizzes |
| RoomManager.UpdateScore | server/src/services/roomManager.ts:113-141 | not a member gives null and an unchanged table; otherwise only the first matching row is credited and its new counters are returned |
| RoomManager.TotalScoreUpdate | server/src/services/roomManager.ts:131-138 | replacing one row changes the sum of scores by that row's difference |
| RoomManager.UpdateScoreAddsToTotal | server/src/services/roomManager.ts:113-141 | crediting raises the total score by exactly the increase, and by nothing for a non-member |
| RoomManager.SortedCons | server/src/services/roomManager.ts:159 | a member scoring at least every member of a sorted list can head it |
| RoomManager.InsertDesc | server/src/services/roomManager.ts:159 | inserting adds exactly that member: one more element, the same multiset plus it |
| RoomManager.InsertDescBounded | server/src/services/roomManager.ts:159 | inserting never yields a score above a bound that the member and the list respect |
| RoomManager.InsertDescSorted | server/src/services/roomManager.ts:159 | inserting into a list sorted by descending score keeps it sorted |
| RoomManager.SortByScoreDesc | server/src/services/roomManager.ts:159 | the result is a permutation of the input, sorted by descending score |
| RoomManager.Rank | server/src/services/roomManager.ts:160-163 | ranks are 1, 2, … in list order |
| RoomManager.LeaderboardRanked | server/src/services/roomManager.ts:143-164 | the leaderboard holds exactly the room's members, highest score first, ranked 1..n |
| RoomManager.Memberships | server/src/services/roomManager.ts:74-77 | every selected row is a membership of the user, and every membership row of the user is selected |
| RoomManager.MembershipsAppend | server/src/services/roomManager.ts:74-77 | selecting distributes over concatenation, so table order is kept |
| RoomManager.MembershipsOne | server/src/services/roomManager.ts:74-77 | a single row is selected exactly when it belongs to the user |
| RoomManager.RoomsOfListsMemberships | server/src/services/roomManager.ts:78-84 | listing gives at most one room per membership, each a room of the user shown as `getRoomWithMembers` shows it |
| RoomManager.RoomsOfAllExist | server/src/services/roomManager.ts:78-84 | when every membership's room exists, each gives one room |
| RoomManager.RoomDb.constructor | server/src/services/roomManager.ts:1-3 | the database starts with the given tables |
| RoomManager.RoomDb.GetRoomWithMembers | server/src/services/roomManager.ts:87-111 | the room view of the current tables |
| RoomManager.RoomDb.CreateRoom | server/src/services/roomManager.ts:11-36 | appends the room with the upper-cased code and one membership of the creator with zero counters; returns that room, which has the creator as a member. The new id and upper-cased invite code must be unused, as the table's primary key and UNIQUE code demand |
| RoomManager.RoomDb.JoinRoom | server/src/services/roomManager.ts:38-71 | fails with "Room not found" and changes nothing, or leaves the membership table `JoinMembers` gives and returns the joined room |
| RoomManager.RoomDb.GetUserRooms | server/src/services/roomManager.ts:73-85 | the result is, in order, the room view of each of the user's memberships whose room exists; so at most one room per membership, each one the user belongs to, and one per membership when all those rooms exist |
| RoomManager.RoomDb.UpdateMemberScore | server/src/services/roomManager.ts:113-141 | the result and new table are those of `UpdateScore` |
| RoomManager.RoomDb.GetLeaderboard | server/src/services/roomManager.ts:143-164 | the board lists exactly the room's joined members, highest score first, ranked 1, 2, … in order |

## Left out

- Browser wiring in the background coordinator:
  - the tab, window, alarm and message listeners, other than the focus-loss branch and the status reply;
  - `updateCurrentTab`;
  - looking up the tabs of a domain and delivering messages to them.
  Broadcasts are entries in `outbox`, and a handler's caller supplies the sender tab.
- Network I/O. The question fetch is an input (`FetchOutcome`: questions or a failure). The completion report's request is also an input (`ReportOutcome`): it reaches the server, or it is rejected and throws. The server's reply to a report that arrives is not modelled.
- The URL parser behind `extractDomain`. The host name, or its absence when parsing throws, is an input.
- Clocks and timers: `Date.now()` is a parameter, and the save-indicator timeout on the settings page is not modelled.
- Floating-point arithmetic: seconds are exact reals, and the usage report uses `Floor`. Room scores and score increases are JavaScript numbers, modelled as exact reals, so a fractional increase is kept as the database keeps it.
- Interleaving of handlers across `await` points: each handler runs atomically.
- The model call, the regular-expression JSON extraction and `JSON.parse` in the question generator. The parsed questions are an input. `JSON.stringify` of the options is kept as the option values, and `NaN` is not modelled.
- The random comparator sort in `getRandomQuestions`: the shuffled order is any permutation of the room's rows, supplied by the caller.
- Random ids (`nanoid`) and invite codes: inputs, assumed not yet used by any row.
- The SQL engine's row order: tables are read in table order. `getLeaderboard`'s preliminary ascending order is not modelled, so tied scores keep table order.
- `setTimeout` sleeping in the retry loop and its log line: the delays are returned instead.
- Database constraint failures: an insert with a clashing id is outside the model.
- Rendering, the content script, the popup pages other than the settings page's list logic, the Express routes and the HTTP, socket and database glue.
- Text.ToUpperAscii: upper-cases ASCII letters only, because the invite codes drawn by the server use letters, digits, `_` and `-`. Other characters a user types are left as they are.
- SettingsPage.SettingsPanel.ToggleDomain: requires an index inside the list, so the error path for an outside index is excluded. In the source, reading `.enabled` of the missing entry (Settings.tsx:42) throws a `TypeError` before anything is written, and the page saves nothing. The page only toggles entries it has rendered.
- QuizGenerator.Validate: the parsed array's elements are modelled as records of JSON values, so an element that is not an object cannot be expressed. In the source, a `null` element makes the filter throw a `TypeError` (server/src/services/quizGenerator.ts:100). That error is not retryable, so it is rethrown and generation fails.
- SettingsPage.NormalizeDomain: the contract bounds the length and states the blank case, and `NormalizeUrl` states the full-address case. It does not state in general that the domain is a slice of the input.

## Findings

| source | as written | input that shows it | evidently intended | confidence | as-written member | corrected member |
|---|---|---|---|---|---|---|
| server/src/services/quizGenerator.ts:132 | the insert writes `explanation` and the select reads it back, but the table mapping (server/src/db/schema.ts:47-59) declares no such column; only the DDL (server/src/db/index.ts:56, :94) creates it. So the explanation is never stored, and every served question has none | a generated question with options `a`..`d`, correct index 0 and explanation "Because" | the served question carries the trimmed explanation | not executed; medium, since an ORM insert ignores keys the mapping does not declare and a select reads only declared columns | QuizGenerator.ExplanationLostAsWritten | QuizGenerator.ExplanationServed |
| extension/src/background/service-worker.ts:221 | the completion report's `fetch` has no `try`/`catch`, unlike the question fetch and the tab messages. A rejected request throws out of `handleQuizAnswer` after the record is reset (:262), so the session is not deleted (:264) and the tabs are not told to unblock (:265). The spent session outlives the unblock, and the next time the domain is blocked one right answer completes the quiz | a room and a token are set, the server is unreachable, and the fifth right answer is given | the domain is unblocked, its session deleted and its tabs told to unblock whatever happens to the report, which is best-effort telemetry | not executed; high, since `fetch` rejects on a network failure and the listener only logs the error | ServiceWorker.RejectedReportLeavesStaleSession | ServiceWorker.GuardedCompletionUnblocks |
