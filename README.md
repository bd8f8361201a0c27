# DegenTimes worker core, modelled in Dafny

This project models the job orchestration core of the DegenTimes backend and proves properties of it:

- **Schedulers.** Four self-rescheduling cycles share one set of user keys, used as a lock:
  - the scheduled content refresh;
  - the immediate check, which also schedules initial Telegram sends;
  - the regular Telegram send;
  - the midnight forced refresh.
- **Per-user digest send.** It comes in two revisions that live side by side in the repository.
- **Agent reply selection.** Picks the agent's reply out of a chat history.
- **AI-insight request.** Assembles the request for the insight model and classifies the model's answer.

Modules follow the source files:

| module | source |
|---|---|
| `AgentChat` | `getLastAgentMessage` of openservClient.js: a backward scan with an early return. |
| `DigestContent` | The helpers processUser.js and processTelegramUser.js define identically (lines 9-25 of both): `isValidContent`, `hasValidContentForTelegram`, `isContentStale`. Also the `combinedNews` digest the two flows assemble with `+=` and `trim`. |
| `DigestSend` | processUser.js. Despite its name it holds the newer `processTelegramUser`, with an initial-send bypass and its own send cool-down (`telegramSendIntervalHours`). |
| `LegacyDigestSend` | processTelegramUser.js, the older revision. It has no initial send, and the cool-down is the refresh window (`jobRefreshHours`). |
| `Insights` | `getActionableInsights` of geminiClient.js. |
| `Worker` | worker.js: the running flags, the timer handles, the lock set, the four `run*` cycles, the four `scheduleNext*` functions, the midnight delay and `shutdown`. |
| `Records`, `Collaborators`, `Text`, `Wrappers` | The user row and settings; the lock set and a log of the requests sent to the collaborators; the JavaScript string operations used (`trim`, `startsWith`, truthiness, number rendering); `Option`. |

## How the outside world is modelled

- **Shared state.**
  - The lock set, `usersCurrentlyProcessingContent`, is the `LockSet` class; every cycle and both send flows mutate the same instance.
  - The content pipeline (`processUser`), the messaging agent (`postMessage`) and the store's `user_preferences` updates are the `Collaborators` class. It logs, in order, every request sent to them:
    - `runs`: each `processUser(user, force)` call, with the lock set as it stood during the call;
    - `posts`: each prompt posted;
    - `writes`: each partial row update.
- **Answers from outside.** What the collaborators answer is an input of the operation that asked:
  - a fetch is `Fetched(rows)` or `FetchFailed`;
  - the forced refresh is `Returned(b)` or `Threw`;
  - the insight model's HTTP result is a `Response` or a `TransportError`.

  `needsScheduledUpdate` and `needsImmediateUpdate` are predicate parameters, because their source is not part of this model.
- **Time.**
  - Time is an integer count of milliseconds passed in.
  - Within one call of a send flow, time is a single `now`.
  - A pass over many rows takes a `clock`: the time read when the row at each position is handled. The source reads the clock again for every row, and rows are separated by long refresh calls. So staleness, the cool-down and the timestamps are decided per row, not once per pass.
  - The midnight delay takes the local wall clock (day, hour, minute, second) as input.
  - `toLocaleString` keeps whole seconds, so the delay is a whole number of seconds. Just before midnight it is 1000 ms, not "under a second". The code is followed here.
- **Timers.**
  - A timer is a value `Timer(id, job, delay)`. `pending` holds the timers set and neither fired nor cleared.
  - `clearTimeout` removes the handle's timer from `pending`.
  - Firing removes the timer from `pending` and leaves the handle pointing at it, as in the source.
  - No handle is ever set back to `null`, so a non-null handle does not by itself mean a timer is still waiting.
- **Which revision the worker calls.** worker.js:7 imports `processTelegramUser` from './processTelegramUser.js' (the older file). But worker.js:137 calls it with three arguments, the third being `isInitialSend = true`, and only the newer function in processUser.js takes that parameter. The header at processUser.js:2 also names that file processTelegramUser.js. The worker is therefore wired to the newer revision (`DigestSend`). The older one is modelled on its own, and `OlderIsRegularSend` relates its send check to the newer one's regular send.
- **The insight client's configuration.** config.js defines neither `geminiApiKey`, `geminiModelId` nor the four prefix keys that geminiClient.js reads. They are fields of a `GeminiConfig` parameter. An undefined prefix would make `startsWith` test for the text "undefined"; the caller chooses the values.

## Model

| member | source | states |
|---|---|---|
| AgentChat.LastAgentReply | openservClient.js:76-83 | A found text belongs to an element written by `agent` with a non-empty text, and no later element qualifies. There is no result exactly when no element qualifies. |
| AgentChat.GetLastAgentMessage | openservClient.js:72-84 | A missing (non-array) history gives `null`. Otherwise the backward scan returns the latest agent reply, or `null` when there is none (an empty history included). |
| AgentChat.AppendNonReply | openservClient.js:77 | Appending a message that is not an agent reply leaves the result unchanged. |
| AgentChat.AppendReply | openservClient.js:76-80 | Appending an agent reply makes its text the result. |
| DigestContent.IsValidContent | processUser.js:12-14 | False for absent or empty text, for exactly the placeholder sentence, and for text starting with "Error fetching". True otherwise. |
| DigestContent.HasValidContentForTelegram | processUser.js:16-18 | Holds exactly when the digest has at least one section, i.e. some field is valid. |
| DigestContent.IsContentStale | processUser.js:20-25 | Stale exactly when `last_job` is absent or more than `jobRefreshHours` hours before `now`. |
| DigestContent.DigestOpensWithFirstHeading | processUser.js:104-114 | The digest opens with the heading of the first valid field, in the order Watchlist, Sector, Narrative. |
| DigestContent.DigestEmptyIff | processUser.js:114-119 | The trimmed digest is empty exactly when no field is valid. Otherwise it starts with `#` and ends with a visible character. |
| DigestContent.TrimPrefixedSections | processUser.js:104-114 | Trimming the text built by the `+=` appends gives the sections joined by blank lines. |
| DigestContent.BuildDigest | processUser.js:104-114 | The `+=` loop followed by `trim` yields the digest: one `## … News` section per valid field, in fixed order. The result is empty exactly when no field is valid. |
| Text.Trim | processUser.js:114 | The result is the slice of the input between white space at both ends. It neither starts nor ends with white space, and is empty exactly when the input is all white space. |
| DigestSend.ShouldAttemptTelegramSend | processUser.js:27-53 | A send is attempted only for an eligible user with valid content. For such a user it is attempted exactly when it is an initial send or the last send is not within the cool-down. |
| DigestSend.InitialSendIgnoresCooldown | processUser.js:38-41 | An initial send does not depend on `tele_last_sent`. |
| DigestSend.CooldownBoundaryBlocks | processUser.js:43-52 | A regular send exactly one cool-down after the last one is still blocked (`>=`). |
| DigestSend.DueStaysDue | processUser.js:43-52 | Once a regular send is due, it stays due at every later time. |
| DigestSend.EveryPostIsRecorded | processUser.js:116-153 | A call makes at most one post, and exactly as many `tele_last_sent` updates as posts. Each post carries a non-empty digest opening with `#`, and its update is for the row the digest came from. |
| DigestSend.NoPostWithoutRefresh | processUser.js:64-96 | Stale content whose user is locked, whose refresh fails or throws, or whose refetch fails produces no post and no update. |
| DigestSend.RefreshOnlyWhenStale | processUser.js:64-79 | A call runs the content pipeline at most once. It does so exactly for an eligible user with stale content whose key is free, forced and with that key added to the lock set. |
| DigestSend.DigestSender.RefreshIfStale | processUser.js:64-96 | The lock set ends as it began, and a forced run is logged only when the key was free. The call continues exactly when the refresh was admitted, returned true and the row was read back, and then continues with the refetched row. Each failure maps to its own outcome. |
| DigestSend.DigestSender.Deliver | processUser.js:98-153 | When the send check passes, it posts the digest prompt once and records one `tele_last_sent` update, whether or not delivery succeeded. Otherwise it does nothing. |
| DigestSend.DigestSender.ProcessTelegramUser | processUser.js:55-154 | The lock set is unchanged. The logs grow by exactly `SendEffect`. The outcome is `Sent` exactly when `Sends` holds. Each early return has its outcome: `NotEligible`, `RefreshInProgress`, `RefreshFailed`, `RefetchFailed`, and `NotDue` when the send check fails on the row in hand. |
| LegacyDigestSend.ShouldAttemptTelegramSend | processTelegramUser.js:27-44 | Holds exactly for an eligible user with valid content whose last send is not within `jobRefreshHours`. |
| LegacyDigestSend.OlderIsRegularSend | processTelegramUser.js:27-44 | The older check equals the newer check's regular send, with the refresh window as the cool-down. |
| LegacyDigestSend.LegacyDigestSender.Deliver | processTelegramUser.js:88-137 | When the older check passes, it makes one post of a non-empty digest and one `tele_last_sent` update. Otherwise it changes nothing. |
| LegacyDigestSend.LegacyDigestSender.ProcessTelegramUser | processTelegramUser.js:46-138 | The lock set is unchanged. A forced run happens only for an eligible, stale, unlocked user. The outcome is `Sent` exactly when the refresh was admitted and the older check passes on the row in hand. Each early return has its outcome, `NotDue` included. After `Sent` there is one post and one update; otherwise there are none. |
| Insights.ErrorsAreMarked | geminiClient.js:42-127 | Every non-insight answer is rendered starting with "Error: ". |
| Insights.BuildInput | geminiClient.js:51-67 | The input starts with `Category: <name>`. The intel or social text appears verbatim exactly when it is substantive (non-empty, none of its marker prefixes); otherwise the "Not available" line appears. The two flags say which. |
| Insights.SafetyFinish | geminiClient.js:103-108 | The nested finish-reason test passes exactly for "SAFETY". |
| Insights.Classify | geminiClient.js:96-127 | A first candidate with parts gives their joined text, unless it finished for "SAFETY", which gives the safety error. A response without parts gives the format error. A transport failure gives the connection error with its status and message. |
| Insights.GetActionableInsights | geminiClient.js:41-128 | A missing API key or model id returns its error and sends no request. Otherwise the request is the assembled input and the result is the classified reply. The call never throws. |
| Text.NatToString | geminiClient.js:126 | The rendering of a status code is a non-empty string of decimal digits that denotes the code. It has no leading zero unless the code is 0. |
| Worker.ContentRunsExactly | worker.js:67-75 | A pass refreshes exactly the unlocked users the predicate selects, each of them unforced with its own key added, and no more calls than rows. |
| Worker.QueueFollowsMarks | worker.js:119-145 | Scheduled initial sends never outnumber the marking updates, and every queued row needed an initial send. |
| Worker.InitialTimersShape | worker.js:130-143 | Initial-send timers are five-minute timers of queued rows, one per queued row, with fresh consecutive ids. |
| Worker.CycleTimerNotInitial | worker.js:133-143 | No cycle timer is among the initial-send timers. |
| Worker.RoundRecordsEveryPost | worker.js:181-187 | Over a regular send pass, posts and `tele_last_sent` updates are equal in number. Every update is stamped with the time one of the rows was handled. Every content run is forced and for a key that was free. |
| Worker.MidnightRunsFresh | worker.js:222-235 | Every midnight call is forced and for a batch row whose key was not held. |
| Worker.MidnightRunsDistinct | worker.js:222-236 | No key is refreshed twice in one batch, even when it repeats in the batch. |
| Worker.MidnightRunsComplete | worker.js:222-236 | Every key of the batch that was not held is refreshed. |
| Worker.MsUntilMidnight | worker.js:253-260 | The delay is one day minus the local time of day, lies in (0, 86 400 000] ms and is whole seconds. |
| Worker.MidnightDelayFacts | worker.js:253-263 | The delay lands on a local midnight and a later time of day waits less. 23:59:59 waits one second and 00:00:00 waits a full day. |
| Worker.Scheduler.OnePendingTimerPerCycle | worker.js:86-89 | In a valid scheduler each cycle has at most one pending timer. |
| Worker.Scheduler.constructor | worker.js:10-20 | All flags are false, all handles null, no timer is pending and the lock set is empty. |
| Worker.Scheduler.Reschedule | worker.js:86-89 | Clears the cycle's old timer and sets exactly one new one with a fresh id, leaving the other handles and all flags alone. |
| Worker.Scheduler.ScheduleNextScheduledContentRun | worker.js:86-89 | The new cycle timer has `jobIntervalMs`; the old one is cleared. |
| Worker.Scheduler.ScheduleNextImmediateCheck | worker.js:157-160 | The new cycle timer has `instantCheckIntervalMs`; the old one is cleared. |
| Worker.Scheduler.ScheduleNextTelegramRun | worker.js:198-201 | The new cycle timer has `telegramJobIntervalMs`; the old one is cleared. |
| Worker.Scheduler.ScheduleNextMidnightRefresh | worker.js:250-264 | The new cycle timer waits until the next local midnight; the old one is cleared. |
| Worker.Scheduler.Fire | worker.js:88 | A firing timer leaves `pending` and nothing else changes. |
| Worker.Scheduler.RefreshUnderLock | worker.js:68-73 | A free, selected key is added for exactly one unforced `processUser` and deleted afterwards. The lock set ends as it began. |
| Worker.Scheduler.ScheduleInitialSend | worker.js:119-145 | A row with a Telegram id and no schedule mark gets one marking update. Only when the mark was stored does a five-minute initial-send timer for a copy of the row get set. |
| Worker.Scheduler.ScheduledContentPass | worker.js:64-76 | The run log grows by exactly `ContentRuns` of the fetched rows, and the lock set is restored. |
| Worker.Scheduler.RunScheduledContentCycle | worker.js:50-84 | When already running, it only reschedules. Otherwise it makes a pass over the fetched rows (none for a fetch error), then clears the flag and reschedules. The timer counter advances by one. |
| Worker.Scheduler.ImmediateCheckStep | worker.js:108-146 | One row: its guarded content refresh, then its initial-send step. |
| Worker.Scheduler.ImmediateCheckPass | worker.js:105-148 | Content runs, marking updates and initial-send timers are exactly those of the fetched rows, in order, with the lock set restored. Each mark is stamped with its row's clock. |
| Worker.Scheduler.ImmediateCheckRun | worker.js:97-154 | The pass, then the flag is cleared and the cycle rescheduled. The new handle's id follows the initial timers' ids, and the timer counter ends one past it. |
| Worker.Scheduler.RunImmediateCheckCycle | worker.js:92-155 | When already running, it only reschedules. Otherwise it makes the pass over the fetched rows, then clears the flag and reschedules. The timer counter advances by the initial timers plus one. |
| Worker.Scheduler.TelegramJobStep | worker.js:182-186 | One regular send, appended to the round's effect. |
| Worker.Scheduler.TelegramJobPass | worker.js:178-188 | The logs grow by exactly `TelegramRound` of the fetched rows, each row sent at its own clock reading. The lock set is unchanged. |
| Worker.Scheduler.RunTelegramJobCycle | worker.js:163-196 | When already running, it only reschedules. Otherwise it runs the regular sends, then clears the flag and reschedules. The timer counter advances by one. |
| Worker.Scheduler.RunInitialSend | worker.js:133-143 | The initial-send timer fires and the newer flow runs with `isInitialSend = true` on the copy of the row. |
| Worker.Scheduler.MidnightRefreshPass | worker.js:218-237 | Every check-and-add runs before any delete. The run log grows by `MidnightRuns`, and the lock set ends as it began. |
| Worker.Scheduler.RunMidnightRefresh | worker.js:204-248 | When already running, it only reschedules. Otherwise it runs the batch, then clears the flag and reschedules at the next midnight. The timer counter advances by one. |
| Worker.Scheduler.Shutdown | worker.js:280-289 | All four cycle timers are cleared. Only the initial-send timers remain pending, and they are lost at exit. The timer counter is unchanged. |

## Left out

- The HTTP health server (worker.js:23-47), `server.listen` and `server.close`: request routing and JSON output.
- Supabase and supabaseClient.js. Queries are `Fetch` inputs, and updates are entries in the write log. A failed marking update of the immediate check is modelled: `markOk` answers per row, and a failure suppresses the five-minute timer. A failed `tele_last_sent` update is not modelled, because the send flows only log it (processUser.js:147-152, processTelegramUser.js:131-136).
- `postMessage`, `getMessages` and the axios clients with their timeouts: network I/O. A post is a logged request whose delivery is an input that changes no later step.
- `processUser`, `needsScheduledUpdate` and `needsImmediateUpdate`: their source is not part of this model. `processUser` is a logged call whose boolean or throw is an input, and the two predicates are parameters.
- The real `setTimeout` clock and delay clamping. Timers are values in `pending`, and which timer fires when is left to the caller of `Fire` and `RunInitialSend`.
- `Promise.allSettled` interleaving: the midnight batch is modelled sequentially. All check-and-adds happen before any `await`, then every delete, in order.
- Interleavings across cycles: each cycle runs to completion; concurrent cycles interleaving at `await` points are not modelled.
- Time zone conversion and daylight saving (worker.js:254): the local wall clock is an input and every local day is 24 hours.
- The startup calls at worker.js:275-278 and the signal handlers at worker.js:291-292: they only call modelled operations.
- `process.exit` and its 500 ms delay in `shutdown`.
- Logging, the system prompt text and the request's `generationConfig` of geminiClient.js.
- A `null` or `undefined` user row and the TypeErrors JavaScript would throw on malformed replies (a `null` candidate or part): rows and replies are always well formed.
- Invalid dates (`NaN` timestamps): timestamps are integers.
- DigestSend.DigestSender.ProcessTelegramUser uses one `now` for the whole call, although the source takes a fresh `new Date()` for `tele_last_sent`.
- LegacyDigestSend.LegacyDigestSender.ProcessTelegramUser uses one `now` for the whole call, as the newer flow does.
- DigestSend.SendTarget does not constrain the email of the row read back after a refresh. The source reads it with `.eq('user_email', …).single()` (processUser.js:82-86), so it is the same user's row; the model takes the store's answer as given.
