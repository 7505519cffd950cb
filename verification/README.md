# Ingexuity: a verified model of its session runtime, chat streaming and tokenizers

This Dafny project models three parts of Ingexuity and proves what they are for.

* **The durable session runtime** (`crates/`). The Axum server keeps sessions in memory, each behind
  its own lock, and every change goes through an SQLite store with optimistic versions and an
  append-only event log. `Server` is the server as a state machine: each request handler is a thread
  with a program counter, any thread may run between two steps of another, every store call may
  fail, and the process may stop between any two steps and start again through `AppState::restore`.
  `Invariant`, `Preservation`, `Steps`, `Commit` and `Restart` prove one inductive invariant, and
  `Runs` draws the theorems from it, each over every run: cache and store agree, deleted sessions
  never return, responses are those of a sequential run, the event log obeys its law, no counter
  overflows, restarts recover what was committed, sessions are isolated, nothing deadlocks.
  `Responses` says in plain terms what every response tells and that the store keeps it; `Expiry` and
  `Times` are about the clock readings kept in rows and entries; `Flags` and `Makers` about deletes
  that others wait behind and creates that fail. `Accounting` follows the response to every committed
  operation until it is sent or lost in a crash, `LostResponses` builds a run in which a crash loses
  two, and `Leftovers` follows the rows that a failing purge drops.
  `Conversation`, `SqliteStore`, `SessionManager` and `AppState` are the same code as classes and
  methods with loops, proved against the functions of `Conversation`, `History`, `Store` and
  `Sessions` that the machine uses; `Uninterrupted` proves that a thread's steps taken in a row are
  one call of the method.
* **The streaming chat server and its page** (`spaces/hf_cpu/`). `Trimming` and `Requests` model
  request normalisation: validation, the cheap bound, and the loop that drops the oldest turns;
  `Continuations` says what a prepared request guarantees and what becomes of a text to continue.
  `Sse` models the records the server prints and the reader of the page, in the format of section
  9.2.6 of the WHATWG HTML Living Standard, and `LineEnds` the reader on CRLF streams cut anywhere.
  `Slot` and `StreamChat` model the single generation slot, whose lock is taken by the handler and
  given back by the stream; `Page` follows the stream to what the reader sees.
* **Byte-pair merging** (`src/modules/`). `Merging` proves two independently written merge loops
  against one segmentation; `Bytes` adds the byte alphabet and the round trip to bytes.

## How to read the server model

* A step of a thread touches at most one thing that no lock of that thread protects: one access to
  the session map, one flag, one queue, one store call. Work that a held lock protects is merged
  with such an access. Drawing a fresh id is merged with mapping its entry.
* Assumed: ids drawn by `create` are fresh; JSON encoding is faithful; a failed store call wrote
  nothing; handlers run to their end while the process lives, and no worker panics. The clock may
  read anything, even backwards. Hash maps are traversed in any order.
* `Chronicle` records what happened (operations committed, responses sent, deletes confirmed, and the
  operations a crash left unanswered) and is read by the specification only.
* The counters are u64: `Increment` wraps, as release builds do, and `NoCounterOverflows` proves that
  it never does. SQLite integers are i64, with the conversions of the store.

## Where the code differs from what one might expect

* README.md:134 of the repository lists an error code `state_version_overflow`; the code has none. The
  overflow branch of `reset` is an inference error, answered `inference_unavailable`
  (crates/ingexuity-server/src/lib.rs:700-703). `NoCounterOverflows` proves the branch unreachable.
* A chat gives up its session's lock before its response leaves (crates/ingexuity-server/src/lib.rs:575-629:
  the guard is dropped before the permit). So a crash can cost more than the one response whose handler
  holds the lock: `CrashMayLoseTwo` builds such a run, `EveryOperationIsAccounted` says where every
  response is, and `AnsweredOrOneMore` says exactly when only the lock holder's can be missing.
* A purge whose store call fails drops the ids it had drained (`AppState.PurgeExpired`). A row dropped so
  stays as it is while the process goes on (`LeftoverRowStays`).
* Asking about the newest user message first can refuse a request that would fit (`EarlyCheckCanRefuse`);
  `EarlyCheckExactly` says for which requests it changes nothing, and for counters that grow with the
  conversation these are all (`EarlyCheckIsRedundant`).
* Trimming a continuation may drop the very text it is to continue (`ContinuationMayLoseItsText`);
  `ContinuationKeepsItsText` says exactly when it stays.
* The page unifies line ends chunk by chunk, so a CRLF pair cut between two chunks survives as a stray
  CR (`UnifyingParts`, `CutsLengthen`). A stray CR at the end of a line that is not blank costs nothing
  (`ChunksDoNotMatter`); at the end of a blank line it hides the end of a record (`CutCrLfLosesAnEvent`),
  and for streams of framed records the proviso is exact (`FramedChunksExactly`). The server never prints
  a CR, so its own streams are safe (`StreamRoundTrip`).

## Model

| member | source | states |
|---|---|---|
| `Conversation.Conversation.constructor` | crates/ingexuity-core/src/lib.rs:61-70 | a new state is version 0 with no turns, topics or predictions |
| `Conversation.Conversation.Reset` | crates/ingexuity-core/src/lib.rs:72-81 | a reset leaves a fresh state one version on, or on overflow an error and the state untouched |
| `Conversation.Conversation.RecordUserMessage` | crates/ingexuity-core/src/lib.rs:83-92 | turn count, version, turn list and topics after a user message |
| `Conversation.Conversation.RecordAssistantMessage` | crates/ingexuity-core/src/lib.rs:94-101 | version and turn list after an answer, with the answer as the content of the new turn |
| `Conversation.Conversation.IssueNextTurnPrediction` | crates/ingexuity-core/src/lib.rs:103-111 | one pending prediction for the turn after the current one |
| `Conversation.Conversation.ProcessTurn` | crates/ingexuity-core/src/lib.rs:210-245 | a refused message or a failing backend leaves the state as it was; otherwise state and outcome are those of the whole turn, and the backend's reply is both the answer and the last turn |
| `Conversation.AdmittedExactly` | crates/ingexuity-core/src/lib.rs:215-221 | what a message contributes is the message without the white space around it; it is refused exactly when it is all white space, or longer than 16384 bytes then |
| `Conversation.TurnExactly` | crates/ingexuity-core/src/lib.rs:210-245 | for every state a turn succeeds exactly when the backend replies to an admitted message; the trimmed message and the very reply are the two turns added, the reply is the answer, and every other field is given |
| `Text.TrimExactly` | crates/ingexuity-core/src/lib.rs:215 | trimming finds the one text without white space at its ends that white space surrounds |
| `Text.WidthIsLeast` | crates/ingexuity-core/src/lib.rs:219 | a code point takes as few UTF-8 bytes as can carry it |
| `History.VersionCountsEvents` | crates/ingexuity-core/src/lib.rs:72-101 | after any run of turns and resets the version is the number of events ever written, and bounds the turn count |
| `History.JournalRecordsPositions` | crates/ingexuity-server/src/lib.rs:514-518 | every event of a sequential run records its own position: assistant events their version, resets the version before, user events the turns since the last reset |
| `History.OperationsAreRecorded` | crates/ingexuity-server/src/lib.rs:514-612 | where in the log each operation stands and what its events say: turn count, length of the message as sent, backend, version; or the version a reset replaced |
| `History.DerivedStateAgrees` | crates/ingexuity-core/src/lib.rs:83-111 | turn 2k + 1 is the k-th message since the last reset and turn 2k + 2 the backend's reply to it, as the operations record them; prediction k has its id, target and confidence, is pending, and was issued before turn k + 2 |
| `History.TopicsAccumulate` | crates/ingexuity-core/src/lib.rs:83-92 | the topics of a session are those of the messages said since its last reset |
| `Topics.TopicsOfJoinedMessages` | crates/ingexuity-core/src/lib.rs:247-283 | classifying two texts finds what classifying them joined by white space finds |
| `Topics.TopicsAgree` | crates/ingexuity-core/src/lib.rs:247-283 | accumulated topics are those of everything said since the last reset, read as one text |
| `Topics.TopicsFound` | crates/ingexuity-core/src/lib.rs:247-283 | a message has a topic exactly when some word of it, stripped and in lower case, is one of the topic's keywords; there are no other topics |
| `Text.WordsAreMaximalRuns` | crates/ingexuity-core/src/lib.rs:248-249 | the words of a text are exactly its maximal runs without white space |
| `Text.SplitOfJoin` | crates/ingexuity-core/src/lib.rs:248-255 | splitting at white space never joins words across it |
| `Store.ToI64` | crates/ingexuity-store/src/lib.rs:452-454 | converts exactly the values a signed column can hold, unchanged |
| `Store.FromI64` | crates/ingexuity-store/src/lib.rs:456-458 | reads back exactly the non-negative values, unchanged |
| `Store.InsertKeepsValid` | migrations/0001_event_store.sql:9-18 | an accepted insert keeps every constraint of the schema and appends one row |
| `Store.BatchIsConcatenation` | crates/ingexuity-store/src/lib.rs:260-285 | the insert loop succeeds exactly when the batch fits the columns and its event ids are new, and then has appended the whole batch in order |
| `Store.AppendIsConcatenation` | crates/ingexuity-store/src/lib.rs:208-310 | an append succeeds exactly for appendable batches; then log and row are the old ones extended, the version grows, and all constraints hold |
| `Store.AppendThenList` | crates/ingexuity-store/src/lib.rs:260-341 | after a successful append the session lists what it listed before and then the batch, numbered on, each event with its own id, payload and time and its trimmed type; other sessions list what they did |
| `Store.StaleAppendsConflict` | crates/ingexuity-store/src/lib.rs:242-258 | a well-formed append meets a version conflict exactly when the session has another version than expected, and is told which, and finds no session exactly when there is none |
| `Store.CreateAndDeleteKeepValid` | crates/ingexuity-store/src/lib.rs:143-162 | a session is created exactly when its id is new and its numbers fit; deleting removes row and events; constraints hold |
| `SqliteStore.SqliteStore.CreateSession` | crates/ingexuity-store/src/lib.rs:143-162 | the new tables or the error, with the tables unchanged on every error |
| `SqliteStore.SqliteStore.AppendEvents` | crates/ingexuity-store/src/lib.rs:208-310 | the loop over a working copy commits all of the batch or, on any error in mid-loop, nothing |
| `SqliteStore.SqliteStore.DeleteSession` | crates/ingexuity-store/src/lib.rs:388-395 | row and events are gone, and the answer says whether there was a row |
| `SqliteStore.SqliteStore.ListEvents` | crates/ingexuity-store/src/lib.rs:312-341 | all events of the session in order, or the error of the first row that does not read back |
| `SqliteStore.SqliteStore.ListSessions` | crates/ingexuity-store/src/lib.rs:343-386 | every session once, by creation time then id, or an error exactly when some row does not read back |
| `Store.ListingTells` | crates/ingexuity-store/src/lib.rs:343-386 | a listing holds every row with its version, snapshot and times, oldest first and then by id |
| `Sessions.SweepTakesTheExpired` | crates/ingexuity-server/src/lib.rs:194-210 | a sweep unmaps exactly the deleted and expired sessions, flags and queues them, and leaves the others as they were |
| `Sessions.LookupFindsTheLiving` | crates/ingexuity-server/src/lib.rs:136-156 | a lookup finds exactly the sessions that are mapped, not flagged, and used at most the time to live ago, renews the one found, and queues any other it takes out |
| `Sessions.LookupsRenew` | crates/ingexuity-server/src/lib.rs:136-156 | a session found at one time is found again at a later one exactly if no more than the time to live has passed between |
| `Sessions.CreatedIsFound` | crates/ingexuity-server/src/lib.rs:108-156 | a session just created is found exactly for one time to live |
| `Expiry.CreatedIsLookedUp` | crates/ingexuity-server/src/lib.rs:108-156 | the same for every create that arrives in a run |
| `SessionManager.SessionManager.constructor` | crates/ingexuity-server/src/lib.rs:98-106 | a new manager maps and queues nothing |
| `SessionManager.SessionManager.Create` | crates/ingexuity-server/src/lib.rs:108-118 | a fresh entry is mapped and nothing else changes |
| `SessionManager.SessionManager.Restore` | crates/ingexuity-server/src/lib.rs:120-134 | a stored session is mapped with its snapshot and times, or queued when it has expired |
| `SessionManager.SessionManager.Get` | crates/ingexuity-server/src/lib.rs:136-156 | returns the mapped entry itself, renewed, or evicts, flags and queues it |
| `SessionManager.SessionManager.Remove` | crates/ingexuity-server/src/lib.rs:184-192 | unmaps and flags the entry, and says whether there was one |
| `SessionManager.SessionManager.Retain` | crates/ingexuity-server/src/lib.rs:198-205 | one visited session is kept untouched, or flagged and unmapped |
| `SessionManager.SessionManager.SweepExpired` | crates/ingexuity-server/src/lib.rs:194-210 | the loop visits every mapped session once, in some order, and does what the sweep of that order does |
| `SessionManager.SessionManager.DrainExpired` | crates/ingexuity-server/src/lib.rs:212-214 | hands over the whole queue and leaves it empty |
| `AppState.AppState.PurgeExpired` | crates/ingexuity-server/src/lib.rs:355-363 | deletes the drained sessions up to the first failing store call; the queue is empty either way |
| `AppState.AppState.RestoreSessions` | crates/ingexuity-server/src/lib.rs:335-337 | the loop restores every listed session, each at its own clock reading |
| `AppState.Restore` | crates/ingexuity-server/src/lib.rs:322-343 | a start comes up exactly when the store checks, reads back and deletes every expired session; map and tables are then those of the restored list |
| `AppState.Append` | crates/ingexuity-server/src/lib.rs:674-683 | how store errors become responses, with the tables unchanged on each |
| `AppState.Chat` | crates/ingexuity-server/src/lib.rs:586-629 | state, tables and answer after the locked section of a chat, rollback included |
| `AppState.Reset` | crates/ingexuity-server/src/lib.rs:510-529 | state, tables and answer after the locked section of a reset, rollback included |
| `AppState.SectionKeepsAgreement` | crates/ingexuity-server/src/lib.rs:614-621 | whatever the draft and the store do, row and state agree afterwards, and a failed section has moved neither |
| `AppState.SectionErrors` | crates/ingexuity-server/src/lib.rs:674-683 | a failed section answers a conflict exactly when the row has another version than the state, an unknown session exactly when there is no row, and otherwise that storage is unavailable |
| `AppState.DraftsAreWellFormed` | crates/ingexuity-server/src/lib.rs:514-612 | what chat and reset draft passes every check made before the transaction |
| `AppState.AppState.Delete` | crates/ingexuity-server/src/lib.rs:532-552 | map, tables and answer after the locked section of a delete |
| `AppState.ErasedIsGone` | crates/ingexuity-server/src/lib.rs:532-552 | a delete succeeds exactly when the store works and there is a row; then nothing is left to look up, list or restore and the entry is flagged; else nothing changed; no other session is touched |
| `Commit.StepKeepsInvariant` | crates/ingexuity-server/src/lib.rs:136-214 | every step of every handler keeps the whole invariant |
| `Restart.RunKeepsInvariant` | crates/ingexuity-server/src/lib.rs:322-363 | the invariant holds in every state of every run, arrivals, crashes and restarts included |
| `Restart.RestartFacts` | crates/ingexuity-server/src/lib.rs:322-343 | which sessions a restart maps, each with the snapshot and the times of its row, and which rows it deletes |
| `Runs.CacheAgreesWithStore` | crates/ingexuity-server/src/lib.rs:500-630 | a mapped session that is created and unlocked has a row with exactly its snapshot and version |
| `Runs.NoVersionConflict` | crates/ingexuity-store/src/lib.rs:242-258 | in every run of one server, exactly when a handler's append goes through, and the only three errors it can meet; a version conflict is not one |
| `Runs.NoCounterOverflows` | crates/ingexuity-core/src/lib.rs:72-111 | wherever a handler computes on a state, neither increment wraps and reset's overflow branch is not taken |
| `Runs.NoSequenceOverflows` | crates/ingexuity-store/src/lib.rs:267-271 | no sequence number an append computes overflows u64 |
| `Runs.LogLaw` | crates/ingexuity-server/src/lib.rs:595-612 | row version = number of events; sequences are 1 to version; the stored type string tells the kind of each event; recorded versions and previous versions match positions; turns since the last reset are the turn count |
| `Runs.LogTellsTheOperations` | crates/ingexuity-server/src/lib.rs:514-612 | in every run the log of a session holds its committed operations one after the other, with what each event is to say |
| `Runs.SchemaHolds` | migrations/0001_event_store.sql:1-18 | in every state of every run event ids are globally unique, no event lacks its session, and all checks of the schema hold |
| `Runs.SnapshotsAreDerived` | crates/ingexuity-core/src/lib.rs:83-111 | in every run the turns of every stored snapshot are what was said and what the backend replied since the last reset, and predictions and topics agree |
| `Runs.HistoryOnlyGrows` | crates/ingexuity-server/src/lib.rs:614-623 | over whole runs no committed operation and no response is ever taken back |
| `Runs.NoResurrection` | crates/ingexuity-server/src/lib.rs:532-552 | after a confirmed DELETE no schedule and no restart gives the id an entry, a row or an event again |
| `Runs.ConfirmedMeansGone` | crates/ingexuity-server/src/lib.rs:542-551 | the step that answers 204 finds the row deleted and the entry unmapped |
| `Flags.LateRequestsAreRefused` | crates/ingexuity-server/src/lib.rs:505-585 | a chat, reset or delete that gets the lock of a session whose DELETE was confirmed, however long it waited, changes nothing and is sent no result |
| `Makers.MappedHasItsRow` | crates/ingexuity-server/src/lib.rs:444-475 | in every run a mapped session without a row is being created, or is being unmapped by the delete that erased the row: a create that fails leaves no entry behind |
| `Runs.ResponsesAreSequential` | crates/ingexuity-server/src/lib.rs:581-629 | every response is the one a sequential run of the session's committed operations gives at its place, and no two responses claim the same operation |
| `Responses.ResponsesTell` | crates/ingexuity-server/src/lib.rs:581-629 | every response says how many turns and events the operations up to its own make, and a chat's response carries the backend's reply to that very message |
| `Responses.AnswersAreStored` | crates/ingexuity-server/src/lib.rs:586-629 | as long as no reset follows, the stored snapshot holds the trimmed message and the very text that was answered, at the turn the response's turn count names |
| `Accounting.EveryOperationIsAccounted` | crates/ingexuity-server/src/lib.rs:575-629 | in every state of every run each committed operation is in exactly one place: answered, its response in the hands of a chat that gave up the lock, last and its handler holding the lock, or lost in an earlier crash |
| `Accounting.OneHandEach` | crates/ingexuity-server/src/lib.rs:575-629 | no two handlers carry the response to the same operation |
| `Accounting.AnsweredOrOneMore` | crates/ingexuity-server/src/lib.rs:575-629 | a session's operations are the answered ones, or those and the lock holder's, exactly when none of its responses is in hand or lost |
| `LostResponses.CrashMayLoseTwo` | crates/ingexuity-server/src/lib.rs:575-629 | under every configuration some run has two committed operations of one session unanswered, and a crash there loses both |
| `Runs.LaterRequestsComeAfter` | crates/ingexuity-server/src/lib.rs:569-584 | the sequential order respects real time |
| `Runs.LockHoldersSeeCommittedStates` | crates/ingexuity-server/src/lib.rs:505-529 | whoever takes a session's lock sees a committed state, or the initial one |
| `Runs.FailureLeavesNoTrace` | crates/ingexuity-server/src/lib.rs:614-621 | rolling back restores the committed state of its entry and frees its lock; map, queue, other entries, permits, other handlers, tables and history stay |
| `Runs.RestartRecoversCommitted` | crates/ingexuity-server/src/lib.rs:322-363 | after a restart that comes up, map and store have the same keys and entries are the stored snapshots, replays of all committed operations; those never answered are exactly the ones lost before, in hand, or at the lock holder |
| `Expiry.RestartKeepsTheTimes` | crates/ingexuity-server/src/lib.rs:120-156 | a stored session outlives a restart exactly if it was updated at most the time to live before it was read back, with creation and last access as in its row; a lookup that follows finds it exactly if no more than the time to live has passed since the update by then, too |
| `Expiry.RequestAfterRestart` | crates/ingexuity-server/src/lib.rs:120-156 | the same for the steps of a request that arrives after the restart |
| `Times.TimesAgree` | crates/ingexuity-server/src/lib.rs:597-623 | in every run a row was updated when the last of its events occurred, or, without events, when it was created; and its entry is as old as the row |
| `Times.CreationTimeStays` | crates/ingexuity-server/src/lib.rs:444-475 | row and entry bear the clock reading of the create for the rest of the run, restarts included |
| `Leftovers.FailingPurgeLeavesRows` | crates/ingexuity-server/src/lib.rs:355-363 | a purge whose store call fails leaves the drained ids it had not deleted behind, unmapped and unqueued |
| `Leftovers.LeftoverRowStays` | crates/ingexuity-server/src/lib.rs:355-363 | such a row and its events stay unchanged, and no handler gets hold of it, for as long as the process goes on |
| `Runs.CrashedTablesAreReadable` | crates/ingexuity-store/src/lib.rs:359-384 | no row that any crash leaves makes the listing fail |
| `Runs.CondemnedAreUnmapped` | crates/ingexuity-server/src/lib.rs:194-214 | ids queued as expired or drained by a running purge are never mapped, so a purge never deletes a live row |
| `Runs.SessionsAreIsolated` | crates/ingexuity-server/src/lib.rs:349-363 | a request never changes the state, row, events or history of another session that stays mapped |
| `Runs.NoDeadlock` | crates/ingexuity-server/src/lib.rs:136-214 | in every reachable state with a running handler some handler can step |
| `Runs.PermitsAddUp` | crates/ingexuity-server/src/lib.rs:308-320 | free permits and permits held always add up to max(1, configured) |
| `Uninterrupted.GetAlone` | crates/ingexuity-server/src/lib.rs:136-156 | at most five steps of the machine do what one call of `get` does |
| `Uninterrupted.SweepAlone` | crates/ingexuity-server/src/lib.rs:194-210 | the machine's steps of a sweep do what one call of the method does, for every traversal order |
| `Uninterrupted.PurgeAlone` | crates/ingexuity-server/src/lib.rs:355-363 | the machine's steps of a purge empty the queue, delete the rows of all its ids, and go on with what the lookup found |
| `Uninterrupted.RequestReachesItsSection` | crates/ingexuity-server/src/lib.rs:349-353 | a request for a living session reaches the section of its own action with its own message, the session renewed, the queue purged, the lock held, and for a chat a permit taken |
| `Uninterrupted.ChatAlone` | crates/ingexuity-server/src/lib.rs:586-629 | the machine's steps of a chat's locked section leave what the method leaves and answer the same |
| `Uninterrupted.ResetAlone` | crates/ingexuity-server/src/lib.rs:510-529 | the same for a reset, and a response is sent exactly when the method answers |
| `Uninterrupted.WholeChatAlone` | crates/ingexuity-server/src/lib.rs:569-629 | a whole chat leaves what its section leaves after a purge, gives back lock and permit, and sends one response, about its own message, exactly when the section succeeds |
| `Uninterrupted.DeleteAlone` | crates/ingexuity-server/src/lib.rs:532-552 | the machine's steps of a delete's locked section do what the method does, and confirm the delete exactly when the method succeeds |
| `Trimming.EveryBudgetIsPositive` | spaces/hf_cpu/config.py:36-44 | exactly which configurations the constructor accepts: every allowed output limit leaves input room, the default is one, there is a thread, the ports exist |
| `Trimming.EstimatorsAreMonotone` | spaces/hf_cpu/generation.py:32-47 | both estimators grow with the conversation, and the bound is never below the estimate |
| `Trimming.EstimatesAddUp` | spaces/hf_cpu/generation.py:32-47 | what each message adds to the estimate, in groups of four bytes, and to the bound, in bytes |
| `Trimming.ValidateMessages` | spaces/hf_cpu/generation.py:50-68 | the loop answers as the specification of validation does |
| `Trimming.ValidationAnswersForTheList` | spaces/hf_cpu/generation.py:50-68 | success reads every item in order and finds a user turn; an error is about the first item at fault |
| `Trimming.ItemExactly` | spaces/hf_cpu/generation.py:57-65 | for every JSON value, exactly when it is read as a message, and as which, and exactly what each complaint means |
| `Trimming.DropOldestTurn` | spaces/hf_cpu/generation.py:71-79 | one turn leaves, up to the next user turn and never past the newest, or nothing can |
| `Trimming.ExactCount` | spaces/hf_cpu/generation.py:115-123 | answers what the counter answers, and asks it exactly when the list is not in the memo table |
| `Trimming.FitHistory` | spaces/hf_cpu/generation.py:125-143 | the dropping loop ends and answers with the first admissible list that fits, asking the counter at most once about any list |
| `Trimming.NormalizeRequest` | spaces/hf_cpu/generation.py:82-143 | the request or error for every payload, checks in their order |
| `Trimming.TrimmingKeepsTheMost` | spaces/hf_cpu/generation.py:125-143 | a list is answered exactly when the newest user message fits alone, it fits, and every longer admissible list is too long |
| `Trimming.RefusedWhenNothingFits` | spaces/hf_cpu/generation.py:127-134 | a request is refused for length exactly when the newest message alone or every admissible list is too long |
| `Trimming.NewestTurnIsKept` | spaces/hf_cpu/generation.py:71-79 | the pinned system message, the newest user message and all after it stay, and a trimmed history starts with a user turn |
| `Trimming.SystemMessageStays` | spaces/hf_cpu/generation.py:71-79 | a leading system message leads every answer |
| `Requests.RequestsFitTheContext` | spaces/hf_cpu/generation.py:100-113 | budget positive; input, output limit and reserve fit the context window together |
| `Requests.RequestedLimit` | spaces/hf_cpu/generation.py:91-100 | a successful request has the output limit its payload names, or the configured default when it names none, and what that and the reserve leave of the context as input budget |
| `Requests.RefusalsExactly` | spaces/hf_cpu/generation.py:90-98 | for every payload: a complaint about the messages comes first; with valid messages, exactly when the limit is no integer, is out of range, or the stream field is not true |
| `Requests.TooLargeExactly` | spaces/hf_cpu/generation.py:100-135 | exactly when a payload that is otherwise in order is refused for its length, by way of the bound included |
| `Requests.EarlyCheckExactly` | spaces/hf_cpu/generation.py:125-128 | for any counter and request, exactly when the early check leaves the answer as it would be |
| `Requests.EarlyCheckIsRedundant` | spaces/hf_cpu/generation.py:125-128 | so for counters that grow with the conversation it never changes the answer |
| `Requests.EarlyCheckCanRefuse` | spaces/hf_cpu/generation.py:125-128 | for another counter it does: a concrete request |
| `Requests.FastPathKeepsTheList` | spaces/hf_cpu/generation.py:103-113 | for every counter below the bound the fast path answers the slow path's list, with the default estimate as its count |
| `Requests.FastPathIsTheSlowPath` | spaces/hf_cpu/generation.py:103-113 | with the default estimator, supplying the bound changes no answer for any payload |
| `Requests.ValidationRoundTrip` | spaces/hf_cpu/generation.py:50-68 | a list sent as JSON reads back as itself exactly when it is acceptable |
| `Requests.ResubmittingTrimsNothing` | spaces/hf_cpu/generation.py:130-143 | sending the retained messages again keeps them all, untrimmed |
| `Continuations.PreparedRequest` | spaces/hf_cpu/app.py:171-183 | a prepared request has the limit its chat asks for, fits the context window with that and the reserve, and keeps the pinned message and the newest turn of the chat's messages |
| `Continuations.ContinuationRefusals` | spaces/hf_cpu/app.py:171-178 | a continuation is refused as such exactly when its messages are no list or there is no text to continue |
| `Continuations.ContinuationIsRead` | spaces/hf_cpu/generation.py:146-153 | a continuation validates to the history, the text and the instruction, exactly when that is short enough and not blank |
| `Continuations.ContinuationKeepsItsText` | spaces/hf_cpu/app.py:171-183 | for every chat and counter, the text to continue survives exactly when the cheap bound lets the list through or some admissible list reaching back beyond the instruction fits |
| `Continuations.LastListDecides` | spaces/hf_cpu/generation.py:71-79 | for counters that grow with the conversation that list is the last one, cut at the user turn the text answers |
| `Continuations.ContinuationMayLoseItsText` | spaces/hf_cpu/generation.py:146-153 | a concrete chat, with the default estimator, whose request keeps the instruction alone |
| `Sse.ParseSseRecord` | spaces/hf_cpu/ui/app.js:64-73 | the loop finds the last event name and all data lines in order |
| `Sse.RecordSays` | spaces/hf_cpu/ui/app.js:64-73 | a record says nothing exactly when it has no data line; else its name is the value of its last event line, or "message", and its data are the values of its data lines in order, joined by line feeds |
| `Sse.LinesAreSplit` | spaces/hf_cpu/ui/app.js:67 | the lines of a text are what stands between its line feeds, and joined again they are the text |
| `Sse.DrainBuffer` | spaces/hf_cpu/ui/app.js:87-92 | the inner loop takes exactly the complete records off the front of the buffer |
| `Sse.ConsumeSse` | spaces/hf_cpu/ui/app.js:75-95 | the loop over chunks delivers what the specification of reading delivers |
| `Sse.DrainingInTwoSteps` | spaces/hf_cpu/ui/app.js:87-92 | draining the buffer early and again later delivers what draining once delivers |
| `Sse.ReadingIsDraining` | spaces/hf_cpu/ui/app.js:83-94 | the events depend only on the chunks' unified texts put together |
| `Sse.UnifyingParts` | spaces/hf_cpu/ui/app.js:85 | unifying two parts is unifying the whole exactly when no CRLF pair is cut apart |
| `Sse.CutsLengthen` | spaces/hf_cpu/ui/app.js:85 | the same for any chunks |
| `Sse.UncutChunksReadAlike` | spaces/hf_cpu/ui/app.js:83-94 | without a cut CRLF pair any chunks are as good as one, left-over text included |
| `LineEnds.ReadingIsByLines` | spaces/hf_cpu/ui/app.js:64-95 | the reader delivers what a reader that goes line by line delivers |
| `LineEnds.LinesOfChunks` | spaces/hf_cpu/ui/app.js:85 | the page sees the lines of the whole text but for stray CRs, one on a blank line exactly when its end was cut apart |
| `LineEnds.ChunksDoNotMatter` | spaces/hf_cpu/ui/app.js:83-94 | unless the end of a blank line is cut apart, any chunks deliver the events of the whole text |
| `LineEnds.FramedChunksExactly` | spaces/hf_cpu/ui/app.js:83-94 | for records that each have a data line and one blank line after them this is exact: otherwise fewer events arrive |
| `LineEnds.PrintedIsFramed` | spaces/hf_cpu/generation.py:160-161 | what the server prints is such a stream |
| `Sse.CutCrLfLosesAnEvent` | spaces/hf_cpu/ui/app.js:85 | with one, the outcome can differ |
| `Sse.CrFreeChunking` | spaces/hf_cpu/ui/app.js:83-94 | for text without CR the outcome depends on the text alone |
| `Sse.StreamRoundTrip` | spaces/hf_cpu/generation.py:160-161 | whatever the server prints, cut anywhere, the page gets exactly those events in order and nothing is left over |
| `Sse.TruncatedStream` | spaces/hf_cpu/ui/app.js:83-94 | a stream cut short delivers its complete records and keeps the rest in the buffer |
| `Slot.StepKeepsInv` | spaces/hf_cpu/app.py:162-257 | every step of every request keeps the slot invariant |
| `Slot.OneHolder` | spaces/hf_cpu/app.py:167-168 | at most one request is between taking the lock and giving it back |
| `Slot.LockIsFreeWhenIdle` | spaces/hf_cpu/app.py:193-195 | the lock is free exactly when no request is in between |
| `Slot.LockChangesHands` | spaces/hf_cpu/app.py:254-255 | the lock is given back only by its holder and taken only when free |
| `Slot.ReleasedExactlyOnce` | spaces/hf_cpu/app.py:193-255 | every acquisition is matched by one release, by whatever way the request ends |
| `Slot.PullsAreRecorded` | spaces/hf_cpu/app.py:221-253 | what a request receives is what upstream hands over, it ends as upstream ends, and a broken upstream makes an error frame at once |
| `Slot.CompletedStream` | spaces/hf_cpu/app.py:200-253 | a stream that ran to its end is meta, tokens, done or, exactly when upstream broke, meta, tokens, error, done; meta carries the request prepared for its chat; there is a token for each upstream text, in order; done says "length" and can be continued exactly when the last chunk that names a finish reason says so, else "stop", or "error" after an error, with the count and the rate of the last chunk that reports one |
| `Slot.ClosedStream` | spaces/hf_cpu/app.py:254-255 | a stream closed early sent the beginning of one, meta frame first, and lost no text it had received |
| `Slot.PageSeesTheStream` | spaces/hf_cpu/generation.py:160-161 | the page sees the frames the stream sent, however the text is cut |
| `Page.Page.OnEvent` | spaces/hf_cpu/ui/app.js:110-122 | what each event does to the page, by its name |
| `Page.Page.StreamRequest` | spaces/hf_cpu/ui/app.js:97-130 | the page after the whole response, or after the event at which reading stopped |
| `Page.PageShowsTheAnswer` | spaces/hf_cpu/ui/app.js:97-130 | from the runtime to the reader: the page shows the upstream texts put together, keeps them and the retained messages, tells whether the context was trimmed, fails exactly when the runtime broke, and offers to continue exactly when the answer was cut off at its limit |
| `Page.TruncatedAnswerFails` | spaces/hf_cpu/ui/app.js:123 | a stream cut off before its last frame is never taken for a complete answer |
| `StreamChat.StreamChat` | spaces/hf_cpu/app.py:162-198 | status or request, and the lock left taken exactly for a request to stream |
| `StreamChat.HandlerAlone` | spaces/hf_cpu/app.py:162-198 | a request among others, from its arrival on, is answered 503, 429, or by what becomes of its chat, and keeps the lock exactly when it is to stream |
| `StreamChat.Events` | spaces/hf_cpu/app.py:200-255 | a client gets the first frames it wants of the whole stream (`WholeStream` says which), and the lock is free afterwards |
| `StreamChat.Relay` | spaces/hf_cpu/app.py:201-253 | the loop sends the frames of the whole stream in order, done last, as `WholeStream` says |
| `StreamChat.WholeStream` | spaces/hf_cpu/app.py:200-253 | what that stream is, in terms of the chunks received |
| `StreamChat.SlotSendsTheWhole` | spaces/hf_cpu/app.py:200-253 | the requests that share the slot send that very stream |
| `Merging.MergePairPass` | src/modules/BPETokenizer.jl:100-113 | the pass joins the occurrences met from left to right |
| `Merging.TryMerge` | src/modules/BPETokenizer.jl:127-141 | one merge tried over the word: its result, and whether it applied at all |
| `Merging.ScanInOrder` | src/modules/BPETokenizer.jl:123-147 | scanning the list in order and restarting computes the segmentation, in at most n - 1 merging passes |
| `Merging.CountPairs` | src/modules/NanoGPT.jl:546-549 | the dictionary has exactly the adjacent pairs |
| `Merging.BestPair` | src/modules/NanoGPT.jl:552-560 | the lowest-ranked adjacent pair is the first applicable merge, in whatever order the dictionary is traversed |
| `Merging.JoinPair` | src/modules/NanoGPT.jl:564-575 | the inner loop joins the occurrences met from left to right |
| `Merging.Bpe` | src/modules/NanoGPT.jl:540-588 | choosing the lowest rank computes the same segmentation, in as many passes |
| `Merging.SegmentIsComplete` | src/modules/BPETokenizer.jl:123-147 | the segmentation loses no text and leaves no neighbours the list would join |
| `Merging.PassesAreBounded` | src/modules/NanoGPT.jl:551-585 | every pass of either loop removes a symbol, so a word of n symbols takes at most n - 1 |
| `Merging.TokensAreKnown` | src/modules/BPETokenizer.jl:123-147 | every token is a symbol of the word or the product of a merge |
| `Bytes.CharOfIsInjective` | src/modules/NanoGPT.jl:496-513 | different bytes become different characters |
| `Bytes.AlphabetTable` | src/modules/NanoGPT.jl:496-513 | the whole alphabet: the 188 visible bytes stand for themselves, the others in their order for the 68 characters from U+0100 on |
| `Bytes.VisibleBytes` | src/modules/NanoGPT.jl:498-501 | the three loops collect exactly the bytes that stand for themselves |
| `Bytes.Gpt2ByteEncoder` | src/modules/NanoGPT.jl:496-513 | the loops fill the table with exactly those characters, for all 256 bytes |
| `Bytes.DecoderUndoesEncoder` | src/modules/NanoGPT.jl:515-517 | the encoder is injective, so the table turned around undoes it |
| `Bytes.TokensAreLossless` | src/modules/NanoGPT.jl:540-588 | joining the tokens of any byte string under any merge list and reading them back gives the byte string |
| `Bytes.MappedTextIsOneWord` | src/modules/NanoGPT.jl:590-598 | mapped text holds no white space, so the split and the strip leave it whole |

## Left out

- `SqliteStore::load_session`, `session_count` and `schema_version`: not called by the server.
- SQLite itself, its pragmas, the migrations and the thread pool in front of it; a transaction is a working copy with commit or rollback. That a stored row whose text does not parse makes a listing fail is not modelled: encoding is taken to be faithful.
- HTTP routing, JSON extraction, body limits, tracing, and the mapping from errors to status codes other than `AppError::from_persistence`.
- What the inference backend is asked and how the heuristic backend words its answer: its reply is a parameter.
- The times in session metadata: slow readers may store an older clock value, so no order of last accesses is claimed.
- That every row has a live entry: a sweep may run between the reads of a create and its insert, and a failing purge drops its ids.
- Handlers dropped when a client disconnects, and the panics of workers.
- `AppState::restore` maps entries in listing order; entries of a failed start are forgotten with the process.
- Create is not replayed in `Uninterrupted`; its machine steps are covered by `Makers`, `Times` and `Runs` only.
- Text that Python holds with lone surrogates, byte decoding on the page, and JSON parsing of a record's data, which is taken to give back the frame it was made from. The page's storage, its buttons but for the one that continues, and aborted requests. Token estimates are exact integers, as Python's are for texts below 2^53 bytes.
- `_drop_oldest_turn` changes its list in place; here it returns the shorter list.
- Streams that are handed over but never started, and the exceptions of `runtime_snapshot`.
- `latest_timing`: the assignment inside `events` is local to it, so the endpoint's value never changes.
- `extract_chunk` and `parse_openai_sse`: upstream chunks are given as what they say.
- Vocabularies, id fallbacks, training and decoding of the tokenizers; strings are sequences of code points.
- Transformer, emotion and prediction modules, weight files, benchmarks and scripts.
