# Durable messaging pipeline: a verified model

This project models the durable messaging core of a WhatsApp chat system and proves properties of it.
One step of the model is one committed database transaction, one file operation, or one stretch of
JavaScript between two awaits; everything else interleaves freely, and processes may crash between steps.
Every step carries its own clock value, with no relation assumed between them.

Each component has a module of pure functions that say what its operations do, a module of properties over
whole runs, a module of laws that say field by field, and without those functions, when an operation goes through
and what it leaves behind, and a class whose methods change their fields in place as the program does and are held to
those functions.

- `JobQueue`, `JobProperties`, `JobLaws`, `JobRepositoryModule`: the leased job queue with version compare-and-set,
  attempt budgets, parents and recovery.
- `Outbox`, `OutboxProperties`, `OutboxLaws`, `OutboxDispatcherModule`: the leased outbox and its coupling to messages.
- `ReceiptStore`, `KeyedSend`, `SendLaws`: the bounded memory of idempotency keys with its file, and the keyed send.
- `Pipeline`, `PipelineProperties`, `PipelineReplies`, `PipelineRuns`, `AutoReplyWorkerModule`: jobs, workers, outbox,
  dispatchers and bridges together. The main theorems are `PipelineProperties.ExactlyOneReply`, that there is one
  reply and one message, and `PipelineReplies.SendsTheAnswer`, that it is the answer of the provider in the right chat.
- `Spool`, `SpoolProperties`, `SpoolOrder`, `SpoolLaws`, `FileSpoolModule`: the file spool over three directories and its sink.
- `Events`, `EventProperties`, `EventLaws`, `EventRaces`, `EventServiceModule`: the event service, its endpoint, and sessions that race.
- `Delivery`: spool, sink and server joined; `NothingIsLost` is the end-to-end statement.
- `Profile`, `ProfileProperties`, `ProfileLaws`, `ProfileRepositoryModule`: profile claims and the cached snapshot. A run is
  the history of committed states, and an operation names the states in which it did its reads.
- `Session`, `SessionProperties`, `SessionLaws`, `AccountSessionModule`: the connection state machine of an account session.
- `Base`, `Messages`: identifiers, message rows and the receipt merge.

Inputs from outside are parameters: the clock, new ids, the outcome of a send, of the AI call and of the
endpoint, the sockets and their updates, the choice a SELECT makes among equal rows. Digests are injective.

Where the code does less than it appears to promise, the model follows the code:

- A failure reported after `start` carries the version of the claim, so it is always refused and the job waits
  for lease recovery (`FailedJobKeepsRunning` is the run; `FailAfterClaimIff` has the exact condition).
- Reaping an expired outbox lease does not look at the attempts (`ExpiryIgnoresBudget`; `BudgetHoldsIff`).
- `cancel` reaches one level of children (`CancelLeavesGrandchild`; `CancelReachesAllIff`).
- The sink buries every 409, also one that the server calls retryable: a receipt that overtakes its message is lost
  (`EarlyReceiptIsLost` is the run; `BuriedIff` has the exact condition). A session that has not seen a message just
  stored answers its receipt in the same way (`StaleReceiptIsRefused`), and one that has not seen a reply job just
  queued may refuse it (`StaleReplyIsRefused`); nothing else of a lost race shows (`LostRaceIsHarmlessIff`).
- If a `message.upsert` stores the id of a sent message before the dispatcher does, its outbox row can never be
  completed (`EchoedIsNeverCompleted` is the run; `RetryCompletesIff` has the exact condition).
- A message is sent again if the bridge dies before its receipt is in the file, which a failed write makes possible
  although the message is out (`LostReceiptSendsAgain` is the run; `SentAgainAfterCrashIff` has the exact condition).
- A sequence number is taken and used in two awaits, so events may be appended out of order
  (`LateAppendBreaksOrder`; `AppendStaysOrderedIff`).
- Saving contact settings adds one to `profile_revision` without comparing it. A late save can lower the
  revision and make an outdated snapshot look current (`LateEditBreaksCoherence`; `EditKeepsCoherenceIff` has
  the exact condition). The data model's promise that the revision counts claims holds without such edits.
- An update that carries both a code and a connection change acts after its generation is superseded
  (`SilentIffSingleKind`), and a connect during a waiting logout leaves a current socket in a session that
  says logged out (`ConnectDuringLogout`; `LogoutTearsIff`). A superseded connect call may still set the reconnect
  timer once its error is reported (`LateErrorSupersedes`; `SupersededCallIsSilentIff`).

## Model

| member | source | states |
|---|---|---|
| `JobProperties.StepMoves` | src/whatsapp_chat_system/ai/job_repository.py:195-425 | every operation leaves a job row alone or moves it along the state machine, keeping identity and request, raising the version by exactly one and spending an attempt only on a claim |
| `JobProperties.StepKeepsInv` | src/whatsapp_chat_system/ai/job_repository.py:195-425 | every operation keeps: `attempts <= max_attempts`, queued jobs have an attempt left, a lease exactly on claimed and running rows, parents in the same account, one row per (account, key) |
| `JobProperties.RunFromEmpty` | src/whatsapp_chat_system/ai/job_repository.py:195-425 | the table invariant holds after every run from an empty table |
| `JobProperties.RecoveredKeepsInv` | src/whatsapp_chat_system/ai/job_repository.py:396-425 | a recovery pass over any admissible batch keeps the invariant |
| `JobProperties.VersionsGrow` | src/whatsapp_chat_system/ai/job_repository.py:315-338 | versions never go down over a run, and an equal version means the very same row |
| `JobProperties.Fencing` | src/whatsapp_chat_system/ai/job_repository.py:315-338 | a token whose version the row has left behind is refused by start, heartbeat, complete and fail, now and after any further run |
| `JobProperties.TouchedMeansFenced` | src/whatsapp_chat_system/ai/job_repository.py:315-338 | any step that changes a row invalidates for ever every token issued before it |
| `JobProperties.TerminalIsFrozen` | src/whatsapp_chat_system/ai/job_repository.py:302-394 | completed, dead and cancelled rows never change again |
| `JobProperties.AtMostOneCompletion` | src/whatsapp_chat_system/ai/job_repository.py:352-364 | at most one `complete` succeeds in the whole history of a job, and then the job ends completed |
| `JobProperties.BoundedLife` | src/whatsapp_chat_system/ai/job_repository.py:302-312 | the sum of successful non-heartbeat steps and 3*(max_attempts - attempts) + rank(status) at the end never exceeds that measure at the start |
| `JobProperties.BoundedLifeFromInsert` | src/whatsapp_chat_system/ai/job_repository.py:195-425 | from its insert on a job takes at most 3*max_attempts + 1 successful steps other than heartbeats |
| `JobProperties.TerminalParentStep` | src/whatsapp_chat_system/ai/job_repository.py:325-337 | under a terminal parent no child is added and a child changes only by cancel or recovery; under a cancelled parent only to cancelled |
| `JobProperties.ParentFencing` | src/whatsapp_chat_system/ai/job_repository.py:165-183 | once a parent is terminal its children are, over any run, the same rows, claim, start, heartbeat, complete and fail change none of them a single time, and under a cancelled parent a changed row is cancelled |
| `JobProperties.CancelCascades` | src/whatsapp_chat_system/ai/job_repository.py:377-394 | a direct cancel leaves no direct child pending or retry and does not touch leased or terminal children |
| `JobProperties.CancelStopsAtChildren` | src/whatsapp_chat_system/ai/job_repository.py:390-393 | the cascade is one level deep: every row that is neither the job nor its direct child is unchanged |
| `JobProperties.CancelReachesAllIff` | src/whatsapp_chat_system/ai/job_repository.py:390-393 | after a cancel no descendant is left queued if and only if no queued descendant lay below the direct children |
| `JobProperties.CancelLeavesGrandchild` | src/whatsapp_chat_system/ai/job_repository.py:390-393 | a run from the empty table after which a cancel leaves a queued grandchild |
| `JobProperties.FailAfterClaimIff` | src/whatsapp_chat_system/ai/auto_reply_worker.py:244-251 | after any run the token of a claim can still fail the job if and only if nothing, start included, has touched the row, the lease has not run out and the parent is open |
| `JobProperties.RunKeepsCaps` | src/whatsapp_chat_system/ai/job_repository.py:263-280 | if all claimers pass the same caps, claimed plus running jobs exceed neither the global nor any per-account cap in any reachable state |
| `JobProperties.StaleEnqueueIsHarmless` | src/whatsapp_chat_system/ai/job_repository.py:216-243 | an enqueue whose lookup was out of date answers like one that looked up now, through the unique index and a second read, if and only if it has not missed the row of its key while the queue was full, and then the backpressure limit refuses it |
| `JobProperties.EnqueueIsIdempotent` | src/whatsapp_chat_system/ai/job_repository.py:216-243 | repeating an accepted enqueue, however much later, returns the first row and inserts nothing |
| `JobLaws.QueuedIff` | src/whatsapp_chat_system/ai/job_repository.py:195-243 | a request is queued as a new row if and only if its fields are in range, its contact, conversation and parent are the account's own, its key is free and the account has a place left |
| `JobLaws.NewJobIsReady` | src/whatsapp_chat_system/ai/job_repository.py:195-243 | a row that was not there before holds the request it was enqueued with, under its account and key, without attempts, and is claimable exactly from its time on |
| `JobLaws.WorkIsFoundIff` | src/whatsapp_chat_system/ai/job_repository.py:245-313 | a claimer finds work if and only if its arguments are in range, there is room under the global cap, and some queued, due job with an open parent is in its account and budgets, that account having room under its cap |
| `JobLaws.ClaimTakesDueWork` | src/whatsapp_chat_system/ai/job_repository.py:282-312 | the job claimed is due, has an attempt left and an open parent, and is the claimer's until its lease has run |
| `JobLaws.NothingIsPassedOver` | src/whatsapp_chat_system/ai/job_repository.py:298-300 | nothing that could have been claimed instead has a higher priority, an earlier time with the same one, or an earlier creation with both the same |
| `JobLaws.StartsIff` | src/whatsapp_chat_system/ai/job_repository.py:340-343 | a start goes through if and only if the token holds a claimed job, and changes nothing but its status and version |
| `JobLaws.HeartbeatsIff` | src/whatsapp_chat_system/ai/job_repository.py:345-350 | a lease is extended if and only if the token holds the job and asks for one second to one hour |
| `JobLaws.HeartbeatIsGoodUntil` | src/whatsapp_chat_system/ai/job_repository.py:345-350 | after a heartbeat the next token is good exactly until the time of the heartbeat plus the seconds asked for |
| `JobLaws.CompletesIff` | src/whatsapp_chat_system/ai/job_repository.py:352-364 | a job is completed if and only if the token holds it, the hash is that of its input and the counts add up; nothing else changes |
| `JobLaws.FailedJobReturns` | src/whatsapp_chat_system/ai/job_repository.py:366-375 | a failed job with an attempt left is claimable again exactly from the end of its delay on, one without is dead, and a token that does not hold it changes nothing |
| `JobLaws.CancelsIff` | src/whatsapp_chat_system/ai/job_repository.py:377-394 | a job is cancelled if and only if it is open, of this account and at this version; then exactly its queued direct children are cancelled with it |
| `JobLaws.RecoveredJobReturns` | src/whatsapp_chat_system/ai/job_repository.py:396-425 | each job of a recovery pass with an attempt left and no parent, or an open one, is claimable from now on; it is dead if its attempts are spent, and cancelled if and only if its parent is |
| `JobLaws.OrphanReturns` | src/whatsapp_chat_system/ai/job_repository.py:413-421 | an expired job without parent and with an attempt left is never cancelled by a pass: it can be claimed at every time from now on |
| `JobLaws.RecoversAllExpired` | src/whatsapp_chat_system/ai/job_repository.py:396-412 | a pass that takes fewer than its limit takes exactly the expired leases in its scope |
| `JobLaws.RecoversEarliestFirst` | src/whatsapp_chat_system/ai/job_repository.py:396-412 | a pass leaves no lease in its scope that ran out before one it takes |
| `JobRepositoryModule.AnalysisJobRepository.Lookup` | src/whatsapp_chat_system/ai/job_repository.py:216-218 | finds the row of (account, key) if there is one |
| `JobRepositoryModule.AnalysisJobRepository.Enqueue` | src/whatsapp_chat_system/ai/job_repository.py:195-243 | the table and answer of the enqueue specification, keeping the invariant |
| `JobRepositoryModule.AnalysisJobRepository.SelectCandidate` | src/whatsapp_chat_system/ai/job_repository.py:282-300 | picks an eligible job that no eligible job precedes by priority, then earliest available_at, then created_at |
| `JobRepositoryModule.AnalysisJobRepository.ClaimCas` | src/whatsapp_chat_system/ai/job_repository.py:302-312 | writes the lease only if the row is still claimable |
| `JobRepositoryModule.AnalysisJobRepository.ClaimNext` | src/whatsapp_chat_system/ai/job_repository.py:245-313 | returns nothing only when the arguments, the caps or the absence of eligible jobs say so, and otherwise leases the best eligible job |
| `JobRepositoryModule.AnalysisJobRepository.LeaseWrite` | src/whatsapp_chat_system/ai/job_repository.py:315-338 | the compare-and-set on version, owner, unexpired lease, status and parent, with no change when it fails |
| `JobRepositoryModule.AnalysisJobRepository.Start` | src/whatsapp_chat_system/ai/job_repository.py:340-343 | claimed to running under the token |
| `JobRepositoryModule.AnalysisJobRepository.Heartbeat` | src/whatsapp_chat_system/ai/job_repository.py:345-350 | extends the lease from now and raises the version |
| `JobRepositoryModule.AnalysisJobRepository.Complete` | src/whatsapp_chat_system/ai/job_repository.py:352-364 | completes an active job, requiring the stored input hash and valid progress |
| `JobRepositoryModule.AnalysisJobRepository.Fail` | src/whatsapp_chat_system/ai/job_repository.py:366-375 | requeues with a delay before which the job cannot be claimed, or kills the job when its attempts are spent |
| `JobRepositoryModule.AnalysisJobRepository.Cancel` | src/whatsapp_chat_system/ai/job_repository.py:377-394 | cancels the job and its queued direct children under a version check |
| `JobRepositoryModule.AnalysisJobRepository.RecoverExpiredLeases` | src/whatsapp_chat_system/ai/job_repository.py:396-425 | recovers exactly the first `limit` expired leases by expiry and counts them: each is claimable again at once, dead when its attempts are spent, or cancelled if and only if its parent is; every other row is unchanged |
| `OutboxProperties.StepKeepsInv` | src/whatsapp_chat_system/outbox.py:25-271 | every outbox operation keeps the coupling of a row and its message: an owner exactly on claimed rows, a platform id exactly on messages of completed rows, queued messages under pending and claimed rows, failed ones under dead rows |
| `OutboxProperties.RunKeepsInv` | src/whatsapp_chat_system/outbox.py:25-271 | the coupling holds after every run, including receipts, message rewrites and schedule cancellation |
| `OutboxProperties.RowMoves` | src/whatsapp_chat_system/outbox.py:108-271 | what one step may do to one row: identity never changes, only a claim takes a lease |
| `OutboxProperties.TerminalRowsStay` | src/whatsapp_chat_system/outbox.py:220-271 | completed and dead rows are absorbing over every run |
| `OutboxProperties.ReapTakesAway` | src/whatsapp_chat_system/outbox.py:112-122 | after a claim pass an expired row is owned by a worker if and only if the pass picked it for that worker |
| `OutboxProperties.LostStaysLost` | src/whatsapp_chat_system/outbox.py:146-160 | a worker that lost a row and is not given it again stays without it |
| `OutboxProperties.LateFinalisation` | src/whatsapp_chat_system/outbox.py:210-271 | a reaped worker reporting late, success or failure, changes nothing, unless a pass has picked the row for it again |
| `OutboxProperties.BudgetHoldsIff` | src/whatsapp_chat_system/outbox.py:256-271 | attempts stay within max_attempts in every state of a run, pending rows having one left, if and only if no claim pass reaps a row that has spent its last attempt |
| `OutboxProperties.ExpiryIgnoresBudget` | src/whatsapp_chat_system/outbox.py:112-122 | for every allowed lease length and every n: a run from one enqueue in which the lease runs out n times spends n attempts, whatever max_attempts is |
| `OutboxProperties.ClaimKeepsBudgetIff` | src/whatsapp_chat_system/outbox.py:117-122 | a claim pass keeps the budget if and only if the reaping, which does not look at attempts, meets no row that has spent them |
| `OutboxLaws.SendsWhatWasQueued` | src/whatsapp_chat_system/outbox.py:25-79 | for every run after the enqueue that created a row, whoever is asked to send the row sends the enqueued text to the chat of the enqueuing conversation, through its account and under its key |
| `OutboxLaws.NewRowSays` | src/whatsapp_chat_system/outbox.py:57-79 | the row an enqueue inserts carries the text to the account and conversation it was given, without attempts, and is due exactly from its time on |
| `OutboxLaws.KnownKeyIsReused` | src/whatsapp_chat_system/outbox.py:46-55 | a key that has a row, queued again, answers with that row if and only if the text is not empty and the conversation is the same, and nothing is inserted |
| `OutboxLaws.SendsIff` | src/whatsapp_chat_system/outbox.py:146-180 | a row is sent if and only if the worker owns it and its message and conversation exist and the conversation has not been deleted |
| `OutboxLaws.CancelledIsNeverSent` | src/whatsapp_chat_system/api/v1/operations.py:158-190 | after a schedule has been cancelled nobody is ever asked to send it, over any run |
| `OutboxLaws.PassWrites` | src/whatsapp_chat_system/outbox.py:108-144 | a claim pass leases exactly the rows it picks, each one attempt higher and until now plus the lease, gives other rows whose lease has run out back, and changes no other row |
| `OutboxLaws.LeftOutOnlyByEarlier` | src/whatsapp_chat_system/outbox.py:124-137 | a due row is left out by a pass only if the batch is full of rows due no later |
| `OutboxLaws.WaitDoubles` | src/whatsapp_chat_system/outbox.py:273-275 | the wait is two seconds at first, doubles with each attempt, and stays at 256 from the eighth on |
| `OutboxLaws.FailedRowReturns` | src/whatsapp_chat_system/outbox.py:241-275 | a failed delivery keeps text and conversation, notes the error on row and message, and makes the row due again exactly after its wait, or dead if it may not be tried again |
| `OutboxLaws.SentRowIsDone` | src/whatsapp_chat_system/outbox.py:210-239 | a recorded send completes the row, names and dates its message, and shows it last in its conversation |
| `OutboxDispatcherModule.OutboxDispatcher.EnqueueOutboxMessage` | src/whatsapp_chat_system/outbox.py:25-79 | inserts message and row together, the message saying the text in the conversation and the row due exactly from its time on, or returns the existing row of the key after checking its conversation |
| `OutboxDispatcherModule.OutboxDispatcher.ReapExpired` | src/whatsapp_chat_system/outbox.py:112-122 | returns exactly the expired claimed rows to pending |
| `OutboxDispatcherModule.OutboxDispatcher.SelectDue` | src/whatsapp_chat_system/outbox.py:124-137 | the first batch of due rows by available_at and id, without repetition |
| `OutboxDispatcherModule.OutboxDispatcher.ClaimBatch` | src/whatsapp_chat_system/outbox.py:108-144 | the whole claim pass equals its specification for an admissible batch |
| `OutboxDispatcherModule.OutboxDispatcher.FinalizeFailure` | src/whatsapp_chat_system/outbox.py:241-275 | requeues with backoff or buries an owned row and fails its message; does nothing without ownership |
| `OutboxDispatcherModule.OutboxDispatcher.FinalizeSent` | src/whatsapp_chat_system/outbox.py:210-239 | completes row and message together, or aborts whole when another message already has the platform id |
| `OutboxDispatcherModule.OutboxDispatcher.Deliver` | src/whatsapp_chat_system/outbox.py:146-239 | asks the bridge, if and only if the worker owns the row and its conversation is there, to send the content of the row's message to the chat of its conversation under the key of the row; completes the row with the returned id or aborts if and only if that is taken; otherwise the row is due again after its wait, or dead if and only if the error is final or the attempts are spent; other rows stay |
| `ReceiptStore.StoreIsLastKeys` | bridge/src/send-receipt-store.js:47-62 | the bounded map equals the last maxEntries keys of the unbounded order by most recent put |
| `ReceiptStore.RememberedIff` | bridge/src/send-receipt-store.js:42-62 | a key is found, with the id of its last put, if and only if fewer than maxEntries other keys followed |
| `ReceiptStore.RestartRestores` | bridge/src/send-receipt-store.js:14-30 | a fresh process reading the flushed file gets the same map in the same order |
| `ReceiptStore.ReloadIsNoOp` | bridge/src/send-receipt-store.js:14-30 | start on a living store whose file is current changes nothing |
| `ReceiptStore.StepKeepsJournal` | bridge/src/send-receipt-store.js:14-74 | map and file refine a journal of puts and of the prefix covered by the last flush, through failed flushes and restarts |
| `ReceiptStore.ResolvedPutSurvives` | bridge/src/send-receipt-store.js:47-74 | a put covered by a flush is found after any further puts, flushes, failed flushes and restarts until maxEntries other keys follow |
| `ReceiptStore.SendReceiptStore.Trim` | bridge/src/send-receipt-store.js:58-62 | keeps exactly the last maxEntries entries |
| `ReceiptStore.SendReceiptStore.Start` | bridge/src/send-receipt-store.js:14-30 | sets the items of the file one by one and trims |
| `ReceiptStore.SendReceiptStore.Put` | bridge/src/send-receipt-store.js:47-56 | delete, set and trim; the newest key survives |
| `KeyedSend.StepKeepsInv` | bridge/src/account-session.js:573-610 | every segment of every concurrent send keeps operations, calls, store and history consistent for each untrimmed key, and trimmed keys are never taken back |
| `KeyedSend.SentAtMostOnce` | bridge/src/account-session.js:573-610 | for a key not forgotten the platform yields at most one id over every interleaving, restarts included, and every caller that succeeds gets that id |
| `KeyedSend.RetryGetsTheSameId` | bridge/src/account-session.js:573-587 | after a yield a retry is answered at once with the original id and sends nothing, whatever became of flush, event or reply |
| `KeyedSend.StepKeepsSourced` | bridge/src/account-session.js:593-602 | whatever the store remembers for a key was obtained from the platform for that key, once |
| `KeyedSend.FlushedSurvivesRestart` | bridge/src/send-receipt-store.js:64-74 | a flushed key is in no danger when the process dies: it is neither lost nor in doubt |
| `KeyedSend.NotSentAgainAfterRestart` | bridge/src/send-receipt-store.js:14-30 | after a restart, and anything that follows, a retry of a flushed key is answered with its id and sends nothing, until a trim |
| `SendLaws.StartsSendingIff` | bridge/src/account-session.js:573-592 | a call starts a send if and only if the session is online and its key is neither remembered nor in flight; a remembered key is answered from the store and one in flight by joining its operation |
| `SendLaws.FailureFreesTheKey` | bridge/src/account-session.js:573-599 | a failed send answers nobody, remembers nothing and frees its key: the next call sends again |
| `SendLaws.SuccessIsReported` | bridge/src/account-session.js:593-610 | a send that goes through answers its callers with the id of the platform once receipt file and event are written, and not before |
| `SendLaws.LateFailureIsRemembered` | bridge/src/account-session.js:593-610 | if the file or the event cannot be written the callers get an error, but the next call gets the id and sends nothing |
| `SendLaws.ReportedMeansWritten` | bridge/src/account-session.js:573-610 | over every interleaving, failure and crash, an id that a waiting caller got is in the receipt file, as long as the key is not forgotten |
| `SendLaws.SentAgainAfterCrashIff` | bridge/src/send-receipt-store.js:14-30 | a remembered key is sent again after a crash if and only if the receipt file does not hold it |
| `SendLaws.LostReceiptSendsAgain` | bridge/src/send-receipt-store.js:64-74 | a run in which the receipt file cannot be written, the process dies, and the retry sends the message a second time |
| `PipelineProperties.ReplyAddsOne` | src/whatsapp_chat_system/ai/auto_reply_worker.py:206-234 | the joint transaction adds one fresh reply row, completes the job, or does neither |
| `PipelineProperties.CompletedOnlyBySent` | src/whatsapp_chat_system/outbox.py:210-239 | only the step that records a send completes an outbox row, and only the row it names under ownership |
| `PipelineProperties.AnswerIsRemembered` | bridge/src/account-session.js:573-610 | the answer a waiting dispatcher gets is what the bridge remembers for the key of its row |
| `PipelineProperties.StepKeepsInv` | src/whatsapp_chat_system/ai/auto_reply_worker.py:70-256 | every transaction, send segment and crash of any process keeps the invariant of the joint state |
| `PipelineProperties.CompletedMeansSent` | src/whatsapp_chat_system/outbox.py:210-239 | the message of a completed row carries the one id the platform gave for the key of the row |
| `PipelineProperties.ExactlyOneReply` | src/whatsapp_chat_system/ai/auto_reply_worker.py:206-234 | over every interleaving, crash and restart: a reply row exists if and only if the job is completed, there is at most one, the platform gives at most one id for it, only through its own account, and a completed row carries exactly that id |
| `PipelineProperties.OneReplyPerInbound` | src/whatsapp_chat_system/ai/auto_reply.py:34-61 | in every such run the jobs that carry the account and key of one inbound message and mode have at most one reply row among them, and the ids known for them to any bridges are one id of one bridge |
| `PipelineProperties.RedeliveryAnswersAtOnce` | src/whatsapp_chat_system/outbox.py:176-186 | a row delivered again after a lost reply gets the id of the first send at once, and nothing is sent |
| `PipelineProperties.ReceiveCompletesIff` | src/whatsapp_chat_system/outbox.py:210-239 | receiving an id completes an unfinished row with it if and only if the row is still owned and no other message of the account has the id |
| `PipelineProperties.RetryCompletesIff` | src/whatsapp_chat_system/outbox.py:176-239 | whatever happens between redelivery and reply, the row is completed with the id of the first send if and only if it is still owned and the id still free |
| `PipelineProperties.TakenNeverCompletes` | src/whatsapp_chat_system/outbox.py:227 | once another message has taken the id the row is never completed, by anybody, over any run in which the bridge does not forget the key |
| `PipelineProperties.FailureAfterStartIsLost` | src/whatsapp_chat_system/ai/auto_reply_worker.py:244-251 | a failure reported after start, with the version of the claim, is refused for ever |
| `PipelineReplies.SendsTheAnswer` | src/whatsapp_chat_system/ai/auto_reply_worker.py:190-234 | over every interleaving and crash, what a dispatcher sends for a job goes to the chat of the job's conversation, under the key of the job, and is a text that the provider answered to a worker that had started this job and then queued it |
| `PipelineReplies.AnswerGoesOutIff` | src/whatsapp_chat_system/ai/auto_reply_worker.py:206-234 | an answered worker's reply is committed if and only if it still holds the job in the version of its start, the lease has not run out, the parent is open and the counts add up |
| `PipelineReplies.UndisturbedJobIsAnswered` | src/whatsapp_chat_system/ai/auto_reply_worker.py:109-234 | from every reachable state, a job with sound counts that is claimed, started and answered while its lease lasts, with nothing in between, is completed with exactly that text in exactly its conversation |
| `PipelineRuns.EchoedIsNeverCompleted` | src/whatsapp_chat_system/outbox.py:210-239 | a run of six steps from an empty outbox after which the row is leased and its message sent once, but another message has the id; over whatever follows the row is not completed while the bridge knows the key |
| `PipelineRuns.FailedJobKeepsRunning` | src/whatsapp_chat_system/ai/auto_reply_worker.py:244-251 | a run of five steps from the empty table after which the worker has reported its failure and the job is still running, and after any further operations the report is refused again |
| `AutoReplyWorkerModule.AutoReplyWorker.RecoverIfDue` | src/whatsapp_chat_system/ai/auto_reply_worker.py:96-107 | recovers once per half minute and counts what it recovered |
| `AutoReplyWorkerModule.AutoReplyWorker.ReplyTogether` | src/whatsapp_chat_system/ai/auto_reply_worker.py:206-234 | commits outbox row and completion if and only if both succeed, and otherwise restores both tables; a new row says the text in the conversation and is due from now on |
| `AutoReplyWorkerModule.AutoReplyWorker.Process` | src/whatsapp_chat_system/ai/auto_reply_worker.py:109-234 | the provider's text is committed as the reply in the job's conversation if and only if the start goes through, the policy permits, the text is not empty, nobody has answered and the lease holds; the job is cancelled if and only if it was started and policy or human answer stand against it; otherwise an exception leaves the outbox alone and exactly the start committed |
| `AutoReplyWorkerModule.AutoReplyWorker.Attempt` | src/whatsapp_chat_system/ai/auto_reply_worker.py:81-94 | the outcome is that of processing, with the same conditions; a processed job ends completed with a reply that says the provider's text, or cancelled; a failed one ends running if and only if its start had gone through |
| `AutoReplyWorkerModule.AutoReplyWorker.RunOnce` | src/whatsapp_chat_system/ai/auto_reply_worker.py:70-94 | works if and only if a job could be claimed on the recovered table, claims the best one below the cap for its lease, counts it once, and leaves it, text of the reply included, as the attempt does |
| `SpoolProperties.RecoverIsSafe` | bridge/src/events/file-spool.js:246-266 | recovering the listed inflight files is safe at every intermediate file operation and empties inflight |
| `SpoolProperties.RecoverMovesAll` | bridge/src/events/file-spool.js:246-266 | after recovery pending holds what pending and inflight held |
| `SpoolProperties.StepKeepsInv` | bridge/src/events/file-spool.js:103-266 | every file operation, call and crash keeps the spool invariant |
| `SpoolProperties.SpoolConserves` | bridge/src/events/file-spool.js:133-266 | for a crash at any point, every appended event not acknowledged by a 200 is in exactly one of pending, inflight and dead with its content, no key is in two, and issued sequence numbers strictly increase |
| `SpoolProperties.DeliveryInOrder` | bridge/src/events/file-spool.js:158-197 | across retries, backoff and crashes first outcomes come in strictly increasing sequence, if no append comes behind a decision |
| `SpoolProperties.InSequenceDelivery` | bridge/src/events/file-spool.js:158-197 | appends in increasing sequence are decided in increasing sequence |
| `SpoolOrder.AppendStaysOrderedIff` | bridge/src/events/file-spool.js:158-197 | an append keeps delivery in order in every continuation without later late appends if and only if its event is ahead of all that is decided or held and shares no sequence with a waiting one |
| `SpoolOrder.LateAppendBreaksOrder` | bridge/src/account-session.js:486-498 | a run from the empty spool in which two emitters take numbers 1 and 2 and deliver 2 before 1 |
| `SpoolLaws.AppendAnswers` | bridge/src/events/file-spool.js:133-156 | an event is appended if and only if its key is in none of the three directories, is already there if and only if its file holds the same event, and conflicts otherwise |
| `SpoolLaws.AppendedIsOffered` | bridge/src/events/file-spool.js:133-156 | after its two file operations a new event is pending at once, last in the order, without attempts; nothing else has changed |
| `SpoolLaws.ClaimTakesTheFirst` | bridge/src/events/file-spool.js:158-197 | the event taken has the least sequence, then the earliest place in the order, of all that are pending, and is available |
| `SpoolLaws.ClaimsIff` | bridge/src/events/file-spool.js:158-197 | an idle sink takes an event if and only if the first one is available |
| `SpoolLaws.RetainedIsOfferedAgain` | bridge/src/events/file-spool.js:208-225 | a released event is pending with the same content and one attempt more, and available exactly from the end of its delay on |
| `SpoolLaws.RefusedIsDead` | bridge/src/events/file-spool.js:227-244 | a refused event is in dead with its content, one attempt more, the reason and the date, and nowhere else |
| `SpoolLaws.CrashBringsBack` | bridge/src/events/file-spool.js:246-266 | a crash in the middle of a release brings the event back to pending, as it was or with the failure noted |
| `FileSpoolModule.FileSpool.Initialize` | bridge/src/events/file-spool.js:103-115 | moves every inflight file back to pending |
| `FileSpoolModule.FileSpool.NextSequence` | bridge/src/events/file-spool.js:117-131 | returns a number above every earlier one |
| `FileSpoolModule.FileSpool.Append` | bridge/src/events/file-spool.js:133-156 | adds the event once; a known key answers with its place or a conflict |
| `FileSpoolModule.FileSpool.ClaimNext` | bridge/src/events/file-spool.js:158-197 | claims the least record by (sequence, enqueue order, key), and nothing while that one waits |
| `FileSpoolModule.FileSpool.Release` | bridge/src/events/file-spool.js:208-225 | back to pending with one more attempt, unavailable before the delay is over |
| `FileSpoolModule.FileSpool.DeadLetter` | bridge/src/events/file-spool.js:227-244 | out of inflight into dead with its content |
| `FileSpoolModule.EventSink.FlushOne` | bridge/src/events/event-sink.js:87-127 | the least event, once available, is removed by an accepted 200, ends in dead if and only if the answer is 409 or 422, and otherwise goes back behind its backoff with one more attempt; no other event is touched |
| `Delivery.NothingIsLost` | bridge/src/events/event-sink.js:87-127 | from end to end, through crashes, lost replies and refusals: every event whose append became durable is in exactly one directory with its content or on the record of the server |
| `Delivery.EarlyReceiptIsRefused` | src/whatsapp_chat_system/events/whatsapp.py:353-358 | while no message carries its platform id a new receipt is refused and changes nothing |
| `Delivery.BuriedIff` | bridge/src/events/event-sink.js:87-127 | whatever the held event carries, after its post and two file operations it is in dead if and only if the answer was heard and it is a receipt too early for its message or reuses an accepted identity for other contents, and then the server is as before |
| `Delivery.DeliveredIff` | bridge/src/events/event-sink.js:87-127 | after its post and two file operations the held event is in no directory if and only if the server took it and that was heard, and then it is on the record of the server |
| `Delivery.KeptIsOfferedAgain` | bridge/src/events/event-sink.js:87-127 | a held event that the server neither took nor refused for good, or whose answer was not heard, is pending again with one attempt more, exactly from the end of the delay on |
| `Delivery.EarlyReceiptIsLost` | bridge/src/events/event-sink.js:119-122 | a run from the empty spool on a server that has no message for the receipt: appended, claimed and posted, the receipt is in dead for ever after, whatever follows |
| `Delivery.BuriedForGood` | bridge/src/events/file-spool.js:227-244 | a buried event stays in dead over every run, so it is never posted again |
| `EventProperties.DeliverRecords` | src/whatsapp_chat_system/events/whatsapp.py:156-209 | an attempt accepted as new records exactly its envelope; any other answer changes nothing |
| `EventProperties.EffectivelyOnce` | src/whatsapp_chat_system/events/whatsapp.py:156-209 | for any trace with duplicates, reorderings, refusals and aborted attempts the server equals the fold over the envelopes first accepted |
| `EventProperties.FirstsAreNew` | src/whatsapp_chat_system/events/whatsapp.py:158-165 | first acceptances have distinct identities that were not recorded before, and recorded envelopes stay |
| `EventProperties.RedeliveryIsDuplicate` | src/whatsapp_chat_system/events/whatsapp.py:158-165 | an accepted envelope delivered again, after any traffic, is a duplicate and changes nothing |
| `EventProperties.ConflictIsRefused` | src/whatsapp_chat_system/events/whatsapp.py:158-165 | the same identity with other contents is refused and changes nothing |
| `EventRaces.StageAgrees` | src/whatsapp_chat_system/events/whatsapp.py:250-324 | a session that decides between insert and update by the contacts, conversations and messages it has seen writes what a fresh one writes, unless an insert meets a row committed since |
| `EventRaces.RunGrows` | src/whatsapp_chat_system/events/whatsapp.py:156-209 | over any run accounts, events, contacts, conversations, named messages and keyed jobs are never lost or renamed |
| `EventRaces.LostRaceIsHarmlessIff` | src/whatsapp_chat_system/api/internal/whatsapp_events.py:60-89 | with the event, contact, conversation, message and job tables each read at any earlier moment of the run, an inserting race that is lost and processed again answers and acts as processing the committed state does, if and only if the session refused neither a receipt whose message it had not seen nor a reply whose job it had not seen while the queue was full |
| `EventRaces.StaleReceiptIsRefused` | src/whatsapp_chat_system/events/whatsapp.py:353-358 | a run in which a session that has not seen the message just stored refuses its receipt for good, where a new session accepts it |
| `EventRaces.StaleReplyIsRefused` | src/whatsapp_chat_system/ai/job_repository.py:216-243 | a run in which a second upsert of a message is refused by backpressure, where a new session finds the job already queued |
| `EventProperties.FoldSettles` | src/whatsapp_chat_system/events/whatsapp.py:350-379 | over any events the status of a stored message moves only by its own receipts |
| `EventProperties.SettledIsJoin` | src/whatsapp_chat_system/events/whatsapp.py:350-379 | the final status is the join of the first status and all receipts in base < failed < sent < delivered < read |
| `EventProperties.ReceiptConfluence` | src/whatsapp_chat_system/events/whatsapp.py:350-379 | so it depends neither on the order nor on the repetition of receipts |
| `EventProperties.TracesSettleAlike` | src/whatsapp_chat_system/events/whatsapp.py:350-379 | the same for whole delivery traces with any other traffic in between |
| `EventProperties.LatestWins` | src/whatsapp_chat_system/events/whatsapp.py:326-348 | account status and sequence after any events are those of the greatest sequence, and the sequence never goes down |
| `EventProperties.TracesAgreeOnStatus` | src/whatsapp_chat_system/events/whatsapp.py:326-348 | two traces accepting the same account events with distinct sequences agree on status and sequence |
| `EventProperties.UpsertKeeps` | src/whatsapp_chat_system/events/whatsapp.py:250-324 | storing a message keeps platform ids unique and every existing status |
| `EventProperties.OneReplyJobPerMessage` | src/whatsapp_chat_system/ai/auto_reply.py:34-61 | however often a message is delivered, it has at most one auto-reply job per account and mode |
| `Messages.MergeIsJoin` | src/whatsapp_chat_system/events/whatsapp.py:350-379 | one receipt moves the status to the join and keeps the identity of the message |
| `EventLaws.StoresTheItem` | src/whatsapp_chat_system/events/whatsapp.py:250-324 | after an upsert exactly one message has the item's platform id in the account; it says the item's text, time, kind and direction in the conversation of its chat, with the first status if new, and every other message is as before |
| `EventLaws.AcceptedMessageIsStored` | src/whatsapp_chat_system/events/whatsapp.py:156-209 | an accepted new message.upsert ends with its message stored in this way |
| `EventLaws.LastItemIsTold` | src/whatsapp_chat_system/events/whatsapp.py:250-324 | over any trace, with duplicates, refusals and aborted attempts, a stored message says what the last accepted upsert or history item with its platform id said, or what it said before if there was none |
| `EventLaws.ConversationFollows` | src/whatsapp_chat_system/events/whatsapp.py:270-324 | contact and conversation of the chat follow the item: name and title, unread count of new live inbound messages, and the preview and time of the latest message; other conversations are as before |
| `EventLaws.RepliesWhenAsked` | src/whatsapp_chat_system/ai/auto_reply.py:34-61 | an accepted upsert has its reply queued when the message is inbound, not a system message, and account, conversation and contact ask for one, and leaves the queue as it was otherwise |
| `EventLaws.ReplyIsForTheMessage` | src/whatsapp_chat_system/ai/auto_reply.py:49-61 | that job is for this account, contact, conversation and message content, with priority 10 and no parent, and a new one is ready at once and has six attempts |
| `EventLaws.ReceiptDates` | src/whatsapp_chat_system/events/whatsapp.py:350-379 | a receipt that is not outranked dates its own stage and no other, and a failure notes its error |
| `EventLaws.AccountFollows` | src/whatsapp_chat_system/events/whatsapp.py:326-348 | an account event that is not stale sets the status it stands for and its sequence, and nothing else |
| `EventServiceModule.WhatsAppEventService.StoreMessage` | src/whatsapp_chat_system/events/whatsapp.py:250-324 | the one message with the item's id says the item's text, time, kind and direction in the conversation of its chat, contact, conversation and preview follow it, other messages stay, and the server invariant is kept |
| `EventServiceModule.WhatsAppEventService.StoreHistory` | src/whatsapp_chat_system/events/whatsapp.py:197-201 | the items of a history batch one after the other |
| `EventServiceModule.WhatsAppEventService.EnqueueForInbound` | src/whatsapp_chat_system/ai/auto_reply.py:34-61 | decides on the policy and enqueues the job, or reports why the queue refused it |
| `EventServiceModule.WhatsAppEventService.StoreReceipt` | src/whatsapp_chat_system/events/whatsapp.py:350-379 | merges the receipt into the named message or reports that there is none |
| `EventServiceModule.WhatsAppEventService.StoreAccountChange` | src/whatsapp_chat_system/events/whatsapp.py:326-348 | a stale sequence changes nothing, a newer one sets status and sequence, and no other account is touched |
| `EventServiceModule.WhatsAppEventService.Handle` | src/whatsapp_chat_system/events/whatsapp.py:156-209 | the answer of `process` and, when accepted, its state, in which a new upsert has its message stored as delivered |
| `EventServiceModule.WhatsAppEventService.Receive` | src/whatsapp_chat_system/api/internal/whatsapp_events.py:60-74 | commits what was handled or rolls every table back |
| `ProfileProperties.UpsertMoves` | src/whatsapp_chat_system/ai/profile_repository.py:91-134 | a proposal either changes nothing or adds exactly the next version of its key and one revision |
| `ProfileProperties.TransitionMoves` | src/whatsapp_chat_system/ai/profile_repository.py:167-203 | a transition succeeds only on the last version of its key, which it supersedes by exactly one successor |
| `ProfileProperties.RebuildMoves` | src/whatsapp_chat_system/ai/profile_repository.py:205-252 | a rebuild publishes the version after the last as the only current snapshot |
| `ProfileProperties.RunKeepsSound` | src/whatsapp_chat_system/ai/profile_repository.py:91-252 | in every state of every history claim versions of each key are exactly 1..n, snapshot versions are 1..n with only the n-th current |
| `ProfileProperties.SuccessorsFreeze` | src/whatsapp_chat_system/ai/profile_repository.py:167-203 | over any run rows are only added and only ever superseded, and a row with a successor never changes |
| `ProfileProperties.RunKeepsTrust` | src/whatsapp_chat_system/ai/profile_repository.py:205-252 | with reads and commits of any operations interleaved, a current snapshot whose source revision is the revision of the contact equals the selection over the present claims at its build time |
| `ProfileProperties.RunKeepsGrounded` | src/whatsapp_chat_system/ai/profile_repository.py:205-252 | over every run in which no settings edit lowers the revision, each published snapshot is the selection over the claims of a committed state of its revision |
| `ProfileProperties.SnapshotCoherence` | src/whatsapp_chat_system/ai/profile_repository.py:205-252 | the same from an empty profile, for every run in which no settings edit lowers the revision |
| `ProfileProperties.EditKeepsMonoIff` | src/whatsapp_chat_system/api/v1/settings.py:384 | revisions go on rising, and never stand for two claim tables, if and only if the edit does not write a lower one back |
| `ProfileProperties.EditKeepsCoherenceIff` | src/whatsapp_chat_system/api/v1/settings.py:384 | after any run in which no settings edit lowered the revision, an edit leaves the cache coherent if and only if it does not lower the revision, or lowers it to one since which the claims have not changed what the current snapshot selects |
| `ProfileProperties.LateEditBreaksCoherence` | src/whatsapp_chat_system/api/v1/settings.py:384 | a run of four steps in which a late settings edit makes an outdated snapshot look current |
| `ProfileProperties.StepKeepsCountIff` | src/whatsapp_chat_system/ai/profile_repository.py:49-56 | the revision goes on counting claims and edits if and only if no edit overwrites a revision it did not read |
| `ProfileProperties.RevisionCountsClaims` | src/whatsapp_chat_system/ai/profile_repository.py:49-56 | without settings edits the revision is the number of claim rows |
| `ProfileProperties.WorkersLeaveLocks` | src/whatsapp_chat_system/ai/profile_repository.py:180-181 | no step of a worker changes which locked claims are selectable |
| `ProfileProperties.LockedSelectionStands` | src/whatsapp_chat_system/ai/profile_repository.py:218-225 | over any run of worker steps the claim selected for a key with an accepted, valid, unrestricted, locked claim stays the same row |
| `ProfileProperties.UpsertIsIdempotent` | src/whatsapp_chat_system/ai/profile_repository.py:96-107 | once a row with this value and analyzer is visible, proposing it again changes nothing |
| `ProfileProperties.SnapshotsStay` | src/whatsapp_chat_system/ai/profile_repository.py:226-250 | published snapshots are never rewritten or removed, they only cease to be current |
| `ProfileProperties.OneRebuildWins` | src/whatsapp_chat_system/ai/profile_repository.py:205-252 | of all rebuilds that expect the same current version, whenever they read, one succeeds |
| `ProfileLaws.SnapshotsShowWhatTheyMay` | src/whatsapp_chat_system/ai/profile_repository.py:217-252 | in every run every key of every snapshot stands for a claim row that was accepted when read, is not restricted and was valid at the build, with the value published; and every key with such a row is present |
| `ProfileLaws.RebuildShows` | src/whatsapp_chat_system/ai/profile_repository.py:217-252 | a rebuild publishes exactly the keys with an accepted, unrestricted, valid claim, each with the value of such a row, a locked one if there is one and otherwise the last |
| `ProfileLaws.RebuildsIff` | src/whatsapp_chat_system/ai/profile_repository.py:205-252 | with nothing interleaved a rebuild goes through if and only if the current snapshot and, if named, the revision are the ones its caller expects |
| `ProfileLaws.RebuildsTheExpected` | src/whatsapp_chat_system/ai/profile_repository.py:205-252 | however late it commits, it replaces the snapshot its caller expects and is of the revision that its caller expects and that still stands |
| `ProfileLaws.ProposalWaits` | src/whatsapp_chat_system/ai/profile_repository.py:91-134 | a proposal adds at most one row, proposed, unlocked and without validity, with the value, source, sensitivity and analyzer it was given |
| `ProfileLaws.ProposalIsNotPublished` | src/whatsapp_chat_system/ai/profile_repository.py:91-134 | no proposal changes which claims a rebuild can publish |
| `ProfileLaws.ProposalIsReused` | src/whatsapp_chat_system/ai/profile_repository.py:96-107 | a value the analyzer has proposed, or that is accepted or locked, is answered with its last such row and nothing is written |
| `ProfileLaws.ProposalAnswersItsValue` | src/whatsapp_chat_system/ai/profile_repository.py:122-133 | whoever wins a race for the version, the row answered has the key and the value that were proposed |
| `ProfileLaws.DecisionSucceeds` | src/whatsapp_chat_system/ai/profile_repository.py:167-203 | a decision adds the next version, which carries over what it does not decide, sensitivity, validity and analyzer always, and marks the old row superseded; a worker never decides on a locked claim |
| `ProfileLaws.DecidesIff` | src/whatsapp_chat_system/ai/profile_repository.py:167-203 | with nothing interleaved a decision goes through if and only if it names the last version of its key, which is not superseded, no worker meets a lock and the revision was current |
| `ProfileRepositoryModule.BestPrecedes` | src/whatsapp_chat_system/ai/profile_repository.py:219-223 | the selected claim comes before every other eligible one of its key: locked first, then the highest version |
| `ProfileRepositoryModule.FirstRowsAreSelection` | src/whatsapp_chat_system/ai/profile_repository.py:224-225 | keeping the first row of each key of the ordered query is the selection |
| `ProfileRepositoryModule.ProfileRepository.UpsertProposedClaim` | src/whatsapp_chat_system/ai/profile_repository.py:91-134 | answer and table of the commit, with the conflict and winner paths |
| `ProfileRepositoryModule.ProfileRepository.TransitionClaim` | src/whatsapp_chat_system/ai/profile_repository.py:167-203 | answer and table of the commit, with nothing changed on a conflict |
| `ProfileRepositoryModule.ProfileRepository.Select` | src/whatsapp_chat_system/ai/profile_repository.py:218-228 | the setdefault loop computes the selection and its values |
| `ProfileRepositoryModule.ProfileRepository.RebuildSnapshot` | src/whatsapp_chat_system/ai/profile_repository.py:205-252 | answer and table of the commit; the snapshot shows exactly the keys with an accepted, unrestricted, valid claim, with their values |
| `SessionProperties.RunKeepsInv` | bridge/src/account-session.js:182-305 | in every reachable state without autoReconnect there is no socket, reconnect timer or connect promise |
| `SessionProperties.StaysDisconnected` | bridge/src/account-session.js:368-389 | from there nothing but an explicit connect brings a socket, timer or promise back |
| `SessionProperties.StoppedStaysDown` | bridge/src/account-session.js:530-563 | after stop or logout no socket becomes current until an explicit connect |
| `SessionProperties.SupersededIsSilent` | bridge/src/account-session.js:307-330 | in every run of updates that carry a code or a connection change but not both, no segment of a superseded callback changes the session |
| `SessionProperties.SilentIffSingleKind` | bridge/src/account-session.js:307-366 | for an update, no segment of its superseded callbacks ever changes the session, in any run from a new session, if and only if it does not carry both a code and a connection change |
| `SessionProperties.SupersededCallIsSilentIff` | bridge/src/account-session.js:283-305 | a segment of a superseded connect call leaves the session alone if and only if it neither notices an expired code nor, its error reported, finds a session without a timer that wants to reconnect |
| `SessionProperties.LateErrorSupersedes` | bridge/src/account-session.js:283-305 | a run from a new session in which the error report of a first call, done after stop and a new connect, sets a timer that supersedes the new connection |
| `SessionProperties.SendUsesTheLiveSocket` | bridge/src/account-session.js:589-592 | with such updates an online session with a socket has the socket of its present generation |
| `SessionProperties.LogoutWindow` | bridge/src/account-session.js:546-563 | for the whole time logout waits for its socket an online session is online in name, idle, and unable to send or reconnect |
| `SessionProperties.LogoutTearsIff` | bridge/src/account-session.js:546-563 | a waiting logout can land on a session with a current socket, without another connect call, if and only if there is a socket or a connect is still on its way |
| `SessionProperties.ConnectDuringLogout` | bridge/src/account-session.js:546-563 | a run from a new session that ends logged out with a current socket |
| `SessionLaws.NeverGivesUp` | bridge/src/account-session.js:283-389 | from a new session on, in every run of single-kind updates, a session that wants to be connected has a socket, a connect under way or a timer, unless it is logged out |
| `SessionLaws.TimerTriesAgain` | bridge/src/account-session.js:380-388 | a timer that fires on such an idle session starts the next connect |
| `SessionLaws.AttemptsAreCounted` | bridge/src/account-session.js:368-370 | with single-kind updates the attempt count goes up by one with each new timer, and is zero after a fresh connect, an open connection, a stop or a logout |
| `SessionLaws.ConnectStarts` | bridge/src/account-session.js:182-200 | a connect by the user starts the next generation from scratch unless one is there or under way |
| `SessionLaws.OpenIsOnline` | bridge/src/account-session.js:338-346 | an open connection is online with the socket of its generation; code, timers and attempts are gone |
| `SessionLaws.CloseIsOffline` | bridge/src/account-session.js:347-365 | a closed one is offline and has a timer if it wants to reconnect, or is logged out for good |
| `SessionLaws.CodeIsShown` | bridge/src/account-session.js:310-331 | a code drawn for the present generation is shown until it expires, and one for an older generation never is |
| `SessionLaws.ExpiredCodeIsGone` | bridge/src/account-session.js:182-200 | looking at the session takes an expired code away, and the pending state with it, and nothing else |
| `SessionLaws.CodeTimerExpires` | bridge/src/account-session.js:397-420 | so does its timer, for the generation it was set for |
| `SessionLaws.FailureIsShown` | bridge/src/account-session.js:283-302 | a failed call of the present generation shows its error without a socket, and once that is reported there is a timer |
| `SessionLaws.StopIsOffline` | bridge/src/account-session.js:530-563 | a stopped session is offline, and one logged out says so at once or when its socket has answered |
| `AccountSessionModule.AccountSession.Connect` | bridge/src/account-session.js:182-200 | the segment of connect before its first await: joins, returns, or starts the next generation |
| `AccountSessionModule.AccountSession.SocketReady` | bridge/src/account-session.js:215-219 | only the present generation makes its socket current |
| `AccountSessionModule.AccountSession.ApplyConnection` | bridge/src/account-session.js:332-365 | a close drops socket and promise and raises the generation, a remote logout leaves the session idle, and calm sessions stay calm |
| `AccountSessionModule.AccountSession.ReconnectTimerFires` | bridge/src/account-session.js:380-388 | reconnects only while autoReconnect holds |
| `AccountSessionModule.AccountSession.Stop` | bridge/src/account-session.js:530-544 | leaves the session idle without autoReconnect in a higher generation |
| `AccountSessionModule.AccountSession.Logout` | bridge/src/account-session.js:546-557 | leaves the session idle without autoReconnect in a higher generation, keeping the old state while it waits for the socket |
| `AccountSessionModule.AccountSession.Send` | bridge/src/account-session.js:573-592 | answers from the store, joins the operation in flight, or starts one |
| `AccountSessionModule.AccountSession.SendSettles` | bridge/src/account-session.js:593-602 | a returned id is found under its key before anything else is awaited, and only memory is changed |
| `AccountSessionModule.AccountSession.ForgetOperation` | bridge/src/account-session.js:582-586 | the key no longer names this operation, and entries of other operations stay |

## Left out

- ClaimNext: the retry around a lost compare-and-set is not modelled, because selection and write are one transaction here; PostgreSQL races between counting active jobs and claiming are outside the cap property.
- ExactlyOneReply: the counts of ids hold while the bridge has not forgotten the key, that is, trimmed it, or died before the id was flushed or while the platform had not answered; only the auto-reply worker completes jobs and writes its outbox keys, which is so in the repository.
- SendsTheAnswer: stated for what the dispatcher asks the bridge to send, because the operations of the bridge carry keys and not texts.
- NeverGivesUp: for updates that do not carry both a code and a connection change, and with no timer firing between the catch and the finally block of the present connect, which run at once; delays are not modelled.
- ReplyIsForTheMessage: the clock of the reply job is the `occurred_at` of the envelope.
- SentAtMostOnce: stated for keys the bridge has not forgotten, and for receipt files that fit the bound.
- LostRaceIsHarmlessIff: the session sees too early which rows exist, not what they hold: the values of an existing row are those at its commit, so updates of one row that overwrite each other are not modelled; the session of the second attempt does not race.
- ReceiptConfluence: status only; timestamps and error text depend on the order of receipts.
- TracesAgreeOnStatus: status and sequence only; the error fields and the phone number are those of the last matching event.
- SpoolConserves: one sink per account, and recovery runs only when no flush is under way; directory syncs, torn or unreadable files and full disks are not modelled.
- DeliveryInOrder: an outcome may repeat its own event after a crash between acknowledgement and removal.
- SnapshotCoherence: for runs in which no settings edit lowers the revision; the exact condition for one edit is EditKeepsCoherenceIff.
- SendUsesTheLiveSocket: for updates that do not carry both a code and a connection change.
- LogoutTearsIff: for such updates as well.
- UpsertIsIdempotent: a lost insert race may answer with a row of another analyzer, after which a repeated proposal adds a row.
- Contact and chat synchronisation events, the fallback names of conversations, media, sender and quote columns.
- Races between two ORM sessions that read, compute and write the same conversation, contact or account row: those transactions are atomic here.
- A `message.upsert` whose job enqueue fails is aborted as a whole, as in the code; the other endpoints that write messages appear only as the rewrites the outbox allows.
- Claim evidence, conversation scopes of claims, confidence, `source_claim_cursor` and deletion of contacts.
- Validation of text lengths, hex digests, UUIDs and URLs; 32-bit limits of version columns; audit and `updated_at` columns.
- The order among keys of the snapshot query, which does not affect the selected rows.
- Reconnect delays and jitter, QR drawing, presence, and the message, contact and history callbacks of a socket: they do not touch the connection fields.
- HTTP, authentication, the AI provider, prompts and language heuristics, the user interface, legacy routers and migrations.
- Progress: a queued grandchild of a cancelled job, or a queued child of a completed one, may stay queued for ever.
