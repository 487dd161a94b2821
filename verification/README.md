# Verified protocols of a voice assistant backend

This project models the durable state machines and the streaming transformers of the assistant
server in Dafny and proves what they keep over every run. It covers:

- **DeviceCredentials** – active and pending generations of a device's long-lived credential,
  predecessor links, the hard overlap deadline and lazy settlement.
- **SummaryJobs**, **SummaryRules**, **SummaryStore**, **SummaryBound** – planning, claiming,
  retrying, deferring, splitting and completing background summaries, recovery generations, the
  coverage pointer, and the rules of the queue in plain terms.
- **TurnLifecycle**, **AnswerLimits** – sequence allocation, streaming answers, idempotent
  resubmission, recovery.
- **ConversationTurns**, **ConversationObject**, **ConversationStreams**, **ConversationHistory**,
  **ConversationReplies** – the conversation object, whose continuations resume in any order after
  each await and are fenced by a revision counter; what streams over its runs, what its history
  tells, and what becomes of the words of a turn.
- **DurableConversation** – that object over the tables of TurnLifecycle: every answer of the store
  is computed, and other writers change the tables between its steps.
- **Sse**, **Resampler** – two streamers that must not depend on how their input is cut.
- **CostLedger** – monthly reservations and settlements under tiered unit prices.
- **EditDistance**, **Recurrence**, **HistoryIndex**, **CalendarLedger**, **CalendarPhrases**,
  **ICalendar**, **ContextBuilder**, **CalendarSlots** – a one-row edit distance, recurrence
  bounding, a trigger-maintained index, the calendar write ledger and what confirms a preview,
  iCalendar text, context budgeting and the free-slot search.

Each protocol is a table (or object) state, a specification function per transaction, and a run
of events. Tables and objects that the source changes in place are classes; every method is
proved to change the state exactly as the specification function says, and the theorems are
about the specification functions and their runs. A failing transaction leaves the state as it
was. Times are integers in milliseconds, ids are fresh numbers, secrets are numbers.

## What the proofs found

- **Device credentials.** The overlap of an old and a new credential is bounded as long as all
  calls ask for one lifetime, which the server does under one configuration (`BoundedOverlap`).
  When lifetimes differ it can fail (`OverlapUnboundedForShorterSuccessor` is a run), and
  `OverlapBoundedIff`, `OverlapEndsAtDeadlineIff` and `AnyLifetimesBoundedIff` say exactly when it
  holds. A rotation never locks its device out; a bare issue does so exactly when another
  generation of the client is pending (`IssueSafeIffAlone`).
- **Conversation.** The continuation that saves an answer clears the `committing` flag before it
  looks at the revision (src/conversation.ts:517-519). If an older saver finishes while a newer
  answer is being saved, an interrupt then files the committed answer a second time as
  interrupted (`OverlapForgesAnInterruption`). Checkpoint and interruption share one attempt
  (src/conversation.ts:267-272), so a partial text of more than 120000 units leaves its row
  streaming and the next turn opens a second one (`OverlongPartialLeavesTwoStreams`);
  `RunsNameTheirStreamIff` and, over the tables, `TablesNameTheirStreamIff` say that nothing else
  does. `FaithfulUnless` and `FlagLostOnlyByOverlap` say exactly when the history can differ from
  the store. A refused durable commit is the third case: the history has been told before the
  store is asked. A pending exit is also left by restoring a history, besides confirming and
  closing (`ExitPendingLeftOnlyBy`).
- **Calendar.** Reconciliation never writes, but one that started while its operation was in
  flight saves a stale copy and can turn a failed row into a succeeded one
  (`StaleCopyRevivesAFailure`); `ReconcileSafeIffIdle` says that this is the only unsafe case.
- **Cost.** When two reservations of one SKU overlap at the edge of the free tier, cancelling the
  first keeps the second one's price charged (`OverlapOvercharges`). Without overlap the charge is
  exact (`SequentialRunsAreExact`).
- **Recurrence.** Years below 100 are remapped by `Date.UTC`, so a request without an end date is
  refused exactly for them (`DefaultBoundSucceedsIff`).
- **Context.** `compact` exceeds its maximum exactly when the text is longer and the maximum is
  18, 19 or 20, because `slice(-0)` returns everything (`CompactFitsIff`). The constructor's
  minimums keep callers away from that range.
- **Summary jobs.** A job is claimed at most 26 times over any run (`ClaimsAreBounded`), and 26 is
  reached (`BoundIsReached`).

## Model

| member | source | states |
|---|---|---|
| DeviceCredentials.RunKeepsInv | src/conversation-store.ts:1286-1411 | After any calls at non-decreasing times, each with a lifetime of its own, a client has at most one unrevoked active generation, and every unrevoked pending one points to it (or to nothing when there is none) |
| DeviceCredentials.RunKeepsPaced | src/conversation-store.ts:1286-1411 | When all calls ask for one lifetime, no row outlives the latest call's lifetime and an unrevoked pending row never expires before the active one it replaces |
| DeviceCredentials.AcceptsIsRotate | src/conversation-store.ts:1309-1341 | Whether a presented credential is accepted does not depend on the new secret or on the lifetime and deadline that are asked for |
| DeviceCredentials.ActiveAcceptedIff | src/conversation-store.ts:1319-1341 | An active credential is refused for exactly three reasons: wrong holder, its own expiry, or a pending generation of its client whose deadline has come |
| DeviceCredentials.HardDeadlineNeverLater | src/conversation-store.ts:1329-1337 | Replaying a rotation can only move the deadline of the running overlap earlier |
| DeviceCredentials.BoundedOverlap | src/conversation-store.ts:1286-1406 | When all calls ask for one lifetime: once an active credential has a live successor with deadline D, no run of any calls by anyone lets it authenticate at or after D |
| DeviceCredentials.OverlapBoundedIff | src/conversation-store.ts:1286-1406 | For lifetimes chosen call by call: over all runs whose calls before the limit create nothing that expires before the active credential does, it is refused from the limit on if and only if the present table has a due generation of its client at every instant until it expires |
| DeviceCredentials.OverlapEndsAtDeadlineIff | src/conversation-store.ts:1286-1406 | With a single pending successor that is so for its deadline D exactly when the active credential expires no later than D, the present time, or the successor |
| DeviceCredentials.AnyLifetimesBoundedIff | src/conversation-store.ts:1286-1406 | Over all runs with any lifetimes whatever, the overlap is bounded by a time exactly when the active credential has expired by then or is already refused at every instant from now on |
| DeviceCredentials.RunKeepsCovered | src/conversation-store.ts:1286-1406 | No rotation replay, issue, acknowledgement, revocation or settlement opens a gap in the times at which settlement would revoke the predecessor |
| DeviceCredentials.OverlapUnboundedForShorterSuccessor | src/conversation-store.ts:1286-1406 | A run from the empty table in which the bound fails: the successor of a long-lived credential is asked for with a short lifetime, lapses, and the predecessor is accepted after the deadline |
| DeviceCredentials.RotationNeverLocksOut | src/conversation-store.ts:1309-1406 | A credential returned by a rotation authenticates at every later time before its expiry, acknowledged or not, until the next issue, rotation or revocation for that client |
| DeviceCredentials.AckElsewhereLocksOut | src/conversation-store.ts:1353-1369 | After a bare issue beside another pending generation, acknowledging the other one makes the issued credential unusable |
| DeviceCredentials.IssueSafeIffAlone | src/conversation-store.ts:1286-1307 | A bare issue keeps the no-lockout promise in all runs if and only if no other generation of the client was pending |
| DeviceCredentials.RevocationIsFinal | src/conversation-store.ts:1371-1376 | Over every run after a revocation no credential the client held before is accepted at any time with any secret |
| DeviceCredentials.RotationRetiresTheRest | src/conversation-store.ts:1337-1347 | After a rotation every generation of the client other than the presented one and the returned one is refused for ever |
| DeviceCredentials.AcknowledgementRetiresTheRest | src/conversation-store.ts:1353-1369 | After a pending generation is acknowledged every other generation the client held is refused for ever |
| DeviceCredentials.IssueSucceedsIff | src/conversation-store.ts:1286-1307 | An issue succeeds exactly for a registered client with a lifetime of at most 366 days and a window of at most ten minutes inside it, with the limits written out |
| DeviceCredentials.RotationSucceedsIff | src/conversation-store.ts:1309-1351 | A rotation succeeds exactly when the presented credential is accepted and the times are allowed; the grant is for the new row, with a deadline no later than the one asked for |
| DeviceCredentials.AckSucceedsIff | src/conversation-store.ts:1353-1369 | An acknowledgement succeeds exactly for a generation of the client that is unrevoked and unexpired and, when any of the client's is due, is the newest of the due ones |
| DeviceCredentials.LifetimeEnds | src/conversation-store.ts:1286-1411 | In no run is a credential accepted at or after the expiry it was issued with |
| DeviceCredentials.SettlementKeepsNewest | src/conversation-store.ts:1387-1406 | Of several due generations of a client the one created last, and of equal times the greater id, is accepted, and every other credential of the client is refused |
| DeviceCredentials.NewestIssueWins | src/conversation-store.ts:1286-1406 | A generation issued after all others of its client is the one accepted once its deadline has come, and the others are refused |
| DeviceCredentials.PredecessorLastsToDeadline | src/conversation-store.ts:1309-1406 | After a rotation the active credential that was presented goes on being accepted at every time before the granted deadline and its own expiry, over every run in which the client calls nothing |
| DeviceCredentials.PredecessorEndsAtDeadline | src/conversation-store.ts:1309-1406 | From the requested deadline on it is refused, over every run whose calls before that create nothing that expires before it does |
| DeviceCredentials.SweptIsSettled | src/conversation-store.ts:1387-1411 | Promoting the newest due generation of each client one after the other and then revoking what expired gives the settled table defined row by row, whatever the order of the clients |
| DeviceCredentials.CredentialStore.RegisterClient | src/conversation-store.ts:1214-1222 | Adds a client and changes no credential |
| DeviceCredentials.CredentialStore.Promote | src/conversation-store.ts:1378-1385 | Promotion activates exactly the named row and revokes every other unrevoked row of its client; it fails, changing nothing, unless the row is an unrevoked and unexpired one of that client |
| DeviceCredentials.CredentialStore.PromoteWinners | src/conversation-store.ts:1387-1406 | The loop over clients with due generations promotes exactly the winners of the specification |
| DeviceCredentials.CredentialStore.Settle | src/conversation-store.ts:1387-1411 | Settlement by loops leaves exactly the table of the specification |
| DeviceCredentials.CredentialStore.Issue | src/conversation-store.ts:1286-1307 | A new pending generation behind the newest active one, or an error with nothing changed |
| DeviceCredentials.CredentialStore.EarliestDeadline | src/conversation-store.ts:1329-1336 | The least of the requested deadline and those of the live successors |
| DeviceCredentials.CredentialStore.Rotate | src/conversation-store.ts:1309-1351 | A rotation settles, checks the presented row, replaces its successors by one new row under the hard deadline, or fails with the table unchanged |
| DeviceCredentials.CredentialStore.Acknowledge | src/conversation-store.ts:1353-1369 | An acknowledgement promotes a pending row in time, accepts an active one that was persisted, and otherwise fails with the table unchanged |
| DeviceCredentials.CredentialStore.Revoke | src/conversation-store.ts:1371-1376 | Every row of the client carries a revocation time afterwards, an earlier one being kept, rows of other clients are untouched, and the count is the number of rows that were not revoked before |
| SummaryJobs.RunKeepsInv | src/conversation-store.ts:1714-1994 | In every run, crashes included: one running job in the store, one blocking job per session, unique range keys, generations at most two, pointers that only grow and never pass the latest message, disjoint completed ranges below the pointer with holes only below the forget floor; completed jobs and finished ranges are never changed |
| SummaryJobs.ClaimsAreBounded | src/conversation-store.ts:1882-1994 | A job is claimed at most (3 - attempts) + (23 - deferrals) more times, so at most 26 times in any run of claims, failures, deferrals, shutdowns and crashes |
| SummaryBound.BoundIsReached | src/conversation-store.ts:1882-1994 | A run from the empty store does claim one job 26 times |
| SummaryJobs.StepSpendsAllowance | src/conversation-store.ts:1926-1994 | No event gives a job claims back, and every claim of it uses one up |
| SummaryJobs.BegunSpendsAllowance | src/conversation-store.ts:1912-1927 | Only a job with claims left is eligible, and starting it uses exactly one |
| SummaryJobs.HandingBackNeverClamps | src/conversation-store.ts:1978-1993 | Handing an attempt back after a budget refusal lowers the count by exactly one: the clamp at zero never acts |
| SummaryJobs.CompletedRangesPartition | src/conversation-store.ts:1932-1965 | In a session that was never forgotten every message up to the pointer lies in exactly one completed range |
| SummaryJobs.SummaryKeyIsFree | src/conversation-store.ts:1942-1960 | The unique key (session, through) of the summary table is free whenever a job may complete |
| SummaryJobs.SchedulingKeepsRecent | src/conversation-store.ts:1765-1781 | Wherever the byte planner cuts the range up to the computed boundary, an actively scheduled job starts at the next uncovered message, has at most the given number of messages, and leaves at least keepRecent committed messages behind it |
| SummaryJobs.UserTurnKeepsLow | src/memory-forgetting.ts:53-59 | Once a user turn follows the forget marker, later turns never lower the floor |
| SummaryJobs.MarkerRaisesLow | src/memory-forgetting.ts:29-41 | A new forget marker covers everything so far: no range may be summarized until the next user turn, and the bound below which holes are allowed only rises |
| SummaryJobs.SplitOffKeepsInv | src/conversation-store.ts:1850-1855 | A job that is split stops blocking its session |
| SummaryJobs.RestartKeepsInv | src/conversation-store.ts:720-733 | After a restart no job is running; apart from statuses of sessions and of running jobs nothing changes, so every message is covered as before |
| SummaryJobs.GenerationAtMostTwo | src/conversation-store.ts:1783-1818 | A replacement for a terminally failed range gets a generation of at most two |
| SummaryRules.OldestIsClaimed | src/conversation-store.ts:1912-1930 | A claim starts the job that was created first among the eligible ones, the smaller id among jobs of one time |
| SummaryRules.LaterJobsDoNotOvertake | src/conversation-store.ts:1882-1930 | Over every run no job created later is claimed while an older one is eligible, whatever else is queued, fails, is forgotten or restarted |
| SummaryRules.ClaimWaits | src/conversation-store.ts:1882-1930 | Over every run whose clocks do not go back, a job whose attempt failed is not claimed again before half a minute, or two minutes after the second failure, fifteen minutes after a budget refusal, five after an unknown outcome; and never after three attempts |
| SummaryRules.MayBeClaimedIff | src/conversation-store.ts:1890-1921 | Unless a clock is more than fifteen minutes ahead, a job is eligible after the sweep exactly when its session is live or nothing of it was forgotten, its range is the next one, and it is new or has rested, with the delays written out |
| SummaryRules.SweepIs | src/conversation-store.ts:1890-1911 | The three set-wide updates before a claim, row by row: moved ranges fail, unknown outcomes after three attempts are given up, clocks more than fifteen minutes ahead are set back, and every other row stays |
| SummaryRules.GateIs | src/conversation-store.ts:1783-1812 | When a given-up range may be tried again: never after two more generations, after sixty more committed messages of an active session, an hour after a closed one was given up, never for one that was too large, and only with budget when the budget gave up |
| SummaryRules.GateRowIs | src/conversation-store.ts:1786-1789 | The row the gate looks at is the given-up one of the range's start with the highest generation, then the latest anchor, and the gate is open exactly when there is none |
| SummaryRules.RangeAllowedIff | src/conversation-store.ts:1651-1663 | With a forget marker a range may be summarised only while the session is live and only from the first question after the marker on |
| SummaryRules.ClosedSessionQueuesIff | src/conversation-store.ts:1724-1736 | A closed session gets a job, with the row written out, if and only if it is the owner's, nothing was forgotten, nothing else is open, the gate lets it through, six messages are left and a batch was found |
| SummaryRules.ActiveSessionQueuesIff | src/conversation-store.ts:1765-1781 | The same for an active session: threshold, recent messages, maximum and the planner's batch decide, and nothing else |
| SummaryRules.CompletingIs | src/conversation-store.ts:1932-1965 | A summary is taken exactly for the running job of the next range, ending where the job ends at a committed message and with at most 500 of them; the pointer then moves to the end of the range |
| SummaryRules.RebatchingIs | src/conversation-store.ts:1850-1857 | A running job is split exactly before its end unless its range was forgotten; it fails as rebatched and the shorter range is queued as its next generation if it is not there already |
| SummaryRules.DeferringIs | src/conversation-store.ts:1978-1994 | A budget refusal counts as a deferral, the twenty-fourth is final, and the attempt is handed back unless a call was made |
| SummaryRules.FailingIs | src/conversation-store.ts:1967-1976 | A retryable failure is final at the third attempt, and a final one is anchored at the latest message |
| SummaryRules.ForgettingIs | src/memory-forgetting.ts:28-41 | Forgetting marks the session up to its latest message, removes its summaries and fails all its unfinished jobs |
| SummaryRules.NextToCover | src/conversation-store.ts:1651-1656 | The next sequence to cover comes after the pointer, after a forgetting not before the first question asked since, and there is none until one is asked |
| SummaryStore.Store.SummaryFloor | src/conversation-store.ts:1651-1656 | The loop finds the least committed user message after the newest forget marker, 1 without a marker, nothing when there is none |
| SummaryStore.Store.HasBlockingSummaryJob | src/conversation-store.ts:1714-1720 | True exactly when some job of the session is queued, running, unknown, or a retryable failure with attempts left |
| SummaryStore.Store.TerminalRow | src/conversation-store.ts:1786-1789 | The loop returns the terminal row of a start with the highest generation and anchor, and nothing exactly when there is none |
| SummaryStore.Store.HasTerminalSummaryStart | src/conversation-store.ts:1783-1812 | The gate's answer and the recovery clock it writes are those of the specification |
| SummaryStore.Store.InsertSummaryJob | src/conversation-store.ts:1814-1826 | Returns an existing job of the same range and next generation or inserts a fresh queued one with them; a forgotten range fails with nothing changed |
| SummaryStore.Store.EnqueueClosedSummary | src/conversation-store.ts:1724-1736 | Queues the next range of a closed owner session unless it was forgotten, has work pending, is held back or has fewer than six messages |
| SummaryStore.Store.CommittedRows | src/conversation-store.ts:1773-1774 | The loop reads the first 500 committed sequences from the start in ascending order: the i-th entry is the i-th committed message |
| SummaryStore.Store.ScheduleActiveSummary | src/conversation-store.ts:1765-1781 | The boundary is the n-th committed message from the start, n the smaller of the rows before the recent ones and the maximum; a range up to the planner's cut before it is queued, or the tables stay unchanged |
| SummaryStore.Store.EnqueueSummaryJob | src/conversation-store.ts:1859-1880 | An explicit request returns the job of that range or queues it when it starts at the next uncovered message and nothing blocks; every error leaves the tables unchanged |
| SummaryStore.Store.Sweep | src/conversation-store.ts:1890-1911 | Fails stale ranges and exhausted unknown jobs and re-anchors clocks from the future, row by row, touching nothing else |
| SummaryStore.Store.ClaimNextSummaryJob | src/conversation-store.ts:1882-1930 | Nothing while a job runs; otherwise the sweep, then the eligible job with the least creation time, and the least id among those, becomes running; nothing is claimed only if none is eligible |
| SummaryStore.Store.CompleteSummaryJob | src/conversation-store.ts:1932-1965 | The summary row, the pointer, the job and the next closed range change together or not at all |
| SummaryStore.Store.FailSummaryJob | src/conversation-store.ts:1967-1976 | A running job fails with the given code, or as given up when a retryable code meets the attempt limit |
| SummaryStore.Store.AnchorTerminal | src/conversation-store.ts:634-638 | The trigger anchors a terminal failure once, at the session's latest sequence, and touches nothing else |
| SummaryStore.Store.DeferSummaryJob | src/conversation-store.ts:1978-1994 | Status, code, deferrals, attempts and time of a running job are written column by column, with the trigger after them, to what the specification says; any other job is refused |
| SummaryStore.Store.RebatchSummaryJob | src/conversation-store.ts:1850-1857 | A running job fails as rebatched and the returned job has the shorter range at the same start and the next generation, or nothing changes |
| SummaryStore.Store.FinishSession | src/conversation-store.ts:1433-1451 | Closing a live session fails its forgotten work and queues its remaining range in one transaction |
| SummaryStore.Store.ForgetSession | src/memory-forgetting.ts:28-37 | A forget marker removes the session's summaries and fails all its unfinished jobs |
| SummaryStore.Store.RecoverInterrupted | src/conversation-store.ts:720-733 | Startup turns running jobs into unknown ones and active sessions into idle ones, and nothing else |
| TurnLifecycle.RunKeepsInv | src/conversation-store.ts:1467-2102 | In every run with restarts: each session's messages carry exactly the sequences 1..latest, once each; turns and their question and answer rows agree in session, role and status |
| TurnLifecycle.AnsweringIffStreaming | src/conversation-store.ts:2013-2029 | A turn is answering exactly when a message of it is streaming |
| TurnLifecycle.OneAnswerPerTurn | src/conversation-store.ts:1996-2033 | A turn has one question and at most one answer, and the answer has the higher sequence |
| TurnLifecycle.StreamingAnswerCommits | src/conversation-store.ts:2044-2076 | Committing a streaming answer succeeds exactly when its trimmed text has between 1 and 120000 units and its citations take at most 65536 bytes: the commit never loses its turn |
| TurnLifecycle.StreamingAnswerStops | src/conversation-store.ts:2035-2102 | A streaming answer can always be interrupted, keeping its stored text, and takes every checkpoint that is not too long |
| TurnLifecycle.SettledRowStays | src/conversation-store.ts:1467-2102 | A committed or interrupted message is never changed by any later run |
| TurnLifecycle.RunPreserves | src/conversation-store.ts:1467-2102 | Sequence, author, turn and place of a message never change, and sessions never lose a sequence |
| TurnLifecycle.ResubmissionIsIdempotent | src/conversation-store.ts:1479-1491 | Resubmitting an acknowledged user message after any run returns the original turn and sequence as a duplicate and changes nothing; other content, session or topic is refused |
| TurnLifecycle.CommittedAnswerIsFinal | src/conversation-store.ts:2053-2062 | Replaying a committed answer after any run is acknowledged with the original sequence and changes nothing; other text or citations are refused; the text is never rewritten |
| TurnLifecycle.InterruptedAnswerIsFinal | src/conversation-store.ts:2063-2076 | An interrupted answer keeps its partial text for ever and can be neither committed nor checkpointed |
| TurnLifecycle.RecoveryLeavesNothingInFlight | src/conversation-store.ts:720-728 | After recovery nothing streams, no turn is accepted, planning or answering, no session is active, and recovering again changes nothing |
| TurnLifecycle.RecoveryKeepsTexts | src/conversation-store.ts:722-723 | A restart keeps the text, the citations and the place of every message; only what streamed becomes interrupted |
| TurnLifecycle.RowFollowsItsCalls | src/conversation-store.ts:1467-2102 | Over every run a message row is what the calls that name it or its turn, and the restarts, make of it: accepted checkpoints replace its text, a commit settles it, and nothing else that happens touches it |
| TurnLifecycle.LastCheckpointStands | src/conversation-store.ts:1996-2102 | The text of an answer is empty when it opens and afterwards what its last accepted checkpoint wrote, through restarts and interruptions, until a commit |
| TurnLifecycle.UserTurnLandsIff | src/conversation-store.ts:1479-1517 | A new user message is taken exactly with 1 to 6000 units, in a topic of a live session, with a fresh turn; it is then the next message of its session with a waiting turn of its own |
| TurnLifecycle.AnswerOpensIff | src/conversation-store.ts:2011-2029 | An answer opens exactly for a turn that waits in a live session; it is then the session's next message, empty and streaming, and the turn's output |
| TurnLifecycle.StepFollowsTurn | src/conversation-store.ts:2044-2102 | Apart from opening an answer a turn changes only by its commit, which clears the error, by a stop, which records the reason, and by a restart, which keeps an older one |
| TurnLifecycle.TurnStore.CommitUserTurn | src/conversation-store.ts:1467-1517 | The statements give the specified acknowledgement and tables, and every error leaves the tables unchanged |
| TurnLifecycle.TurnStore.StartAssistantAnswer | src/conversation-store.ts:1996-2033 | As specified: the next sequence, a streaming row and an answering turn, or an error with nothing changed |
| TurnLifecycle.TurnStore.CheckpointAssistantAnswer | src/conversation-store.ts:2035-2042 | Replaces the text of a streaming answer and nothing else, or fails |
| TurnLifecycle.TurnStore.CommitAssistantAnswer | src/conversation-store.ts:2044-2076 | Message and turn become committed together, a replay is recognised, and every error leaves the tables unchanged |
| TurnLifecycle.TurnStore.InterruptAssistantAnswer | src/conversation-store.ts:2078-2102 | Message and turn become interrupted together, or the call is a duplicate or an error that changes nothing |
| TurnLifecycle.TurnStore.RecoverInterrupted | src/conversation-store.ts:720-728 | Startup interrupts streaming messages, keeping their texts, interrupts turns in flight and idles active sessions |
| ConversationStreams.RunKeepsInv | src/conversation.ts:246-557 | In every interleaving of submissions, controls and late continuations at most one task is current, and the shared fields are those of its phase |
| ConversationStreams.StreamingIsNamed | src/conversation.ts:263-282 | A streaming message is the answer of the open reply of an answering conversation, or a cancel had to leave it; apart from those left at most one streams |
| ConversationStreams.RunsNameTheirStream | src/conversation.ts:246-557 | In every run of a new conversation, of the messages that no cancel left behind at most one streams, and it is the one the open reply of the current revision names |
| ConversationStreams.StrandsIff | src/conversation.ts:263-282 | An event leaves a row streaming behind exactly when a reply is cancelled, fails or is refused with more text than a checkpoint may hold, and the row is the open answer's |
| ConversationStreams.RunsNameTheirStreamIff | src/conversation.ts:246-557 | In every run of a new conversation whatever streams is the open reply's answer if and only if no event of the run left a row behind |
| ConversationStreams.OverlongPartialLeavesTwoStreams | src/conversation.ts:267-272 | A run in which an over-long partial text is interrupted and the next turn opens a second stream |
| ConversationStreams.LateEventsAreInert | src/conversation.ts:346-557 | A continuation or callback of an older revision changes neither history nor store nor any field a reader sees; at most it clears the committing flag |
| ConversationStreams.RunNeverGoesBack | src/conversation.ts:263-318 | In every run revisions never decrease, so what is late stays late, and a closed conversation stays closed |
| ConversationStreams.ExitPendingLeftOnlyBy | src/conversation.ts:246-318 | A pending exit is left exactly by confirming, by closing, or by restoring a history that is accepted |
| ConversationHistory.FaithfulUnless | src/conversation.ts:263-282 | For every event the history keeps the store's status of every durable answer, unless the durable commit is refused, a cancel finds the flag down while a committed answer is being saved, or a row is left streaming; in those three cases it does not |
| ConversationHistory.FlagLostOnlyByOverlap | src/conversation.ts:501-519 | The committing flag is right after every event except exactly when an older saver finishes while a newer answer is being saved |
| ConversationHistory.OrderlyRunsStayFaithful | src/conversation.ts:246-557 | In runs without refused commits, over-long partial texts and overlapping savers the history never contradicts the store, whatever is cancelled whenever |
| ConversationHistory.OverlapForgesAnInterruption | src/conversation.ts:517-519 | A concrete run in which an overlapping saver makes an interrupt file a committed answer as interrupted |
| ConversationObject.Conversation.Cancel | src/conversation.ts:263-282 | The statements interrupt the durable answer, file the partial text and clear the reply exactly as specified |
| ConversationObject.Conversation.StopAnswer | src/conversation.ts:267-272 | Checkpoint and interruption are one attempt: a checkpoint refused for its length skips the interruption and the row goes on streaming |
| ConversationObject.Conversation.Submit | src/conversation.ts:332-347 | The synchronous part of a submission: refusal, overflow, pending text, cancellation and the new task as specified |
| ConversationObject.Conversation.PlanArrives | src/conversation.ts:357-424 | From the plan to the open reply: waiting, duplicate, exit and failure branches as specified |
| ConversationObject.Conversation.Append | src/conversation.ts:433-456 | A piece of text is added to the reply's text, and to the checkpoint when one is due, only under the captured revision; it throws exactly when a due checkpoint is refused |
| ConversationObject.Conversation.ReplyArrives | src/conversation.ts:485-517 | History, flag and durable commit in the source's order, with a commit refused for text or citations failing the turn |
| ConversationObject.Conversation.SaveArrives | src/conversation.ts:517-538 | The flag goes down first; only the current revision clears the reply and sets the state |
| ConversationObject.Conversation.RestoreHistory | src/conversation.ts:246-258 | Replaces the history only when no work or reply is open and the conversation is not closed |
| ConversationObject.Conversation.RecoverFailedTurn | src/conversation.ts:288-296 | Clears everything about the turn but leaves a closed or exiting conversation in its state |
| ConversationObject.Conversation.RevokeMemory | src/conversation.ts:223-235 | Drops the partial text before cancelling, so nothing of it is checkpointed or filed, and empties the history |
| ConversationReplies.TextIsWhatWasSaid | src/conversation.ts:428-456 | From the opening of a reply, through any pieces of its revision mixed with late continuations of others, its partial text is the pieces joined in order, whether or not each was checkpointed |
| ConversationReplies.InterruptKeepsWhatWasSaid | src/conversation.ts:263-282 | An interrupt then leaves exactly that text in the answer's row when it fits a checkpoint, and files it with the note as the newest history line |
| ConversationReplies.SubmissionIsTakenIff | src/conversation.ts:332-347 | Words are taken exactly while input is accepted, with at most 6000 units, at most 12000 together with what waits, and something to say; all that waits is then planned as one text in a new task of a new revision; words that are too many pause and keep what waited |
| ConversationReplies.PlanOutcome | src/conversation.ts:357-424 | What a current plan leads to: more waiting, an exit to confirm, an open reply with the question filed once, or a failed turn |
| ConversationReplies.ReplyOutcome | src/conversation.ts:485-516 | A finished reply that can be committed is filed as it was said and stored trimmed, and its save ends the turn |
| ConversationReplies.WholeTurn | src/conversation.ts:332-538 | A turn that nothing disturbs, from the words to the saved answer: question and answer are the two newest lines, the row holds the trimmed text, and nothing is left open |
| ConversationReplies.WaitingWordsAreJoined | src/conversation.ts:332-374 | However many submissions are told to wait, within the limits, all of them wait in order, one to a line, and nothing is filed or stored |
| ConversationReplies.ControlOutcome | src/conversation.ts:223-318 | Where interrupt, pause, exit, close, recovery and revocation leave state, waiting words, tasks and reply, in every state |
| ConversationReplies.RevocationOutcome | src/conversation.ts:223-235 | Revoking memory empties the history, files nothing of the open reply, and leaves its row with the text that was stored, interrupted |
| ConversationReplies.AnswersToControls | src/conversation.ts:246-318 | What resuming, confirming an exit and restoring a history answer in every state |
| DurableConversation.RecoveredIsQuiet | src/conversation-store.ts:720-733 | After the recovery of a restart no row of any session streams, so a conversation may start on it |
| DurableConversation.StepKeepsLinked | src/conversation-persistence.ts:9-51 | The conversation over the store's tables: after every event, with every durable outcome computed from the tables and others changing them meanwhile, the answers the conversation believes in are exactly the rows of its session |
| DurableConversation.Trace | src/conversation.ts:246-557 | Every run over the tables is a run of the conversation in which every outcome is the one the tables gave, ending in the same state |
| DurableConversation.TablesNameTheirStreamIff | src/conversation.ts:246-557 | Over recovered tables and in every run, the streaming rows of the session are the open reply's row and nothing else, exactly when no reply was cancelled, failed or refused with more text than a checkpoint may hold |
| DurableConversation.StopSeen | src/conversation.ts:267-272 | What a cancel does to message and turn rows is what the conversation believes it does |
| DurableConversation.StartSucceeds | src/conversation.ts:401-416 | Opening the answer of a user turn that was just committed never fails |
| DurableConversation.ReplyRefusedIff | src/conversation.ts:505-516 | A finished reply is refused by the tables exactly for its text or its citations, never for the state of its row or turn |
| DurableConversation.OrderlyRunsTellTables | src/conversation.ts:246-557 | Over recovered tables, an orderly run keeps the status of every durable answer in the history equal to its row's |
| DurableConversation.SaidIsInTheTables | src/conversation.ts:263-282 | Over the tables: after pieces are said and the reply is interrupted, the message row of the answer holds their concatenation and is interrupted, and the history's newest line ends in the same text |
| Sse.ChunkInvariance | src/dialogue-model.ts:288-315 | For every cutting of a text into chunks the events and the verdict equal those of the whole text; when a chunk makes the buffer too long the events so far are a prefix of them, and within 2,000,000 units that never happens |
| Sse.BlocksInTwo | src/dialogue-model.ts:302-311 | Cutting blocks off a prefix and then off what remains with the rest appended equals cutting the whole |
| Sse.EventsInTwo | src/dialogue-model.ts:305-310 | Reading two lists of blocks one after the other equals reading them joined, the first malformed one ending both |
| Sse.RoundTrip | src/dialogue-model.ts:288-315 | Whatever events a sender writes, with data on any number of lines between fields and comments and with either line end, and however the text is cut into chunks, exactly their payloads arrive, up to the first that does not parse; the rest is accepted only if it is white space |
| Sse.OversizeAbove | src/dialogue-model.ts:301 | A buffer of more than two million units ends the stream, and no smaller one does |
| Sse.LinesEnd | src/dialogue-model.ts:303 | The first delimiter of a written event is the empty line that closes it |
| Sse.Exec | src/dialogue-model.ts:303 | The scan finds the leftmost delimiter, and nothing exactly when there is none |
| Sse.TakeBlocks | src/dialogue-model.ts:302-311 | The inner loop yields the events of the complete blocks and keeps the unfinished rest |
| Sse.Read | src/dialogue-model.ts:288-315 | The reading loop yields exactly the events and verdict of the chunked run |
| Resampler.ChunkInvariance | src/audio.ts:2-22 | For every list of pushes with only the last one final, the concatenated output is the batch interpolation of the concatenated input |
| Resampler.Batch | src/audio.ts:2-22 | n input samples give exactly the ceiling of 3n/2 output samples |
| Resampler.OutputBetweenNeighbours | src/audio.ts:9-14 | Every output sample lies between its two neighbouring inputs, so a 16-bit write never overflows; every third one is an input sample |
| Resampler.OutputIsStable | src/audio.ts:9-14 | An output produced before the end does not depend on input that arrives later |
| Resampler.OutputsAreThirds | src/audio.ts:9-14 | Of three outputs the first is an input sample, the second the nearest number to two thirds of the way to the next, the third to one third of the way on from there |
| Resampler.DecodeEncode | src/audio.ts:7-20 | Writing samples and reading them back gives the same samples, two bytes each |
| Resampler.Resampler.Push | src/audio.ts:5-21 | A push fails exactly on an odd length, and otherwise returns the encoded outputs that the longer input makes available, each output once over the object's life |
| Resampler.Transcode | src/live-transcriber.ts:63-76 | A whole stream through one object, buffer by buffer and closed by an empty final push: however it is cut the bytes written are the batch result, and the only error is a buffer that cuts a sample |
| Resampler.Resampler.Produce | src/audio.ts:9-14 | The loop emits exactly the outputs that are ready |
| Resampler.Resampler.Trim | src/audio.ts:15-17 | Dropping consumed samples loses nothing a later output needs |
| EditDistance.DistanceIsLeast | src/calendar-query.ts:23-34 | n single-unit insertions, deletions and replacements lead from a to b if and only if n is at least the computed distance |
| EditDistance.DistanceIsReached | src/calendar-query.ts:23-34 | Some sequence of as many edits as the distance leads from a to b |
| EditDistance.NoShorterPath | src/calendar-query.ts:23-34 | No shorter sequence of edits does |
| EditDistance.DistanceIsSymmetric | src/calendar-query.ts:23-34 | The distance does not depend on the order of the texts |
| EditDistance.ScoreIsSimilarity | src/calendar-query.ts:24-33 | The score is symmetric, lies between 0 and 1, and is 1 exactly for equal non-empty texts |
| EditDistance.NextRow | src/calendar-query.ts:26-32 | The inner loop overwrites one row in place with the next row of the distance table |
| EditDistance.Similarity | src/calendar-query.ts:23-34 | The single-row algorithm computes the score of the optimal distance |
| Recurrence.BoundStopsAtCutoff | src/calendar-recurrence.ts:19-47 | The last occurrence of a bounded request is on or before its cutoff and the next would be after it; its rule is accepted and read back as itself; bounding it again changes nothing |
| Recurrence.SeriesEndsOnTheCalendar | src/calendar-recurrence.ts:19-47 | Walked day by day on the civil calendar, a weekly series stays on its weekday; from its last occurrence fewer days than one step lead to the end date, or to the day before the same day three months on |
| Recurrence.YearsInClosedForm | src/calendar-recurrence.ts:32-36 | The day numbers behind the dates count a leap day every fourth year except every hundredth except every four hundredth |
| Recurrence.DefaultBoundSucceedsIff | src/calendar-recurrence.ts:32-42 | Without an end date every accepted frequency and interval succeeds if and only if the year is at least 100 |
| Recurrence.UntilBoundSucceedsIff | src/calendar-recurrence.ts:28-42 | With an end date success is exactly a span of at least one period in which at most 366 occurrences fit into 366 days |
| Recurrence.DefaultCutoffIsThreeMonths | src/calendar-recurrence.ts:33-36 | From year 100 the default cutoff is the day before the date three months on, clamped to the end of its month, 88 to 91 days away |
| Recurrence.CutoffOfFirstCentury | src/calendar-recurrence.ts:33-36 | Before year 100 the two-digit year remapping puts the cutoff about nineteen centuries late |
| Recurrence.UtcInCivilTerms | src/calendar-recurrence.ts:34-36 | The UTC constructor counts days as the civil calendar does, after remapping years below 100 |
| Recurrence.PrintedRuleParses | src/calendar-recurrence.ts:5-17 | Parsing a printed rule gives the check of its numbers, for every frequency, interval and count |
| Recurrence.IntervalDefaultsToOne | src/calendar-recurrence.ts:5-17 | A rule that names no interval parses as one with interval one |
| HistoryIndex.OwnerPredicatesAgree | src/history-index.ts:5-10 | The SQL condition of the view admits exactly the scopes that the access policy calls an owner scope |
| HistoryIndex.IndexedIff | src/history-index.ts:11-15 | The view holds exactly the committed questions and answers of sessions whose scope the access policy calls an owner's, with their content |
| HistoryIndex.Index.constructor | src/history-index.ts:28-70 | Installing over existing tables indexes exactly the view |
| HistoryIndex.Index.IndexDelete | src/history-index.ts:38-45 | A delete command for a pair that is not indexed is recorded as corruption, which the operations below exclude |
| HistoryIndex.Index.InsertMessage | src/history-index.ts:34-37 | After an insert the index equals the view and no index command was wrong |
| HistoryIndex.Index.DeleteMessage | src/history-index.ts:38-41 | After a delete the index equals the view and no index command was wrong |
| HistoryIndex.Index.UpdateMessage | src/history-index.ts:42-49 | After any update, of content, status, role or session, the index equals the view and no index command was wrong |
| HistoryIndex.Index.UpdateScope | src/history-index.ts:57-66 | After a change of a session's owner scope the index equals the view and no index command was wrong |
| HistoryIndex.Index.DeleteSession | src/history-index.ts:52-56 | Whatever the order in which the cascade clears references, here and in other sessions, and drops the session's messages, the index equals the view, no pair was deleted twice, and the remaining rows are as before except that the cleared references are gone |
| ICalendar.PassesAreOnePass | src/calendar.ts:87 | The four successive replacement passes equal one pass over the text |
| ICalendar.EscapeRoundTrip | src/calendar.ts:87 | Unescaping an escaped text gives the text with its newlines normalised, and an escaped text has no line break |
| ICalendar.FoldRoundTrip | src/calendar.ts:88-96 | Unfolding a folded line gives the line |
| ICalendar.FoldedLinesFit | src/calendar.ts:88-96 | Every physical line has at most 75 octets and breaks stand between whole characters |
| ICalendar.BreaksOnlyWhenFull | src/calendar.ts:88-96 | A line is broken only where the next character would have passed 75 octets, and every continuation starts with one space |
| Texts.FewestOctets | src/calendar.ts:91 | The octets counted for a character are the fewest whose payload bits hold its code point |
| ICalendar.DocumentUnfolds | src/calendar.ts:115-128 | Unfolding a whole document restores every content line and its terminator |
| ICalendar.PropertyRoundTrip | src/calendar.ts:107-128 | A property written into a document is found again among its unfolded lines and unescapes to the original text with normalised newlines |
| ICalendar.Fold | src/calendar.ts:88-96 | The loop produces the folding of the specification |
| CostLedger.RunKeepsInv | src/cost-ledger.ts:147-219 | Over every interleaving of reservations, settlements and restarts: OpenAI and Soniox spend is what was spent at start plus outstanding maxima plus settled actuals, unit counts balance in the same way, and Google's surplus over the tier price never falls below its start |
| CostLedger.MonthIsNeverMissing | src/cost-ledger.ts:162-165 | In no run does a settlement miss the month it was reserved in |
| CostLedger.SpendIsConserved | src/cost-ledger.ts:147-219 | For any month of any run: OpenAI and Soniox spend and every unit count equal the balance at process start plus what outstanding and settled reservations account for, and Google spend covers the tier price of the recorded units |
| CostLedger.GoogleNeverUndercharged | src/cost-ledger.ts:179-207 | Google spend is at least the tier price of the recorded units of all SKUs |
| CostLedger.RunKeepsWithin | src/cost-ledger.ts:147-219 | Starting within the limits, every interleaving keeps each provider and the total within its limit |
| CostLedger.TotalCheckIsImplied | src/cost-ledger.ts:152-154 | When the provider limits add up to at most the total, the total check never decides |
| CostLedger.CanReserveAgrees | src/cost-ledger.ts:171-177 | The advisory check is true exactly when the reservation would succeed |
| CostLedger.ReservationIsInDollars | src/cost-ledger.ts:147-158 | A reservation of positive dollars books the nearest whole number of nano-dollars, at least one, when that fits the provider's limit and the total, and is refused exactly when it does not |
| CostLedger.SettlementIsInDollars | src/cost-ledger.ts:159-168 | In every run of one process, while it is unsettled, a settlement at any part of the reserved dollars is accepted, takes the booked amount back and charges the actual one rounded once; at other amounts it is refused exactly when the rounding exceeds what was booked |
| CostLedger.StepIsListed | src/cost-ledger.ts:38-48 | In nano-dollars the units between two counts cost the listed dollars for a thousand beyond the free ones, with nothing lost in rounding |
| CostLedger.UnitsAreListed | src/cost-ledger.ts:179-193 | A unit reservation costs the listed price of its units at the month's count, and is refused exactly when that does not fit |
| CostLedger.SettlementNeverClamps | src/cost-ledger.ts:166 | Settling an amount never reaches the clamp of the spend at zero |
| CostLedger.GoogleSettlementNeverClamps | src/cost-ledger.ts:200-206 | Settling units never reaches the clamps of the unit count and of the spend at zero |
| CostLedger.SettlementIsExactIff | src/cost-ledger.ts:200-206 | Settling units keeps the surplus if and only if no more than the reserved amount would be released |
| CostLedger.ExactWhenUnitsHaveNotGrown | src/cost-ledger.ts:202-206 | That is so whenever the month's units have not grown past those of the reservation |
| CostLedger.SequentialRunsAreExact | src/cost-ledger.ts:179-207 | In runs where no two reservations of one SKU and month overlap, Google spend moves exactly with the tier price |
| CostLedger.OverlapOvercharges | src/cost-ledger.ts:206 | A concrete run with two overlapping one-unit reservations that leaves one unit's price charged without a unit |
| CostLedger.TierIsConvex | src/cost-ledger.ts:202-204 | Giving back units at a higher count never releases less |
| CostLedger.Books.Reserve | src/cost-ledger.ts:147-158 | The statements book the reservation of the specification, whose amount in dollars ReservationIsInDollars states, or report invalid input or an exceeded budget |
| CostLedger.Books.Settle | src/cost-ledger.ts:159-168 | A second settlement does nothing, an invalid one changes nothing, a valid one replaces the maximum by the actual amount; the reservation counts as settled before its month is looked up |
| CostLedger.Books.ReserveGoogle | src/cost-ledger.ts:179-193 | The statements reserve units at the tier price of the step as specified |
| CostLedger.Books.SettleGoogle | src/cost-ledger.ts:194-207 | The statements settle units as specified, the released amount capped by the reserved one; the reservation counts as settled before its month is looked up |
| CalendarLedger.RunKeepsInv | src/google-calendar.ts:159-191 | In every run with crashes anywhere each operation is confirmed and written at most once, every write follows its own accepted confirmation in the same process, and between two writes the first was answered or its process died |
| CalendarLedger.WritesAreSafe | src/google-calendar.ts:395-435 | The log of any run of a new ledger has at most one write per operation, each after its own confirmation without a crash between, and no two writes overlapping |
| CalendarLedger.PreviewsAreOneUse | src/google-calendar.ts:391-399 | Once confirmed, dismissed or caught by a restart, a preview can never be confirmed again by any phrase at any time |
| CalendarLedger.PreviewConfirmsIff | src/google-calendar.ts:391-399 | At any moment of any run after it was shown, a preview can be confirmed if and only if it is still pending, nothing is being written, less than five minutes have gone by, and the utterance is one of the phrases for its kind |
| CalendarLedger.StepDecides | src/google-calendar.ts:181-237 | The state of a row after every step, read off the event: 412 is a conflict, other client errors except 409 are failures, anything else but success stays unknown |
| CalendarLedger.RunFollows | src/google-calendar.ts:181-187 | In every run a dismissed or expired row stays as it is and a confirmed one never becomes confirmable |
| CalendarLedger.ReconcilingOnlyReads | src/google-calendar.ts:214-237 | Reconciliation neither writes nor touches the write in flight |
| CalendarLedger.PromotesOnlyUncertainRows | src/google-calendar.ts:214-237 | A reconciliation that did not start in mid-flight, or whose operation still is in flight, overwrites only unknown or already proven rows, and only when the remote state proves the operation |
| CalendarLedger.ReconcileSafeIffIdle | src/google-calendar.ts:214-237 | A reconciliation promotes only unknown or already proven rows in all runs if and only if its operation was not in flight when it started |
| CalendarLedger.StaleCopyRevivesAFailure | src/google-calendar.ts:219-232 | A concrete run in which a reconciliation started in mid-flight turns a failed row into a succeeded one |
| CalendarLedger.CalendarService.constructor | src/google-calendar.ts:181-187 | Opening the ledger after a crash turns sending rows into unknown and pending rows into expired, and no other row changes |
| CalendarLedger.CalendarService.Dismiss | src/google-calendar.ts:391-394 | Only a pending row is dismissed |
| CalendarLedger.CalendarService.Confirm | src/google-calendar.ts:395-399 | Accepted exactly when nothing is in flight, the row is pending and unexpired and the utterance confirms it; then the row is sending before anything leaves |
| CalendarPhrases.ForeignUnitNeverConfirms | src/calendar-preview.ts:6-13 | An utterance with anything in it that is neither removed by cleaning nor part of an accepted phrase, such as a negation, a question mark or a quotation mark, never confirms |
| CalendarPhrases.ConfirmsIff | src/calendar-preview.ts:5-13 | An utterance confirms if and only if it is one of the phrases for that kind of operation, said as a whole, with only white space around it, stops behind it and at most one affirmation set apart before it; deleting words confirm cancellations only |
| CalendarPhrases.ShortPhraseConfirms | src/calendar-preview.ts:5-13 | The phrase that a preview asks for confirms it |
| CalendarLedger.CalendarService.Finish | src/google-calendar.ts:425-435 | The answer's status decides between succeeded, conflict, failed and unknown, and frees the service |
| CalendarLedger.CalendarService.ReconcileStart | src/google-calendar.ts:214-219 | Only a succeeded, unknown or sending row is read, and a sending one becomes unknown first |
| CalendarLedger.CalendarService.ReconcileFinish | src/google-calendar.ts:220-236 | The saved copy becomes succeeded exactly when the remote event matches, or for a cancellation is gone; otherwise no row changes |
| ContextBuilder.CompactFitsIff | src/context-builder.ts:42-50 | A compacted text keeps to its maximum unless it is longer and the maximum is 18, 19 or 20 |
| ContextBuilder.CompactKeepsEnds | src/context-builder.ts:42-50 | A text that fits is only cleaned; from maximum 21 a longer one keeps its first seven tenths and its end around the marker, with exactly the maximum length |
| ContextBuilder.CompactIs | src/context-builder.ts:42-50 | The cut text in full, for every maximum: nothing but the beginning up to 17 units, then the beginning, the marker as written, and the end |
| ContextBuilder.CleanDropsNul | src/context-builder.ts:43 | Cleaning drops zero units wherever they are, leaves none, and otherwise only trims |
| ContextBuilder.UnfinishedAnswersAreLabelled | src/context-builder.ts:52-60 | An answer that failed or was cut off carries the label as written in front of its text; anything else carries none |
| ContextBuilder.SourceIsWhatWasSaid | src/context-builder.ts:111-112 | The source is the questions and answers with something besides white space in them, in their order |
| ContextBuilder.NewestFits | src/context-builder.ts:109-132 | With valid options the newest message always goes into an empty selection, within the budget |
| ContextBuilder.Add | src/context-builder.ts:114-129 | One attempt adds the whole message, a shortened mandatory one, or nothing, and books exactly what it adds |
| ContextBuilder.ChosenIsSelection | src/context-builder.ts:153-154 | Reading the chosen map by position gives source order without repetition, the newest message last and exactly as it was fitted into the budget, only same-topic messages before the recent window and at most their limit; a message that was tried is left out only when it does not fit beside the summary and everything newer that was selected |
| ContextBuilder.Builder.ChooseNewest | src/context-builder.ts:131-140 | The newest message goes first, whole or shortened; the summary is noted exactly when it fits beside it |
| ContextBuilder.HeadedFits | src/context-builder.ts:156-160 | A note put in front never breaks the budget |
| ContextBuilder.Builder.ChooseRecent | src/context-builder.ts:143-144 | Going from new to old, a recent message is left out exactly when it does not fit beside what is newer |
| ContextBuilder.Builder.ChooseOlder | src/context-builder.ts:146-152 | Older messages are added only for the current topic and up to their limit, from new to old, and until the limit none that fits is passed over |
| ContextBuilder.Builder.Build | src/context-builder.ts:110-167 | For all valid options and histories the count is the size of the result and within the maximum; the result is exactly a selection of the history behind the summary's, the prior sessions' and the recall's note, each there exactly when it has text that fits what the parts after it leave |
| CalendarSlots.SuggestSlot | src/calendar-slots.ts:11-32 | A suggestion is the best qualifying half-hour start with the same duration, and there is none exactly when the event cannot be moved or no start within 48 hours qualifies |
| CalendarSlots.SameDayFirst | src/calendar-slots.ts:29 | If any start of the same day qualifies, the suggestion is of that day and not later than it |
| CalendarSlots.QualifiesIff | src/calendar-slots.ts:11-30 | What a slot has to be, with the numbers written out: on a half hour, over within two days, on one of two days between eight and twenty-two o'clock, and without a common moment with any other item |
| CalendarSlots.NextDayByCloseness | src/calendar-slots.ts:29 | On the next day the slot is as close to the event's own time of day as any, the earlier of two equally close ones |
| CalendarSlots.FirstAfterIsNext | src/calendar-slots.ts:18 | The first grid point is the least half hour strictly after the start |
| CalendarSlots.NextGridPoint | src/calendar-slots.ts:18-30 | Each step extends the candidates exactly by the next grid point if it qualifies, so none is skipped |
| CalendarSlots.Collect | src/calendar-slots.ts:17-30 | The loop collects exactly the qualifying starts up to the horizon, in order |
| CalendarSlots.Head | src/calendar-slots.ts:31 | The head of the stable sort: the first candidate of least rank |

## Left out

- SQLite, files, SMTP, HTTP, WebSockets, timers and process ownership: transactions are atomic, a
  restart is an event, and a single process owns the store.
- Persistence failures of the cost ledger and the alerts it sends; a mutation is one step.
- Hashing, random ids and constant-time comparison: ids are fresh, a secret is compared directly.
- Time stamps of sessions, turns and messages, labels, reasoning settings and the sessions' other
  credentials; where time decides (credentials, summary jobs, calendar expiry) it is modelled.
- Retention cleanup and legacy import; messages, turns and jobs are never deleted in these models.
- The text of summaries and their byte planning: the end of a batch, or the failure to plan one,
  comes from outside, inside the range that was asked for.
- Guest permissions apart from the owner test of the index, and the suppressed view of memory
  forgetting; the forget marker is modelled only for summaries.
- The model prompts, intent heuristics and reply guard: a reply's text is the text that reached the
  conversation. Memory revocation is an event that may happen at any time.
- The topic bookkeeping and events of the conversation object and the stripping of internal
  metadata: its texts are the stripped ones. Citations are JSON text.
- Databases that fail while a cancel checkpoints or interrupts, or while a piece is checkpointed;
  user turn, start and commit may fail for any reason.
- Time-zone computation: a zone is any function from instants to local days and minutes.
- Floating point: money and similarity scores are exact, and thirds of a sample are integers.
- The request pattern of recurrence bounding and its deadline note; a request is already parsed.
  The rule itself is parsed and printed as text.
- Preview building of the calendar service up to its last save, and the overlap and parent checks
  before a write: they end in the worker's answer. That a preview is refused while an uncertain
  operation on the same event exists is part of it.
- The renderers of prior-session and recalled text: any functions that keep to the length they are
  given. The summary note is given as rendered text.
- `readWav`, title suggestion lists, query filters and phrase matching: single-branch code.
- DeviceCredentials.BoundedOverlap: states the bound for one common lifetime, as the server
  configures it; the exact conditions for lifetimes that differ are proved beside it.
- DeviceCredentials.CredentialStore.RegisterClient: does not model the client's label and
  last-seen time, which no credential depends on.
- CostLedger.Books.SettleGoogle: does not model the usage alerts that the same step queues, which
  no amount or unit count depends on.
- SummaryJobs.CompletedRangesPartition: for sessions without a forget marker; with one, holes below
  the floor are what the program intends, and RunKeepsInv says there are no others.
- ICalendar.FoldedLinesFit: a character is a code point; unpaired surrogates are not modelled.
- HistoryIndex.OwnerPredicatesAgree: the same, for scopes; scopes are ASCII whenever they are accepted.
