# Orivra verification model

A Dafny model of the restart-safe parts of Orivra (the `proofline` packages): the command
queue and the event journals behind it, the two ways a transaction is submitted, run
admission and its quotas, wallet challenges and the sign-in message, the list of runs, and
the browser-side state machines that survive overtaken asynchronous work. Each module states
what the code does as functions over explicit tables or closure variables, proves methods
with the code's own loops and assignments against those functions, and then proves what the
functions promise over every run: any number of workers, API servers, overlapping calls,
reloads and crashes, in any order. On the browser's side one tab is taken as given.

Main results:

- **Queue and journals.** The projector and the append rule keep exactly the rules stated on the
  events themselves (`JournalRules`). Every reachable store has whole, projected,
  duplicate-free journals; a completion commits at most once, only for the holder of the
  latest unexpired lease, and delivers all of its output; a stale holder changes nothing.
  While no one else writes to its run, a command's recovery events are exactly R(1) S(2) R(2)
  S(3) ...; a claim rolls back exactly when `Blocked` holds, both ways into it are reached, and
  a blocked command never moves again and stalls the claims behind it. On an ended run no
  command but an auxiliary one is leased twice, which is how every proof bundle is built.
- **One broadcast.** The wallet marker, composed with the server's authority, lets at most one
  transaction more be sent than the wallet falsely reports as rejected, and that bound is
  reached; the relayer's attempt is granted and sent at most once per run, and exactly once
  when it is asked for.
- **Progress.** What each protocol promises is also reached: a holder that renews in time keeps
  its lease and is not refused as stale; a runner over an accepted history that nothing fails
  commits the plan; a signed transaction is relayed; a sign-out leaves nothing to restore; an
  issued challenge is consumed once; an undisturbed connect, signature or discovery resolves.
- **Conservation.** Daily and per-minute counters equal the rows they count for every window
  too young for cleanup; replays and refusals consume nothing.
- **Exact conditions where the code falls short of its promise.** See "Findings".

## How it is modelled

- `QueueInvariants`, `Admission`, `Relayer`, `ChallengeQuota`, `Migration` are step systems:
  an action or step, the function that applies it, an invariant, the proof that every step
  keeps it, and theorems about every sequence of steps. One database transaction is one step
  that commits or leaves the tables as they were. Where a call reads before its transaction
  (`createRun`, `enqueue`, `persistRelayerTransaction`) the earlier and later reads are
  parameters that may have seen any earlier or later store.
- Identifiers, addresses and digests are numbers or byte sequences; SHA-256 of a domain and
  subject is taken as injective. The strings the code builds from ids
  (`${commandId}:${type}:${attempt}`) are structured values: `Source` and `EffectKey`.
- Any claimable row may be the one a claim takes, because `SKIP LOCKED` can pass over the
  rows ordered before it.
- Clocks are parameters of each statement that reads one. No theorem needs them to be
  monotone; windows are exempt from conservation only when a cleanup may have removed them.
- What callers guarantee is written as a predicate on steps. `Admissible`: new commands start
  unleased, a completion brings milestones or a failure under the command's id or anything
  recorded under ids derived from it, always for its own run, and a terminal failure is not also
  retryable (`apps/worker/src/worker.ts:258-279`, `598-614`, `1414-1431`, `1483-1520`).
  `Relayer.Configured`: a
  persist names its run's own project (`apps/worker/src/worker.ts:1609-1615`) and one quota is
  configured. `Relayer.WithPolicy`: every run has a relayer policy; the worker leaves it out
  when there is no such artifact (`apps/worker/src/worker.ts:1112-1116`), so the theorem that
  does not need it is stated first.
- A day of `date_trunc('day', now())` is one of the session's time zone: any function that
  starts a time's day no later than the time. The quota windows of admission are UTC days, as
  their SQL says.
- Counters are compared with the cardinalities of the sets of rows they stand for.
- Automatic induction is off on every lemma, so each induction is a recursive call in its body.

## Findings

- A repeated claim rolls back, for good, exactly when the command was leased once, is not
  auxiliary, has no visible recovery event of its own, and either its run has ended or its first
  `RETRY_SCHEDULED` is hidden behind another command's milestone (`Blocked`,
  `QueueInvariants.ClaimFacts`, `QueueTheorems.BlockedStaysBlocked`). A retryable failure on an ended
  run rolls back as well (`QueueInvariants.RetryFacts`), so there a command gets one lease
  (`QueueTheorems.EndedRunLeasesOnce`). Ways into it that are reached:
  - a completion that ends the run cancels nothing and blocks the run's other commands leased once
    (`QueueTheorems.EndingCompletionStrands`), as a blocked preflight does to a consumer
    verification leased at that time (`QueueTheorems.BlockedPreflightStrands`);
  - the completion that verifies the consumer ends the run and inserts the proof bundle's command,
    which therefore gets one lease (`QueueTheorems.FollowUpIsLeasedOnce`,
    `QueueTheorems.BundleIsLeasedOnce`);
  - a command inserted by a request that read the run before it ended
    (`QueueTheorems.LateCommandIsStuck`, `QueueTheorems.EndedRunReachable`);
  - on a live run, a command that was retried once before the run's preflight completed
    (`QueueTheorems.HiddenRetryIsStuck`).
- Claims take the first row by `available_at`, and a rolled-back claim leaves its row first: until
  a blocked command at the head of the line is cancelled, every unscoped claim that no lock
  turns aside takes it and fails, and leases nothing behind it
  (`QueueTheorems.HeadOfLineStalls`).
- The backoff limit of 300 seconds in SQL is never reached: the exponent is capped so that the
  wait stays at 256 (`QueueTheorems.BackoffShape`).
- `sameIntent` compares serialised payloads, and `jsonb` reorders keys: a repeated request is
  accepted exactly when its keys are already in `jsonb` order (`Enqueue.RepeatAccepted`);
  repeating a deployed-consumer verification is therefore refused as a conflict with itself
  (`Enqueue.DeployedConsumerRepeatRefused`).
- The run-list cursor keeps whole seconds: all page sizes show every run exactly when each run is
  separated from the next (`RunList.AllLimitsComplete`, `RunList.SeparatedMeans`); of two runs of one
  second, paged one by one, the second is never shown (`RunList.SameSecondIsLost`).
- A call to `createRun` whose derived `:preflight` key is already taken is answered with
  `IDEMPOTENCY_CONFLICT` although no run has its key (`Admission.FreshKeyAnswered`); an intent
  enqueued under that key on an earlier run brings it about (`Admission.PreflightKeyTaken`).
- Incremental hydration equals a full reload exactly when the journal fits into 64 pages or
  nothing was cached; beyond that it reaches further (`Hydration.IncrementalEqualsReload`).
- Hydrations of one run may overlap, and each writes the cache at its end: the cache shrinks
  exactly when the result is shorter than what is cached by then
  (`HydrationRuns.FinishKeepsIff`), which two overlapping hydrations reach
  (`HydrationRuns.OverlapShrinks`) and a hydration during which no other ends never does
  (`HydrationRuns.UndisturbedNeverShrinks`). It always stays a prefix of the journal.
- A relayer transaction persisted without a policy is not checked against the daily quota: one
  that is otherwise possible is stored if and only if it has no policy, no quota is configured or
  the quota is not reached (`Relayer.StoredIff`, `Relayer.UncheckedWithoutPolicy`). Those persisted
  with a policy stay within it, whatever the others do.
- In the provider adapter an overtaken operation settles as cancelled if and only if, when it was
  overtaken, it had not finished, or had failed as a connect or signature and its first handler
  had not run, or was cancelled already (`ProviderAdapter.SettlesCancelledIff`). Between that
  handler and the settling of the promise a failure is kept (`ProviderAdapter.CaughtFailureIsKept`),
  a discovery that had failed keeps its failure (`ProviderAdapter.OvertakenDiscoveryFails`), and a
  connect that had finished still resolves (`ProviderAdapter.OvertakenConnectResolves`).

## Model

| member | source | states |
|---|---|---|
| Journal.FoldFacts | packages/domain/src/run-lifecycle.ts:142-214 | a projectable journal is numbered 1..n in one run, nothing follows a terminal event, and the projector's unresolved entries are waiting or retry events of their source |
| Journal.LifecycleOrdered | packages/domain/src/run-lifecycle.ts:142-214 | milestones occur in their fixed order, each non-recovery event is in the lifecycle, a failure or the final milestone only last |
| Journal.AppendKeepsValid | packages/domain/src/run-lifecycle.ts:61-113 | appending returns the journal unchanged or with the event at its end, and keeps it projectable and free of repeated effects |
| Journal.ProjectionTerminal | packages/domain/src/run-lifecycle.ts:215-249 | the projection says terminal exactly when the journal holds a terminal event, and carries its length |
| Journal.SubmittedIsClosed | packages/domain/src/run-lifecycle.ts:115-140 | a recorded submission closes the run for another one |
| Journal.ClosedStays | packages/domain/src/run-lifecycle.ts:142-249 | a closed run stays closed in every longer journal |
| JournalRules.ProjectsNext | packages/domain/src/run-lifecycle.ts:142-214 | a projectable journal stays projectable with an event if and only if it has the next number and the same run, nothing has ended it, and it is the next milestone, a failure, or a recovery event not behind that answers an open halt if it resumes |
| JournalRules.ProjectableIff | packages/domain/src/run-lifecycle.ts:142-214 | a journal is projectable if and only if each event may follow those before it |
| JournalRules.ValidIff | packages/domain/src/run-lifecycle.ts:61-113 | the stored journals, by their events: each may follow, and no two share a source and kind of effect |
| JournalRules.AppendsIff | packages/domain/src/run-lifecycle.ts:74-110 | the outcome of every append to a stored journal: which refusal, which repeat is taken, and what is added |
| JournalRules.CorruptIff | packages/domain/src/run-lifecycle.ts:61-84 | what cannot be stored is never appended to |
| JournalRules.LiveStages | packages/domain/src/run-lifecycle.ts:115-130 | which stage a live run shows as completed, active or pending, by the milestones on record |
| JournalRules.EndedStages | packages/domain/src/run-lifecycle.ts:132-140 | the stages of a failed and of a verified run |
| JournalRules.ShownRecovery | packages/domain/src/run-lifecycle.ts:225-249 | the recovery shown is the newest halt nothing has answered, or the failure |
| JournalRules.ClosedIff | packages/domain/src/run-lifecycle.ts:115-249 | submission is closed exactly from the recorded submission or the end on |
| QueueInvariants.ScansAgreeWithProjector | apps/api/src/postgres.ts:336-380 | the repository's two recovery scans see what the projector's fold sees, on every projectable journal |
| CommandQueue.Repository.UnresolvedRecoveryEvent | apps/api/src/postgres.ts:336-358 | the loop finds the command's last recovery event since the last milestone, unless it resumed |
| CommandQueue.Repository.LatestRecoveryEvent | apps/api/src/postgres.ts:360-380 | the loop finds the command's last recovery event since the last milestone |
| CommandQueue.Repository.RenewLease | apps/api/src/postgres.ts:868-886 | the lease is extended for its unexpired holder only; the whole new store is stated |
| CommandQueue.Repository.ClaimNextCommand | apps/api/src/postgres.ts:888-1010 | the claim commits the leased row with its recovery events, or nothing |
| CommandQueue.Repository.RecoveryEvents | apps/api/src/postgres.ts:906-989 | the two scans and the branches draft the halt and resume events of a repeated claim |
| CommandQueue.Repository.CompleteCommand | apps/api/src/postgres.ts:1019-1097 | events, artifacts, follow-up commands and the succeeded row commit together, or nothing |
| CommandQueue.Repository.RetryCommand | apps/api/src/postgres.ts:1099-1231 | the requeued or dead row, its halt event, the run failure and the cancellations commit together, or nothing |
| CommandQueue.Repository.RecordHalt | apps/api/src/postgres.ts:1116-1167 | a reported retry appends its waiting or retry event, an auxiliary or final one nothing |
| CommandQueue.Repository.RecordFailure | apps/api/src/postgres.ts:1168-1231 | a terminal report appends the run failure unless the run has ended, and cancels the rest |
| CommandQueue.Repository.AppendOutput | apps/api/src/postgres.ts:1047-1049 | the loop over a completion's events appends them in order or fails with the first refusal |
| CommandQueue.Repository.InsertOutput | apps/api/src/postgres.ts:1066-1082 | the loop over follow-up commands inserts them in order or fails with the first violation |
| QueueInvariants.AppendEventFacts | apps/api/src/postgres.ts:382-414 | on a sound run an append commits exactly when the append rule takes the event; sequence check and unique indexes never refuse what it took |
| QueueInvariants.ClaimFacts | apps/api/src/postgres.ts:888-1010 | a claimable row's claim commits if and only if the row is not blocked, and keeps every invariant |
| QueueInvariants.RetryFacts | apps/api/src/postgres.ts:1099-1231 | a failure report commits if and only if the lease is held and it is not a retryable failure of an ended run; its exact effect on the command rows, and that a terminal one ends the run |
| QueueInvariants.CompleteFacts | apps/api/src/postgres.ts:1019-1097 | a committed completion held the lease, leaves other rows, earlier events and earlier artifact bytes as they were |
| QueueTheorems.StepKeeps | apps/api/src/postgres.ts:868-1231 | every transaction keeps the invariant and only lets the store evolve: nothing stored is lost or rewritten |
| QueueTheorems.JournalsAreWhole | apps/api/src/postgres.ts:382-414 | in every reachable store sequences are 1..n, last_sequence is n, the stored projection is that of the whole journal, terminal exactly when the journal is, no effect twice |
| QueueTheorems.JournalsOnlyGrow | apps/api/src/postgres.ts:382-414 | an earlier journal is a prefix of every later one |
| QueueTheorems.CompletesAtMostOnce | apps/api/src/postgres.ts:1019-1097 | in every interleaving each command's completion commits at most once, and never after it is finished |
| QueueTheorems.SucceedsOnlyByCompletion | apps/api/src/postgres.ts:86-124 | a row becomes succeeded only in a completion by the holder of its latest, unexpired lease |
| QueueTheorems.StaleHolderIsPowerless | apps/api/src/postgres.ts:86-124 | once a lease has passed on, no renewal, retry or completion under the old token changes the store, at any later time |
| QueueTheorems.ClaimLeases | apps/api/src/postgres.ts:30-69 | a committed claim holds its row for exactly thirty seconds: until then no claim can take it, from then on any can |
| QueueTheorems.RenewalExtends | apps/api/src/postgres.ts:115-124 | a renewal by the holder holds the row for exactly the interval from then on |
| QueueTheorems.RenewingHolderKeeps | apps/api/src/postgres.ts:868-886 | in every run of transactions a holder that renews before each expiry is never overtaken by a claim; only a failure of its run cancels it |
| QueueTheorems.HolderCompletesIff | apps/api/src/postgres.ts:1019-1097 | the holder's completion is never refused as stale and commits if and only if its events and commands are accepted |
| QueueTheorems.InsertedIff | apps/api/db/migrations/005_explicit_submission_authority.sql:25-32 | an insert does nothing for a known key, and otherwise stores the row exactly when its id is new and no rival submission of its run is stored |
| QueueTheorems.CompletionDelivers | apps/api/src/postgres.ts:1019-1097 | a committed completion's events, artifacts and follow-up commands are all stored |
| QueueTheorems.StepEvents | apps/api/src/postgres.ts:888-1231 | every event is added by a transaction of the command it or its derived id is attributed to, milestones only by completions |
| QueueTheorems.TerminalFailureEndsRun | apps/api/src/postgres.ts:1169-1231 | a terminal failure ends the run, cancels its other unfinished commands and touches no other run |
| QueueTheorems.ReportedRow | apps/api/src/postgres.ts:98-114 | the row a committed report leaves: queued until its wait is over or dead, without a lease, with its failure |
| QueueTheorems.RetryRecordsHalt | apps/api/src/postgres.ts:1116-1167 | by failure and kind of command: which event a retryable report appends, for which attempt, stage and checkpoint, until when |
| QueueTheorems.FailureIsRecorded | apps/api/src/postgres.ts:1168-1231 | by kind of command: the one failure a terminal report appends to a live run, and none to an ended one |
| QueueTheorems.RecoveryTrailIsExact | apps/api/src/postgres.ts:906-989 | while no one else writes to the run, an unfinished command's recovery events are exactly those of its attempts |
| QueueTheorems.LeasedTrailMarks | apps/api/src/postgres.ts:325-334 | the marks of that trail are R(1) S(2) R(2) S(3) ..., so no two are equal |
| QueueTheorems.UninterruptedClaimsCommit | apps/api/src/postgres.ts:906-989 | on such a live run every claim commits: no recovery event is lost |
| QueueTheorems.EndedRunBlocks | apps/api/src/postgres.ts:906-989 | on an ended run exactly the non-auxiliary commands leased once are blocked |
| QueueTheorems.BlockedStaysBlocked | apps/api/src/postgres.ts:888-1010 | a blocked command without a live lease is never moved again, only cancelled |
| QueueTheorems.LateCommandIsStuck | apps/api/src/postgres.ts:888-1010 | a command inserted on an ended run is leased once and is stuck when that lease expires |
| QueueTheorems.EndedRunReachable | apps/api/src/postgres.ts:1169-1231 | such ended runs are reached by a creation, a claim and a terminal failure |
| QueueTheorems.EndedRunLeasesOnce | apps/api/src/postgres.ts:888-1010 | in every run of transactions after a run ended, none of its non-auxiliary commands leased at most once is leased a second time |
| QueueTheorems.EndingCompletionStrands | apps/api/src/postgres.ts:1019-1097 | a completion that ends its run leaves the run's other commands as they were and blocks exactly the non-auxiliary ones leased once |
| QueueTheorems.FollowUpIsLeasedOnce | apps/worker/src/worker.ts:2054-2085 | a follow-up command of a completion that ends the run is leased at most once in every continuation |
| QueueTheorems.BlockedPreflightStrands | apps/worker/src/worker.ts:1414-1431 | five steps to a blocked preflight that leaves a leased command of its run never to be claimed again |
| QueueTheorems.BundleIsLeasedOnce | apps/worker/src/worker.ts:1483-1568 | seven steps of a replayed run after which the leased proof bundle can never be claimed again |
| QueueTheorems.HiddenRetryIsStuck | apps/api/src/postgres.ts:906-989 | on a live run, a command retried once before the run's preflight completed can never be claimed again |
| QueueTheorems.HeadOfLineStalls | apps/api/src/postgres.ts:29-40 | until a blocked head of the line is cancelled every unscoped, unlocked claim takes it and rolls back |
| QueueTheorems.BackoffShape | apps/api/src/postgres.ts:98-114 | the wait doubles up to the eighth attempt and stays at 256 seconds, below its stated limit |
| QueueTheorems.RetryWaits | apps/api/src/postgres.ts:98-114 | a reported retry is claimable exactly when its wait is over |
| QuotaWindows.ReserveFacts | apps/api/db/migrations/008_persisted_admission_quotas.sql:3-39 | a reservation succeeds exactly while the count is below the first writer's limit, adds one, and touches no other window |
| QuotaWindows.RemoveFacts | apps/api/src/wallet-session-service.ts:178-208 | a cleanup leaves every young window as it was |
| QuotaWindows.WindowHolds | apps/api/db/migrations/008_persisted_admission_quotas.sql:3-39 | the window of a time holds it and is one minute or one UTC day long |
| QuotaWindows.CleanupIs | apps/api/src/wallet-session-service.ts:178-208 | a cleanup takes up to a hundred windows that ended a day ago and those only |
| QuotaWindows.DelayIsLeast | apps/api/src/production-service.ts:241-250 | the retry delay lies in its range, leads exactly into the next window, and one second less does not |
| RetryAfter.PrintReads | apps/api/src/app.ts:530-539 | the printed delay is canonical and reads back as itself |
| RetryAfter.ReadsExactly | src/services/run-client.ts:241-249 | a client reads exactly the prints of the delays it allows |
| RetryAfter.ClientsReadIff | src/services/wallet-access-client.ts:196-224 | each client reads a delay exactly from the print of one in its range, on its own quota failure |
| RetryAfter.StatusOfError | apps/api/src/app.ts:505-539 | a response keeps its code, and its status if that is one of an error |
| RetryAfter.DelaySurvives | apps/api/src/app.ts:520-544 | a delay attached to a quota failure reaches its client if it is in range, and is absent otherwise |
| RetryAfter.HeaderOnlyOnQuotas | src/services/wallet-access-client.ts:202-210 | a header is sent only on the two quota failures, and then the matching client accepts it |
| RetryAfter.ShownDelayLeavesWindow | apps/api/src/wallet-session-service.ts:84-93 | the delay shown to the user leaves the exhausted window and no shorter positive one does |
| Admission.AdmissionService.CreateRun | apps/api/src/production-service.ts:714-870 | the three reads, both quotas and the inserts, committed together or not at all |
| Admission.ReplayConsumesNothing | apps/api/src/production-service.ts:753-803 | a repeated call returns its run, or the conflict, and changes nothing, whatever its reads saw |
| Admission.AllOrNothing | apps/api/src/production-service.ts:860-866 | a refused call changes nothing; an accepted one changes nothing or adds its run |
| Admission.FreshKeyAdmitted | apps/api/src/production-service.ts:714-870 | a new key is admitted if and only if day, live limit, ids and derived preflight key allow it |
| Admission.FreshKeyRefused | apps/api/src/production-service.ts:592-705 | why and with which delay a call with a new key is refused, day before live limit |
| Admission.FreshKeyAnswered | apps/api/src/production-service.ts:842-866 | with room, a new key is answered with its run, or with the conflict and no change if its preflight key is taken |
| Admission.PreflightKeyTaken | apps/api/src/production-service.ts:842-866 | two ordinary requests reach a store in which a new key is refused although no run has it |
| Admission.DailyCountIsExact | apps/api/src/production-service.ts:592-644 | for every young day a project's counter is the number of runs whose creation clock lies in it, and at most the stored limit |
| Admission.LiveLimitHolds | apps/api/src/production-service.ts:646-705 | with one policy no project ever has more unfinished wallet and relayer runs than it allows |
| Admission.OneRunPerKey | apps/api/src/production-service.ts:714-870 | once a key created a run, every later call with it returns that run or the conflict |
| Admission.RefusalNamesDelay | apps/api/src/production-service.ts:625-643 | the delay named by an exhausted daily quota leads exactly into the next day |
| Enqueue.StoredUnchanged | apps/api/src/production-service.ts:423-434 | a payload survives storage unchanged exactly when its keys are in jsonb's order |
| Enqueue.AcceptedIsStored | apps/api/src/production-service.ts:436-536 | however its statements interleave with others, an accepted call names the one command stored for its key, with its intent, from then on; a denied one stores nothing |
| Enqueue.QuietCallAccepted | apps/api/src/production-service.ts:436-536 | a call nothing interferes with is accepted with its own id when run, key and submission allow it |
| Enqueue.QuietCallAnswered | apps/api/src/production-service.ts:436-506 | the answer of an undisturbed call with a new key in every case, by the run's journal, its mode and its submission |
| Enqueue.RacingCallsAgree | apps/api/src/production-service.ts:436-536 | two accepted calls for one key name one command and ask for the same thing |
| Enqueue.RepeatAccepted | apps/api/src/production-service.ts:423-461 | repeating an accepted request is accepted if and only if its keys are in order |
| Enqueue.RacedCallAnswered | apps/api/src/production-service.ts:486-536 | a call that meets a row under its key at the insert is accepted with it if and only if run, kind and payload agree |
| Enqueue.RivalCallAnswered | apps/api/src/production-service.ts:500-520 | a call that meets a rival submission stores nothing and is told so |
| Enqueue.ShortPayloadInOrder | apps/api/src/production-service.ts:1286-1301 | payloads of one key, as attachments and submissions send, survive storage unchanged |
| Enqueue.EnqueueIsInsert | apps/api/src/production-service.ts:486-506 | seen from the store a call is one admissible insert or nothing, so the queue theorems cover it |
| Enqueue.DeployedConsumerRepeatRefused | apps/api/src/production-service.ts:1317-1323 | repeating a deployed-consumer verification is refused |
| Enqueue.OneSubmissionPerRun | apps/api/db/migrations/005_explicit_submission_authority.sql:25-32 | no run ever has two submissions that are not cancelled |
| Enqueue.KeptIsStored | apps/api/src/production-service.ts:538-590 | a kept derived-product intent is the stored one of its key from then on |
| Enqueue.KeptIff | apps/api/src/production-service.ts:538-590 | under a known key an intent is kept if and only if the stored one agrees |
| Enqueue.NewIsKept | apps/api/src/production-service.ts:538-590 | a new intent is kept under its own id |
| Enqueue.IntentService.Enqueue | apps/api/src/production-service.ts:436-536 | the call, statement by statement |
| WalletSubmission.WalletClient.Submit | src/services/run-client.ts:643-668 | a pending marker refuses, a hash is attached again, anything else prepares anew |
| WalletSubmission.WalletClient.ProveRecoveryStorageWritable | src/services/run-client.ts:113-125 | the pending marker is stored and read back before the wallet is asked; a write that is not read back leaves the marker and stops the submission |
| WalletSubmission.WalletClient.OnPrepared | src/services/run-client.ts:672-680 | the prepared transaction is refused on a foreign chain or unwritable storage, otherwise the marker is pending |
| WalletSubmission.WalletClient.OnSwitched | src/services/run-client.ts:681-694 | a failed switch or account request clears the pending marker |
| WalletSubmission.WalletClient.OnReply | src/services/run-client.ts:696-725 | what each wallet reply does to marker and flight |
| WalletSubmission.WalletClient.ReconcileWalletSubmission | src/services/run-client.ts:150-175 | the marker is cleared exactly when the journal holds its transaction |
| WalletSubmission.RejectedIff | src/services/run-client.ts:136-148 | the client takes for a user's rejection exactly the code 4001, as a number or a string, or an error whose message holds "user rejected" in any case |
| WalletSubmission.PreparesIff | apps/api/src/production-service.ts:1166-1285 | the server prepares a transaction exactly for a live wallet run of the project with an accepted preflight and nothing after it, its evidence and no submission |
| WalletSubmission.ArrivalRefused | src/services/run-client.ts:672-682 | nothing reaches the wallet for a transaction not granted or for another chain, or without a marker written and read back |
| WalletSubmission.SubmissionReachesWallet | src/services/run-client.ts:653-706 | a submission without a marker that counts reaches the wallet if the server prepares it, with the pending marker stored |
| WalletSubmission.ClosedRefuses | apps/api/src/production-service.ts:1175-1215 | a closed run is refused whatever else was read |
| WalletSubmission.AtMostOneBroadcast | src/services/run-client.ts:620-733 | in every run at most one transaction more is sent than the wallet falsely reports as rejected |
| WalletSubmission.TruthfulWalletSendsOnce | src/services/run-client.ts:620-730 | if the wallet says "rejected" only of what it dropped, at most one transaction is ever sent, whatever else fails |
| WalletSubmission.OpenEndIsFinal | src/services/run-client.ts:697-718 | after any other error, a reply without a storable hash, or a reload, the marker is pending in every continuation, each submission is refused and nothing more reaches the wallet |
| WalletSubmission.RejectionAllowsRetry | src/services/run-client.ts:681-712 | after a true rejection or a failed switch the marker is gone and the next submission reaches the wallet |
| WalletSubmission.HashIsRecovered | src/services/run-client.ts:653-670 | a stored hash stays and every later submission attaches it and asks the wallet for nothing, until a journal that holds it is read |
| WalletSubmission.ReconcilesIff | src/services/run-client.ts:150-190 | reconciliation clears the marker if and only if the journal read holds its transaction |
| WalletSubmission.ReconciledIsRefused | apps/api/src/production-service.ts:1175-1215 | once reconciliation cleared the marker no second transaction is ever prepared |
| WalletSubmission.FalseRejectionsRebroadcast | src/services/run-client.ts:136-148 | the bound is reached: n false rejections allow n broadcasts and a further submission |
| WalletSubmission.RecoveryKeysDistinct | src/services/run-client.ts:81-83 | markers are shared only by the same run and key |
| Relayer.RelayerRepository.PersistRelayerTransaction | apps/api/src/postgres.ts:523-702 | the checks, the quota, and the row with its audit row, or nothing |
| Relayer.RelayerRepository.ClaimRelayerBroadcastAttempt | apps/api/src/postgres.ts:704-747 | the attempt is granted and audited together, or refused |
| Relayer.RelayerRepository.MarkRelayerBroadcast | apps/api/src/postgres.ts:749-804 | the broadcast is recorded after an attempt, or confirmed, or refused |
| Relayer.OneImmutableTransaction | apps/api/src/postgres.ts:523-804 | one transaction per run, key, hash and nonce, which never changes but for its two markers in order |
| Relayer.GrantedAtMostOnce | apps/api/src/postgres.ts:704-747 | the attempt is granted at most once, never after it was recorded |
| Relayer.GrantedIff | apps/api/src/postgres.ts:704-747 | an attempt is granted if and only if the row of that key has that hash and neither marker |
| Relayer.GrantedOnceIffAsked | apps/api/src/postgres.ts:704-747 | in every run from a stored row not attempted the attempt is granted exactly once if it is asked for under its hash, and never otherwise |
| Relayer.MarkedIff | apps/api/src/postgres.ts:749-804 | a broadcast is recorded or confirmed if and only if the row of that key and hash was attempted; the first time stays |
| Relayer.RelayedOnce | apps/worker/src/worker.ts:1609-1731 | from every reachable state a storable value is stored, granted, sent once and recorded, and its run reports one attempt and no further broadcast |
| Relayer.CheckedIff | apps/api/src/postgres.ts:523-575 | the exact values that pass the checks, with both fee caps |
| Relayer.StoredAsGiven | apps/api/src/postgres.ts:635-665 | what is stored is what was given, within both fee caps under a policy |
| Relayer.RepeatedIff | apps/api/src/postgres.ts:573-620 | a repeated value stores nothing and is confirmed if and only if run and signed fields are those stored, whatever the quota |
| Relayer.RacedIff | apps/api/src/postgres.ts:621-690 | the same for a call that raced with the row it meets, behind the quota |
| Relayer.SentAtMostOnce | apps/worker/src/worker.ts:1670-1731 | with racing and dying handlers no transaction is sent twice and no run sends two |
| Relayer.ReportedCounts | apps/api/src/production-service.ts:910-925 | a run reports one attempt exactly when one was made, and a count of zero after the recorded hash |
| Relayer.DailyQuotaHolds | apps/api/src/postgres.ts:621-634 | no project has more transactions of one day persisted under a policy than its quota, in any time zone, whatever the clocks said and whatever was persisted without one |
| Relayer.DailyQuotaHoldsForAll | apps/worker/src/worker.ts:1609-1615 | with a policy on every run the quota bounds all transactions of the day |
| Relayer.DailyQuotaInUtc | apps/api/src/postgres.ts:621-634 | the bound for sessions whose days are UTC days |
| Relayer.StoredIff | apps/api/src/postgres.ts:606-653 | an otherwise possible transaction is stored if and only if it has no policy, no quota is configured, or the day's use is below it |
| Relayer.UncheckedWithoutPolicy | apps/worker/src/worker.ts:1112-1116 | without a policy even a quota of none lets a transaction in |
| SignIn.IsoReads | packages/contracts/src/auth-timestamp.ts:3-10 | every printed timestamp is canonical and reads back as itself |
| SignIn.ReadPrintsIso | packages/contracts/src/auth-timestamp.ts:3-10 | the canonical timestamps are exactly the printed ones |
| SignIn.ClockTicks | packages/contracts/src/auth-timestamp.ts:3-10 | calendar and milliseconds agree: up to the year 9999 each tick is a valid time and counts one, from zero in 1970 |
| SignIn.MonthLengths | packages/contracts/src/auth-timestamp.ts:3-10 | the lengths of the months, and of February by the leap rule |
| SignIn.MessageInjective | apps/api/src/wallet-auth.ts:44-83 | two inputs with one message agree on origin, address, nonce and both times |
| SignIn.BuiltExactly | apps/api/src/wallet-auth.ts:44-83 | for calendar times the message is built exactly for a root HTTPS origin of bounded length, an address, a nonce and five minutes |
| SignIn.RootOriginIff | apps/api/src/wallet-auth.ts:15-35 | the origins a message is built for, field by field |
| SignIn.WalletAddressIff | apps/api/src/wallet-auth.ts:5-14 | the addresses a message is built for |
| SignIn.OtherPurposeRefused | apps/api/src/wallet-auth.ts:44-83 | no message is built for another purpose |
| SignIn.StoredRowHydrates | apps/api/src/wallet-session-service.ts:121-166 | every stored challenge hydrates to the address and message it was created with |
| SignIn.ForeignMessageRefused | apps/api/src/wallet-session-service.ts:121-166 | a row carrying the message of any other address, nonce, time or origin is refused |
| SignIn.HydratesExactly | apps/api/src/wallet-session-service.ts:121-166 | a row hydrates exactly when its message is the one built from its own fields |
| ChallengeQuota.ChallengeService.CreateWalletChallenge | apps/api/src/wallet-session-service.ts:258-381 | both reservations, the message and the row, committed together or not at all |
| ChallengeQuota.ChallengeService.ConsumeWalletChallenge | apps/api/src/wallet-session-service.ts:383-420 | the claiming update and the hydration of its row |
| ChallengeQuota.RefusalConsumesNothing | apps/api/src/wallet-session-service.ts:211-256 | a refusal by either quota changes neither count |
| ChallengeQuota.IssuedIff | apps/api/src/wallet-session-service.ts:258-381 | the exact requests that are issued a challenge |
| ChallengeQuota.LimitedIff | apps/api/src/wallet-session-service.ts:211-256 | a well-formed request is told to wait exactly when a window has no room, and for how long |
| ChallengeQuota.CleanupDeletes | apps/api/src/wallet-session-service.ts:175-210 | what a cleanup deletes is gone, and nothing else |
| ChallengeQuota.ConsumedIff | apps/api/src/wallet-session-service.ts:383-420 | a challenge is consumed exactly while it is stored, unconsumed and not expired |
| ChallengeQuota.IssuedIsConsumedOnce | apps/api/src/wallet-session-service.ts:258-420 | whatever happens in between, an issued challenge is consumed by the first call before its expiry for its own address and message, and by no second one |
| ChallengeQuota.RefusalNamesDelay | apps/api/src/wallet-session-service.ts:236-255 | the delay named by either exhausted minute quota leads exactly into the next minute |
| ChallengeQuota.TotalPlusOne | apps/api/src/wallet-session-service.ts:211-256 | one more use of one address window is one more in their sum |
| ChallengeQuota.CountsAgree | apps/api/src/wallet-session-service.ts:175-381 | for every young minute the global count is the number of challenges issued and the sum of the address counts, and all are within their limits |
| ChallengeQuota.OneSessionPerChallenge | apps/api/src/wallet-session-service.ts:383-420 | a challenge becomes at most one session, is consumed only before it expires, and hydrates while stored |
| RunList.FilterAgrees | apps/api/src/production-service.ts:1073-1090 | the SQL status filter and the shown status agree on every projection |
| RunList.ListedIff | apps/api/src/production-service.ts:1065-1129 | which limits are refused, how many runs a page shows, and when there is a next one |
| RunList.PagesInOrder | apps/api/src/production-service.ts:1063-1143 | paging never repeats or reorders a run and is complete exactly when each page boundary is separated |
| RunList.AllLimitsComplete | apps/api/src/production-service.ts:1063-1143 | every limit shows every run exactly when each run is separated from the next |
| RunList.WholeSecondsSeparated | apps/api/src/production-service.ts:1130-1142 | whole-second times separate all runs |
| RunList.SeparatedMeans | apps/api/src/production-service.ts:1130-1142 | separated means an earlier second, or the start of the same one with a smaller id |
| RunList.SameSecondIsLost | apps/api/src/production-service.ts:1130-1142 | of two runs of one second, paged one by one, the second is never shown |
| Hydration.ContiguousEventSequence | src/services/run-surface.ts:387-398 | for any events the result is the one n with 1..n present and n + 1 absent |
| Hydration.SurfaceServices.HydrateRun | src/services/run-surface.ts:642-676 | with no other hydration beside it the cache becomes a journal prefix of the stated length and the sync state says whether it meets the projection |
| Hydration.SurfaceServices.BeginHydration | src/services/run-surface.ts:644-656 | what a hydration captures before its first page |
| Hydration.SurfaceServices.OnPage | src/services/run-surface.ts:657-673 | one turn of the page loop on whatever the journal then serves |
| Hydration.SurfaceServices.FinishHydration | src/services/run-surface.ts:674-678 | the cache is overwritten and the sync state counts the contiguous events |
| Hydration.ReachCovers | src/services/run-surface.ts:652-670 | the result covers the projection if and only if the gap is at most 64 full pages |
| Hydration.IncrementalEqualsReload | src/services/run-surface.ts:642-676 | on an unchanged journal it equals a full reload exactly when the journal fits into 64 pages or nothing was cached |
| Hydration.CacheStaysPrefix | src/services/run-surface.ts:642-676 | over any number of visits one after another to a growing journal the cache is a prefix of it and never shrinks |
| HydrationRuns.InterleavedIsPrefix | src/services/run-surface.ts:642-676 | in every interleaving of hydrations, failures and appends the cache is a journal prefix, and an ending hydration covers its projection if and only if the gap was at most 64 pages |
| HydrationRuns.FinishKeepsIff | src/services/run-surface.ts:674-678 | an ending hydration keeps what is cached exactly when its result is at least as long |
| HydrationRuns.EndsOnce | src/services/run-surface.ts:674-678 | a hydration writes the cache once |
| HydrationRuns.UndisturbedNeverShrinks | src/services/run-surface.ts:642-676 | a hydration during which no other ends never shortens the cache |
| HydrationRuns.OverlapShrinks | src/services/run-surface.ts:642-676 | two overlapping hydrations that leave the cache shorter |
| Hydration.PageFacts | apps/api/src/production-service.ts:1145-1164 | a page holds the next rows in order, at most a thousand, and names the last of them |
| Hydration.SetEventIs | src/services/run-surface.ts:661-668 | merging replaces the event of a sequence, adds a new one, and ignores one without a sequence |
| Hydration.GappedCacheIsDropped | src/services/run-surface.ts:644-656 | a cached list with a gap is not used |
| Hydration.StoredIsNumbered | packages/domain/src/run-lifecycle.ts:142-160 | every journal the service stores is numbered as paging needs |
| SessionController.WalletSessionController.BeginRestore | src/services/wallet-session-controller.ts:190-247 | restore up to its await |
| SessionController.WalletSessionController.BeginCreateSession | src/services/wallet-session-controller.ts:249-270 | createSession up to its await, with what it captures |
| SessionController.WalletSessionController.BeginSignOut | src/services/wallet-session-controller.ts:312-329 | signOut up to its await |
| SessionController.WalletSessionController.BeginRetry | src/services/wallet-session-controller.ts:361-364 | retry repeats the unavailable operation, or does nothing |
| SessionController.WalletSessionController.Forget | src/services/wallet-session-controller.ts:366-370 | forgetting the browser clears the authority and every flight |
| SessionController.WalletSessionController.OnRestored | src/services/wallet-session-controller.ts:219-243 | what the answer to a restore changes |
| SessionController.WalletSessionController.OnSignedOut | src/services/wallet-session-controller.ts:330-347 | what the answer to a sign-out changes |
| SessionController.WalletSessionController.OnCreated | src/services/wallet-session-controller.ts:272-305 | what the answer to a session creation changes |
| SessionController.StaleChangesNothing | src/services/wallet-session-controller.ts:172-174 | a completion under an older revision or after closing changes nothing |
| SessionController.ReachableStates | src/services/wallet-session-controller.ts:134-387 | one flight at most, under the current revision; a shown session holds its token; a session-kept token is the stored one |
| SessionController.TokenIff | src/services/wallet-session-controller.ts:17 | a token is 64 lower-case hex digits after "project_" |
| SessionController.RepeatedCallsJoin | src/services/wallet-session-controller.ts:190-316 | a call repeated while its operation is under way starts nothing |
| SessionController.CreateAsks | src/services/wallet-session-controller.ts:249-270 | a valid request starts a creation over anything else, and leaves token, record and storage until it is answered |
| SessionController.SignOutAsks | src/services/wallet-session-controller.ts:312-326 | with a token a sign-out is asked for; without one what is under way is given up |
| SessionController.RestoreShows | src/services/wallet-session-controller.ts:211-235 | a restore asks under the stored token and its answer shows the account under that token |
| SessionController.NothingToRestore | src/services/wallet-session-controller.ts:195-210 | without a readable token nothing is shown; a malformed one is dropped |
| SessionController.CreatedIsShown | src/services/wallet-session-controller.ts:272-295 | a created session is shown under its token, and if stored the next page restores it under the same token |
| SessionController.AuthorityIsDropped | src/services/wallet-session-controller.ts:148-162 | a revoked answer, an unauthorized answer to a restore or sign-out, and forgetting leave no token, no record and, if storage lets go, nothing stored |
| SessionController.SignedOffStays | src/services/wallet-session-controller.ts:172-174 | from then on no continuation without a creation shows a session or holds a token |
| SessionController.OtherFailuresKeep | src/services/wallet-session-controller.ts:176-188 | any other failure keeps token, record and storage and shows unavailable with its operation, cause and code |
| SessionController.RetryRepeats | src/services/wallet-session-controller.ts:361-364 | retry asks again for the operation that was unavailable |
| SessionController.CancelShowsLast | src/services/wallet-session-controller.ts:372-376 | cancelling shows the session there was and no later answer changes it |
| SessionController.CloseEnds | src/services/wallet-session-controller.ts:378-385 | closing drops token and record and leaves what is stored |
| SessionController.SignInToSignOut | src/services/wallet-session-controller.ts:190-345 | sign-in, restore on the next page and sign-out, end to end |
| SessionController.FailedCreationRestores | src/services/wallet-session-controller.ts:296-303 | a failed creation leaves token, persistence, record and storage as when it began |
| SessionController.ClosedIsFinal | src/services/wallet-session-controller.ts:378-385 | after closing nothing changes and no token is left |
| ProviderAdapter.WalletProviderAdapter.DoConnect | src/services/wallet-provider-adapter.ts:389-454 | what a connect call starts, shares or refuses |
| ProviderAdapter.WalletProviderAdapter.DoSignMessage | src/services/wallet-provider-adapter.ts:553-584 | what a signature request starts, shares or refuses |
| ProviderAdapter.WalletProviderAdapter.DiscoverProviders | src/services/wallet-provider-adapter.ts:313-330 | what a discovery starts, shares or refuses |
| ProviderAdapter.WalletProviderAdapter.OnCaught | src/services/wallet-provider-adapter.ts:540-543 | the first handler: a failure overtaken by then becomes a cancellation, except for a discovery |
| ProviderAdapter.WalletProviderAdapter.OnSettled | src/services/wallet-provider-adapter.ts:546-548 | the last handler releases the flight if it is still this attempt's |
| ProviderAdapter.WalletProviderAdapter.OnReply | src/services/wallet-provider-adapter.ts:456-539 | how an operation goes on after a wallet reply |
| ProviderAdapter.ConnectionsAreProven | src/services/wallet-provider-adapter.ts:456-539 | a resolved or stored connection has its evidence: the offered address, chain id 0x72 read last, empty code |
| ProviderAdapter.SucceedsOnlyWhenNewest | src/services/wallet-provider-adapter.ts:279-293 | an operation succeeds only as the newest one, and then the stored connection is its own |
| ProviderAdapter.OvertakenIsCancelled | src/services/wallet-provider-adapter.ts:295-311 | an operation overtaken before it finished settles as cancelled, whatever the wallet replies |
| ProviderAdapter.SettlesCancelledIff | src/services/wallet-provider-adapter.ts:540-549 | in every continuation an overtaken operation settles as cancelled if and only if it had not finished, or had failed as a connect or signature with its first handler still to run, or was cancelled already |
| ProviderAdapter.OvertakenDiscoveryFails | src/services/wallet-provider-adapter.ts:380-385 | a failed discovery that is overtaken keeps its failure |
| ProviderAdapter.OvertakenConnectResolves | src/services/wallet-provider-adapter.ts:537-549 | a finished connect that is overtaken still resolves |
| ProviderAdapter.LateFailureIsCancelled | src/services/wallet-provider-adapter.ts:540-543 | a connect or signature failure overtaken before its first handler runs is delivered as a cancellation |
| ProviderAdapter.CaughtIsFinal | src/services/wallet-provider-adapter.ts:540-549 | after the first handler no continuation changes what the promise settles as |
| ProviderAdapter.CaughtFailureIsKept | src/services/wallet-provider-adapter.ts:540-549 | a rejection that was handled and then overtaken is kept |
| ProviderAdapter.OneFlight | src/services/wallet-provider-adapter.ts:257-285 | one operation at most is in flight, the newest; a closed adapter has none and no connection |
| ProviderAdapter.UndisturbedConnect | src/services/wallet-provider-adapter.ts:389-549 | from every reachable open state without a connect under way, a connect over any route to Coston2 resolves with the account, which becomes the connection |
| ProviderAdapter.UndisturbedSign | src/services/wallet-provider-adapter.ts:553-609 | likewise a signature request resolves with the wallet's signature for the connected address |
| ProviderAdapter.UndisturbedDiscovery | src/services/wallet-provider-adapter.ts:313-387 | a discovery lists what was announced, each once in order, and only without any the browser's own wallet |
| ProviderAdapter.ConnectIsShared | src/services/wallet-provider-adapter.ts:423-432 | during a connect the same call joins it and any other is refused |
| ProviderAdapter.ConnectStartsIff | src/services/wallet-provider-adapter.ts:389-449 | exactly when a connect starts, and what else is answered |
| ProviderAdapter.SignStartsIff | src/services/wallet-provider-adapter.ts:553-583 | exactly when a signature request starts, joins or is refused |
| ProviderAdapter.DiscoverStartsIff | src/services/wallet-provider-adapter.ts:313-320 | exactly when a discovery starts or joins |
| ProviderAdapter.CancelOvertakesAll | src/services/wallet-provider-adapter.ts:618-621 | cancelling overtakes every operation, frees the flights and keeps the connection |
| ProviderAdapter.CloseEndsAll | src/services/wallet-provider-adapter.ts:623-628 | closing drops the connection, overtakes every operation and refuses every later call |
| ProviderAdapter.LateDeliveryKeepsFlight | src/services/wallet-provider-adapter.ts:546-548 | an operation that settles late leaves a newer flight alone |
| ProviderAdapter.FailuresAreNamed | src/services/wallet-provider-adapter.ts:456-536 | what each unexpected answer of the wallet is reported as |
| Migration.VerifyMigrationHistory | apps/api/src/migration-runner.ts:209-254 | the loops find the first failing check in order, or the state |
| Migration.AcceptedIsPrefix | apps/api/src/migration-runner.ts:209-254 | a history is accepted exactly when it is empty or a non-empty exact prefix of the plan |
| Migration.RefusedFor | apps/api/src/migration-runner.ts:209-254 | the code a refused history is refused with, in the order of the checks |
| Migration.HistoryRead | apps/api/src/migration-runner.ts:270-321 | what is read while tables are missing, before and after a run |
| Migration.Runner.RunVerifiedMigrations | apps/api/src/migration-runner.ts:348-427 | a run succeeds if and only if nothing it needs fails and what it would commit is the full plan; then it reports the old length and the plan's, and the tables and bodies are exactly those; otherwise nothing is committed, and lock and transaction are released |
| Migration.AllOrNothing | apps/api/src/migration-runner.ts:348-427 | with any number of runners and crashes the tables are the starting prefix or the full plan, each missing body committed once |
| Migration.RunCommits | apps/api/src/migration-runner.ts:348-427 | whatever happened before, a runner that gets the lock over an exact prefix and whose bodies complete to the full plan commits it and succeeds |
| Migration.BodiesSuffice | apps/api/src/migration-runner.ts:375-393 | bodies that apply their versions and leave the checksums alone complete to the full plan, so such a run commits |
| Migration.InsertsIff | apps/api/src/migration-runner.ts:323-346 | when the ledger's insert is refused, and exactly which checksums it adds |
| Migration.DeathFreesLock | apps/api/src/migration-runner.ts:403-427 | a runner that dies anywhere leaves the committed tables and frees the lock |
| Migration.CurrentSucceeds | apps/api/src/migration-runner.ts:365-374 | over the full plan a runner succeeds and changes nothing |
| Migration.FreshAppliesEachOnce | apps/api/src/migration-runner.ts:375-392 | from an empty database every body is committed exactly once |
| Migration.NonPrefixRefused | apps/api/src/migration-runner.ts:209-254 | a history that is no prefix is refused by every runner, unchanged |
| Migration.ChecksAgree | apps/api/src/deployment-lifecycle.ts:77-113 | on the tables as declared the SQL check accepts exactly what the runner accepts |
| Migration.AgreeWithoutForeignKey | apps/api/db/migrations/010_deployment_lifecycle.sql:3-9 | it is the foreign key that makes them agree: without it they differ exactly by checksums of unapplied versions |
| Migration.InsertKeepsKeys | apps/api/src/migration-runner.ts:323-341 | the ledger insert keeps the declared keys |
| Migration.SuccessIsAccepted | apps/api/src/deployment-lifecycle.ts:144-148 | after any runner's success the schema is one the service accepts |
| Merkle.CalculateMerkleRoot | apps/worker/src/live-runtime.ts:188-199 | the loop folds the siblings from the leaf upwards |
| Merkle.LessIff | apps/worker/src/live-runtime.ts:188-199 | the order of a pair is that of the first difference |
| Merkle.PairIsSorted | apps/worker/src/live-runtime.ts:188-199 | a pair is its two values with the smaller first |
| Merkle.GenuinePathFolds | apps/worker/src/live-runtime.ts:188-199 | the siblings of any node of any tree fold to its root |
| Merkle.FoldingPathIsGenuine | apps/worker/src/live-runtime.ts:188-199 | without collisions a path that folds to the root is the genuine path of a node |
| Merkle.AskedExactlyForLeaves | apps/worker/src/live-runtime.ts:766-786 | the contract is asked exactly about a leaf's response with its own path, and a proof is invalid exactly when a sibling is no digest |

## Left out

- ProviderAdapter.WalletProviderAdapter.OnSettled: the last handler and the settling of its promise, microtasks apart, are one step; the outcome is fixed before either.
- Postgres internals: deadlocks, snapshot levels and fairness of `SKIP LOCKED`; a transaction is one atomic step.
- The worker's handlers other than what they may put into a completion and the relayer broadcast; RPC, DNS, TLS and data-availability clients are foreign calls.
- Preserved evidence inside recovery payloads, artifact metadata and manifest contents; they do not steer the modelled code.
- `appendEvent` and `createRun` of the repository object in `postgres.ts`, which the service does not call.
- Admission and challenges without a quota policy are reachable only in the test environment; `createRun` without one is modelled, challenges without one are not.
- URL parsing, Keccak, signature checks and base64url/JSON coding of cursors: their results are parameters or identities.
- Byte-level validation of relayer addresses and hashes before the insert; they arrive as values.
- `normalizedFailure` of the session controller: completions carry the normalised failure.
- A second tab on the same run, and storage that changes by itself: one tab and a storage that survives a reload are taken as given.
- `created_at` as the tie-breaker of the claim order: QueueTheorems speaks of a head strictly first by `available_at`.
- The view fields hydration derives for display, account tokens, share tokens, the replay importer, heartbeats and readiness.
- Hydration.SurfaceServices.HydrateRun: sequences are numbers; the conversions of malformed page items are not modelled, because the service validates every event it serves.
- Migration.Runner.RunVerifiedMigrations: a failing unlock after success is not modelled; it only turns the reported result into a failure.
