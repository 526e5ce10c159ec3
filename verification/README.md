# Verified model of the GitHub delivery-analytics pipeline

The pipeline lands GitHub webhooks and historical API data in PostgreSQL with at-least-once delivery and
idempotent effects. This project models the state machines behind that claim and proves what they guarantee
over every run: any interleaving, any crash, any replay. `dafny verify dfyconfig.toml` checks all of it.

## The parts

**Pull-request projection and alert outbox.** `PullRequestTables` defines the four coupled tables and the effect of
one transaction; `PullRequestStorage` is the storage class, statement by statement; `PullRequestProjection` and
`AlertOutbox` prove what any history of deliveries and sweeps leaves behind. A violation of the unique
(repository, number) constraint is a raised error that rolls the transaction back.

**Effect-then-commit consumers.** `ConsumerProtocol` is the protocol as a state machine: polls, durable effects,
crashes before or after the effect, commits that may take effect and still raise, restarts, and rewinds. Its trace
lists the durable effects in the order in which they happened. `Warehouse` and `PrMonitor` are the two workers over
`ConsumerClient`, `RawEvents` and `DeadLetters`; each `Process` call is proved to be one protocol step.

**Restartable backfills.** `BackfillStorage` commits a page of rows with its checkpoint; `GitHubBackfill` and
`RestBackfill` are the nested page loops over the listings of `GitHubListing` and `RestListing`; `BackfillRuns` holds what
they share. A client answers each
request from a script that may differ from one request to the next and may raise at any of them; its answers may run out
(`left`), and the connection to the database may be lost before any commit (`lifetime`), so the theorems hold for every
crash point. A commit that took effect but was reported as failed is a crash just after it. Webhook rows land in the same
table before any commit (`arrivals`), and between two starts any other traversal may write.
What a summary accounts for, and that rows and completions are never taken back, is proved for any answers at all.
Only completeness supposes that the answers are cut from one frozen listing. `PageHistory` and `RestProgress`
follow the page sizes with which the numbered REST pages were fetched. `GitHubRows` and `RestRows` say what the table then
holds in the fields of the listed items, without the record builders.

**Analytics refresh ledger.** `RefreshLedger` is the guarded ledger row with its CHECK constraints, `RefreshService`
the four steps, `RefreshRuns` whole histories of tasks, retries and callbacks. A step may die after any number of
storage calls (`calls`); a storage call that raises is such a death followed by a failure callback's write.

**Rate-limit retries and timing percentiles.** `RateLimitRetry` and `TimingEvidence` hold the arithmetic.

## What turned out to be conditional

- Arrival order does matter for ties: both conflict guards are strict, so the first arrival keeps a tie.
  `ConvergesIffTiesAgree` gives the exact condition, and `DisagreeingTieDiverges` two orders that differ. Replay needs no
  such condition. Nothing is claimed about delivery ids, which legitimately depend on the order.
- A REST checkpoint stores a page number and no page size, although BUILD_PLAN.md:206 says that a retry resumes
  safely from it. `GrownPageSkips` commits a page of one and then a page of two: the traversal is completed and the middle
  one of three deployments is missing. For any history of page sizes `StoredIsFetched` says what the table holds and
  `CompleteIffTiled` that the window is complete if every page end within a listing was fetched by some page and, when
  all listed items are new and in the window, only then.
  `GuardSuffices` gives a guard to check before each page, that it starts no further than what earlier pages reached. It
  is exact unless sizes also shrink again (`GuardIsExactUnlessShrunk`, `ShrinkingMayRevisit`), and sizes that never grow
  pass it. The sizes of earlier starts are not stored anywhere, so the operator has to keep to it.
- The pull-request traversal stops at the first pull request at or beyond the window end. What it then holds is
  proved for any listing order; it is the whole window if no in-window pull request is listed later, which ascending creation order
  implies, and for pull requests new to the table only then (`CompletedCoversWindowIffSafe`).
- `finish_success` does not clamp its timestamp, unlike `finish_failure`, so a clock that went back is refused by a
  constraint. `GuardsRefineTransitions` states acceptance with that condition.
- A timing summary's ordering check never fails, but a positive wall time of at most half a microsecond rounds to a zero
  that its own field refuses (`SummaryAcceptedIff`).
- A pending alert does not mean unreviewed: only a close cancels it. `AlertLife` says what it does mean.

## Hypotheses

`NumbersIdentify`: within a repository a pull-request number belongs to one pull-request id, as the unique
constraint presumes. `Home`: the commands of one pull request arrive on one partition, as keying by repository
arranges. `Faithful` and `RestFaithful`: every answer of the API is cut from one frozen listing or is a failure; needed for
completeness only. A client whose answers never run out is supposed to be faithful, because against an API that always
announces another page the loops do not end; every invocation that returns used finitely many answers.
`Broker.Sound`: an error-free delivery callback is only given for an appended record. `NewRecords` and `NewPullRequests`,
for the converse directions only: listed items have different record keys, and none was stored before.
`JitterInRange`: the jitter lies between zero and the upper bound it is given.

## Model

| member | source | states |
|---|---|---|
| PullRequestStorage.PostgresPullRequestStorage.AdvanceWatermark | src/github_analytics/consumers/pr_storage.py:90-109 | The watermark moves exactly when the snapshot is strictly newer than it; a tie or an older snapshot changes nothing |
| PullRequestStorage.PostgresPullRequestStorage.UpsertOpenPullRequest | src/github_analytics/consumers/pr_storage.py:111-145 | An upsert keeps the stored review columns, and a number held by another open pull request is refused without a change |
| PullRequestStorage.PostgresPullRequestStorage.SyncFirstReviewToOpen | src/github_analytics/consumers/pr_storage.py:187-200 | The denormalised review is copied only when both rows exist |
| PullRequestStorage.PostgresPullRequestStorage.RecordFirstEligibleReview | src/github_analytics/consumers/pr_storage.py:160-185 | A running minimum: only a strictly earlier review replaces the stored one |
| PullRequestStorage.PostgresPullRequestStorage.CancelPendingAlert | src/github_analytics/consumers/pr_storage.py:153-158 | Only a pending row is cancelled, and nothing but its status changes |
| PullRequestStorage.PostgresPullRequestStorage.ApplySnapshotState | src/github_analytics/consumers/pr_storage.py:330-340 | An open snapshot leaves the alerts alone; a closed one removes the open row and cancels |
| PullRequestStorage.PostgresPullRequestStorage.ApplyPullRequest | src/github_analytics/consumers/pr_storage.py:244-256 | One atomic transition of the four tables: refused exactly when an open snapshot newer than the watermark has a number in use, stale exactly when it is not newer, and otherwise the watermark and every snapshot column of the open row are the snapshot's, or the row is gone and its alert is not pending; the whole new state is that of the transition that the history theorems are about |
| PullRequestStorage.PostgresPullRequestStorage.ApplyReview | src/github_analytics/consumers/pr_storage.py:258-287 | The author's own review is ineligible and leaves the first reviews alone; any other is recorded, in both tables, exactly when it is earlier than the stored one, even if its own snapshot is stale or closed; the whole new state is that of one atomic transition |
| PullRequestStorage.PostgresPullRequestStorage.CreateStaleAlerts | src/github_analytics/consumers/pr_storage.py:202-235 | A key enters the outbox exactly when its open row was opened at or before the cutoff, has no first review and is not a draft; every column of a new row is named; existing rows of any status stay, and the number of new rows is returned |
| PullRequestProjection.LatestPosition | src/github_analytics/consumers/pr_storage.py:102-108 | The running maximum of a history is the snapshot at the position of the greatest update time, first arrival on ties |
| PullRequestProjection.EarliestPosition | src/github_analytics/consumers/pr_storage.py:176-184 | The running minimum is the eligible review at the position of the least submission time, first arrival on ties |
| PullRequestProjection.NoConflict | infra/init/003_create_pr_monitor.sql:60-61 | If numbers identify pull requests, the unique constraint rejects no delivery in any reachable state |
| PullRequestProjection.RunProjects | src/github_analytics/consumers/pr_storage.py:244-287 | After any history, deliveries and sweeps mixed, all three serving tables are determined by the two extremes of the history |
| PullRequestProjection.ClosedForm | src/github_analytics/consumers/pr_storage.py:111-151 | An open row exists exactly when the newest snapshot is open; each of its columns is that snapshot's, it agrees with the watermark, and it carries the earliest review ever delivered whose reviewer is not the author that its own snapshot names, even one that came stale or while closed |
| PullRequestProjection.NoOpIffAbsorbed | src/github_analytics/consumers/pr_storage.py:102-108 | An event changes nothing if and only if the tables have absorbed it or reject it; an absorbed one reports stale, ineligible or unchanged |
| PullRequestProjection.StepIsMonotone | src/github_analytics/consumers/pr_storage.py:90-109 | No operation lowers a watermark or makes a first review later |
| PullRequestProjection.AbsorbedIsStable | src/github_analytics/consumers/pr_storage.py:244-287 | Once absorbed, an event stays absorbed through every later operation |
| PullRequestProjection.DeliveredIsAbsorbed | src/github_analytics/consumers/pr_storage.py:244-287 | Every committed delivery of a history is absorbed by the final tables |
| PullRequestProjection.ReplayIsNoOp | src/github_analytics/consumers/pr_storage.py:244-287 | Replaying any committed event after any further history leaves all four tables, alerts included, unchanged and reports a no-effect outcome, with no hypothesis about ties or numbers |
| PullRequestProjection.Converges | src/github_analytics/consumers/pr_storage.py:160-200 | Two histories with the same set of events, in any order, with any multiplicities and any sweeps, project alike when ties for an extreme agree |
| PullRequestProjection.DisagreeingTieDiverges | src/github_analytics/consumers/pr_storage.py:106-107 | A tie that disagrees yields two orders of the same events with different projections |
| PullRequestProjection.ConvergesIffTiesAgree | src/github_analytics/consumers/pr_storage.py:330-340 | A set of events converges under all orders and multiplicities if and only if its ties for an extreme agree |
| AlertOutbox.StepKeepsAlert | src/github_analytics/consumers/pr_storage.py:147-158 | One operation never drops or rewrites an outbox row, and cancels it exactly when it takes the open row away |
| AlertOutbox.PendingHasOpenRow | src/github_analytics/consumers/pr_storage.py:147-158 | In every reachable state a pending alert belongs to a currently open pull request, across closes and reopenings |
| AlertOutbox.AlertIffSwept | src/github_analytics/consumers/pr_storage.py:202-235 | A pull request has an outbox row if and only if at some sweep its open row was opened at or before the cutoff, without a first review and not a draft |
| AlertOutbox.AlertLife | src/github_analytics/consumers/pr_storage.py:202-235 | Each column of the row comes from the open row at the first sweep that found it stale and from that sweep's times; it is pending exactly while the pull request has stayed open ever since, and reopening never revives it |
| AlertOutbox.AlertedWhileUnreviewed | src/github_analytics/consumers/pr_storage.py:229-232 | When an alert is created no eligible review of the pull request has ever been delivered |
| AlertOutbox.OutboxEvolves | src/github_analytics/consumers/pr_storage.py:153-158 | Between any two moments rows only appear and statuses only move from pending to cancelled |
| AlertOutbox.SweepsCountRows | src/github_analytics/consumers/pr_storage.py:289-310 | Over any history the sweeps' return values sum to the number of outbox rows |
| ConsumerProtocol.TransitionIsSafe | src/github_analytics/consumers/warehouse.py:111-152 | Each step, faulty or not, keeps committed and polled offsets at or below the durable effects and leaves no gap in them |
| ConsumerProtocol.RunIsSafe | src/github_analytics/consumers/warehouse.py:111-152 | The same over every run of polls, crashes, failed commits, restarts and rewinds |
| ConsumerProtocol.BelowHiHappened | src/github_analytics/consumers/warehouse.py:127-147 | Every offset below a partition's applied mark has had its effect |
| ConsumerProtocol.HappenedBelowHi | src/github_analytics/consumers/warehouse.py:127-147 | Every effect that happened lies below the applied mark |
| ConsumerProtocol.WithoutRewindsTight | src/github_analytics/consumers/warehouse.py:148-152 | Without rewinds the applied mark is the committed offset or one more, whatever fails |
| ConsumerClient.Consumer.CommitAfterEffect | src/github_analytics/consumers/warehouse.py:143-152 | Success means that the offset is committed; a failed commit may have taken effect, and the restarted worker polls from whatever was committed |
| ConsumerClient.KeptUpPoll | src/github_analytics/consumers/warehouse.py:87-98 | A poll without a fault moves its partition exactly one record on, or nowhere at the log's end |
| RawEvents.PostgresRawEventStorage.Insert | src/github_analytics/consumers/storage.py:13-43 | A duplicate exactly when the delivery id has a row, and then nothing changes; otherwise one row is added under it with every column from the envelope and the position it was read at |
| RawEvents.InsertAllKeys | infra/init/002_create_raw_github_events.sql:16-17 | A page adds exactly its records' identities, never changes an existing row, and every new row is a record's own |
| DeadLetters.KafkaDlqPublisher.Publish | src/github_analytics/consumers/dlq.py:130-161 | Returns normally exactly when an error-free acknowledgement came before the deadline and before any failure, and then the record is on the topic; a raise leaves open whether it was appended |
| PoisonTrace.DlqIffPoisoned | src/github_analytics/consumers/dlq.py:58-84 | A dead letter with its lineage and bytes is on the topic if and only if the effect of a poison record put it there |
| Warehouse.WarehouseWriter.ApplyEffect | src/github_analytics/consumers/warehouse.py:119-146 | From the record's own fields: an invalid one becomes a dead letter with its position and bytes if the broker appends it; a valid one adds a row with every column from its envelope, or none when its delivery id has one; and which outcome is reported |
| Warehouse.WarehouseWriter.Process | src/github_analytics/consumers/warehouse.py:111-152 | One call is exactly one protocol step with the fault that occurred, and on success the table and the topic changed by exactly the effect of the polled record, stated in its fields |
| Warehouse.WarehouseWriter.RunForever | src/github_analytics/consumers/warehouse.py:87-109 | The loop performs exactly one protocol step for every poll that delivers a record, with the fault that it meets, up to the first that fails; without a failure every poll moved its partition on by one |
| Warehouse.StopsAtFirstFailure | src/github_analytics/consumers/warehouse.py:87-98 | The worker stops if and only if some poll delivers a record whose processing meets a fault, and nothing follows that failure |
| Warehouse.StoppedForGood | src/github_analytics/consumers/warehouse.py:87-98 | After a failure no further poll is taken |
| Warehouse.FirstDeliveryWins | src/github_analytics/consumers/storage.py:41-42 | In any trace a delivery id has one row if some record carried it, and every column of the row is from the first such record |
| Warehouse.WebhookRowIsTraced | src/github_analytics/consumers/storage.py:13-43 | Every webhook row was written by a record of the log, column for column |
| Warehouse.OffsetsNeverPassEffects | src/github_analytics/consumers/warehouse.py:111-152 | After any run, with backfills writing the same table, every offset below a committed one has a row under its delivery id or a dead letter with its position and bytes, every webhook row and dead letter traces to a log record field by field, and without rewinds at most one effect per partition is ahead |
| PrMonitor.Monitor.ApplyEffect | src/github_analytics/consumers/pr_monitor.py:214-246 | From the record's own fields: pull-request events and submitted reviews with their payload parts are applied, with the storage's outcome; one that lacks a part, or has no valid envelope, becomes a dead letter naming which; any other leaves tables and topic alone and is ignored; a refused event leaves no trace |
| PrMonitor.Routing | src/github_analytics/consumers/pr_monitor.py:344-381 | Which records are poison and for which reason, which are ignored and which are projected, from event name, action and payload parts; a projected one carries the envelope's and the parts' fields, each named |
| PrMonitor.Monitor.Process | src/github_analytics/consumers/pr_monitor.py:203-248 | One call is one protocol step, and on success tables, topic and outcome are those of the polled record's effect, stated in its fields |
| PrMonitor.Monitor.SweepStale | src/github_analytics/consumers/pr_monitor.py:250-256 | A sweep that raises stops the worker, which polls again from the committed offsets, with or without its outbox rows; otherwise it moves no offset, adds exactly the undrafted unreviewed pull requests opened at least the stale time ago, and returns their number |
| PrMonitor.Monitor.SweepWhenDue | src/github_analytics/consumers/pr_monitor.py:167-183 | A sweep happens exactly when it is due, the worker stops exactly when it raises, and otherwise the next one is due an interval later |
| PrMonitor.Monitor.HandlePoll | src/github_analytics/consumers/pr_monitor.py:184-188 | The record that the poll delivers, and no other, is processed with the fault that it meets, a refused command included; a poll that delivers none changes nothing; the worker stops exactly on a fault |
| PrMonitor.Monitor.RunForever | src/github_analytics/consumers/pr_monitor.py:163-201 | The loop performs exactly the due sweeps and the delivered records of its turns, in order, up to the first turn that fails, which it names; sweeps are at least an interval apart and no earlier turn leaves one overdue; without a failure every poll moved its partition on |
| PrMonitor.SpacedIffApart | src/github_analytics/consumers/pr_monitor.py:163-183 | What spaced sweeps are: the first not before the start, each at least the interval after the one before, and the next due exactly an interval after the last |
| PrMonitor.StopsAtFirstFailure | src/github_analytics/consumers/pr_monitor.py:163-201 | The worker stops if and only if in some turn a due sweep raises or a delivered record meets a fault, and nothing follows that failure |
| PrMonitor.StoppedForGood | src/github_analytics/consumers/pr_monitor.py:163-201 | After a failure no further turn is taken |
| PrMonitor.TraceExtremes | src/github_analytics/consumers/pr_monitor.py:203-248 | However often records were replayed, the extremes of the applied operations are those of the log prefix below the applied mark |
| PrMonitor.NeverRejected | infra/init/003_create_pr_monitor.sql:60-61 | With identified numbers no log record is ever rejected, so none can block its partition |
| PrMonitor.MonitorRefinesFold | src/github_analytics/consumers/pr_monitor.py:203-278 | After any run with crashes, failed commits, rewinds and sweeps, a pull request's watermark, open row and first review are those of one plain left fold over its partition's log up to the highest offset ever applied |
| PrMonitor.SinglePartitionRefinesFold | src/github_analytics/consumers/pr_monitor.py:203-278 | On one partition the three tables as a whole equal that fold |
| PrMonitor.CommittedHasEffect | src/github_analytics/consumers/pr_monitor.py:228-248 | Below the committed offset every pull-request event and submitted review with its parts is absorbed by the tables, and every invalid record or one that lacks a part has a dead letter with its position, bytes and reason |
| BackfillStorage.PostgresBackfillStorage.PersistPage | src/github_analytics/backfill/storage.py:107-165 | Rows and checkpoint commit together or not at all; inserted plus duplicates is the page size; which contradictory calls are refused, in which order |
| BackfillStorage.CountIsGrowth | src/github_analytics/backfill/storage.py:124-142 | The inserted count of a page is the growth of the backfilled rows, duplicates within the page included |
| BackfillStorage.PersistTotals | src/github_analytics/backfill/storage.py:81-88 | One commit raises the page total over all run keys by one and the record total by what it inserted |
| BackfillStorage.CountersAreConserved | src/github_analytics/backfill/storage.py:107-165 | Over any history of page commits and webhook inserts the record counters of all run keys sum to the backfilled rows |
| BackfillSummary.CommitPage | src/github_analytics/backfill/github.py:252-258 | A summary that accounts for the store so far still does after one more page, whatever webhook rows landed before the commit; a lost connection adds nothing of its own, and completions and rows stay |
| BackfillSummary.AccountsPlus | src/github_analytics/backfill/github.py:145-152 | Adding summaries of consecutive work accounts for the whole difference |
| BackfillSummary.WriteAccounts | src/github_analytics/backfill/storage.py:107-165 | A transaction of another process is accounted for as well: a page by some summary, a webhook row by none |
| BackfillProgress.PersistHasNoExtras | src/github_analytics/backfill/storage.py:27-57 | Committing expected records adds no backfilled row that is not an expected record's and touches no older row |
| BackfillProgress.WidenedHasNoExtras | src/github_analytics/backfill/storage.py:55 | Rows that another traversal wrote first do not count as extras of this one |
| BackfillProgress.WriteGrows | src/github_analytics/backfill/storage.py:27-57 | A transaction of another process adds only rows that it offers, under their keys, and touches no other checkpoint |
| BackfillRuns.GivenMore | src/github_analytics/backfill/storage.py:55 | The base of a traversal grows only by rows that other transactions wrote before it |
| BackfillRuns.AloneIsGivenNothing | src/github_analytics/backfill/storage.py:55 | Without other writers the base never grows |
| GitHubListing.AscendingIsCutOffSafe | src/github_analytics/backfill/github.py:221-225 | Listing by ascending creation time makes the cut-off safe |
| GitHubListing.CutOffIsExactIffSafe | src/github_analytics/backfill/github.py:221-227 | What a traversal with the cut-off selects is the half-open window filter if and only if no in-window pull request is listed after one at or beyond the window end |
| GitHubListing.TraversedHas | src/github_analytics/backfill/github.py:221-227 | The traversal selects exactly the in-window pull requests before the first one at or beyond the window end |
| GitHubBackfill.FreshStart | src/github_analytics/backfill/github.py:190-201 | A store without checkpoints of this traversal satisfies the restart invariant, whatever other windows, repositories and resources left behind |
| GitHubBackfill.ArrivalsKeepInv | src/github_analytics/consumers/storage.py:41-42 | Webhook rows landing in the table at any moment keep the restart invariant |
| GitHubBackfill.ForeignKeepsInv | src/github_analytics/backfill/storage.py:81-88 | So does any page of another traversal; exactly the rows it added count as given |
| GitHubBackfill.NestedPageKeepsInv | src/github_analytics/backfill/github.py:297-308 | Committing a page of children keeps the restart invariant and advances only its own claim |
| GitHubBackfill.OuterPageKeepsInv | src/github_analytics/backfill/github.py:251-258 | An outer page may be committed once both child traversals of each in-window pull request on it are completed |
| GitHubBackfill.GitHubPullRequestBackfill.FetchNested | src/github_analytics/backfill/github.py:285-297 | A frozen listing answers with the children after the cursor, up to a page, and names their end |
| GitHubBackfill.GitHubPullRequestBackfill.FetchPullRequests | src/github_analytics/backfill/github.py:203-218 | The same for pull requests |
| GitHubBackfill.GitHubPullRequestBackfill.CommitNested | src/github_analytics/backfill/github.py:298-308 | The committed page is accounted for; if it is the one at the resume position, the invariant holds and the traversal resumes after it |
| GitHubBackfill.GitHubPullRequestBackfill.BackfillNested | src/github_analytics/backfill/github.py:263-308 | For any answers the summary is exactly the growth of rows, pages and submissions, and success means completed; no request once completed; over a frozen listing the invariant holds wherever it stops, and nothing but a failure stops it |
| GitHubBackfill.GitHubPullRequestBackfill.BackfillChildren | src/github_analytics/backfill/github.py:228-248 | For any answers success completes reviews and commits, and the two summaries account for the growth; a frozen listing keeps the invariant |
| GitHubBackfill.GitHubPullRequestBackfill.BackfillNodes | src/github_analytics/backfill/github.py:219-249 | For any nodes it takes those before the window end, completes the children of those in the window, collects exactly their records, and accounts for the growth |
| GitHubBackfill.GitHubPullRequestBackfill.CommitPullRequests | src/github_analytics/backfill/github.py:251-258 | The page is accounted for and completes the traversal exactly when no cursor follows; over a frozen listing with completed children it keeps the invariant |
| GitHubBackfill.GitHubPullRequestBackfill.BackfillPage | src/github_analytics/backfill/github.py:203-261 | One turn of the outer loop advances the checkpoint and the position together, and its failure leaves both accounted for |
| GitHubBackfill.GitHubPullRequestBackfill.Run | src/github_analytics/backfill/github.py:187-261 | For any answers and any listing order success means a completed window and a summary equal to the growth of rows, pages and submissions, and a completed window is left with no request and no write; over a frozen listing the invariant holds wherever it fails |
| GitHubBackfill.CompletedIsExact | src/github_analytics/backfill/github.py:187-308 | A completed outer checkpoint means that the backfilled rows are those of the traversed pull requests with all their reviews and commits, beside what was there or other traversals wrote, and old rows are untouched |
| GitHubRows.CompletedHoldsListed | src/github_analytics/backfill/github.py:187-308 | After a completed outer checkpoint every listed pull request in the window, before the first one at or beyond its end, is stored under its node id and update time, and so is every one of its reviews under id and state and of its commits under the association id |
| GitHubRows.NewRowsAreListed | src/github_analytics/backfill/github.py:316-375 | At any moment of any number of starts every new backfilled row has the identity, event name, action, time, document and parent of one listed node: a pull request that the traversal reaches, or a review or commit of one |
| GitHubBackfill.SafeTraversalIsWindow | src/github_analytics/backfill/github.py:221-227 | In a cut-off safe listing the traversed records are all records of the window |
| GitHubBackfill.CompletedCoversWindowIffSafe | src/github_analytics/backfill/github.py:219-261 | A completed traversal has stored all records of the window if no in-window pull request is listed after one at or beyond the window end, and for pull requests new to the table only then |
| GitHubBackfill.InterruptionsDoNotMatter | src/github_analytics/backfill/github.py:187-308 | Two completed traversals of the same listing leave the same backfilled identities, and the same rows when identities identify records, however each was interrupted and whatever webhook rows landed |
| GitHubBackfill.Restart | src/github_analytics/backfill/github.py:187-261 | Any number of starts, each cut off at any request or commit, with any page sizes, webhook rows landing throughout and other traversals writing in between: the invariant holds over a base that grew only by rows those others wrote, the accounting holds, and one start that never fails completes the window for good |
| GitHubBackfill.InterruptedLikeUninterrupted | src/github_analytics/backfill/github.py:187-308 | Of two databases that start alike, one whose traversal is interrupted any number of times ends with the same backfilled rows as one whose traversal is not, and every new one is a record of a traversed pull request |
| RestListing.BelowCapIsBelowCeil | src/github_analytics/backfill/rest_backfill.py:19 | A page below the result cap is at most the number of pages the cap spans |
| PageHistory.CoversIffTiles | src/github_analytics/backfill/rest_backfill.py:318-329 | The pages of any size history cover a listing if and only if every page end within it was fetched by some page |
| PageHistory.GuardSuffices | src/github_analytics/backfill/rest_backfill.py:318-329 | If no page starts beyond what earlier pages reached, a finished traversal covers its listing |
| PageHistory.GuardIsExactUnlessShrunk | src/github_analytics/backfill/rest_backfill.py:318-329 | Unless sizes shrink, a finished traversal covers its listing only then |
| PageHistory.ShrinkingMayRevisit | src/github_analytics/backfill/rest_backfill.py:318-329 | A history that fails the guard and still covers, because a smaller size went back |
| PageHistory.NeverGrownPasses | src/github_analytics/backfill/rest_backfill.py:318-329 | Sizes that never grow pass the guard |
| RestProgress.FreshStart | src/github_analytics/backfill/rest_backfill.py:318-320 | A store without checkpoints of these traversals satisfies the restart invariant with an empty history, whatever others left behind |
| RestProgress.ArrivalsKeepInv | src/github_analytics/consumers/storage.py:41-42 | Webhook rows landing in the table at any moment keep the restart invariant |
| RestProgress.ForeignKeepsInv | src/github_analytics/backfill/storage.py:81-88 | So does any page of another traversal; exactly the rows it added count as given |
| RestProgress.PageIsNext | src/github_analytics/backfill/rest_backfill.py:318-329 | The stored page number is one past the committed pages |
| RestProgress.PageKeepsInv | src/github_analytics/backfill/rest_backfill.py:201-214 | Committing a page of runs, deployments or statuses, fetched with any size, keeps the invariant; a page of deployments may be committed once the statuses of its in-window nodes are completed |
| RestProgress.StoredIsFetched | src/github_analytics/backfill/rest_backfill.py:80-214 | For any page sizes the backfilled rows are at all times exactly what was there and the in-window records on the pages fetched |
| RestProgress.UnfetchedIsMissing | src/github_analytics/backfill/rest_backfill.py:318-329 | A new record is stored if and only if some page fetched its item |
| RestProgress.CompleteIffTiled | src/github_analytics/backfill/rest_backfill.py:318-329 | Whatever sizes the starts used, the window is completely stored if every listing is tiled by its pages, and if all items are new and in the window only then |
| RestProgress.DecliningIsGuarded | src/github_analytics/backfill/rest_backfill.py:318-329 | If page sizes never grew, no start left a gap in any of the traversals |
| RestProgress.GuardedIsTiling | src/github_analytics/backfill/rest_backfill.py:161-199 | If no start left a gap, completed traversals have tiled every listing, those of the statuses of each in-window deployment included |
| RestProgress.CompletedIsExact | src/github_analytics/backfill/rest_backfill.py:80-214 | Then completed checkpoints mean exactly the in-window runs, the in-window deployments and all their statuses, beside what was there or other traversals wrote |
| RestRows.CompletedHoldsWindow | src/github_analytics/backfill/rest_backfill.py:93-159 | After completed traversals without gaps a new row exists under a run's id, attempt and update time, or a deployment's id, if and only if some listed item with them was created from the window start on and before its end, and under a status's id if and only if a deployment of the window lists it, whatever the status's own time |
| RestRows.NewRowsAreListed | src/github_analytics/backfill/rest_backfill.py:216-271 | At any moment of any number of starts every new backfilled row has the identity, event name, action, time, document and parent of one listed run, deployment or status of the window |
| RestProgress.InterruptionsDoNotMatter | src/github_analytics/backfill/rest_backfill.py:80-214 | Two completed sets of traversals without gaps, over the same base, leave the same backfilled identities, whatever page sizes they used |
| RestProgress.GrownPageSkips | src/github_analytics/backfill/rest_backfill.py:318-329 | From any store that has neither the checkpoint nor the record: a page of size one, then a page of size two, and the traversal is completed while the second of three in-window deployments is not stored |
| RestBackfill.GitHubRestBackfill.PersistPage | src/github_analytics/backfill/rest_backfill.py:201-214 | The page is accounted for and its number or completion recorded, whatever it holds; if it is a page of the listing the invariant holds with its size on record |
| RestBackfill.GitHubRestBackfill.WorkflowRunsPage | src/github_analytics/backfill/rest_backfill.py:93-125 | One request: refused beyond the cap, stored before an unexpectedly empty page is objected to, and continued only below the cap |
| RestBackfill.GitHubRestBackfill.RunWorkflowRuns | src/github_analytics/backfill/rest_backfill.py:80-125 | For any answers at all, resuming at page p makes at most max(1, ceil(1000 / size) - p + 1) requests, and the summary accounts for the store; over a frozen listing it keeps the invariant and, within the cap, completes |
| RestBackfill.GitHubRestBackfill.RunDeploymentStatuses | src/github_analytics/backfill/rest_backfill.py:168-199 | For any answers success completes the traversal from its own checkpoint and accounts for the growth, leaving the outer checkpoint alone; over a frozen listing the invariant holds wherever it stops |
| RestBackfill.GitHubRestBackfill.RunDeploymentNodes | src/github_analytics/backfill/rest_backfill.py:146-159 | For any nodes it collects exactly the in-window deployments, each with completed statuses, and accounts for the growth |
| RestBackfill.GitHubRestBackfill.DeploymentsPage | src/github_analytics/backfill/rest_backfill.py:140-166 | One turn of the deployments loop: statuses first, then the page, with everything accounted for also on failure |
| RestBackfill.GitHubRestBackfill.RunDeployments | src/github_analytics/backfill/rest_backfill.py:127-166 | For any answers success means a completed traversal whose summary is the growth, and a completed one is left alone; over a frozen listing the invariant holds wherever it stops |
| RestBackfill.GitHubRestBackfill.Run | src/github_analytics/backfill/rest_backfill.py:67-78 | For any answers both families are completed and both summaries accounted for, or the failure is; over a frozen listing the invariant holds either way |
| RestBackfill.StartOnce | src/github_analytics/backfill/rest_backfill.py:67-78 | One process start, cut off anywhere: the invariant and the accounting hold, only its own page size is added to the record, and completions stay |
| RestBackfill.Restart | src/github_analytics/backfill/rest_backfill.py:67-78 | Any number of starts with any page sizes, cut off anywhere, webhook rows landing throughout and other traversals writing in between: the invariant holds over a base that grew only by rows those others wrote, the accounting holds, the recorded sizes are those used, one start that never fails completes both families, and sizes that never grew leave no gap |
| RestBackfill.InterruptedLikeUninterrupted | src/github_analytics/backfill/rest_backfill.py:80-214 | Of two databases that start alike, one whose traversals are interrupted any number of times, with pages that never grow, ends with the same backfilled identities as one whose traversals are not, and every new row is a record of the window |
| RefreshLedger.PostgresAnalyticsRefreshStorage.Put | infra/init/006_create_analytics_refresh_runs.sql:33-60 | A statement whose row violates a constraint raises and changes nothing |
| RefreshLedger.PostgresAnalyticsRefreshStorage.BeginRun | src/github_analytics/analytics_refresh/storage.py:16-48 | Accepted exactly for an ordered interval and a run that has not succeeded; the row then has the identity, start and relation given, is running, and every other column is empty or zero |
| RefreshLedger.PostgresAnalyticsRefreshStorage.RecordWatermark | src/github_analytics/analytics_refresh/storage.py:59-66 | Accepted exactly on a running row, with a delay that is not negative; only the maximum and the delay change |
| RefreshLedger.PostgresAnalyticsRefreshStorage.RecordSource | src/github_analytics/analytics_refresh/storage.py:50-57 | Accepted exactly on a running row; only the freshness artifact changes, and the invocation id if one is given |
| RefreshLedger.PostgresAnalyticsRefreshStorage.ResumeBuild | src/github_analytics/analytics_refresh/storage.py:83-92 | Accepted exactly on a row that has not succeeded: running again, without finish time and error, everything else kept |
| RefreshLedger.PostgresAnalyticsRefreshStorage.RecordBuild | src/github_analytics/analytics_refresh/storage.py:68-81 | Accepted exactly on a running row; only invocation id, summary and counts are replaced |
| RefreshLedger.PostgresAnalyticsRefreshStorage.FinishSuccess | src/github_analytics/analytics_refresh/storage.py:94-100 | Accepted exactly on a row that has not failed and did not start later; only status and finish time change |
| RefreshLedger.PostgresAnalyticsRefreshStorage.FinishFailure | src/github_analytics/analytics_refresh/storage.py:102-119 | Accepted exactly on a row that has not succeeded: failed at the later of the given time and the start, a stored category or summary kept, the evidence's summary and counts taken with its invocation id if it has one, and everything else kept |
| RefreshLedger.GuardsRefineTransitions | src/github_analytics/analytics_refresh/models.py:17-28 | The SQL guards accept a status change exactly when the declared table permits it and a success is not dated before the start; the constraints refuse nothing else; evidence never changes the status |
| RefreshLedger.OnlyBeginCreates | src/github_analytics/analytics_refresh/storage.py:253-255 | Without a row every statement but the begin is rejected |
| RefreshLedger.ReachableRowsPassChecks | infra/init/006_create_analytics_refresh_runs.sql:33-60 | Every row reachable by any statements has an ordered interval, a finish time exactly when it is not running and never before its start, no negative delay, and no error unless it failed |
| RefreshLedger.OnlyBackdatedSuccessFailsChecks | src/github_analytics/analytics_refresh/storage.py:16-119 | The constraints never have to refuse anything but a success dated before its start: every other statement that its guard lets through leaves a row that passes them |
| RefreshLedger.SucceededIsAbsorbing | src/github_analytics/analytics_refresh/models.py:17-21 | After a success no sequence of statements changes anything but the finish time |
| RefreshLedger.FirstFailurePersists | src/github_analytics/analytics_refresh/storage.py:114-115 | Until a resumption or restart the first failure's category and summary stay, whatever else is written |
| RefreshLedger.FirstFailureIsRecorded | src/github_analytics/analytics_refresh/storage.py:103-119 | A failure of a running row is always accepted and is the one that then persists |
| RefreshService.AnalyticsRefreshService.RecordAndCheckSource | src/github_analytics/analytics_refresh/service.py:33-55 | Killed after any number of storage calls, the row is what that prefix of the step's statements leaves and no other row changes; normal return exactly when the run could begin, the source was read and freshness passed |
| RefreshService.AnalyticsRefreshService.Build | src/github_analytics/analytics_refresh/service.py:57-66 | The same for the build: a rejected resume leaves the row alone even though the failure path runs |
| RefreshService.AnalyticsRefreshService.Succeed | src/github_analytics/analytics_refresh/service.py:68-71 | The same for the success step |
| RefreshService.AnalyticsRefreshService.Fail | src/github_analytics/analytics_refresh/service.py:73-76 | The same for the failure callback |
| RefreshService.AnalyticsRefreshService.PersistFailure | src/github_analytics/analytics_refresh/service.py:78-95 | A refresh error keeps its category, any other becomes unexpected, and result evidence is attached only when asked for |
| RefreshService.Delay | src/github_analytics/analytics_refresh/storage.py:170-172 | Whole seconds of age at the observation, rounded down, zero for a source stamp ahead of the clock |
| RefreshService.RunningAccepts | src/github_analytics/analytics_refresh/storage.py:253-255 | Evidence for a running row is always accepted, so recording it cannot raise inside a step |
| RefreshService.RejectedSource | src/github_analytics/analytics_refresh/service.py:37-41 | If a run cannot begin, none of the step's statements could have had an effect |
| RefreshService.RejectedBuild | src/github_analytics/analytics_refresh/service.py:60-66 | If a build cannot resume, none of its statements has an effect |
| RefreshRuns.RunIsConsistent | airflow/dags/analytics_refresh.py:43-81 | In every history that respects the DAG order, whatever dies or is retried, the row's evidence matches how far the run has come |
| RefreshRuns.Perform | src/github_analytics/analytics_refresh/service.py:98-119 | Each task run of a history is what the service method of its kind does to the ledger, and completes exactly when that method returns normally |
| RefreshRuns.SourceStepLeaves | src/github_analytics/analytics_refresh/service.py:33-55 | Every column after a source step that began and lived: the watermark and delay read, the artifact of the check even if it failed, no build evidence, and on failure its own category or the general one, its message and a finish time not before the start |
| RefreshRuns.BuildStepLeaves | src/github_analytics/analytics_refresh/service.py:57-66 | Every column after a build that lived: source columns kept, the evidence of the result or of the error if it carries any, and a failure recorded likewise |
| RefreshRuns.TracksLastBuild | airflow/dags/analytics_refresh.py:60-67 | The tracked build evidence is that of the last completed build attempt |
| RefreshRuns.TracksLastSource | airflow/dags/analytics_refresh.py:51-58 | The tracked source evidence is that of the last completed source attempt |
| RefreshRuns.SuccessCarriesEvidence | src/github_analytics/analytics_refresh/service.py:33-95 | A succeeded row has no error and finished no earlier than it started; its counts, summary and invocation are those that the last completed build returned, and its start, relation, watermark, delay and freshness artifact those of the last completed source check; nothing is left from failed attempts |
| RateLimitRetry.GraphQLVerdicts | src/github_analytics/backfill/graphql.py:104-120 | Which GraphQL replies are a primary limit, a secondary limit or data, in status, headers and messages: with nothing remaining only errors make a primary limit, a retry-after header alone makes a secondary one, and data needs status 200, no errors and no such header |
| RateLimitRetry.RestVerdicts | src/github_analytics/backfill/rest.py:113-121 | The same for REST: a limit needs status 403 or 429, and a reply of status 200 is data whatever its headers and message say |
| RateLimitRetry.PauseHonoursServer | src/github_analytics/backfill/graphql.py:128-144 | A retry after a primary limit never wakes before now or the reset, nor a second after the later of them; after a secondary one it waits the seconds of a readable header that is not negative plus at most a tenth and at most five seconds, and otherwise the doubled backoff plus at most five; the largest jitter reaches the limit after a primary one and after given seconds |
| RateLimitRetry.Execute | src/github_analytics/backfill/graphql.py:86-120 | At most R + 1 requests with one pause between consecutive ones, never past the loop's end; data is returned exactly when a reply within the budget carries it and every earlier one was a limit that could be waited out; each error kind says what the last reply was |
| RateLimitRetry.TotalBackoff | src/github_analytics/backfill/rest.py:141-148 | With only secondary limits and no usable header, n pauses total between B(2^n - 1) and that plus 5n seconds |
| RateLimitRetry.TotalBackoffBudget | src/github_analytics/backfill/rest.py:102-121 | The total never exceeds B(2^R - 1) + 5R for retry limit R |
| TimingEvidence.AtMostCounts | src/github_analytics/evidence/models.py:251-253 | The at-most count of a value is the number of samples not greater than it |
| TimingEvidence.SortedCounts | src/github_analytics/evidence/models.py:139 | Sorting changes no count of samples at or below a value |
| TimingEvidence.RankInRange | src/github_analytics/evidence/models.py:251-253 | The nearest-rank index is always inside the samples |
| TimingEvidence.NearestRankIsPercentile | src/github_analytics/evidence/models.py:251-253 | The nearest-rank value is the unique least sample with at least p * n samples at or below it |
| TimingEvidence.SummaryReportsPercentiles | src/github_analytics/evidence/models.py:139-147 | The summary has the number of samples, and its wall time, its throughput of samples per second, p50, p95 and maximum are those of the unsorted samples, each rounded to its own number of places, to nearest and a tie to even |
| TimingEvidence.DescribeIsOrdered | src/github_analytics/evidence/models.py:34-49 | Rounding keeps p50, p95 and maximum ordered for all samples |
| TimingEvidence.SummaryAcceptedIff | src/github_analytics/evidence/models.py:125-147 | A summary is produced if and only if there are samples, all nonnegative, and the wall time exceeds half a microsecond |

## Left out

- The webhook receiver, its signature check, its Kafka producer, metrics, settings and command lines: thin boundaries over libraries; the raw log is given.
- Pydantic and JSON parsing: a record carries a valid envelope or none, and a payload part is absent when its own validation fails. Timestamps are integers.
- Field checks in constructors (positive identities, nonempty text, aware timestamps) and the CHECK constraints that repeat them.
- Wall-clock bookkeeping columns: projected_at, updated_at, ingested_at, created_at of ledger rows, failed_at of dead letters.
- Text renderings: alert keys, source record keys, run ids (a hash) and cursors are structured values, which presumes that their text forms do not collide. Lower-casing of states, base64 of dead letters, the fixed topic name and redaction of error text are not modelled.
- Malformed nodes, a mismatched repository and other contract errors of an API answer: they are failed requests, raised before anything of that page is stored. A malformed node found midway through a page, after children of earlier nodes were stored, is a connection lost before the next commit.
- Completeness of workflow runs against an API that contradicts its own total: the page is stored and may complete early; only the request bound and the accounting are claimed then.
- The sent status, dispatch columns and delivery of alerts: the repository has no dispatcher.
- Several monitors, or two backfill processes running at the same time: other traversals write between two starts, not during one. Webhook rows land before any commit of a running backfill.
- Kafka retention, rebalancing and records with transport errors: a partition is a fixed log read by one worker; a consumer error is a crash before the effect. A rewind goes to an offset at or below the committed one.
- Poll and publish durations: only the order of deadline, acknowledgement and failure matters.
- dbt execution and artifact parsing: an arbitrary outcome with an optional summary. The number of task retries and their delays: any number is allowed, in any interleaving with callbacks.
- Floating point: delays, percentiles and rounding are exact reals, and rounding is half to even. Infinite and not-a-number values, which the sources refuse or the headers could spell, are not modelled.
- Substring search in API error messages: a message either names a secondary limit or does not. A GraphQL error entry without a text counts as no message, as in the source.
- Methods named FetchNested, FetchPullRequests, CommitNested, CommitPullRequests, BackfillChildren, BackfillNodes, BackfillPage, RunDeploymentNodes, WorkflowRunsPage, DeploymentsPage, SweepWhenDue, HandlePoll and StartOnce are pieces of longer methods of the source, which has no methods of these names.
- dbt models, dashboards, tools, the demonstration and the evidence runner: presentation and orchestration.
