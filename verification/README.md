# Verification model of the deployment controller

The controller turns task messages into reviews, reviews into claims, and claims into "mark the shared
table, stop the old server, start the new one". This project models that control logic in Dafny and proves
what it promises. `dafny verify dfyconfig.toml` checks everything.

## The parts

| file | what it models |
|---|---|
| `ReviewStore.dfy` | the table of operator reviews: upsert, decision, compare-and-set claim, newest-first listings |
| `SchedulerModel.dfy`, `Scheduler.dfy` | the review auditor: one tick of small steps, with pool threads, people and the poller acting between any two of them, and crashes at any point |
| `ChatPoller.dfy` | reading a chat with a cursor, an overlap and a command that polls the same chat again |
| `TaskScan.dfy` | one review per item key, on a row of its own, or a retry later |
| `PollStats.dfy` | the totals of a poll and their merged summaries |
| `Paths.dfy` | path normalisation and the alias sets built on it |
| `Placement.dfy` | row choice, plan building, the deterministic review policy and the executor's guard |
| `ShellWords.dfy` | quoting and joining a command line, and splitting it again |
| `PlanRewrites.dfy` | the in-place rewrites of a plan |
| `DeployedTable.dfy` | patching one row of the shared table, reading rows back, the deploying marker |
| `Executor.dfy` | the execution protocol, with people editing the table between any two steps |
| `TmuxFrame.dfy` | reading a command's result back from a captured pane |
| `Orchestrator.dfy` | the older launch path, for any interleaving of callers |
| `Ordering.dfy`, `Text.dfy`, `Wrappers.dfy` | sorted listings, string operations, `Option` |

Each class has the fields of the source's object and methods that change them; its invariant is `Valid()`.
Interference is explicit: `Auditor.Interfere`, `TaskPoller.Others` and `ReusableDeploymentExecutor.Outside` stand
wherever another thread, a person or the executor may act. Logs (`history`, `log`, `trace`, `events`) record
what was written or sent, and the main theorems speak about whole logs.

## What the code does and does not guarantee

Proved of the code as it is, where its comments or a first reading suggest otherwise:

- The auditor's count of unfinished futures stays the number of unfinished tasks exactly as long as no review is handed
  to the pool whose own future is still unfinished (`SchedulerModel.SubmitKeepsCountIff`). A review that names a worker
  in no running task has none (`SchedulerModel.NamedIsNotLive`). One that names no worker, sent back for retry by a
  person while its thread runs, is claimed again, its new future replaces the old one, and one of its two threads is not
  counted (`SchedulerModel.BlankWorkerIsUndercounted`).
- The stale-approval scan sees the newest 100 approvals and the claim scan the newest 20. A stale approval can be
  claimed exactly when there are more than 100 approvals and fewer than 20 of them are young
  (`SchedulerModel.StaleEscapesScan`).
- On a clock of whole seconds the five-second overlap reaches messages that show up to six seconds late, and no
  later ones (`ChatPoller.ChatPollingWorker.PollRegularly`, `ChatPoller.ChatPollingWorker.OverlapIsTight`).
- A pane captured right after the colon of the end marker makes the parser fail with an IndexError instead of waiting
  (`TmuxFrame.RaisesIffCutAtColon`).
- For two cleaned paths the alias test is wrong exactly when one is absolute under neither prefix and the other is another
  path of the same tail (`/x` with `x`, with `//x`, or with `x` under a prefix), or when one is a prefix and a slash before
  an absolute spelling of the other (`<source>//x` with `/x`, `<source>/<source>/x` with any spelling of `x` under a prefix,
  `<source>/<worker>/x` with those and with `x`): `Paths.AliasTestIsRightIff`. It then always errs by taking them for the
  same (`Paths.ConfusedCollide`).
- A model id that is itself `--model` makes the built plan incoherent (`PlanRewrites.BuiltIsCoherent`), and moving a
  plan to another row needs a table path (`PlanRewrites.SwapNeedsTablePath`).
- When the worker's address has left the table, the mark goes into the row of another worker while the original
  worker is interrupted (the equivalence in `Executor.IsMarkFor`), and the last table write puts the vanished address
  into that other row (`Executor.VanishedWorkerOverwritesAnother`).
- The last write puts back the address of the row the plan was built on, not the one the table then shows: an address that
  people have edited in between is overwritten (`Executor.ReusableDeploymentExecutor.ExecuteIfEnabled`).
- A model directory that is resolved only after the stop makes the last table write fail, since the row carries
  the mark of the unresolved path (`Executor.FinalWriteNeedsMarkedPath`).
- A request whose plan cannot be built stays pending for good (`Orchestrator.DeploymentOrchestrator.OneTerminalEvent`).

Premises: one auditor process and one poller; the payload of a review id never changes; pool threads never write
`pending`; item keys within one scan are distinct
(a line repeated in one subtask repeats its key, and both copies are then processed on the states read at the start,
src/fmh/poller.py:1538-1556 and 492-502) and different keys have different retry settings; notifications do
not raise; the clock never goes backwards; reading, checking and writing one table row is one step; the
table is a rectangle of separate cells; the answers of the outside world are otherwise arbitrary. Reviews with
one time stamp may be listed in any order.

## Model

| member | source | states |
|---|---|---|
| ReviewStore.WorkerSurvivesLostRows | src/fmh/codex_auditor.py:546-559 | the three places a reuse review names its worker agree, so it is serialised on one worker even when rows are missing from its payload |
| ReviewStore.WorkerIs | src/fmh/codex_auditor.py:546-559 | the worker of a review is the plan's, else the selected row's, else what the subject has before its first colon |
| ReviewStore.ClaimAccounting | src/fmh/store.py:393-420 | in any run with any number of claimers, successful claims plus one if still claimable never exceed the writes that made the review claimable |
| ReviewStore.WinnersSeparated | src/fmh/store.py:393-420 | between two winning claims of one review there is a fresh creation, re-queue or approval |
| ReviewStore.StateStore.CreateReview | src/fmh/store.py:319-351 | the upsert: the review is pending with the new payload, all others unchanged |
| ReviewStore.StateStore.DecideReview | src/fmh/store.py:382-391 | an unconditional update of an existing review; an unknown id changes nothing |
| ReviewStore.StateStore.ClaimReview | src/fmh/store.py:393-420 | compare and set: it wins exactly when the review was in one of the expected statuses, and changes nothing otherwise |
| ReviewStore.StateStore.ListReviews | src/fmh/store.py:367-380 | at most `limit` reviews of the status, newest first, none newer left out |
| ReviewStore.StateStore.ListAllReviews | src/fmh/store.py:367-380 | the same over all statuses |
| ReviewStore.StateStore.StoreAccounting | src/fmh/store.py:382-420 | claim accounting holds of every state the store reaches |
| SchedulerModel.EventDrifts | src/fmh/codex_auditor.py:146-158 | whatever a thread, a person or the poller does stays within the drift under which the invariant is proved |
| SchedulerModel.DriftKeepsInv | src/fmh/codex_auditor.py:135-144 | interference keeps exclusion per worker, the bound and the agreement of the two dictionaries |
| SchedulerModel.CollectKeepsInv | src/fmh/codex_auditor.py:168-173 | forgetting finished futures keeps the invariant and loses no unfinished one |
| SchedulerModel.SubmitKeepsInv | src/fmh/codex_auditor.py:139-144 | handing a claimed review to a pool with room keeps the invariant, its worker being in use by no thread |
| SchedulerModel.SubmitKeepsCountIff | src/fmh/codex_auditor.py:139-144 | from an exact count, handing a review to the pool keeps the count exact if and only if the review has no unfinished future |
| SchedulerModel.EventKeepsCount | src/fmh/codex_auditor.py:135-137 | threads, people and the poller keep an exact count exact |
| SchedulerModel.CollectKeepsCount | src/fmh/codex_auditor.py:168-173 | so does forgetting finished futures |
| SchedulerModel.NamedIsNotLive | src/fmh/codex_auditor.py:96-98 | a review whose worker is in no running task has no unfinished future |
| SchedulerModel.CountIsExact | src/fmh/codex_auditor.py:135-137 | so while every running task names a worker the count is exact |
| SchedulerModel.BlankWorkerIsUndercounted | src/fmh/codex_auditor.py:94-123 | a running review without a worker, sent back by a person, wins a second claim and a second thread; the invariant holds and one thread is not counted |
| SchedulerModel.BusyMeansRunning | src/fmh/codex_auditor.py:222-235 | a busy worker is held by a running task when no in-flight review is stranded |
| SchedulerModel.WindowOfMixed | src/fmh/codex_auditor.py:92-93 | a window is free of stale approvals exactly when there are none or the young ones fill it |
| SchedulerModel.StaleEscapesScan | src/fmh/codex_auditor.py:200-220 | after the scan of 100 the window of 20 holds no stale approval exactly when there were at most 100 approvals or at least 20 young ones |
| SchedulerModel.QuietRecovery | src/fmh/codex_auditor.py:175-220 | the three scans of an undisturbed tick together: listed in-flight reviews without a live future are queued again, listed stale approvals go to people, nothing else changes |
| Scheduler.Auditor.constructor | src/fmh/codex_auditor.py:42-60 | a started process satisfies the invariant over any store, with at least one slot |
| Scheduler.Auditor.Restart | src/fmh/codex_auditor.py:42-60 | so does a process restarted after a crash at any point; the store is as it was |
| Scheduler.Auditor.ActiveCount | src/fmh/codex_auditor.py:135-137 | the number of reviews whose recorded future is unfinished |
| Scheduler.Auditor.CollectFinished | src/fmh/codex_auditor.py:168-173 | exactly the futures that are done leave both dictionaries |
| Scheduler.Auditor.RequeueOrphans | src/fmh/codex_auditor.py:180-197 | with at most 100 reviews in the status when it is listed none is left without a running task, whatever happens meanwhile; undisturbed, exactly the listed reviews without a live future are queued again |
| Scheduler.Auditor.RecoverOrphanedInflight | src/fmh/codex_auditor.py:175-198 | both in-flight statuses: with at most 100 reviews in each when listed, no review is stranded, in particular after a restart |
| Scheduler.Auditor.RecoverStaleApproved | src/fmh/codex_auditor.py:200-220 | with at most 100 approvals when listed none an hour old or more is left; undisturbed, exactly the listed stale ones went to people |
| Scheduler.Auditor.ActiveWorkers | src/fmh/codex_auditor.py:222-235 | the set covers the worker of every running task; undisturbed every member is really busy, and every in-flight review of a fully listed status has its worker in it |
| Scheduler.Auditor.Recover | src/fmh/codex_auditor.py:83-88 | the recovering half of a tick: its listing states follow from one another and were states of the store; undisturbed it does exactly what the scans say to the store as it was |
| Scheduler.Auditor.TakeReview | src/fmh/codex_auditor.py:102-119 | the claim is recorded as a winner exactly when it won, and never breaks the invariant |
| Scheduler.Auditor.SubmitReview | src/fmh/codex_auditor.py:139-144 | one more task, for this review, and the worker set still covers all running tasks |
| Scheduler.Auditor.ClaimWindow | src/fmh/codex_auditor.py:93-125 | started reviews have new, pairwise different workers; undisturbed the loop stops only at a full pool or an exhausted window |
| Scheduler.Auditor.ClaimAll | src/fmh/codex_auditor.py:88-127 | every claim is of a pending or retried review into review, or of an approval into deployment, the latter only with automatic deployment; undisturbed and with a free slot left, the 20-row windows of the pending, then the retried, then with automatic deployment the approved reviews were all exhausted |
| Scheduler.Auditor.ProcessOnce | src/fmh/codex_auditor.py:82-130 | a tick keeps the invariant under any interference; without automatic deployment it claims no approval; it hands exactly the reviews it won to the pool, with pairwise different workers, none active before; with at most 100 reviews in each listing none is stranded and no approval of an hour or more is claimed; undisturbed, recovery does what it says to the initial store, only started reviews change after it, and the tick stops with the pool full or the windows of the pending, the retried and, exactly with automatic deployment, the approved reviews exhausted |
| Scheduler.Auditor.PartOfTick | src/fmh/codex_auditor.py:82-130 | any number of the writes a tick makes, with others acting between them, leave a valid state, so a crash after any part of a tick does |
| Scheduler.Auditor.Run | src/fmh/codex_auditor.py:62-80 | in every run of ticks, outside steps and crashes, between ticks or in the middle of one, no two running tasks share a worker and the bound holds |
| ChatPoller.ChatPollingWorker.PollChat | src/fmh/poller.py:208-243 | terminates though it re-enters itself; no message is handled twice; everything created in the lookback, or since five seconds before the cursor, and shown is processed, oldest first where no command intervenes; if it handled a command, everything of the manual lookback is processed; the cursor moves only to the time of a processed message and never back or past the poll |
| ChatPoller.ChatPollingWorker.PollFrom | src/fmh/poller.py:217-243 | one listing from a start time: all of its range is processed and the cursor is no older than any of it |
| ChatPoller.ChatPollingWorker.HandleListed | src/fmh/poller.py:230-240 | every listed message with an id ends up processed, in order of time, and a command among them has polled the manual lookback; the new cursor value is the time of a processed message and no older than any of them |
| ChatPoller.ChatPollingWorker.HandleMessageItem | src/fmh/poller.py:357-415 | the message is processed and logged before anything a nested poll handles; after a manual command every message of the last `manualLookback` seconds that is shown by then is processed |
| ChatPoller.ChatPollingWorker.PollRegularly | src/fmh/poller.py:208-243 | once the cursor is set, a message that shows up on time is processed by the first regular poll at or after that moment; one out of reach never is |
| ChatPoller.ChatPollingWorker.OverlapIsTight | src/fmh/poller.py:221 | a message one second later than that is out of reach if there was a poll in the second before |
| TaskScan.ReservedReusableRows | src/fmh/poller.py:662-689 | a row is reserved exactly if it is the row of the review of an entry waiting for review, under review, approved or being deployed, or of a listed reuse review that is pending, under review, approved or being deployed |
| TaskScan.NoReviewIsMissed | src/fmh/poller.py:679-688 | with at most 500 reviews the row of every reuse review that is pending, under review, approved or being deployed is reserved |
| TaskScan.ScanRowsAreDistinct | src/fmh/poller.py:514-544 | the reviews of one scan are on pairwise different rows, none reserved at the start, though the table changes between entries |
| TaskScan.AtMostOneReview | src/fmh/poller.py:649-660 | a log has no two creations of one key exactly if every key is created at most once in it; that every run has such a log is `Run` |
| TaskScan.TaskPoller.Others | src/fmh/reusable_executor.py:637-650 | the executor marks only entries whose review exists, and what is settled stays settled |
| TaskScan.TaskPoller.CreateReuseReview | src/fmh/poller.py:1113-1181 | the new review is pending, holds the chosen row and names its worker and the model id of the entry, or of its path, in all three places |
| TaskScan.TaskPoller.SchedulePlanRetry | src/fmh/poller.py:764-784 | the entry waits for the configured delay, at least a minute, on record |
| TaskScan.TaskPoller.FileReview | src/fmh/poller.py:539-584 | review first, mark second: settled in between or after, whoever is quicker |
| TaskScan.TaskPoller.FileErrorReview | src/fmh/poller.py:558-573 | a failure other than a missing row leaves a review that reserves nothing, and the entry failed |
| TaskScan.TaskPoller.ProcessEntry | src/fmh/poller.py:537-584 | created on a least eligible unreserved row, postponed exactly when there is none, failed when the table cannot be read |
| TaskScan.TaskPoller.EntryStates | src/fmh/poller.py:493-502 | an entry may be processed only if nothing was created for it and its retry time has come |
| TaskScan.TaskPoller.RefreshStates | src/fmh/poller.py:691-719 | an entry waiting for its review becomes deployed, failed or handed to people as its review did; no other entry changes |
| TaskScan.TaskPoller.ProcessTask | src/fmh/poller.py:458-636 | one scan decides exactly the entries that are due: never seen in any spelling, or postponed and their time come; each decision is the one for the table answered for that entry, and excludes the rows taken before it and those held at the start by the reviews of the store and of the stored states of its entries |
| TaskScan.TaskPoller.GiveUpRetries | src/fmh/poller.py:324-340 | exactly the postponed entries of a task that is gone are given up |
| TaskScan.TaskPoller.Run | src/fmh/poller.py:145-166 | any run: at most one review is created per key, none before a recorded retry time, a settled key never returns, and the reuse reviews created in the store are exactly those logged, in order |
| Stats.MergeUnique | src/fmh/poller.py:2009-2017 | the early exit does not change the merge |
| Stats.MergeKeepsFirst | src/fmh/poller.py:2009-2017 | the merge keeps exactly the first six different lines that are not blank, each where it was first offered |
| Stats.CutFirst | src/fmh/poller.py:2009-2017 | cutting the second list to six before the merge loses nothing the merge would have kept |
| Stats.MergeIsAssociative | src/fmh/poller.py:2009-2017 | stripping, removing duplicates and cutting to six at every merge is associative |
| Stats.AddIsAssociative | src/fmh/poller.py:116-124 | adding totals is associative |
| Stats.AddHasUnit | src/fmh/poller.py:107-124 | the empty totals are a unit exactly for normal summaries, and every sum is normal |
| Stats.TotalIsSum | src/fmh/poller.py:116-124 | over any number of additions each counter is the sum of that counter, and the summaries are the first six different lines that are not blank of all parts, in order |
| Paths.Normalised | src/fmh/reusable_workers.py:270-296 | source, worker and relative spellings of a tail have the same worker path and table path |
| Paths.NormalizeIdempotent | src/fmh/reusable_workers.py:270-296 | normalising a normalised worker path changes nothing, for every path without outer quotes or space |
| Paths.ModelIdIsLastPart | src/fmh/reusable_workers.py:289 | the model id is what follows the last slash of the table path, slashes at its end aside, and "model" if nothing does |
| Paths.UnquoteUnwraps | src/fmh/reusable_workers.py:271 | a path comes out of any white space and quotes put around it |
| Paths.AliasBounds | src/fmh/poller.py:1925-1947 | an alias set holds the tail and the worker path, and nothing beyond the source path |
| Paths.AliasesMeetIffSameModel | src/fmh/poller.py:1925-1947 | two alias sets intersect exactly when the normalised worker paths are equal |
| Paths.NormalisedForm | src/fmh/reusable_workers.py:270-296 | every cleaned path keeps itself if absolute under neither prefix, and otherwise becomes its tail under the worker prefix; the table path is its tail |
| Paths.AliasesAre | src/fmh/poller.py:1925-1947 | the exact alias set of every cleaned path, by its form |
| Paths.AliasesMeetIff | src/fmh/poller.py:1925-1947 | two alias sets of cleaned paths intersect exactly when one tail is an alias of the other path |
| Paths.AliasesMeetIffSameTail | src/fmh/poller.py:1925-1947 | when neither tail begins with a slash, exactly when the tails agree |
| Paths.AliasTestIsRightIff | src/fmh/poller.py:1925-1947 | for all cleaned paths the alias test tells equal worker paths from different ones, unless one path is absolute under neither prefix and the other another path of its tail, or one is a prefix and a slash before an absolute spelling of the other |
| Paths.ConfusedCollide | src/fmh/poller.py:1925-1947 | each such pair shares an alias and means two worker paths |
| Paths.AbsoluteElsewhereCollides | src/fmh/poller.py:1925-1947 | such pairs exist: `/x` under neither prefix with `x` |
| Paths.SlashesElsewhereCollide | src/fmh/poller.py:1925-1947 | so do `/x` and `//x` under neither prefix |
| Paths.DoubledSlashCollides | src/fmh/poller.py:1925-1947 | and an absolute spelling of a path behind the source prefix and a slash, with the path |
| Placement.ChoiceIsLeast | src/fmh/reusable_workers.py:187-202 | the choice is a row of a known worker with enough cards, not excluded and free for reuse, before which no other such row comes: empty workers first, then fewer cards, then the higher place; it fails only if there is none |
| Placement.ReusableIff | src/fmh/reusable_workers.py:233-267 | a row may be reused exactly if the reuse column, when there is one, holds one of the eight yes words, its tests are neither running nor blocked, and it serves and was tested with nothing, or every required task is among its tested ones |
| Placement.LeastIsUnique | src/fmh/reusable_workers.py:202 | the order leaves one row number only |
| Placement.WorkerPathUnderPrefix | src/fmh/reusable_workers.py:270-283 | the worker path is under the worker prefix exactly for paths under the source prefix, under the worker prefix or relative |
| Placement.BuiltPlanSays | src/fmh/reusable_workers.py:320-373 | every cell, the command and the session of a built plan: the model at its path on all cards of the row (one if unknown), the row's own address and parsers, or the configured ones, no tested tasks, the row's reuse flag or yes, and the marker on the two deploying cells |
| Placement.PolicyIff | src/fmh/codex_auditor.py:433-470 | the policy approves exactly a reuse review with a row that may be reused, on a known worker, a path under the worker prefix, a command for the row's number of cards and a session that names the end of its address |
| Placement.LastTwoOf | src/fmh/codex_auditor.py:466 | the end of an address a session must name is its last two parts, or its only one |
| Placement.GuardIff | src/fmh/reusable_executor.py:1222-1239 | the executor's guard asks of the plan's row exactly what the choice asked |
| Placement.ChosenPlanIsApproved | src/fmh/codex_auditor.py:433-470 | the policy approves the plan of a chosen row exactly for those paths, and the executor guard then passes |
| Placement.ApprovalPassesGuard | src/fmh/reusable_executor.py:1222-1239 | what the policy approves passes the guard exactly if the plan has a row, or blank text carries no marker |
| Text.SplitJoins | src/fmh/reusable_workers.py:480-484 | the parts of an address hold no dot and joined by dots give it back |
| ShellWords.SplitUndoesJoin | src/fmh/reusable_executor.py:1114-1123 | splitting a joined command line gives its words back, whatever they contain, so the replacement of the model argument sees the command that was built |
| ShellWords.BareIff | src/fmh/reusable_workers.py:504-541 | a word of the command stays bare exactly if it is not empty and holds only letters, digits and harmless signs; any other is quoted |
| PlanRewrites.ReplaceModelArg | src/fmh/reusable_executor.py:1114-1123 | the token after the first `--model` that has one is replaced, and nothing else |
| PlanRewrites.BuiltIsCoherent | src/fmh/reusable_workers.py:320-373 | a built plan is coherent (command, paths, final and deploying cells agree) exactly when its model id is not `--model` |
| PlanRewrites.RewriteKeepsCoherence | src/fmh/reusable_executor.py:300-315 | setting the row, swapping the row and moving the path keep coherence, the model id and the extra keys |
| PlanRewrites.RewriteRuns | src/fmh/reusable_executor.py:607-622 | another row brings its own session, command, address and parsers; another path changes neither row nor session; the original path is kept |
| PlanRewrites.RewritesKeepCoherence | src/fmh/reusable_executor.py:607-622 | so does every sequence of them |
| PlanRewrites.SwapNeedsTablePath | src/fmh/reusable_executor.py:1248-1256 | a swap without a table path keeps coherence only if nothing but slashes is in the worker path |
| DeployedTable.DeployedDoc.ReadHeaders | src/fmh/deployed_doc.py:74-77 | the column of each title without white space, the last one when titles repeat |
| DeployedTable.LastIndexIs | src/fmh/deployed_doc.py:74-77 | of several columns with one title the last counts |
| DeployedTable.NormalizeIs | src/fmh/deployed_doc.py:131-132 | a title keeps its characters but for white space |
| DeployedTable.DeployedDoc.UpdateRow | src/fmh/deployed_doc.py:24-51 | only the named cells of the one row change, to the last value given; the title row and rows out of range are refused unchanged; a cell without a text block stops the update after the values before it |
| DeployedTable.WriteStep | src/fmh/deployed_doc.py:41-50 | one value patches the one row-major cell of its row and column |
| DeployedTable.PatchedIs | src/fmh/deployed_doc.py:91-98 | only the first text block of a cell is replaced |
| DeployedTable.OtherRowsReadTheSame | src/fmh/deployed_doc.py:46 | every other row reads exactly as before, so its safety is unchanged |
| DeployedTable.RowsAreTheRows | src/fmh/reusable_workers.py:155-184 | the parsed rows are exactly the non-blank rows below the titles, under their own numbers |
| DeployedTable.ParseTableIs | src/fmh/reusable_workers.py:155-184 | a table is read only with its four titles, and then exactly the rows with some text below them |
| DeployedTable.ReuseIs | src/fmh/reusable_workers.py:452-456 | the reuse flag is that of the first of its three titles the table has |
| DeployedTable.WrittenField | src/fmh/deployed_doc.py:91-128 | a written field reads back as the reader cleans it |
| DeployedTable.StripMarked | src/fmh/reusable_executor.py:1166-1170 | an appended marker is taken off again exactly when the text is not blank or the marker has no leading space |
| DeployedTable.MarkedRowIsSafeOnlyForItsModel | src/fmh/reusable_executor.py:1242-1245 | after the mark the row is safe exactly for plans of the same table path and model id, given that cleaning leaves the marked texts alone |
| Executor.RefreshedRowIsSafe | src/fmh/reusable_executor.py:575-615 | a refreshed plan has a row of the table that is safe for it, on its own worker exactly if the table still lists that worker |
| Executor.RefreshIs | src/fmh/reusable_executor.py:575-622 | a listed worker is kept on its own row, else its first row, and the refresh fails exactly if that row is not safe for the plan; for a worker that left, a free row with at least as many cards before which no free row comes is taken, and it fails exactly if there is none |
| Executor.RefreshKeepsModel | src/fmh/reusable_executor.py:575-622 | taking another row never changes the model, its path or the extra keys |
| Executor.PlannerBuildsSound | src/fmh/reusable_workers.py:320-373 | a plan the planner builds for a proper path meets the premise of the runs exactly unless its model id is blank, padded or `--model` |
| Executor.ReusableDeploymentExecutor.constructor | src/fmh/reusable_executor.py:49-57 | an executor starts with an empty log, for the job its plan and its probes name |
| Executor.ReusableDeploymentExecutor.Break | src/fmh/reusable_executor.py:89-117 | a step breaks off with the failed answer logged, and the run stops there |
| Executor.ReusableDeploymentExecutor.Refresh | src/fmh/reusable_executor.py:575-605 | the plan is replaced as a whole or not at all; its final cells stay those of the row it was built on, which changes only when the worker has left the table |
| Executor.ReusableDeploymentExecutor.WriteTableValues | src/fmh/reusable_executor.py:558-573 | read, check and write in one step; it succeeds exactly if a safe row is found and the table takes every value; a refused row leaves table and plan unchanged |
| Executor.ReusableDeploymentExecutor.MarkRow | src/fmh/reusable_executor.py:177 | the deploying values are in the row that was just read as safe; it fails exactly if the table does not take them |
| Executor.ReusableDeploymentExecutor.ReplaceWorkerPath | src/fmh/reusable_executor.py:300-315 | the in-place assignments together are the path rewrite; row and model id stay |
| Executor.ReusableDeploymentExecutor.ApplyProbe | src/fmh/reusable_executor.py:279-298 | succeeds exactly for a directory found or resolved, and then the plan names that directory |
| Executor.ReusableDeploymentExecutor.Preflight | src/fmh/reusable_executor.py:240-265 | passes exactly if session and window were found and, where the worker can be asked directly, the directory; otherwise the path is left for the check after the stop |
| Executor.ReusableDeploymentExecutor.EnsureConnected | src/fmh/reusable_executor.py:192-215 | resets a pane only after the mark, succeeds only with the pane of that session just seen connected, and gives up only after a failed command or 30 seconds |
| Executor.ReusableDeploymentExecutor.WaitEndpointDown | src/fmh/reusable_executor.py:342-353 | true only if the endpoint was seen down, after the interrupt; false only after the time allowed |
| Executor.ReusableDeploymentExecutor.AwaitStop | src/fmh/reusable_executor.py:317-340 | the port is killed after 45 seconds; it gives up only after 75 |
| Executor.ReusableDeploymentExecutor.KillLeftoverGpuApps | src/fmh/reusable_executor.py:355-371 | succeeds exactly if no process was listed or none was left after the kill |
| Executor.ReusableDeploymentExecutor.StopExisting | src/fmh/reusable_executor.py:317-340 | interrupts only a marked worker, through a pane just seen connected, and succeeds only with the endpoint down and the cards free |
| Executor.ReusableDeploymentExecutor.VerifyWorkerPathAfterStop | src/fmh/reusable_executor.py:267-277 | the path that is started was seen on the worker |
| Executor.ReusableDeploymentExecutor.Execute | src/fmh/reusable_executor.py:157-186 | every run of a built plan is disciplined for the job of that plan, stops at its first failed answer and at nothing else; the rows written to the table are exactly its marks; only the refreshed worker is touched or asked, and only through the refreshed plan's session; a worker whose row names the model is asked first, and nothing more is done exactly if it lists the model; the run succeeds exactly if the worker was seen to list the model, otherwise at the end |
| Executor.ReusableDeploymentExecutor.ExecuteIfEnabled | src/fmh/reusable_executor.py:59-155 | executes exactly under the five conditions; writes needs_human and touches nothing if the guard fails; otherwise deploying and then one outcome, a deployed one perhaps written twice, deployed exactly if the worker was seen to list the model; a deployment without a document failure wrote the marks and then exactly one more row: the refreshed plan's row, with the table path of the path that was started, the model id, no marker, no tested tasks, and address, parsers and reuse flag of the row the plan was built on; the document failed exactly if the table as it then was did not take these values, and then no row was written |
| Executor.ReusableDeploymentExecutor.Finish | src/fmh/reusable_executor.py:119-155 | the last write, cell by cell, and the status that records whether it was made |
| Executor.ReusableDeploymentExecutor.WaitUntilServing | src/fmh/reusable_executor.py:405-440 | succeeds exactly if the endpoint was seen to list the model; gives up only after three lists of other models or the configured time |
| Executor.ServedAfterStart | src/fmh/reusable_executor.py:184-186 | a deployment is reported only for the plan's model, on the worker where a server for it was started before |
| Executor.NothingIsTouchedUnmarked | src/fmh/reusable_executor.py:174-186 | every interrupt, reset, kill and start comes after a mark, made after preflight and any conversion, of a row read as safe for the plan's model id and its path at that moment |
| Executor.InterruptFollowsMark | src/fmh/reusable_executor.py:174-179 | the row marked before an interrupt is that worker's own exactly if the table still listed the worker |
| Executor.StartFollowsTheProtocol | src/fmh/reusable_executor.py:157-186 | a start comes after preflight (session and window found, conversion done), safe mark, interrupt, endpoint down and free cards in this order, in a pane just seen connected; mark and start are for the plan's model id, and for the same path unless a probe gave another one between them; the command names that path, which was checked |
| Executor.FinalWriteNeedsMarkedPath | src/fmh/reusable_executor.py:119-126 | with the table untouched since the mark, the last write is accepted exactly when the table path is still the marked one |
| Executor.FilledRowReads | src/fmh/reusable_workers.py:155-184 | after the last write the row reads as the model, its id without marker, the address, parsers and flag that were written, and untested |
| Executor.DeployedRowIsTaken | src/fmh/reusable_executor.py:1160-1163 | a worker that was just deployed is chosen for nothing else until its tasks are tested, and is safe exactly for its own model |
| Executor.VanishedWorkerOverwritesAnother | src/fmh/reusable_executor.py:558-605 | after the worker has left the table, the last write puts its address into the row of another worker |
| TmuxFrame.PrintedParsesBack | src/fmh/reusable_executor.py:1135-1157 | a printed result parses back to its exit code and trimmed outputs, after any echo and before any text without the end marker |
| TmuxFrame.EchoAloneIsNotYet | src/fmh/reusable_executor.py:467-481 | the echoed command alone gives no result |
| TmuxFrame.ParsedIffBetween | src/fmh/reusable_executor.py:1135-1157 | there is a result exactly if the last end marker is followed by a number and before it the last begin marker comes no later than the last error marker |
| TmuxFrame.ParsesBetween | src/fmh/reusable_executor.py:1150-1157 | and then it is that number and the texts between these places, line breaks at their ends cut off |
| TmuxFrame.OutputIsCut | src/fmh/reusable_executor.py:1155-1156 | only line breaks are cut off an output, all of them at its ends |
| TmuxFrame.SignedParses | src/fmh/reusable_executor.py:1144-1148 | signed exit codes are read with their sign |
| TmuxFrame.UnderscoreParses | src/fmh/reusable_executor.py:1144-1148 | single underscores between digits do not matter, others make it no number |
| TmuxFrame.RaisesIffCutAtColon | src/fmh/reusable_executor.py:1142-1149 | the parser fails exactly on a capture that stops at the end marker's colon |
| Orchestrator.DeploymentOrchestrator.Step | src/fmh/orchestrator.py:53-78 | every step of every caller keeps the invariant and brings that caller nearer its end; events and commands are only added |
| Orchestrator.DeploymentOrchestrator.CreateRequest | src/fmh/store.py:18-52 | the insert succeeds for one caller only, who then owns the launch |
| Orchestrator.DeploymentOrchestrator.Transition | src/fmh/store.py:82-111 | the status and its event are saved together, and the log stays connected |
| Orchestrator.DeploymentOrchestrator.Execute | src/fmh/orchestrator.py:80-200 | one more command of the launch sequence, by the owner |
| Orchestrator.DeploymentOrchestrator.Interleave | src/fmh/orchestrator.py:53-200 | any interleaving of any callers keeps the invariant, and a caller is done after at most 23 steps of its own, whatever the others do |
| Orchestrator.TerminalIsLast | src/fmh/models.py:33-42 | a connected log has one terminal event if it ends in one, and none otherwise |
| Orchestrator.DeploymentOrchestrator.OneTerminalEvent | src/fmh/orchestrator.py:65-78 | no terminal event while the owner is at work, exactly one, the last, when it has returned; a plan that cannot be built leaves the request pending |
| Orchestrator.DeploymentOrchestrator.OutcomeDecides | src/fmh/orchestrator.py:85-200 | a request serves exactly if the last command was a health check that went well and all before it did; each failure status is that of the last command's error, and a crash anywhere counts as a server failure |
| Orchestrator.DeploymentOrchestrator.OneCallerLaunches | src/fmh/orchestrator.py:80-200 | all commands are run by one caller, in the order of the launch sequence, and a serving request went through all of it |

## Left out

- Network client, webhooks, command line, cards, notifications and configuration loading: I/O or presentation; their answers are arbitrary inputs here.
- Regular expressions, HTML and JSON parsing: cells arrive parsed, and `Placement.Reader` stands for any reading of a cell.
- SHA-1 keys of settings and cards: taken as different for different items.
- SSH, the remote scripts, `nvidia-smi` and health probes: only their outcomes appear; a listing of processes is its number of process ids.
- The client without a document: every run has a real table, since without one the executor never marks a row.
- The language-model reviewer and its parsing: a thread may decide anything.
- Handlers of ordinary chat messages: they only mark their message; a handler that raises and so ends the poll is not modelled.
- Polls with a lookback started from outside, several auditors and the webhook's own executor call: the code gives no such guarantees there.
- Ages of reviews whose time stamp cannot be read, which count as zero.
- How an entry is matched with an earlier entry for the same model is given to the scan (`equivalent`); that alias sets decide it rightly is `Paths.AliasesMeetIffSameModel`.
- The textual replacement used when a command has no `--model` or cannot be split, and non-ASCII digits in an exit code.
- DeployedTable.MarkedRowIsSafeOnlyForItsModel: holds for texts that the reader's cleaning (unescaping HTML and markdown, dropping blank lines) leaves alone; the cleaning itself is a parameter.
- The plan columns for the SSH and proxy commands, and the text of decisions and summaries.
- Executor.ReusableDeploymentExecutor.ExecuteIfEnabled: asks for a plan as the planner builds it (`Executor.PlannerBuildsSound`); that the last row is in the table is stated for an address that is not blank.
- Two objects of the source that share one dictionary: a plan is one value that the executor replaces field by field.
- PlanRewrites.RewriteKeepsCoherence: asks for a worker path and a model id that are stripped and not `--model`, and a table path that is not empty; `PlanRewrites.SwapNeedsTablePath` and `PlanRewrites.BuiltIsCoherent` show why.
- Paths.AliasesMeetIffSameModel: asks for spellings with one slash after the prefix; `Paths.AliasTestIsRightIff` has no such premise, only prefixes that are absolute, equal for workers and table, and not nested.
- Executor.FinalWriteNeedsMarkedPath: speaks of a table nobody has touched since the mark; otherwise `Executor.RefreshedRowIsSafe` says what is accepted.
- Scheduler.Auditor.ProcessOnce: what each scan leaves behind is stated for listings of at most 100 reviews; `SchedulerModel.StaleEscapesScan` gives the exact condition for approvals, for a table without a blank review id, which the scans skip.
