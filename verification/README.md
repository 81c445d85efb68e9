# A verified model of a CI orchestrator

The system takes submitted workflows apart into jobs, orders them, queues each one
when what it needs is over, and lets executors on many hosts claim jobs and warm
virtual machines. It keeps its state in a database, hands work out over a queue that
redelivers, and any of its processes may stop between two statements. This project
models that logic in Dafny and proves what it promises.

`dafny verify dfyconfig.toml` checks everything.

| file | models |
|---|---|
| `JobStore.dfy`, `JobProtocol.dfy` | the job table, and schedulers, executors, reapers and cancels interleaving over it and the work queue |
| `JobInvariant.dfy`, `JobGuarantees.dfy`, `JobCauses.dfy` | what every step of that keeps, what holds after every run, and why a job shows what it shows |
| `JobHands.dfy`, `JobEndings.dfy` | exactly when the ending a job shows is final, and a cancel that does not last |
| `JobRuns.dfy` | exactly when a run's row goes on agreeing with its jobs, and one that does not |
| `VmPool.dfy`, `LeaseProtocol.dfy` | the warm VM table, and processes that claim, renew, crash, reclaim and sweep |
| `LeaseInvariant.dfy`, `LeaseGuarantees.dfy`, `LeaseUses.dfy`, `LeaseTiming.dfy` | what every step of that keeps, what holds after every run, who acts and how uses begin and end, and exactly which timings are safe |
| `ImageCatalog.dfy` | the image catalog, a smaller protocol of the same kind |
| `Values.dfy`, `Tokenizer.dfy`, `Evaluator.dfy`, `Parsing.dfy`, `ExprTrees.dfy` | the expression language: values, tokenizer, evaluator, parser object, and the meaning of trees |
| `Operators.dfy`, `Functions.dfy`, `Scopes.dfy` | what its operators and functions compute, and what names, paths and scopes show |
| `Substitution.dfy`, `Conditions.dfy`, `Steps.dfy`, `StepRecords.dfy` | `${{ … }}` in texts, `if:` conditions, and the steps of one job with what they record |
| `Glob.dfy` | path patterns |
| `Matrix.dfy`, `MatrixReading.dfy`, `Keys.dfy`, `TopologicalOrder.dfy` | the planner |
| `Masker.dfy` | redaction of secrets |
| `Placement.dfy`, `Landing.dfy` | where a job runs |
| `Common.dfy`, `Text.dfy` | options and results; strings and decimal numbers |

Both protocols are state machines with one step per SQL statement or queue action.
Every process keeps what it read earlier, so each decision may rest on stale data, and
theorems quantify over every sequence of steps. The objects and loops of the program
are classes and methods proved equal to functions, and the lemmas are about those
functions.

## Where the code does not do what is said or expected

* `src/dispatch.rs:907-911` says a cancelled job stays cancelled. The write that ends a
  job looks at no status (`src/store.rs:982-988`), so a cancel that lands during the
  last step is overwritten by `success`: `JobEndings.ACancelCanBeOverwritten`. What
  does hold is that a job that is over stays over, and that its ending is final exactly
  when nobody who could write another has the job in hand any more:
  `JobHands.CancelledStaysExactly`, in terms of what each process is at, and
  `JobHands.EndingIsFinalExactly` for all four endings.
* `src/store.rs:684-688` says a run and its jobs cannot disagree. The roll-up reads the
  jobs in one statement and writes the run in another, so an old one can be written last
  and leave the run active with its jobs over and nobody left to look:
  `JobRuns.ARunCanBeLeftActive`, with the exact condition in `JobRuns.RunAgreesExactly`.
* `src/store.rs:722-727` says a cancel marks the jobs first. The run's row is written
  first, and of a run that is over nothing is written: `JobStore.Store.CancelRun`.
* `src/dispatch.rs:1599-1600` says `if: always()` gets teardown to run. The loop leaves
  at the first failure that is not tolerated, so no later step is looked at:
  `Steps.TeardownDoesNotRun`, with an instance in `Steps.TeardownLeftOut`.
  `Steps.AlwaysRunsExactly` says when such a step does run, and `Steps.FailureNeverRuns`
  that one with `failure()` never does. In a job's `if:` all three behave as described:
  `Conditions.StatusConditions`.
* `src/dispatch.rs:2186-2193` spares a queued job whose runner is online. A queued row
  never has a runner: `JobGuarantees.ReaperNeverSpares`.
* A job that names a VM in `uses:` takes it past the pool (`src/dispatch.rs:820-845`), so it
  can share one with a job that claimed it, whatever the timing:
  `LeaseTiming.ABorrowedVmIsShared`. Exclusion holds among all the others:
  `LeaseGuarantees.MutualExclusion`.
* `src/secrets.rs:39-43` calls three the shortest length worth masking; the constant is
  four, and the model follows the constant.
* The masker is safe for secrets free of `*`, which is what its purpose needs. It is
  exactly safe for those that neither begin nor end with `*` and hold no `***`:
  `Masker.GoneExactlyWhenSafe`.
* `src/dispatch.rs:592-600` writes the names the pool shows into a plan. A network's name
  may be another's id, and then the job moves: `Placement.ANameCanMoveAJob`, with the
  exact condition for one job in `Placement.CanonicalExactly` and for all jobs of a
  snapshot in `Placement.AllStayExactly`.

## Model

| member | source | states |
|---|---|---|
| `JobStore.Store.QueueJob` | src/store.rs:924-934 | only a pending row becomes queued, the answer says whether it did, every other row is as it was, and no row moves to an earlier stage |
| `JobStore.Store.UnqueueJob` | src/store.rs:944-954 | a rollback takes back only a queued row; a started or finished job is untouched |
| `JobStore.Store.ClaimJob` | src/store.rs:839-859 | succeeds exactly on a row that is not over, and records runner and attempt |
| `JobStore.Store.StartJob` | src/store.rs:891-916 | succeeds exactly on a row that is not over, and records runner, sandbox and attempt |
| `JobStore.Store.SetJobStatus` | src/store.rs:976-997 | the last writer wins; a final status keeps a finished row finished |
| `JobStore.Store.CancelRun` | src/store.rs:728-755 | of a run that is over nothing changes and there is no count; otherwise the run is cancelled, each of its jobs that is not over with it, and those are counted |
| `JobStore.LifeOfAJob` | src/store.rs:839-997 | queueing, claiming, starting and ending a job put the runner, the sandbox and the attempt where they belong, a rollback undoes queueing, and no other row is touched |
| `JobStore.LeftAlone` | src/store.rs:728-954 | what is over is never queued, taken back, claimed, started or cancelled, and a cancel touches exactly the listed jobs that are not over |
| `JobStore.NeedsResults` | src/store.rs:1018-1041 | each base's result is the status of one of its cells and no cell of it is worse, whatever order the rows come in, and its outputs are the cells' outputs merged in that order |
| `JobStore.LastCellWins` | src/store.rs:1032-1038 | a merged output is that of the last cell of the base that sets it |
| `JobStore.DefaultGuard` | src/dispatch.rs:524-545 | the default condition holds exactly when no single cell of a needed base failed or was cancelled |
| `JobStore.TerminalBases` | src/dispatch.rs:357-369 | a base counts as done exactly when every one of its cells is over |
| `JobProtocol.After` | src/store.rs:839-997 | over every sequence of steps no row disappears and none moves to an earlier stage, so a terminal row stays terminal |
| `JobInvariant.RunKeepsInv` | src/dispatch.rs:350-479 | the protocol's invariant survives every interleaving of schedulers, executors, reapers, cancels, crashes and redeliveries |
| `JobGuarantees.NeedsAreOverFirst` | src/dispatch.rs:350-479 | a job that is queued, running, on the queue or being worked on has every cell of every needed base over, and the snapshot it was queued on showed every cell of the run, those needed over and, without an `if:`, none of them failed or cancelled; with one, the `if:` came to true on that snapshot |
| `JobGuarantees.NeverToldNeverReleased` | src/dispatch.rs:398-406 | a job whose `if:` is never true is never queued, started, on the queue or worked on |
| `JobCauses.VisitsExactly` | src/dispatch.rs:371-476 | at a job ahead a scheduler skips, queues, refuses or passes exactly when the plan, the needs in its first snapshot and the condition on its second say so, and it can always do one of them |
| `JobCauses.VisitedOnce` | src/dispatch.rs:371-476 | only a job ahead is visited, and whatever comes of it it is not ahead any more, while the snapshots and the other jobs ahead stay |
| `JobCauses.EveryStatusHasACause` | src/dispatch.rs:371-476 | whatever a row has come to show, some step of the run wrote it for the reason the program gives: skipped only on a false condition or a failed need, failed only by refusal, outcome, a last attempt or the reaper, and so on |
| `JobCauses.SchedulersStart` | src/dispatch.rs:350-352 | a scheduler starts on the statuses of all jobs of its run and of no other |
| `JobCauses.DeliveriesStart` | src/dispatch.rs:2000-2051 | a delivery starts exactly from a message that has one left, and counts |
| `JobCauses.OverMeansDone` | src/dispatch.rs:736-789 | a delivery that reads its job as over, or is refused the claim, can only acknowledge or stop |
| `JobCauses.OverMeansAlmostDone` | src/dispatch.rs:848-918 | one that is refused the start, or has written the outcome, may still be cut off before it acknowledges |
| `JobCauses.OpenMeansOn` | src/dispatch.rs:728-918 | one whose job is open goes on through claim, VM, start and a look for a cancel in front of each step |
| `JobCauses.BrokenMeansAgain` | src/dispatch.rs:2000-2051 | what breaks off is handed back for another delivery or, at the fourth, given up |
| `JobCauses.ReapersStart` | src/store.rs:765-786 | a reaper can list exactly queued jobs of active runs |
| `JobCauses.CancelsStart` | src/store.rs:728-741 | a cancel starts exactly on an active run, whose row shows it at once |
| `JobCauses.AnyProcessMayStop` | src/dispatch.rs:350-479 | any process may stop between two statements and leaves rows and queue as they are |
| `JobCauses.OnlyTheirOwnStop` | src/dispatch.rs:350-479 | and only one that is running can |
| `JobCauses.AccidentsHappened` | src/dispatch.rs:434-475 | a lost write, a stranded job or a dropped delivery that a guarantee excepts is only on record when it happened |
| `JobCauses.RunRowsAreWritten` | src/store.rs:688-741 | a run's row is written only by a cancel or with what a scheduler made of its jobs |
| `JobGuarantees.LateDeliveriesDoNothing` | src/dispatch.rs:728-862 | a delivery that begins when its job is over never claims the job, a VM or a step |
| `JobGuarantees.AckedMeansOver` | src/dispatch.rs:2000-2051 | a message is acknowledged only for a job that is over, unless the final attempt's status write was lost |
| `JobGuarantees.QueuedMeansOnTheQueue` | src/dispatch.rs:434-475 | a queued row has a message with a delivery left or one in an executor's hands, or is in a scheduler's hands, or a scheduler stopped before publishing, a rollback failed, a final write was lost, or an executor stopped on the last delivery |
| `JobGuarantees.ReaperNeverSpares` | src/dispatch.rs:2168-2220 | no row the reaper can list carries a runner |
| `JobHands.CancelledStaysExactly` | src/dispatch.rs:902-918 | cancelled stays cancelled exactly when no scheduler is publishing the job or has it ahead, read as pending with its needs over or its plan unreadable, no reaper still lists it, no message of it has a delivery left, and no executor is at its steps, on a last attempt it may give up, or about to write another ending |
| `JobHands.SuccessStaysExactly` | src/dispatch.rs:902-918 | success stays success on the same terms, except that a tolerant job's steps do it no harm |
| `JobHands.EndingIsFinalExactly` | src/store.rs:976-997 | the exact condition for each of the four endings: what every process that has the job in hand can still write, verdicts of schedulers included |
| `JobEndings.ACancelCanBeOverwritten` | src/dispatch.rs:902-918 | in every plan with an unguarded job that needs nothing, some sequence of steps leaves it cancelled by a cancel of its run, and ends with `success` |
| `JobRuns.RunAgreesExactly` | src/store.rs:684-716 | once the jobs of a run show endings they keep, its row agrees with them from then on if and only if it does now and no roll-up that was read and not yet written read anything else in them |
| `JobRuns.AgreementShows` | src/store.rs:689-716 | a run that agrees with its jobs shows cancelled if any job does, else failure if any does, success when all succeeded or were skipped, and is active otherwise |
| `JobRuns.ARunCanBeLeftActive` | src/store.rs:688-716 | in every plan with a run of one plain job, some sequence of steps ends with the job succeeded, the run active, and no process or message left |
| `VmPool.ShapeKept` | src/pool.rs:208-356 | claims, builds, registrations, releases, deletions and renewals keep the table's shape: placeholders are exactly the rows being built, held rows carry claimant and lease, others neither |
| `VmPool.SweepsKeepShape` | src/pool.rs:275-296 | so do reclaim and the sweeps |
| `VmPool.NoPlaceholderReachesADaemon` | src/pool.rs:208-263 | no claim, sweep or keepalive listing yields a placeholder id |
| `LeaseGuarantees.TableKeepsItsShape` | src/pool.rs:208-356 | whatever the timing, every reachable table has that shape and yields no placeholder |
| `VmPool.Pool.Claim` | src/pool.rs:176-206 | takes the most recently used idle match, never a placeholder, or nothing exactly when there is none |
| `VmPool.Pool.BeginBuild` | src/pool.rs:214-263 | the row stands under the job's placeholder id, held and leased, whether or not it was there before |
| `VmPool.Pool.Register` | src/pool.rs:302-331 | the new VM's row is claimed by its job and leased |
| `VmPool.Pool.Release` | src/pool.rs:334-346 | the row, whoever holds it, becomes idle without claimant and lease |
| `VmPool.Pool.Forget` | src/pool.rs:349-356 | exactly that row is gone |
| `VmPool.Pool.RenewLeases` | src/pool.rs:565-577 | exactly the instance's own held rows get a new expiry |
| `VmPool.Pool.ReleaseOrphans` | src/pool.rs:617-647 | exactly the expired rows of others on served runners become idle |
| `VmPool.Pool.SweepStaleBuilds` | src/pool.rs:275-296 | exactly the expired placeholders of others on served runners are deleted |
| `VmPool.ClaimedAndReleased` | src/pool.rs:176-206 | a claimed VM is nobody else's until its lease is over, and once released it is wanted exactly by the jobs of the same runner and fingerprint |
| `VmPool.RegisteredAndReleased` | src/pool.rs:302-346 | so is a VM registered for a runner and fingerprint |
| `VmPool.BuildComesAndGoes` | src/pool.rs:228-263 | a placeholder is held for its job until its lease is over, and forgetting it gives the table back |
| `VmPool.RenewedAnew` | src/pool.rs:565-577 | renewal starts the lease of everything the instance holds anew and touches nothing else |
| `VmPool.OrphansComeBack` | src/pool.rs:617-647 | what is taken back from a lapsed claim is wanted by the next job that fits and keeps its last use; which rows those are, unleased ones included |
| `VmPool.ListedExactly` | src/pool.rs:585-600 | the keepalive listing is exactly what the instance holds for its jobs, with the host of each |
| `VmPool.StaleBuildsGo` | src/pool.rs:275-296 | which placeholders go; every other row is untouched |
| `VmPool.Pool.TakeOneForSweep` | src/pool.rs:439-461 | a held VM is never taken |
| `VmPool.OneIsSwept` | src/pool.rs:439-461 | a served VM is taken exactly when it is idle or draining, and nothing else changes |
| `VmPool.Pool.TakeFailedForSweep` | src/pool.rs:469-495 | the VMs taken, which drain from then on, are those of the next row |
| `VmPool.FailedAreSwept` | src/pool.rs:469-495 | afterwards no idle unlocked VM on a served runner was last used by a job whose run failed or was cancelled, and what was taken was such a one |
| `VmPool.Pool.TakeForSweep` | src/pool.rs:511-540 | the VMs taken, which drain from then on, are those of the next row |
| `VmPool.StaleAreSwept` | src/pool.rs:511-540 | afterwards every idle unlocked VM left on a served runner has a wanted fingerprint and was used at most that long ago, and what was taken was idle and failed one of the two |
| `LeaseGuarantees.MutualExclusion` | src/pool.rs:176-206 | with timely renewals, after every sequence of steps no VM is in use by two live jobs that got it from the pool, whatever others borrow it by name, and each such use is backed by its own claim |
| `LeaseGuarantees.LiveUseIsKeptAlive` | src/pool.rs:585-600 | with timely renewals every pooled VM in use is in its instance's keepalive listing |
| `LeaseGuarantees.HousekeepingSparesLiveUse` | src/pool.rs:439-540 | no reclaim, sweep or destruction changes the row of a VM in live use |
| `LeaseGuarantees.ReclaimTakesOnlyTheExpired` | src/pool.rs:617-647 | whatever the timing, a reclaim changes a row exactly when it is another instance's claim, on a served runner, with its lease expired |
| `LeaseGuarantees.CrashedClaimsComeBack` | src/dispatch.rs:2320-2344 | whatever the timing, what a crashed instance held on a runner another one sweeps is no longer its own after crash + lease + sweep period |
| `LeaseUses.OnlyTheLivingAct` | src/dispatch.rs:2320-2344 | after every sequence of steps a crashed instance takes no step and has nothing in use |
| `LeaseUses.TheLivingMayActAlways` | src/dispatch.rs:2320-2344 | no state holds up the renewals, reclaims and sweeps of a live instance |
| `LeaseUses.UsesBeginAndEnd` | src/pool.rs:176-356 | a use of a pooled VM begins only with a claim or registration leased from that moment, and ends only with its VM idle, gone, or as it was after a cut-off or crash |
| `LeaseUses.BorrowingIsPastThePool` | src/dispatch.rs:820-845 | taking or leaving a VM by name changes no row |
| `LeaseUses.BuildsStartAndEnd` | src/pool.rs:228-263 | a build is in the table from its start to its end under its instance's lease, and the table is as before once it has ended |
| `LeaseUses.SweptIsDestroyed` | src/pool.rs:349-356 | every draining VM is in a sweeper's hands, and its row is gone once it is destroyed |
| `LeaseTiming.LateRenewalSharesAVm` | src/pool.rs:565-577 | if renewals may come later than the lease, some sequence of steps puts two jobs on one VM |
| `LeaseTiming.SafeExactlyWhenTimely` | src/pool.rs:565-577 | exclusion over all sequences of steps holds if and only if the renewal gap is at most the lease |
| `LeaseTiming.ABorrowedVmIsShared` | src/dispatch.rs:820-845 | whatever the timing, some sequence of steps puts a job that names a VM on one that another job has from the pool |
| `LeaseTiming.SafeLeases` | src/dispatch.rs:2320-2344 | for the loop's interval of a third of the lease, to the fraction and at least five seconds, exactly which leases are safe at a given delay |
| `ImageCatalog.Catalog.ClaimImage` | src/image.rs:451-488 | told to build exactly when the row is free, told to use it exactly when it is ready, and otherwise nothing changes |
| `ImageCatalog.Catalog.Renew` | src/image.rs:502-514 | a build in progress cannot be taken over before the new expiry and can after; a row that is not being built, and every other row, is untouched |
| `ImageCatalog.Catalog.MarkReady` | src/image.rs:516-535 | a row that exists becomes ready and is never free to be built again; every other row is untouched |
| `ImageCatalog.Catalog.MarkFailed` | src/image.rs:543-561 | a failure reported late never changes a ready row; otherwise the next claim, whenever it comes, is told to build, and the row keeps the reason |
| `ImageCatalog.Catalog.Forget` | src/image.rs:564-572 | the next claim, whenever it comes, is told to build, and every other row is untouched |
| `ImageCatalog.BuildsAreSeparated` | src/image.rs:451-488 | two orders to build one image on one runner have a recorded failure, a forget or a lapsed lease between them |
| `ImageCatalog.NextClaimBuilds` | src/image.rs:543-572 | after a recorded failure or a forget, the next claim is told to build, however soon it comes |
| `ImageCatalog.LapsedMeansNotRenewed` | src/image.rs:502-514 | a lapsed lease was last claimed or renewed its whole length before |
| `ImageCatalog.ReadyLeftOnlyByForget` | src/image.rs:543-572 | a ready image stops being ready only by being forgotten |
| `Glob.MatchSegment` | src/paths.rs:226-262 | the loop that backtracks to the last star answers exactly the declarative wildcard relation, within (text + 1) · (pattern + 1) passes |
| `Glob.ScanDecides` | src/paths.rs:226-262 | from every state the loop can be in, what it goes on to answer is what remains to be decided |
| `Glob.ScanIsQuick` | src/paths.rs:226-262 | each pass moves the resume point and pattern index up lexicographically |
| `Glob.OnlyStars` | src/paths.rs:257-262 | the trailing loop answers whether the rest of the pattern matches nothing |
| `Glob.ExpansionMatches` | src/paths.rs:199-218 | a choice of counts for the `**` that lines up is found |
| `Glob.MatchHasExpansion` | src/paths.rs:199-218 | a match gives such a choice |
| `Glob.MatchesExactly` | src/paths.rs:193-218 | a path matches exactly when some choice of counts, writing each `**` as that many `*`, lines up segment by segment |
| `Text.BlanksExactly` | src/paths.rs:193-218 | which characters trimming removes, by their codes |
| `Tokenizer.Tokenize` | src/expr.rs:271-386 | the loop computes the token function whose accepted texts the next row gives |
| `Tokenizer.TokenizesExactly` | src/expr.rs:271-386 | a text has the tokens `ts` exactly when it writes them out one by one, with blanks wherever two would run together |
| `Tokenizer.LexesBack` | src/expr.rs:276-383 | every text of a token that nothing behind it makes longer is read as that token |
| `Tokenizer.CharactersExactly` | src/expr.rs:276-383 | which characters are blanks and which make up names, by their codes |
| `Tokenizer.WholeNumerals` | src/expr.rs:354-371 | digits are a whole number |
| `Tokenizer.BrokenNumerals` | src/expr.rs:354-371 | digits behind a dot are tenths, hundredths and so on, and a number needs digits on both sides |
| `Tokenizer.PowersOfTen` | src/expr.rs:354-371 | each place is a tenth of the one in front |
| `Tokenizer.ReadLiteral` | src/expr.rs:331-353 | the inner loop reads a quoted string to its closing quote, doubled quotes as one, or finds none |
| `Parsing.Parser.Or` | src/expr.rs:407-416 | value, error and position are those of the grammar's or level on the tokens ahead |
| `Parsing.Parser.And` | src/expr.rs:418-425 | likewise for `&&` |
| `Parsing.Parser.Not` | src/expr.rs:427-433 | likewise for `!`, which binds looser than comparison |
| `Parsing.Parser.Comparison` | src/expr.rs:435-468 | likewise for comparisons, which do not chain; what they come to is said by the rows of `Operators` |
| `Parsing.Parser.Primary` | src/expr.rs:475-493 | likewise for a path of properties |
| `Parsing.Parser.Atom` | src/expr.rs:495-545 | likewise for groups, literals, names and calls |
| `Parsing.Evaluate` | src/expr.rs:123-135 | tokenizing, parsing and the check for leftover tokens come to the evaluation function |
| `ExprTrees.OrParses` | src/expr.rs:407-416 | a tree written out where the grammar wants the or level is read as its meaning, and the loop goes on with what follows |
| `ExprTrees.EvaluatesFitting` | src/expr.rs:123-135 | a tree written out without needless parentheses evaluates to its meaning, errors included |
| `ExprTrees.GroupingMeansTheSame` | src/expr.rs:394-545 | the parentheses put in by precedence leave every tree's meaning as it is |
| `ExprTrees.EvaluatesEveryTree` | src/expr.rs:123-135 | every tree, written with the parentheses it needs and legibly, evaluates to its meaning, errors included |
| `ExprTrees.EverythingCanBeWritten` | src/expr.rs:271-386 | tokens that have texts can be written legibly |
| `ExprTrees.EvaluatesExactly` | src/expr.rs:123-135 | evaluation succeeds with a value exactly when the text writes out a tree of the grammar that means it |
| `ExprTrees.OrChain` | src/expr.rs:407-416 | a chain of the or operator is its first truthy operand, else its last |
| `ExprTrees.AndChain` | src/expr.rs:418-425 | a chain of `&&` is its first operand that is not truthy, else its last |
| `Operators.OrderingsCompareNumbers` | src/expr.rs:447-466 | `<`, `<=`, `>` and `>=` compare the numbers their operands count as |
| `Operators.OrderingsWithoutNumbers` | src/expr.rs:452-464 | with an operand that counts as no number all four are false |
| `Operators.NoNumbers` | src/expr.rs:242-249 | nothing, lists, objects and texts that are no numbers count as none |
| `Operators.NumbersCompare` | src/expr.rs:435-468 | numbers written in an expression compare as numbers, in all six ways |
| `Operators.EqualityExactly` | src/expr.rs:231-240 | nothing equals only nothing, values of one plain kind compare as such, others by how they read; equality is symmetric and `!=` its opposite |
| `Operators.HowValuesRead` | src/expr.rs:203-213 | how a value reads: nothing as the empty text, a whole number in decimal digits with its sign in front |
| `Operators.NumberEqualsItsText` | src/expr.rs:227-230 | a whole number equals its digits as a text |
| `Operators.TruthDecides` | src/expr.rs:216-225 | exactly nine values count as false, and they decide the or operator, `&&` and `!` |
| `Operators.ErrorsComeFirst` | src/expr.rs:407-468 | both operands are evaluated and the first error is the outcome |
| `Functions.ContainsExactly` | src/expr.rs:550-557 | an item equal to the second argument, or a place where the one text stands in the other |
| `Functions.StartsAndEndsExactly` | src/expr.rs:558-559 | the first text is the second with some text behind it, or in front |
| `Functions.FormatExactly` | src/expr.rs:560-566 | each numbered hole is filled with its argument and others stay, as long as no brace opens in the plain text or an argument |
| `Functions.JoinExactly` | src/expr.rs:567-579 | the separator, a comma if none is given, stands between the items |
| `Functions.JsonThereAndBack` | src/expr.rs:580-583 | what is written as JSON is read back as far as the library does so |
| `Functions.StatusFunctions` | src/expr.rs:617-620 | which of the status functions is true for which status |
| `Functions.FunctionsAre` | src/expr.rs:547-623 | there are exactly twelve functions |
| `Scopes.NamesFind` | src/expr.rs:64-73 | constants and roots, and nothing for a name that is not there |
| `Scopes.PropertiesFind` | src/expr.rs:142-156 | an object gives the value under a name, a list the item at its decimal number, anything else nothing |
| `Scopes.IndexTooLarge` | src/expr.rs:142-156 | a number beyond 64 bits finds no item |
| `Scopes.PathsFind` | src/expr.rs:475-493 | a path is followed property by property, a number in it by its digits |
| `Scopes.LookupIsPath` | src/expr.rs:64-73 | looking a path up is what the path means as an expression |
| `Values.WalkOn` | src/expr.rs:142-156 | walking a path in two parts is walking it whole |
| `Evaluator.ChangedIsMatchesAny` | src/expr.rs:596-613 | on a run's `ci` scope `changed(p…)` equals the path filter on the run's changes, known or unknown |
| `Evaluator.CiScopeShowsChanges` | src/dispatch.rs:494-517 | the scope shows the run's paths and whether they are known |
| `Scopes.CiShowsTheRun` | src/dispatch.rs:503-516 | the scope shows each fact of the run under its name |
| `Scopes.CiShowsTheCommit` | src/dispatch.rs:498-501 | and the commit it is for |
| `Scopes.CiShowsTheBranch` | src/dispatch.rs:502 | and the branch without the prefix of branches, where the reference has it |
| `Scopes.UnreadRunShowsNothing` | src/dispatch.rs:494-497 | of a run that cannot be read every property is nothing |
| `Scopes.JobConditionSees` | src/dispatch.rs:538-545 | a job's condition sees the results of its needs and the run, and otherwise its base scopes |
| `Scopes.StepConditionSees` | src/dispatch.rs:1587-1599 | a step's condition sees the recorded steps and the status, and otherwise its base scopes |
| `Substitution.FindClose` | src/expr.rs:173-200 | the least unquoted `}}`, or nothing exactly when there is none |
| `Substitution.QuotesPairUp` | src/expr.rs:331-353 | a text whose quotes pair up never has an unterminated string |
| `Substitution.NoHoleIsUnterminated` | src/expr.rs:173-200 | no expression cut out of a text is refused for an unterminated string |
| `Substitution.SplitIsProper` | src/expr.rs:81-101 | a text splits into gaps and closed expressions that concatenate back to it, each as short as it can be |
| `Substitution.SplitIsTheOnlyOne` | src/expr.rs:81-101 | there is no other such split |
| `Substitution.Substitute` | src/expr.rs:81-101 | the loop fills exactly the expressions of the split that evaluate and never looks at a result again |
| `Substitution.Unfailing` | src/expr.rs:75-101 | a text none of whose expressions evaluates is left as it is |
| `Substitution.WrappedCondition` | src/expr.rs:109-120 | a condition means the same with `${{ }}` around it, and with whatever blanks inside |
| `Scopes.ConditionsDecide` | src/expr.rs:109-120 | a blank condition holds, another exactly when its meaning does not count as false |
| `Conditions.StatusConditions` | src/dispatch.rs:524-545 | a job with `always()` runs whatever failed, with `failure()` exactly when something needed failed, and `success()` is the default |
| `Conditions.JobSeesChanges` | src/dispatch.rs:494-545 | a job's `changed(…)` agrees with the path filters on its run |
| `Steps.RunSteps` | src/dispatch.rs:1531-1744 | the loop with its `failed` variable equals one in which no condition ever sees a failure |
| `Steps.MarkedExactly` | src/dispatch.rs:1531-1744 | a step is marked as its own turn says if every earlier step was gone past, and not reached otherwise |
| `StepRecords.RanMeans` | src/dispatch.rs:1614-1730 | a step that ran is marked by how its command or action ended, and the job goes on unless that is a failure the step does not tolerate or a lost command |
| `StepRecords.NotRunMeans` | src/dispatch.rs:1573-1613 | and how one is marked that the job got to without running it |
| `StepRecords.LastRecordIsSeen` | src/dispatch.rs:1680-1685 | later steps see the outputs and outcome of the last step before them that recorded any under that id |
| `StepRecords.NoRecordIsSeen` | src/dispatch.rs:1680-1685 | and nothing under an id where none did |
| `Scopes.RecordShows` | src/dispatch.rs:1680-1685 | a record shows its outputs and its outcome under those names |
| `StepRecords.EndsExactly` | src/dispatch.rs:1724-1744 | the job ends well exactly when every step was gone past |
| `StepRecords.StopsAt` | src/dispatch.rs:1573-1726 | otherwise the mark of the step it stopped at says why |
| `Steps.FailureNeverRuns` | src/dispatch.rs:1593-1597 | a step with `failure()` never runs, whatever fails before it |
| `Steps.SuccessRunsExactly` | src/dispatch.rs:1593-1597 | a step with `success()` runs exactly when one with `always()` would |
| `Steps.AlwaysRunsExactly` | src/dispatch.rs:1599-1606 | a step with `always()` runs exactly when not cancelled and every earlier step was skipped, succeeded or failed tolerably |
| `Steps.TeardownDoesNotRun` | src/dispatch.rs:1599-1600 | behind any step that halts the job no step is reached, whatever its condition |
| `Steps.TeardownLeftOut` | src/dispatch.rs:1599-1600 | a command that exits with 1 leaves a teardown with `always()` behind it unreached |
| `Matrix.ExpandMatrix` | src/plan.rs:190-288 | the loops compute the expansion that the rows of `MatrixReading` describe |
| `Matrix.WrittenOrderIsIrrelevant` | src/plan.rs:241 | however the axes are written down they come out in one order |
| `Matrix.ProductMembers` | src/plan.rs:243-261 | the product's cells are exactly the choices of one value per axis |
| `Matrix.ProductCount` | src/plan.rs:243-261 | there are as many as the sizes of the axes multiply to |
| `Matrix.ProductNoRepeats` | src/plan.rs:243-261 | none comes twice if no axis repeats a value |
| `Matrix.RetainedAre` | src/plan.rs:263 | exactly the cells no `exclude` agrees with stay |
| `Matrix.IncludesOnlyAdd` | src/plan.rs:269-282 | no include changes a value a cell had, and the cells added at the end are grown from the includes that agreed with none |
| `Matrix.NothingFromNowhere` | src/plan.rs:269-282 | every value a cell gains is one an include gives |
| `Matrix.EveryIncludeShows` | src/plan.rs:269-282 | every include is part of some final cell |
| `Matrix.CellCount` | src/plan.rs:190-288 | cells = product − excluded + unmatched includes |
| `Matrix.ChoicesAreCells` | src/plan.rs:190-288 | every choice of values that is not excluded is in the result with all its values |
| `Matrix.CellsAreChoices` | src/plan.rs:190-288 | every cell of the result grew from such a choice, or from an include that agreed with none, by values from includes |
| `MatrixReading.ChoicesHaveCells` | src/plan.rs:190-288 | every choice of one written value per axis with which no written exclude agrees has a cell, grown only by values from includes |
| `MatrixReading.CellsComeFromWriting` | src/plan.rs:190-288 | every cell comes from such a choice or from a written include, so an excluded choice has no cell of its own |
| `MatrixReading.IncludesShow` | src/plan.rs:269-282 | every written include is part of some cell |
| `MatrixReading.ExpandsExactly` | src/plan.rs:246-287 | a well written mapping is expanded exactly when every axis has a value and something is left |
| `MatrixReading.BadEntryIsNamed` | src/plan.rs:205-239 | another is refused at its first entry without a text for a name or without a list |
| `Keys.Sanitize` | src/plan.rs:353-365 | only subject characters are left, with no dash at either end |
| `Keys.TokenCharExactly` | src/plan.rs:353-365 | which characters are legal, by their codes |
| `Keys.SanitizeKeeps` | src/plan.rs:353-365 | legal characters keep their places between the first and last that are no dash, any other shows as a dash, and a clean text is unchanged |
| `Keys.CandidateGrows` | src/plan.rs:323-334 | the readable key is the base and, behind a dash each, the values as far as they leave anything legible |
| `Keys.UniqueKey` | src/plan.rs:317-346 | ends for every set of used keys with an unused one: the readable key if short and free, else the first free number from the index on |
| `Keys.PlanKeys` | src/plan.rs:98-108 | the keys of a plan are distinct, one per cell, and subject tokens if the base ids are |
| `Keys.JobIdsDiffer` | src/store.rs:1564-1566 | with dot-free run ids, equal job ids mean equal runs and keys |
| `Keys.StepIdsDiffer` | src/store.rs:1570-1572 | with dot-free run ids, equal step ids mean equal runs, keys and numbers |
| `Keys.JobAndStepIdsDiffer` | src/store.rs:1564-1572 | no job id is a step id |
| `TopologicalOrder.TopologicallyOrdered` | src/plan.rs:388-433 | the loops, removal from the back included, compute the waves |
| `TopologicalOrder.TakeWave` | src/plan.rs:421-425 | removing the ready positions from the last to the first gives the ready jobs and the others, both in order |
| `TopologicalOrder.OrderIsPermutation` | src/plan.rs:388-433 | a successful order has exactly the jobs given |
| `TopologicalOrder.OrderSucceedsExactly` | src/plan.rs:388-433 | it succeeds if and only if every need names a job and there is no cycle of needs |
| `TopologicalOrder.OrderIsStableByDepth` | src/plan.rs:388-433 | on success it is the input sorted stably by depth |
| `TopologicalOrder.DepthIsLongestChain` | src/plan.rs:384-433 | depth is the length of the longest chain of needs |
| `TopologicalOrder.NeedsComeFirst` | src/plan.rs:418-420 | each job follows every cell of everything it needs |
| `TopologicalOrder.MissingNeedsAreNamed` | src/plan.rs:404-416 | a plan with needs that name no job is refused with exactly those needs |
| `Masker.Masker.constructor` | src/secrets.rs:88-96 | the values are exactly the secrets of length four and up, longest first |
| `Masker.SortedIsStable` | src/secrets.rs:93 | sorting loses nothing and keeps equal lengths in their order |
| `Masker.Masker.Mask` | src/secrets.rs:102-113 | the loop replaces each secret in turn; no safe secret is left; masking again changes nothing |
| `Masker.SecretIsGone` | src/secrets.rs:102-113 | no safe secret survives, whatever it is masked along with |
| `Masker.GoneExactlyWhenSafe` | src/secrets.rs:102-113 | a secret never survives any text in any company if and only if it is safe |
| `Masker.OnlySecretsAreCut` | src/secrets.rs:102-113 | the result is the input with disjoint secrets each shown as `***` and everything else kept in order |
| `Masker.MaskingTwice` | src/secrets.rs:102-113 | masking a masked text changes nothing |
| `Masker.StarFreeSecrets` | src/secrets.rs:88-113 | for secrets free of `*`: none is left, the result is the input with disjoint secrets shown as `***`, and masking again changes nothing |
| `Masker.WholeSecretIsOneMark` | src/secrets.rs:80-82 | with the longest first, a secret standing alone is shown as exactly `***` |
| `Placement.Locate` | src/runners.rs:274-291 | the loop finds the default network if it holds the host, else the first served one that does |
| `Placement.PlacedSoundly` | src/dispatch.rs:642-701 | a place is in a served network, its host is one of that network's, and a VM comes only with its host |
| `Landing.UnnamedLands` | src/runners.rs:262-267 | a job that names no network goes to the configured one if it is served, else to the first served one, and nowhere if none is |
| `Landing.NamedLands` | src/dispatch.rs:612-634 | one that names a network goes to the first with that id or, but for case, name, if that is served |
| `Landing.HostLands` | src/dispatch.rs:665-701 | in the network it is for the first host it addresses, or for any; if there is none, only a job for any host without a VM is taken |
| `Landing.RefusedWithItsNetwork` | src/dispatch.rs:665 | a job whose network is refused is refused for the same reason |
| `Landing.LocalLands` | src/dispatch.rs:648-662 | a local job runs on the orchestrator's own host, in the configured network if that holds it, else the first served one that does |
| `Landing.LocalAndUnnamedLandTogether` | src/runners.rs:274-291 | if the configured network holds that host, local and unnamed jobs land in the same network |
| `Landing.FirstOnlineRuns` | src/dispatch.rs:936-960 | the first online host runs it, with the VM it names |
| `Landing.QueueIsForThePlace` | src/dispatch.rs:709-723 | the queue is the host's if it has one, online or not, else the network's |
| `Placement.QueueAndHostAgree` | src/dispatch.rs:709-723 | on one snapshot the queue and the host agree: the pinned host or a refusal because it is not online, or an online host of the queue's network and a refusal only if it has none |
| `Placement.CanonicalExactly` | src/dispatch.rs:554-603 | canonical names keep a job's place exactly when the snapshot finds that place by them |
| `Placement.AllStayExactly` | src/dispatch.rs:554-603 | a snapshot keeps every job's place if and only if every listed network that its id, its name or the default finds, and every host there that its id or name finds, is found by its own name |
| `Placement.AssignKeepsPlace` | src/dispatch.rs:554-603 | on a snapshot whose names find what they name, assignment keeps the place and is idempotent |
| `Landing.RepositoryStandsIn` | src/dispatch.rs:554-603 | the repository's network stands in exactly for one the job does not name, and the names put in are those of its place |
| `Landing.WarnedExactly` | src/dispatch.rs:554-603 | a job is warned about exactly when its host would refuse to run it now for not being online |
| `Placement.ANameCanMoveAJob` | src/dispatch.rs:592-600 | on a snapshot sorted by name as they all are, a clash can move a job to another network |
| `Placement.AssignNetworks` | src/dispatch.rs:554-603 | refused at the first job without a place; else every job is assigned and exactly those pinned to a host not online are warned about |

## Left out

- SQL, the queue server, HTTP, tunnels, git and tar, log files: only the row updates and queue actions they carry out are modelled, as atomic steps.
- `nudge_stalled_runs` and what else calls `advance_run`: the protocol lets a scheduler look at any run at any time, which allows more than the program does.
- What steps do, and what routing answers: a started job may succeed or fail, and routing may refuse any job, at any time. An `if:` is any function of the statuses of the needs and of a number that stands for all else it reads.
- The order of the loop over a run's jobs: a scheduler visits each job it read once, in any order.
- JobHands.EndingIsFinalExactly: for skipped and failure, a scheduler between its two reads is judged by any needs it may yet read.
- The plan of every run is in the table from the start; inserting runs while others proceed is not modelled.
- How long messages stay hidden between deliveries and how long the duplicate window lasts: a redelivery may come at any time, and a publish may or may not be taken for a duplicate.
- That every job ends: false after a crash on the last delivery; only safety and the bounded return of a crashed instance's VMs are stated.
- LeaseGuarantees.CrashedClaimsComeBack: takes the sweeps to succeed once a period, since the loop's errors are not modelled.
- The daemon's own expiry of machines, warming, idle trimming by count, and the choice of which dead host to sweep.
- Wrong or repeated YAML: a matrix arrives as its entries and their JSON forms, and the names of a mapping are distinct where a lemma says so.
- Floating point, infinities and numbers beyond a double: numbers are exact reals, and their display, `toJSON`, `fromJSON` and reading a float are taken as given functions.
- Text that is not ASCII: characters are not encoded, lengths count characters, and a byte of a longer character is never looked at alone.
- ExprTrees.EvaluatesExactly: says nothing about which of several errors a text with no tree gives, because an unknown function is reported before a syntax error further on.
- Keys.Candidate: takes the displayed values of a cell as given, in the order of the axis names.
- Steps.RunSteps: cancellation and endings are given per step; outputs of the job, logs, timeouts and the environment of a command are not modelled.
- Placement.AssignNetworks: the texts of warnings are reduced to the keys of the jobs they name.
- `paths-ignore` (`all_match`), pattern validation, display labels, `max_parallel` and `fail_fast`: easy, or not enforced by the scheduling code.
- Signatures, tokens, configuration, artifacts, web pages.
