# MaroonLedger in Dafny

A model of the parts of MaroonLedger that carry state, arithmetic or concurrency, with proofs
about it. `dafny verify dfyconfig.toml` checks everything.

| file | models |
|---|---|
| `Batching.dfy` | the event and its encoding, the batch limits, and the greedy flush rule |
| `EmitterProtocol.dfy` | the Firehose emitter as a step system: emitters, channel, worker, clock, `Close`, service |
| `Firehose.dfy` | the emitter object: bounded queue, fixed batch buffer, wrapping counters; every method moves only by steps of the step system |
| `RateLimit.dfy` | the per-identity limiter with its eviction loop |
| `Migrate.dfy` | one migration run over a faulty connection, and any number of interleaved runs |
| `Money.dfy`, `Usd.dfy` | rounding to cents, and the currency printer with a reader that inverts it |
| `Ledger.dfy`, `Summary.dfy` | stored rows, the balance series of one account and of all of them |
| `GroupBy.dfy`, `Aggregate.dfy` | SQL grouping, spending by category, cash flow |
| `Dashboard.dfy` | the chart of one response against its inflow and outflow |
| `Anomaly.dfy` | anomaly scoring over per-category aggregates |
| `Peers.dfy` | an account's history against the rows in the table, and the rules for a verdict over them |
| `WritePath.dfy` | create: category resolution, enrichment, insert, emit, and interleaved requests |
| `Lake.dfy` | the whole path: commit, emit, batch, land at least once, nightly job, curated rows |

Conventions. Amounts and times are `real`, so binary rounding is not modelled; days are integers.
A query is either a fold over the rows or a contract on its answer that leaves the order of
groups open. The delivery service, the model provider, failing statements, the order in which a
map is ranged over and the order in which goroutines run are arbitrary.

What the proofs found, where the code does less than its description suggests:

- An `Emit` after `Close` is accepted by the channel and, once the drain has found the queue
  empty, stays there uncounted. Events are stranded exactly when an emit is accepted after that
  step (`StrandedIffEmittedLate`, `ExitStrandsLateEmits`), and `EmitAfterDrainIsStranded` is a
  run in which it happens.
- The delivered and failed counters account for a batch exactly when FailedPutCount is not
  negative (`DeliveryIsAccountedIff`, `NegativeCountMiscounts`).
- `Allow` reads the clock twice. That the burst refills within the time to live is therefore
  not enough for an eviction pass to leave no bucket unseen for longer than that
  (`GapKeepsIdleBucket`). With the two readings at most `gap` apart, it is so in every run if and
  only if the burst is zero, or the burst and a deficit of min(rate * gap, 1) tokens, or of
  rate * gap - burst + 1 tokens if that is more, refill within the time to live
  (`PassesLeaveRecentIff`). Both of the server's limiters have minutes to spare
  (`ServerLimitersRefill`).
- The anomaly scorer sees the submitted amount and the history stores whole cents, so "within a
  factor of two is never flagged" fails below the cent: `SubCentAmountsCanBeFlagged` is a run that
  flags -0.029 after -0.0149. Requests for given amounts are never flagged, in any interleaving,
  if and only if each outflow is at most twice, and each inflow at most ten times, every one of
  the amounts as the column stores it (`NeverFlaggedIff`); whole-cent amounts within a factor of
  two always qualify (`OrdinarySpendingIsNeverFlagged`).
- The reason given for a flag speaks of what was compared against exactly when the amount is an
  outflow or the category has no history of its own (`FlagNamesScopeIff`). A flagged inflow is
  compared with its category and described as a multiple of the account's average
  (`InflowNamesTheAccount`).
- When the scorer finds a line of the category with a zero count, the line's amounts stay in the
  account-wide totals it falls back to, which are therefore the account's own exactly when the
  line carries no amount (`FallbackIsAccountIff`, `EmptyLineHidesOutflow`). GROUP BY never yields
  such a line, and the model keeps the behaviour.
- The daily movement query drops the part of the first day before the window's start instant;
  the balance series never reads it (`RunningUndoesLaterRows`).
- The reported inflow less the reported outflow is the rise of the chart exactly when what moved
  on the first day from the window's start on equals what is dated later than its end on the
  last day (`ReportedFlowsAndChart`, `FirstDayIsOnlyInFlows`).
- The nightly job de-duplicates within a pass, and a transaction has one curated row for each pass
  that read a copy of it (`OneRowPerReadingPass`). It has exactly one if and only if a single pass
  read every copy that was ever read, and never more than raw copies and failed commits together
  (`OneCuratedRowPerTransaction`). A record that the service delivers again after a pass is
  written twice although every bookmark was committed (`RedeliveryIsWrittenTwice`).
- The passes consume the landing zone once, in order, if and only if no job fails between its
  write and its commit (`BookmarkConsumesOnce`). A job that does makes the next pass read the
  same objects again, and a record delivered once is written twice
  (`FailedCommitIsWrittenTwice`).

## Model

| member | source | states |
|---|---|---|
| `Batching.ShutdownDrainIsOptimal` | app/internal/pipeline/firehose.go:181-201 | from any pending batch the drain sends a legal order-preserving split of the pending records and the encodable queue, and no legal split is shorter |
| `Batching.DrainIsOptimal` | app/internal/pipeline/firehose.go:192-196 | the flush-before-append rule uses the fewest batches over all legal splits of the same records |
| `Batching.DrainedIsSplit` | app/internal/pipeline/firehose.go:170-176 | what is sent concatenates to what was received, inside 500 records and 4 MiB a batch, with no empty batch |
| `Batching.LighterIsNoWorse` | app/internal/pipeline/firehose.go:172-174 | a lighter pending batch never costs more batches and saves at most one |
| `Batching.DrainIsOptimalOverEvents` | app/internal/pipeline/firehose.go:17-23 | no way of cutting the events, in order, into batches of at most 500 records, 1 MiB of JSON and newline each and 4 MiB in all, is shorter than the drain's |
| `Batching.AcceptableIffFits` | app/internal/pipeline/firehose.go:240-252 | the sizes the worker adds up are the lengths of the events' JSON with a newline, so its limits are those of the service |
| `EmitterProtocol.EmitsAreConserved` | app/internal/pipeline/firehose.go:104-233 | in every reachable state each Emit call is dropped, being dropped, queued, in the worker's hand, pending, delivered or failed |
| `EmitterProtocol.NothingReorderedOrLost` | app/internal/pipeline/firehose.go:138-204 | batches, pending, hand and queue concatenate to the accepted events in order without the refused ones, and no event is in two places |
| `EmitterProtocol.LimitsAlwaysHold` | app/internal/pipeline/firehose.go:17-23 | the queue stays within its bound, and every batch holds at most 500 events, each with its newline at most 1048576 bytes of JSON, 4194304 in all |
| `EmitterProtocol.RefusedIffUnsendable` | app/internal/pipeline/firehose.go:166-169 | in every run the refused events are exactly those taken that have no JSON or more than 1 MiB of it, each as often as it came, and the others all became records |
| `EmitterProtocol.CountersAreRight` | app/internal/pipeline/firehose.go:210-233 | in every run failed is what the service reported or erred on, delivered the rest of the finished batches, dropped what was refused or came while the buffer was full |
| `EmitterProtocol.ExitStrandsLateEmits` | app/internal/pipeline/firehose.go:181-201 | when the worker has gone, what is left in the queue is exactly what was accepted after the drain found it empty, and everything earlier was sent or refused |
| `EmitterProtocol.StrandedIffEmittedLate` | app/internal/pipeline/firehose.go:104-113 | in every run that ends with the worker gone, the queue holds the events of the emits accepted after the drain's last look at it, so it is empty exactly when there were none |
| `EmitterProtocol.EmitAfterDrainIsStranded` | app/internal/pipeline/firehose.go:116-134 | a run in which an event accepted after Close stays in the channel, in none of the counters |
| `EmitterProtocol.CleanShutdown` | app/internal/pipeline/firehose.go:116-134 | when nothing is accepted after Close and the worker has finished, queue and pending are empty, every encodable accepted event was sent, and, once every Emit call has returned, Emit calls equal delivered plus failed plus dropped |
| `EmitterProtocol.DrainedBatchesAreOptimal` | app/internal/pipeline/firehose.go:181-201 | in any interleaving without new emits the drain sends a legal split of pending and queue, and no way of cutting their events into batches the service accepts is shorter |
| `EmitterProtocol.DrainTerminates` | app/internal/pipeline/firehose.go:161-203 | without new emits the worker's steps are bounded by a measure of the state plus three for each tick, whichever ready case select takes |
| `EmitterProtocol.DrainNeverSticks` | app/internal/pipeline/firehose.go:181-201 | after Close some step other than a tick is open to the worker until it exits |
| `EmitterProtocol.HealthyShutdownDeliversAll` | app/internal/pipeline/firehose.go:210-233 | with a service that rejects nothing a clean shutdown has delivered every encodable accepted event and failed none |
| `EmitterProtocol.DeadServiceDeliversNothing` | app/internal/pipeline/firehose.go:215-219 | with a service that always errs nothing is counted as delivered |
| `EmitterProtocol.RunKeepsInv` | app/internal/pipeline/firehose.go:104-233 | conservation, order, limits and shutdown facts hold along every run |
| `Firehose.DeliveryIsAccountedIff` | app/internal/pipeline/firehose.go:221-232 | modulo 2^64 the counters account for the batch exactly when FailedPutCount is not negative |
| `Firehose.FirehoseEmitter.constructor` | app/internal/pipeline/firehose.go:72-89 | a non-positive buffer size becomes 2048; the emitter starts empty |
| `Firehose.FirehoseEmitter.Emit` | app/internal/pipeline/firehose.go:104-113 | queues the event when there is room, otherwise counts one drop; nothing else changes |
| `Firehose.FirehoseEmitter.Deliver` | app/internal/pipeline/firehose.go:210-233 | the counters after one delivery, for any reply, wrap-around included |
| `Firehose.FirehoseEmitter.Flush` | app/internal/pipeline/firehose.go:147-159 | nothing when nothing is pending, otherwise the pending batch is sent, counted and cleared |
| `Firehose.FirehoseEmitter.Receive` | app/internal/pipeline/firehose.go:163-176 | one event leaves the channel and is refused or appended, after a flush when it would breach a limit |
| `Firehose.FirehoseEmitter.Tick` | app/internal/pipeline/firehose.go:178-179 | the pending batch is sent if there is one |
| `Firehose.FirehoseEmitter.Drain` | app/internal/pipeline/firehose.go:181-201 | the queue is emptied, the batches sent are the greedy split of pending and queue, and the worker exits |
| `Firehose.FirehoseEmitter.Run` | app/internal/pipeline/firehose.go:138-204 | for any sequence of ready cases and arrivals, each turn does what its case says and the whole is a run of the step system |
| `RateLimit.LimiterIsOneBucketPerKey` | app/internal/ratelimit/ratelimit.go:57-85 | for any calls and eviction checks a key is answered as by one token bucket only it uses, never removed |
| `RateLimit.EvictionIsInvisible` | app/internal/ratelimit/ratelimit.go:71-85 | every key is answered as by a limiter that never evicts |
| `RateLimit.WindowBound` | app/internal/ratelimit/ratelimit.go:40-69 | in any window a key is allowed at most burst plus rate times the length |
| `RateLimit.DeniedIffOverdrawn` | app/internal/ratelimit/ratelimit.go:40-85 | over any calls and eviction passes a call is denied if and only if in some window ending at it the calls already allowed, and one more, exceed burst plus rate times the length |
| `RateLimit.BurstIsAllowed` | app/internal/ratelimit/ratelimit.go:40-53 | of any number of simultaneous first calls exactly the first burst are allowed |
| `RateLimit.RefilledTokenIsAllowed` | app/internal/ratelimit/ratelimit.go:45-46 | a call after a whole token has refilled is allowed |
| `RateLimit.PassIsChecks` | app/internal/ratelimit/ratelimit.go:76-82 | an eviction pass is its per-key checks in any order |
| `RateLimit.Limiter.Allow` | app/internal/ratelimit/ratelimit.go:57-69 | answer and new map of one call |
| `RateLimit.Limiter.EvictPass` | app/internal/ratelimit/ratelimit.go:72-83 | the pass keeps exactly the entries that are not both idle and full |
| `RateLimit.PassLeavesRecent` | app/internal/ratelimit/ratelimit.go:73-81 | after any run, when the burst and the deficit refill within the time to live, a pass leaves no bucket unseen for longer than the time to live |
| `RateLimit.PassesLeaveRecentIff` | app/internal/ratelimit/ratelimit.go:57-85 | over all runs with clock readings at most a gap apart, that condition is necessary as well; without a gap it is burst at most rate times the time to live |
| `RateLimit.SeenKeysSurvive` | app/internal/ratelimit/ratelimit.go:79 | a key seen within the time to live keeps its bucket through every pass |
| `RateLimit.GapKeepsIdleBucket` | app/internal/ratelimit/ratelimit.go:66-68 | a run of a limiter as New builds it whose burst refills within the time to live, yet which keeps an idle bucket for longer |
| `RateLimit.MapHoldsRecentKeys` | app/internal/ratelimit/ratelimit.go:71-85 | up to one time to live after a pass the map holds only keys seen in the last two |
| `RateLimit.ServerLimitersRefill` | app/cmd/server/main.go:68-69 | the gaps up to which passes of the two server limiters leave no idle bucket, exactly: 594 and 599 seconds |
| `Migrate.CommittedInOrderOnce` | app/internal/database/migrate.go:36-73 | for any number of runs, interleavings and crashes the commits are a prefix of the missing files in order, each body's effect exactly once |
| `Migrate.TableIsPrefixOfFiles` | app/internal/database/migrate.go:34-36 | from a new database the committed versions are a prefix of the sorted files |
| `Migrate.CleanReturnAppliesAll` | app/internal/database/migrate.go:73 | a run that returns no error leaves every file applied |
| `Migrate.SomeBootSucceeds` | app/internal/database/migrate.go:36-73 | when any number of tasks boot, nothing but the race for a version fails and all have returned, one returned no error and every file is applied |
| `Migrate.LateRunReturnsError` | app/internal/database/migrate.go:51-66 | from any state a run whose version was committed by another stays at it, never commits, and can end only with an error |
| `Migrate.AtMostOneRivalSucceeds` | app/internal/database/migrate.go:62-66 | of two runs that found the same version missing at most one returns no error |
| `Migrate.ErrorMayHideCommit` | app/internal/database/migrate.go:67-69 | a run that returns an error although its version is in the table |
| `Migrate.BootNeverSticks` | app/internal/database/migrate.go:36-73 | until all runs have returned, one of them can take a step other than a failure |
| `Migrate.BootsEnd` | app/internal/database/migrate.go:36-73 | in any interleaving the runs take at most five steps a file, and five more, each |
| `Migrate.NextCommit` | app/internal/database/migrate.go:39-47 | a run that saw every earlier file applied commits exactly the first missing one |
| `Migrate.ApplyAll` | app/internal/database/migrate.go:21-74 | one run: all missing files on success, and on an error exactly those before the file it names, without partial effects |
| `Usd.ReadInvertsFormat` | app/internal/ai/stub.go:50-72 | reading a printed amount back gives it rounded half away from zero to the cent |
| `Usd.Format` | app/internal/ai/stub.go:50-72 | the printed text is that of the rounded cents, carry and sign included, and the one text of that amount |
| `Usd.PrintedIsTheText` | app/internal/ai/stub.go:50-72 | a text is the printed one if and only if it is a minus sign for a negative amount, a dollar sign, digits with a comma at every fourth place from the right and no leading zero, a point and two digits, and reads as the cents |
| `Usd.ZeroUnitsIff` | app/internal/ai/stub.go:58-71 | a zero follows the dollar sign exactly when the rounded amount is below one unit, and then the point follows it |
| `Usd.CommasEveryThreeDigits` | app/internal/ai/stub.go:60-65 | a comma stands exactly at every fourth place from the right |
| `Usd.LoopGroups` | app/internal/ai/stub.go:60-65 | the left-to-right loop groups in threes from the right |
| `Usd.SplitCents` | app/internal/ai/stub.go:51-56 | rounding the fraction on its own, with the carry, rounds the whole amount |
| `Summary.BalanceSeries` | app/internal/handlers/summary.go:223-232 | the backward loop fills in the rounded running balances |
| `Summary.SeriesFollowsMovements` | app/internal/handlers/summary.go:223-232 | the series ends at the current balance, unrounded steps are the days' movements, and a point is within half a cent, exact in whole cents |
| `Summary.ReplayRebuilds` | app/internal/handlers/summary.go:217-222 | replaying the movements forward from the first point rebuilds every balance |
| `Summary.FirstDayNeverMatters` | app/internal/handlers/summary.go:227-230 | on distinct days the first day's movement changes nothing |
| `Summary.DailyDeltas` | app/internal/handlers/summary.go:201-214 | the query's lines are filed by account and day, and nothing else is |
| `Summary.LookupIsMovement` | app/internal/handlers/summary.go:189-215 | looking up any of the caller's accounts and any day gives its movement, zero when there is none |
| `Summary.RunningUndoesLaterRows` | app/internal/handlers/summary.go:187-232 | a day's balance is the current one less everything that moved on later days, whatever part of the first day the query dropped |
| `Summary.Combine` | app/internal/handlers/summary.go:119-135 | the sparklines are the accounts' series and each combined point is the rounded total of their points |
| `Summary.BalanceChart` | app/internal/handlers/summary.go:97-135 | from the stored rows: each sparkline point is the account's balance less what it moved on later days, and each combined point is within half a cent for each account and half a cent more of the net balance less what all the caller's accounts moved later, exactly it in whole cents |
| `Summary.CombinedIsNearMerged` | app/internal/handlers/summary.go:119-135 | the combined series is within half a cent for each account plus half a cent of the merged account's series |
| `Summary.CombinedIsMergedInCents` | app/internal/handlers/summary.go:119-135 | with whole-cent amounts it is the merged account's series |
| `Dashboard.RiseIsCashflow` | app/internal/handlers/summary.go:119-151 | from any day to the last the chart rises by the inflow less the outflow of the days after it, to within the rounding of two points, exactly in whole cents |
| `Dashboard.ReportedFlowsAndChart` | app/internal/handlers/summary.go:119-151 | in whole cents the reported flows are the rise of the chart, plus the first day's part of the window, less what the last day holds after it, and equal to the rise exactly when those two are equal |
| `Dashboard.FirstDayIsOnlyInFlows` | app/internal/handlers/summary.go:187-232 | a row of the first day is in the reported flows and not in the rise |
| `Money.Round2Facts` | app/internal/handlers/summary.go:269-271 | rounding moves an amount by at most half a cent, by half a cent only away from zero, and changes exactly what is not whole cents |
| `Aggregate.WindowReport` | app/internal/handlers/aggregate.go:36-81 | for any rows and window the breakdown adds up to the outflow, inflow less it is the signed sum, and a category is listed exactly when it has a negative row |
| `Aggregate.BreakdownSumsToOutflow` | app/internal/handlers/aggregate.go:37-43 | per-category totals sum to the outflow, within half a cent a category once rounded |
| `Aggregate.BucketsAreOfTheirRows` | app/internal/handlers/aggregate.go:37-43 | each line counts the negative rows of its category and totals what they took |
| `Aggregate.SelectedKeepsEach` | app/internal/handlers/aggregate.go:37-42 | the window holds each row of the caller dated in it as often as the table, and no other |
| `Aggregate.ReportedTotalsAddUp` | app/internal/handlers/aggregate.go:56-81 | with whole-cent rows the reported totals add up to the reported outflow |
| `Aggregate.CategoryListedIffSpent` | app/internal/handlers/aggregate.go:38-42 | a category is listed exactly when it has a negative row, and once |
| `Aggregate.FlowsBalance` | app/internal/handlers/aggregate.go:72-77 | inflow less outflow is the signed sum |
| `Aggregate.CategoryOutflow` | app/internal/handlers/aggregate.go:49-60 | each line with its total rounded, still in descending order |
| `GroupBy.GroupingPartitions` | app/internal/handlers/transactions.go:284-292 | counts, sums and maxima by group combine to those of all rows, in any order of groups |
| `Anomaly.DetectAnomaly` | app/internal/ai/stub.go:123-215 | the verdict, the scope compared against and what the reason speaks of, for any baseline; anomalous exactly when the severity is not none; a flag speaks of its scope exactly for an outflow or when the scope is the account |
| `Anomaly.FlagNamesScopeIff` | app/internal/ai/stub.go:133-140 | for any history the reason for a flag speaks of what was compared against if and only if the amount is an outflow or its category has no row |
| `Anomaly.InflowNamesTheAccount` | app/internal/ai/stub.go:176-183 | an inflow compared with its category whose reason speaks of the account |
| `Anomaly.FallbackIsAccountIff` | app/internal/ai/stub.go:149-167 | when the category's first line counts no rows, the scale fallen back to is the account's exactly when that line carries no amount |
| `Anomaly.EmptyLineHidesOutflow` | app/internal/ai/stub.go:161-167 | a baseline in which such a line keeps an outflow from being flagged |
| `Anomaly.SummaryLosesNothing` | app/internal/ai/stub.go:149-171 | scoring against the aggregates gives the severity of scoring against the raw rows of the category, or of the account when it has none |
| `Anomaly.VerdictByTheRules` | app/internal/ai/stub.go:171-214 | with n rows of the scope, sum S and maximum M, an outflow x is high iff x > 2M and nx > 4S, medium iff not high and nx > 3S, low iff neither and nx > 2S; an inflow is low iff nx > 10S and otherwise none |
| `Anomaly.QuietReasonNamesAccount` | app/internal/ai/stub.go:168-212 | without a flag the reason speaks of the account, or of nothing when it has no rows |
| `Anomaly.SeverityIsMonotone` | app/internal/ai/stub.go:190-214 | the severity of an outflow never falls as its magnitude grows |
| `Anomaly.VerdictIsScaleFree` | app/internal/ai/stub.go:171-214 | scaling all amounts by one positive factor changes no verdict |
| `Anomaly.VerdictIgnoresOrder` | app/internal/ai/stub.go:149-167 | reordering a baseline with one line for each category changes no verdict |
| `Anomaly.OrdinaryIsNotFlagged` | app/internal/ai/stub.go:149-214 | an outflow at most twice, or an inflow at most ten times, every past one of its category is not flagged |
| `WritePath.NeverFlaggedIff` | app/internal/handlers/transactions.go:150-306 | requests for given amounts resolved to one category are never flagged once it has history, in any interleaving, if and only if no amount passes the bar set by the stored form of any of them |
| `WritePath.OrdinarySpendingIsNeverFlagged` | app/internal/handlers/transactions.go:237-279 | in every interleaving of requests, whole-cent amounts of one category within a factor of two are never flagged once the category has history |
| `WritePath.OneRowVerdict` | app/internal/handlers/transactions.go:246-265 | after one row, an amount is unflagged exactly when it stays within the bar of the stored amount |
| `WritePath.SubCentAmountsCanBeFlagged` | app/internal/handlers/transactions.go:171-179 | a run of requests for two sub-cent amounts within a factor of two that flags the second |
| `WritePath.BaselineOfIsBaseline` | app/internal/handlers/transactions.go:283-307 | the history query's answer is a line for each category with its count, sum, mean and maximum |
| `Peers.HistorySums` | app/internal/handlers/transactions.go:284-292 | the count and sum of a category in an account's history, and of all of it, are those of the account's rows in the table |
| `Peers.HistoryMax` | app/internal/handlers/transactions.go:284-292 | and so is the maximum |
| `Peers.VerdictIsRight` | app/internal/ai/stub.go:149-214 | the scorer's severity for an account's history is the one the rules give over the rows in the table |
| `WritePath.TransactionHandler.Enrich` | app/internal/handlers/transactions.go:237-279 | the category is resolved first, the stub's severity is the one the rules give over the account's rows of that category, and the provider is named when either step succeeded |
| `WritePath.TransactionHandler.Create` | app/internal/handlers/transactions.go:150-203 | an unlisted category is rejected, a failed insert changes nothing stored, and otherwise one row with the category asked for, a listed suggestion or "other", the right severity over the earlier rows and the right provider is committed and exactly its event emitted; the whole is one run of the step system |
| `WritePath.VerdictsAreRightForSomePrefix` | app/internal/handlers/transactions.go:237-307 | however requests interleave each verdict is the right one for the table as it stood at some earlier moment |
| `WritePath.OnlyListedAreStored` | app/internal/handlers/transactions.go:150-170 | in every interleaving only listed categories are stored |
| `WritePath.StorableIsTwelveDigits` | app/internal/handlers/transactions.go:171-179 | an amount is stored exactly when its cents have at most twelve digits |
| `Lake.CommittedRowsAreConserved` | app/internal/handlers/transactions.go:187-201 | in every run each committed row is with its handler, lost with it, or emitted and then dropped, on its way, delivered or failed |
| `Lake.CuratedRowsWereCommitted` | infrastructure/modules/glue/etl/transactions_etl.py:72-120 | in every run each curated row carries the id, amount, category, severity and provider of a committed row |
| `Lake.PassWritesOneRowPerId` | infrastructure/modules/glue/etl/transactions_etl.py:85-90 | a pass writes one row for each id it read and none for another |
| `Lake.OneRowPerReadingPass` | infrastructure/modules/glue/etl/transactions_etl.py:85-122 | overall an id has one curated row for each pass that read a copy of it |
| `Lake.BookmarkConsumesOnce` | infrastructure/modules/glue/etl/transactions_etl.py:50-63 | in every run the passes read the landing zone once, in order, if and only if no job failed between its write and its commit |
| `Lake.OneCuratedRowPerTransaction` | infrastructure/modules/glue/etl/transactions_etl.py:50-122 | in every run an id has at most as many curated rows as raw ones and failed commits together, some exactly when it was read, and one if and only if a single pass read every copy ever read |
| `Lake.OneCuratedRowWithoutCrash` | infrastructure/modules/glue/etl/transactions_etl.py:50-122 | without a failed commit an id has a curated row exactly when the part of the landing zone read holds it, and one when a single pass read every raw copy |
| `Lake.FailedCommitIsWrittenTwice` | infrastructure/modules/glue/etl/transactions_etl.py:116-122 | a run in which a record delivered once is read by a job that fails between write and commit and by the next one, and has two curated rows |
| `Lake.RedeliveryIsWrittenTwice` | infrastructure/modules/glue/etl/transactions_etl.py:85-90 | a run, with every bookmark committed, that leaves two curated rows of one transaction |
| `Lake.NoTransactionSentTwice` | app/internal/handlers/transactions.go:187-201 | no transaction id occurs twice in the batches the emitter sends |
| `Lake.HandedWasAccepted` | app/internal/pipeline/firehose.go:210-233 | whatever the service was handed had been accepted from a handler |

## Left out

- The AWS SDK, the Bedrock client and its prompts, HTTP handling, authentication and logging: a delivery or a model answer is an arbitrary outcome within its contract.
- JSON bytes: an event carries the length of its rendering, or none when marshalling fails.
- The deadline of `Close`: the model covers the return without an error, which waits for the worker.
- `FirehoseEmitter.Run` lets other goroutines in between two turns of the select; the finer interleavings inside a turn are those of `EmitterProtocol`.
- `FirehoseEmitter`: its methods assume a service that reports between zero failures and the batch size; `Deliver` and `DeliveryIsAccountedIff` cover every other reply.
- `Limiter`: buckets are values in the map, so the sharing of a bucket pointer between the map and a call under the lock is not shown.
- The internals of the token bucket library, which is not part of this repository: it starts full, refills linearly to the burst, and gives a token when at least one is present.
- `Format`: amounts whose whole part, carry included, does not fit a 64-bit integer; no 64-bit float between the stated bound and 2^63 exists.
- The words of an anomaly's reason beyond what it says it compared against, keyword classification, and insight prose.
- Row scanning, connection errors of single reads, ownership checks, date parsing, description limits and the trimming and lower-casing of a category.
- Null columns in the nightly job's frame are absent fields; the loop that adds a missing column and the partitioned Parquet layout are not modelled, and an append is one step.
- Accounts' stored balances: nothing in the repository links them to the transactions, and rows dated after the timeline fall outside it.
- The SQL text of the migrations: a body is an effect that its transaction commits or rolls back whole.
- The frontend, Terraform, diagrams and the development identity provider.
