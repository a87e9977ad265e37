# TalonX: a verified model

Dafny models of the parts of TalonX that keep state over time, with proofs of what they keep over
whole runs. Prices are exact reals, times are whole ticks of a clock fine enough for every timestamp,
and foreign code appears only through what it returns.

| part | modules |
|---|---|
| replay engine (`talonx_backtest/engine.py`, `execution.py`) | `Market`, `Geometry`, `Execution`, `Simulator`, `Replay` (transitions), `Engine` (the mutable engine), `ReplayFrames`, `ReplayLedger`, `ReplayDay`, `ReplayRuns`, `ReplayInstructions`, `ReplayCollisions`, `ReplayStrikes`, `ReplaySkips`, `ReplayIntervals`, `ReplayWitness` (runs that collide, under every configuration that admits them), `ReplayRate`, `ReplayFunnel` |
| alert outbox (`talonx_core/alert_outbox.py`) | `Outbox`, `OutboxRuns`, `OutboxDurability` |
| evidence store (`talonx_compare/`) | `Identity`, `Evidence`, `EvidenceRuns`, `Ordering`, `Alignment`, `AlignmentLaws`, `CollectorBuffer`, `Collection` |
| research cache and limiter (`talonx_brain/`) | `ResearchCache`, `TokenBucket` |
| reports and data preparation (`talonx_backtest/`) | `Metrics`, `DataPrep` |

Objects the source updates in place are classes here, and each of their methods is proved to compute a
transition function on the object's abstract state; the theorems about runs are lemmas about those
functions. Fields named as history in the models (journals, logs, step numbers) are read by no
operation.

## How the parts fit

* `Replay` takes the strategy, the ranking score and the New York calendar as functions. A strategy
  stamps its signals with the symbol it was asked about and sees only bars already fed. Runs take
  minutes with strictly ascending timestamps; `DataPrep.RepairedDataIsReplayable` shows that repaired
  data is of this form. A real clock (`ReplayDay.RealClock`) is a calendar whose dates never go back and
  whose second of the day lies within a day.
* `Outbox` takes each publish result and backoff instant from outside. A run interleaves enqueues,
  delivery reports, flushes, failed saves, crashes between any two records of a flush, restarts, and
  boots that cannot read the state file and start empty. No other operation runs while a flush awaits
  a publish.
* `Evidence` hashes are injective on normalised content. Every write is a temp file renamed over its
  target; a pass may die between any two writes or inside one. There is one writer at a time.
* `Collection` puts the two message buffers, the collection loop and the archive together. `project`
  stands for the projections of one subscription's messages into stored rows.
* `ResearchCache` takes every instant, store failure, retrieval result and model result from outside.
  The exchange's timezone is any pair of clock functions; the results about boundaries ask that no
  clock change sets the clocks back across an open or close (`ZoneOk`, `ZoneOkExactly`), which changes
  at whole hours never do (`WholeHourChanges`).

## What the code does not do

These follow from theorems below; the code is modelled as it is.

* A bar on which an entry is scheduled while the position is still open drops the entry without a
  rejection and is not examined for a stop or target (`StruckPositionSurvivesExactly`). Nothing else lets
  a position outlive a bar that strikes it (`TradesLeaveOnFirstStrike`). Which configurations have such a
  run is said by `SkipsPossibleExactly`.
* Without a positive cooldown a publication can replace an instruction still waiting, an exit and an
  entry can wait together, and a symbol can be left and entered at the same time. Every configuration
  without one whose throttle lets two candidates through has such a run, except that trades cannot touch
  when positions are flattened from midnight on, and no other configuration has
  (`CollisionsPossibleExactly`); when a given run does is said by `PlainlyAccountedExactly`,
  `OneInstructionExactly`, `BothScheduledExactly`, `ReentersAtExitExactly` and `TradesNeverOverlapExactly`.
* Only stop and target trades have results inside their recorded excursion: closes on a signal, at the
  end of a session or of the data may be priced outside every examined bar (`BracketExitIsHonest`,
  `ResultWithinExcursionExactly`).
* A trade forced by the end of data carries its own symbol's last time, which may precede a cut
  (`NoLookAhead` therefore sets these trades aside), and arms no lockout (`SilentAfterLoss`).
* A negative throttle limit counts from the end of the ranking, as Python slices do (`StepPublishes`).
* Delivery is at least once across crashes (`AwaitsAgainExactly`, `CrashLeadsToSecondDelivery`).
* A boot that cannot read the state file starts empty. Its next save erases every other stored id, and
  settled ids can be enqueued and published again (`PersistedIsDurableExactly`, `BreachPublishesAgain`,
  `UnreadableBootForgets`).
* A dedup key does not keep every two different records apart: a separator inside a field can be read
  as ending it, and the second of two such records is dropped (`SameKeyExactly`,
  `AdjacentFieldsCollide`, `CollidingRecordIsDropped`).
* An archive without a manifest is taken for new and is not checked, so a temp file left by a first pass
  that died spoils the next one (`TornManifestSpoilsNextPass`); records of another date are appended
  and then reject the archive (`HealthyStaysHealthyExactly`).
* A key that only the Original records hold appears once for every PIV session (`EachKeyOncePerSession`).
* A batch counts as handed over even when the pass returns without writing
  (`RecordedFallsShortExactly`).
* A filing or fundamentals event whose delete the store refuses still counts as handled, and the
  report from before it is served as current (`OutdatedServedExactly`, `OutdatedIsServed`).
* A worker that lost the lock takes whatever entry it finds and does not flag it
  (`ExpiredServedUnflaggedExactly`, `ExpiredIsServed`). The documentation of `wait_for_cache` speaks of
  the winner's entry; the code does not tell it from an expired one, and the model follows the code.

## Model

| member | source | states |
|---|---|---|
| `Execution.CostHurtsExactly` | talonx_backtest/execution.py:48-67 | slippage and spread move a price against the trader exactly when they are charged and the price is not negative |
| `Execution.NetNeverBeatsGross` | talonx_backtest/execution.py:235-245 | for non-negative prices a trade's net result is never above its gross result, in money and in R, and one exists exactly when the other does |
| `Execution.BracketExitIsHonest` | talonx_backtest/execution.py:174-256 | a STOP trade loses exactly one R, a TARGET trade earns exactly its execution reward-to-risk, and both results lie between the recorded adverse and favourable excursion |
| `Execution.ResultWithinExcursionExactly` | talonx_backtest/execution.py:200-256 | however a trade is closed, its gross R lies between its adverse and favourable excursion exactly when its exit price does |
| `Execution.ExitsOnFirstStrike` | talonx_backtest/execution.py:174-198 | over any sequence of examined bars a position leaves on the first one that touches its bracket, at the level touched, and stays open exactly when none does |
| `Execution.ExcursionIsTheExtreme` | talonx_backtest/execution.py:115-126 | for either direction the recorded excursions are the best and the worst of what was recorded before and of every bar examined, the closing bar included |
| `Execution.ExcursionCountsFromEntry` | talonx_backtest/execution.py:143-198 | a closed trade reports as its excursion the best and the worst of its entry price and of all bars from the first to the closing one |
| `Execution.StopFirstIsConservative` | talonx_backtest/execution.py:90-97 | over the same bars stop-first and target-first leave on the same bar and stop-first never reports the higher gross R |
| `Geometry.GatedGeometryBrackets` | talonx_quant/strategy.py:343-463 | supporting fact for the ledger and publication results: a geometry that carries a ratio encloses its price on the right sides, and risk and ratio are the true distances |
| `Geometry.RatioExistsExactly` | talonx_quant/strategy.py:343-463 | supporting fact for the same: a ratio exists exactly when ATR and its stop multiple are positive, the price is not zero and a pivot lies on the profitable side |
| `Simulator.OpenPosition.RecordExcursion` | talonx_backtest/execution.py:115-126 | the in-place update of one position's excursions is the excursion update of its value |
| `Simulator.TradeSimulator.OpenAt` | talonx_backtest/execution.py:143-172 | opening adds exactly one position to the book, priced, levelled and risked from the fill, and no other symbol is touched |
| `Simulator.TradeSimulator.CheckExit` | talonx_backtest/execution.py:174-198 | one bar's range is counted before the exit decision; the book loses the position exactly when a trade is returned |
| `Simulator.TradeSimulator.Close` | talonx_backtest/execution.py:200-256 | an unconditional close removes the symbol and returns its one trade, or changes nothing when it is not open |
| `Engine.Partition` | talonx_quant/consumer.py:272-277 | the kept and the dropped items are the two order-preserving filters and together all items |
| `Engine.BacktestEngine.ResolveExit` | talonx_backtest/engine.py:496-508 | the mutable step that resolves a scheduled exit computes the model's transition on the whole engine state |
| `Engine.BacktestEngine.ResolveEntry` | talonx_backtest/engine.py:510-547 | the mutable step that resolves a scheduled entry, or examines the open position, computes the model's transition |
| `Engine.BacktestEngine.FinalizeFill` | talonx_backtest/engine.py:860-924 | a planned entry keeps its levels, is re-anchored, or is refused with one rejection, as the fill price dictates |
| `Engine.BacktestEngine.ScreenBar` | talonx_backtest/engine.py:619-742 | everything from the volatility gate to the throttle queue, as one transition of the whole engine state |
| `Engine.BacktestEngine.ProcessSymbolBar` | talonx_backtest/engine.py:484-742 | one bar in the source's order: scheduled exit, scheduled entry and exit check, market state, screening |
| `Engine.BacktestEngine.Revalidate` | talonx_backtest/engine.py:811-858 | re-pricing against the latest close either returns the re-levelled signal or records the one reason why not |
| `Engine.BacktestEngine.FlushThrottle` | talonx_backtest/engine.py:766-809 | the throttle's loops release, publish, schedule and count exactly as the model's flush does |
| `Engine.BacktestEngine.MaybeEodFlatten` | talonx_backtest/engine.py:930-950 | the end-of-day sweep runs once per New York date and closes every priced open position |
| `Engine.BacktestEngine.FinalizeAtDataEnd` | talonx_backtest/engine.py:952-960 | the end-of-data loop closes every open position at its own symbol's last close |
| `Engine.BacktestEngine.Run` | talonx_backtest/engine.py:312-421 | on a fresh engine the whole run computes the model's run, so every theorem about runs is one about this method |
| `ReplayLedger.StepKeepsLedger` | talonx_backtest/engine.py:388-395 | every minute preserves the position ledger: openings are trades plus open positions, every promise of a trade, an entry and a scheduled instruction holds |
| `ReplayRuns.PositionLedgerAtEveryStep` | talonx_backtest/engine.py:484-547 | at every timestamp of every run: what was opened is what was closed plus what is open; every position is a long enclosed by its levels; no trade at non-negative prices nets more than its gross; every SIGNAL_EXIT closes the position held when its signal was published, strictly earlier; every entry fills an earlier bullish publication |
| `ReplayRuns.EveryOpeningBecomesOneTrade` | talonx_backtest/engine.py:943-960 | when the data ends nothing is open and the trades are, as a multiset, exactly the openings with their fills, levels and signals |
| `ReplayRuns.WarmupMarketOnly` | talonx_backtest/engine.py:470-482 | pre-roll changes only market-state buffers and its own counter |
| `ReplayRuns.FlatAfterSweep` | talonx_backtest/engine.py:930-950 | after any timestamp whose date has reached the flatten time no symbol holds a position, for the rest of that date |
| `ReplayDay.StepKeepsDay` | talonx_backtest/engine.py:512-519 | what one minute does to the flattened dates, exactly, and that a flattened date stays flat through it |
| `ReplayDay.StepPriced` | talonx_backtest/engine.py:427-468 | every open symbol has a last close and a last time not before its entry, so the sweeps can always price it |
| `ReplayRuns.NoLookAhead` | talonx_backtest/engine.py:388-421 | two runs whose data agree up to a timestamp have settled the same trades and recorded the same rejections by then, whatever follows |
| `ReplayRuns.LedgersUpTo` | talonx_backtest/engine.py:388-421 | what a finished run had settled and refused by a cut is exactly the ledgers of the run on the prefix |
| `ReplayFrames.StepGrows` | talonx_backtest/engine.py:388-395 | one minute only extends the ledgers, with entries of that minute and none for the end of data |
| `ReplayFrames.ScreenQuiet` | talonx_backtest/engine.py:550-742 | screening changes nothing but pre-publication bookkeeping, and its candidates are off cooldown and off lockout |
| `ReplayInstructions.EveryPublicationAccountedFor` | talonx_backtest/engine.py:496-547 | at every timestamp of every run each side of the publications balances: bullish against fills, the two refusals, skips, replacements and what waits; bearish against signal exits, NO_ACTIVE_POSITION, replacements and what waits |
| `ReplayCollisions.PlainlyAccountedExactly` | talonx_backtest/engine.py:798-802 | the balance holds without the replacements exactly when no publication replaced an instruction still waiting |
| `ReplayCollisions.OneInstructionExactly` | talonx_backtest/engine.py:798-802 | at no timestamp of a run does a symbol have both instructions waiting if and only if no publication crossed a waiting instruction of its symbol |
| `ReplayCollisions.InstructionsStayApart` | talonx_backtest/engine.py:774-802 | with a positive cooldown, or a throttle that lets at most one candidate through, or settings under which nothing revalidates, no publication of any run finds an instruction of its symbol waiting, so nothing is replaced and never do two wait |
| `ReplayIntervals.TradesNeverOverlapExactly` | talonx_backtest/execution.py:143-226 | the trades of a finished run hold each symbol over strictly disjoint intervals in ledger order if and only if no bar met a held symbol with both instructions waiting, on a date not flattened, whose entry qualified at the open |
| `ReplayIntervals.TradesNeverOverlap` | talonx_backtest/execution.py:143-226 | under the same configurations, in particular with a positive cooldown, and also when the flatten time is midnight and the clock a real one, the trades of every finished run are disjoint in this way |
| `ReplayIntervals.BothScheduledExactly` | talonx_backtest/engine.py:774-802 | a bearish and a bullish candidate of a held symbol, released in one flush in either order, both leave an instruction waiting exactly when the cooldown is not positive |
| `ReplayIntervals.ReentersAtExitExactly` | talonx_backtest/engine.py:496-542 | a bar that closes on a signal opens the symbol again at the same time exactly when an entry waits too, the date is not flattened and the fill qualifies |
| `ReplayIntervals.StruckPositionSurvivesExactly` | talonx_backtest/engine.py:510-547 | a bar that strikes an open position leaves it open exactly when an entry was scheduled for the symbol: the bar goes unexamined and nothing records it |
| `ReplayIntervals.OnlySkippedBarsLeaveStruckPositions` | talonx_backtest/engine.py:510-547 | no position outlives a bar that strikes it, the entry bar included, except through that skip |
| `ReplayWitness.StruckPositionSurvives` | talonx_backtest/engine.py:510-547 | under every configuration that publishes at all and does not flatten at midnight, whatever its cooldown and costs, some run from a fresh engine under a real clock reaches a bar below the stop that leaves the position open |
| `ReplayWitness.BothWaiting` | talonx_backtest/engine.py:774-802 | under every configuration with no positive cooldown and two candidates let through, some run from a fresh engine replaces a waiting instruction and a minute later has both instructions waiting, with the position open exactly when not every minute is swept |
| `ReplayWitness.EveryCollidingConfigCollides` | talonx_backtest/engine.py:496-542 | under each such configuration one strategy with a real clock has a run that replaces an instruction, a minute later has both waiting for one symbol and, unless the flatten time is midnight, finishes with two trades of it that touch |
| `ReplayWitness.CollisionsPossibleExactly` | talonx_backtest/engine.py:774-802 | what a caller can check before any run, for strategies under real clocks: some strategy and data cross an instruction, or replace one, if and only if the cooldown is not positive, the throttle lets two candidates through (a negative limit always can), the candidate age is not negative and the ATR stop multiple is positive; and they make trades touch if and only if, besides, positions are not flattened from midnight on |
| `ReplayWitness.SkipsPossibleExactly` | talonx_backtest/engine.py:510-547 | for strategies under real clocks: some run skips a bar for a waiting entry if and only if candidates can be published, the throttle lets one through, and positions are not flattened from midnight on |
| `ReplayStrikes.TradesLeaveOnFirstStrike` | talonx_backtest/engine.py:484-547 | over every finished run: each STOP or TARGET trade leaves on the first of its symbol's bars in the data, from its entry bar on, that strikes its bracket and was not skipped for a waiting entry, at the level the same-bar rule gives; every other trade leaves before any such bar, on a signal at a later bar's open, or at the last close before a sweep or the end of the data |
| `ReplayStrikes.OpenPositionsStand` | talonx_backtest/engine.py:510-547 | at every timestamp of every run no bar in the data since an open position's entry bar, that one included, has struck it, except bars that were skipped |
| `ReplayStrikes.SkippedExactly` | talonx_backtest/engine.py:510-547 | a bar counts as skipped exactly when it meets an open position that no exit is about to leave and a waiting entry of its symbol, on a date not flattened |
| `ReplayStrikes.MarketIsTheData` | talonx_backtest/engine.py:427-482 | at every point of a run what the engine has been fed of a symbol is exactly that symbol's bars in the pre-roll and the data, in order |
| `ReplayRate.PublicationsSpacedAndThrottled` | talonx_backtest/engine.py:748-809 | in every run each published signal's levels enclose its price at no less than the minimum ratio, same-symbol publications are at least the cooldown apart, and no instant publishes more than the throttle's limit |
| `ReplayRate.StepPublishes` | talonx_backtest/engine.py:766-802 | a minute publishes only at its own time, at most as many as the slice releases, and only for tickers that left candidates |
| `ReplayRate.ReleasedOutrankDropped` | talonx_backtest/engine.py:768-772 | no dropped candidate outscores a released one |
| `ReplayRate.TiesKeepArrivalOrder` | talonx_backtest/engine.py:768-769 | candidates of equal score stay in order of arrival |
| `ReplayRate.SilentAfterLoss` | talonx_backtest/engine.py:697-703 | no signal is published strictly between a losing close, other than one forced by the end of data, and the end of its lockout |
| `ReplayFunnel.FunnelBalances` | talonx_backtest/engine.py:634-742 | in every run generated signals are exactly the published, those counted under a pre-publication reason, and those dropped beside an eligible sibling |
| `ReplayFunnel.CandidatesPassedEveryGate` | talonx_backtest/engine.py:676-742 | supporting fact for the funnel: a candidate in the throttle queue is the strategy's own signal and has passed every gate, none of which a bar can bypass |
| `ReplayFunnel.CountsAreExact` | talonx_backtest/engine.py:804-809 | each ticker is reported once with the exact number of its throttled candidates |
| `ReplayFunnel.CountsCoverDropped` | talonx_backtest/engine.py:804-809 | the per-ticker counts add up to all throttled candidates |
| `Outbox.AlertOutbox.Enqueue` | talonx_core/alert_outbox.py:159-180 | a new id is stored pending, a waiting one only gets the fresh payload, a settled one only counts a duplicate; the file changes only by a completed save |
| `Outbox.AlertOutbox.MarkPublished` | talonx_core/alert_outbox.py:182-190 | a waiting record becomes SENT and is counted and saved once; nothing else changes |
| `Outbox.AlertOutbox.ScheduleRetry` | talonx_core/alert_outbox.py:192-209 | one more attempt: FAILED when they are used up, otherwise waiting until the chosen instant |
| `Outbox.AlertOutbox.Flush` | talonx_core/alert_outbox.py:211-259 | the loop over the records publishes, reschedules, reports and, once at the end, saves as the model's flush does, call by call |
| `OutboxDurability.PersistedIsDurableExactly` | talonx_core/alert_outbox.py:119-138 | across any interleaving with crashes, failed saves and boots that cannot read the file: every step keeps a stored record and what the process knows of it, its attempts and its settledness, if and only if no process that failed to read and does not know the id saves, or enqueues it after it was attempted or settled |
| `OutboxDurability.FileIsSafeExactly` | talonx_core/alert_outbox.py:119-138 | for the file alone, over any run and for any stored record the process accounts for at its start: no step is such a breach if and only if after every step the file keeps the record, its attempts and its settledness, now and through any further run without a breach |
| `OutboxDurability.SightedRunsLoseNothing` | talonx_core/alert_outbox.py:119-138 | while every boot reads the file no stored id disappears, stored attempts never go down and a settled stored record never changes |
| `OutboxRuns.SentMeansDelivered` | talonx_core/alert_outbox.py:182-259 | SENT means a transport accepted it or a caller reported it; in one process an id is accepted at most once and called at most six times |
| `OutboxRuns.CountersBalance` | talonx_core/alert_outbox.py:141-156 | since load: records are loaded plus enqueued, and pending is loaded pending plus enqueued less delivered and given up |
| `OutboxDurability.SettledOnDiskIsFinal` | talonx_core/alert_outbox.py:159-259 | without such a breach, once the file says SENT or FAILED the record never changes and no process publishes that id again |
| `OutboxDurability.BreachPublishesAgain` | talonx_core/alert_outbox.py:119-180 | after any such breach the id, enqueued and flushed when due, is published once more |
| `OutboxRuns.FlushReport` | talonx_core/alert_outbox.py:211-259 | a flush's report adds up, covers the pending depth, and spends at least one remaining attempt per attempted record |
| `OutboxRuns.SixDueFlushesSettleEverything` | talonx_core/alert_outbox.py:192-259 | whatever the transport answers, six flushes that come late enough settle every record |
| `OutboxDurability.AwaitsAgainExactly` | talonx_core/alert_outbox.py:237-259 | an accepted record is due again after the next boot exactly when that boot reads the file and the file still shows it unsettled: the save after the flush failed, or the process died in the flush after the call |
| `OutboxDurability.CrashLeadsToSecondDelivery` | talonx_core/alert_outbox.py:237-259 | a concrete run in which a crash before the final save makes the next process deliver the same alert again |
| `OutboxDurability.UnreadableBootForgets` | talonx_core/alert_outbox.py:119-138 | a concrete run in which one boot fails to read the file: a delivered alert is delivered again and another one disappears from the file |
| `Evidence.EvidenceWriter.WriteManifest` | talonx_compare/evidence.py:148-174 | the manifest is written once; a later different one is reported as a conflict and refused |
| `Evidence.EvidenceWriter.AppendRecords` | talonx_compare/evidence.py:217-239 | the append loop adds exactly the records whose identity is new, and appended plus duplicate is the batch size |
| `Evidence.EvidenceWriter.WriteFileHashes` | talonx_compare/evidence.py:299-315 | the inventory hashes exactly the evidence files present |
| `Evidence.EvidenceWriter.VerifyArchive` | talonx_compare/evidence.py:321-431 | the loops of the integrity check reach the verdict the model defines, over presence, foreign files, parsing, identities, dates and hashes |
| `Evidence.EvidenceWriter.WritePhase` | talonx_compare/collector.py:379-453 | a pass is refused on a damaged archive and otherwise performs the planned writes in order, inventory last |
| `EvidenceRuns.HealthyStaysHealthyExactly` | talonx_compare/collector.py:379-453 | a completed pass over a healthy archive leaves it healthy exactly when every record it adds is identified and of the archive's date |
| `EvidenceRuns.FirstPassHealthyExactly` | talonx_compare/collector.py:379-453 | a completed first pass into an empty directory is healthy under exactly the same condition |
| `EvidenceRuns.WrittenHealthyExactly` | talonx_compare/evidence.py:321-431 | when any completed pass leaves a healthy archive, in terms of what lay in the directory before |
| `EvidenceRuns.CutIsAllOrNothing` | talonx_compare/evidence.py:74-82 | a pass over a healthy archive cut between or inside any writes is accepted afterwards only if it left everything or nothing |
| `EvidenceRuns.CutFirstPass` | talonx_compare/evidence.py:433-439 | a first pass cut after its manifest is rejected from then on; cut before, it leaves no evidence |
| `EvidenceRuns.TornManifestSpoilsNextPass` | talonx_compare/evidence.py:334-340 | a first pass that dies writing the manifest leaves a temp file that keeps the next complete pass from being healthy |
| `EvidenceRuns.RejectedIsFrozen` | talonx_compare/collector.py:387-403 | once an archive is rejected no later pass, completed or cut, changes any file |
| `EvidenceRuns.EvidenceIsAppendOnly` | talonx_compare/evidence.py:148-239 | over any run with crashes the manifest never changes once written and streams only grow at their end |
| `EvidenceRuns.AcceptedRejectedOrBlank` | talonx_compare/evidence.py:433-439 | from an empty directory on, an archive is always accepted, rejected and frozen, or still without evidence |
| `EvidenceRuns.StreamIsFirstDeliveries` | talonx_compare/evidence.py:202-239 | after any sequence of passes and crashes a record is in a stream exactly when it is the first with its identity among the delivered ones; a pass delivers to a stream when it is not refused and gets past its write to that stream, or past all its writes; records keep their order and no identity is missing or repeated |
| `EvidenceRuns.CompletedPassKeepsEveryIdentity` | talonx_compare/evidence.py:217-239 | a completed pass leaves every identity it gathered in its stream |
| `Identity.DedupKeyExactly` | talonx_compare/identity.py:132-140 | for fields without the separator, equal dedup keys mean exactly equal pipeline, kind, date, stage and fingerprint and equal scope, symbol and identity up to the dash for absent |
| `Identity.SameKeyExactly` | talonx_compare/identity.py:132-140 | any two records share a dedup key exactly when their fields, cut at every separator, give the same pieces |
| `Identity.AdjacentFieldsCollide` | talonx_compare/identity.py:132-140 | for any record and any two neighbouring free fields there are two different records with the same key, the separator ending one field or starting the next |
| `Identity.SymbolAndIdentityCollide` | talonx_compare/identity.py:132-143 | the symbol and the identity of one record can be read as those of another with a different alignment key and the same dedup key |
| `Collection.StoredExactly` | talonx_compare/evidence.py:217-239 | a record is appended exactly when its key is not stored and no earlier record of the batch cuts into the same pieces |
| `Collection.CollidingRecordIsDropped` | talonx_compare/evidence.py:217-239 | of two different records that collide, the one delivered second is never stored |
| `Identity.StoredRecordRoundTrips` | talonx_compare/identity.py:145-189 | reading back a stored record gives the record and its identity |
| `Alignment.GroupBy` | talonx_compare/alignment.py:107-119 | the bucketing loop fills each key's bucket with exactly its records in reading order |
| `Alignment.Align` | talonx_compare/alignment.py:90-151 | the nested loops produce the specified pairs in the specified order |
| `AlignmentLaws.PickIsLatest` | talonx_compare/alignment.py:68-76 | the picked record has the greatest time and fingerprint |
| `AlignmentLaws.PickIsLastRead` | talonx_compare/alignment.py:68-76 | among records of equal time and fingerprint the last one read is picked |
| `AlignmentLaws.EachKeyOncePerSession` | talonx_compare/alignment.py:120-149 | every due (session, key) is compared exactly once, sessions and keys strictly ascending |
| `AlignmentLaws.NeverMixes` | talonx_compare/alignment.py:120-138 | a pair's two sides carry its key, its PIV side its one session, and each is the latest there is; a side is missing only when no record exists |
| `AlignmentLaws.OrderOfInputIsIrrelevant` | talonx_compare/alignment.py:90-151 | any other reading order gives the same pairs up to ties on key, time and fingerprint, and identical pairs without ties |
| `AlignmentLaws.NewPivRecordIsLocal` | talonx_compare/alignment.py:112-138 | a new PIV record of a known session changes only comparisons of its own key |
| `AlignmentLaws.NewOriginalRecordIsLocalExactly` | talonx_compare/alignment.py:79-138 | a new Original record changes another key's comparison exactly when it changes the attributed scope and that comparison has an Original side; never with an explicit scope |
| `AlignmentLaws.ClassificationIsSymmetric` | talonx_compare/divergence.py:83-160 | which pipeline is called Original does not change a pair's class |
| `AlignmentLaws.AgreementExactly` | talonx_compare/alignment.py:165-193 | supporting fact for the classification results: when a two-sided pair counts as agreement, for events and for aggregates |
| `AlignmentLaws.IdenticalPipelinesNeverDiverge` | talonx_compare/alignment.py:90-193 | a PIV session that tells the story of a scoped Original run record by record is paired completely and without a single divergence |
| `CollectorBuffer.ExactlyOnceInOrder` | talonx_compare/runner.py:40-65 | for any interleaving of arrivals, swaps and lock refusals, batches handed over, the batch in flight and the buffer are the arrived messages in order, each once |
| `CollectorBuffer.EveryMessageIsSomewhere` | talonx_compare/runner.py:140-158 | the same with a pass that fails outright, which ends the loop and loses exactly its own batch |
| `CollectorBuffer.RecordedFallsShortExactly` | talonx_compare/runner.py:140-158 | what was recorded falls short of what was handed over by exactly the messages of passes that returned without writing |
| `CollectorBuffer.CollectorService.EndPass` | talonx_compare/runner.py:140-158 | how each ending of a pass moves the batch in flight |
| `Collection.ArrivalsReachTheStreamOnce` | talonx_compare/runner.py:136-158 | from both buffers through the passes to the streams, under lock refusals, passes without a date, damaged archives and passes cut part way: every message is in one place in order of arrival, every identity of a written message is in its stream exactly once, and nothing else is |
| `Collection.DrainedMeansStored` | talonx_compare/runner.py:136-158 | when passes only return or are refused the lock and all rows carry the archive's date, a drained buffer means every identity that ever arrived is stored exactly once, and the archive is healthy or still empty |
| `TokenBucket.GrantsArePaidFor` | talonx_brain/llm.py:73-85 | for any number of waiters, grants since any try plus tokens left never exceed a full bucket plus the refill |
| `TokenBucket.WindowBound` | talonx_brain/llm.py:73-85 | in any window grants are at most the capacity plus the rate times its length |
| `TokenBucket.AtMostTwicePerMinute` | talonx_brain/llm.py:66-85 | with at least one call a minute permitted no sixty seconds grant more than twice that many |
| `TokenBucket.TwiceIsReached` | talonx_brain/llm.py:66-85 | the factor two is reached |
| `TokenBucket.StaysInRange` | talonx_brain/llm.py:73-85 | tokens stay between zero and the capacity |
| `TokenBucket.SleepSuffices` | talonx_brain/llm.py:83-85 | a waiter turned away and undisturbed is served after the computed sleep |
| `TokenBucket.TokenBucket.Acquire` | talonx_brain/llm.py:73-85 | a lone waiter sleeps at most once, and not at all exactly when a token was there |
| `TokenBucket.Generate` | talonx_brain/llm.py:259-281 | the call loop stops at the first success or after one call more than the retries |
| `ResearchCache.NextBoundaryIsEarliestExactly` | talonx_brain/cache.py:131-142 | at every instant the boundary found is the earliest market open or close still ahead, if and only if no clock change ever sets the clocks back across an open or close |
| `ResearchCache.WholeHourChanges` | talonx_brain/cache.py:131-142 | clocks that are only set back within the hour they show, as New York's are, never cross an open or close, whatever whole hours are configured |
| `ResearchCache.CacheHoldsOnlyGenuineReports` | talonx_brain/consumer.py:346-357 | after any message sequence and any failures, raising retrievals included, cached reports are never stale, degraded or from the cache, expire by policy, are the last stored, and are newer than an event that deleted successfully |
| `ResearchCache.FreshExactlyWithinLifetime` | talonx_brain/cache.py:85-129 | an entry is fresh exactly while within its horizon's lifetime, the store's safety limit included, which also caps the long-term horizon |
| `ResearchCache.UnflaggedServingIsFresh` | talonx_brain/consumer.py:309-357 | an unflagged cached report is the one last stored for that ticker and horizon, newer than the last event whose delete succeeded, and within its lifetime unless the lock was lost |
| `ResearchCache.OutdatedServedExactly` | talonx_brain/consumer.py:242-280 | a report older than the last filing or fundamentals event of its key is served unflagged exactly when the store refused that event's delete, nothing was stored since, and the entry is fresh or polled for |
| `ResearchCache.OutdatedIsServed` | talonx_brain/cache.py:104-108 | a concrete run: report stored, filing whose delete fails, next signal answered with the old report as current |
| `ResearchCache.ExpiredServedUnflaggedExactly` | talonx_brain/cache.py:160-175 | an expired report is served unflagged exactly when the first lookup did not serve, the lock was lost and the poll found an expired entry |
| `ResearchCache.ExpiredIsServed` | talonx_brain/cache.py:144-175 | a concrete run: report stored, lock unreachable after its lifetime, the expired report served as current |
| `ResearchCache.SequentialServingIsFresh` | talonx_brain/consumer.py:242-357 | for one sequential worker whose lock operations and deletes reach the store every unflagged cached report is within its lifetime and newer than the last filing or fundamentals event of its key |
| `ResearchCache.ResearchAgent.GenerateReport` | talonx_brain/consumer.py:309-400 | the branches of cache-first, lock, wait, generate, release and store compute the model's transition; a raising retrieval gives the lock back and yields no report |
| `ResearchCache.ResearchAgent.HandleMessage` | talonx_brain/consumer.py:198-304 | both kinds of signal, filings, fundamentals events and messages that do not parse move the cache and the five counters as the model does |
| `Metrics.OnePassFacts` | talonx_backtest/metrics.py:242-248 | the one-pass figure is the least sum of any contiguous run of results, the empty one included |
| `Metrics.MaxDrawdownR` | talonx_backtest/metrics.py:231-248 | the loop returns that figure for the closed trades with a result in exit order, or nothing when there are none |
| `Metrics.EquityCurve` | talonx_backtest/reports.py:254-272 | the loop returns the running totals of the closed trades in exit order |
| `Metrics.DrawdownIsCurveFall` | talonx_backtest/reports.py:254-272 | the reported drawdown is the deepest fall of the reported curve, closed trades without a result included |
| `Metrics.CurveEndsAtTotal` | talonx_backtest/reports.py:254-272 | when every trade is closed the curve ends at the reported total; no total is reported exactly when no trade has a result, and the curve then ends at zero |
| `Metrics.GroupTrades` | talonx_backtest/analysis.py:28-35 | the grouping loop fills each bucket with exactly its trades in order |
| `Metrics.BucketsCoverTotal` | talonx_backtest/analysis.py:28-35 | bucket totals and the keyless trades make up the whole, so buckets alone do when no key is missing |
| `DataPrep.RepairKeepsLastReported` | talonx_backtest/data.py:452-464 | for every symbol and timestamp the repair keeps exactly the row reported last |
| `DataPrep.RepairIsIdempotent` | talonx_backtest/data.py:452-464 | repairing repaired data changes nothing |
| `DataPrep.RisingExactly` | talonx_backtest/data.py:118-124 | a symbol has no recoverable issue exactly when its timestamps rise strictly |
| `DataPrep.RepairLeavesNoRecoverableIssue` | talonx_backtest/data.py:443-464 | after the repair no symbol has a recoverable issue |
| `DataPrep.RepairedDataIsReplayable` | talonx_backtest/engine.py:380-389 | repaired data, grouped as the engine groups it, has strictly ascending timestamps, all the replay theorems ask, and one bar per symbol in each |
| `DataPrep.CheckGaps` | talonx_backtest/data.py:379-418 | the gap walk counts every missing bar once, as expected or unexpected, and lists the gaps |
| `DataPrep.PresentPlusMissingIsSpan` | talonx_backtest/data.py:388-395 | when all gaps are multiples of the interval, bars present plus bars missing are the span in intervals plus one |

## Left out

- OutboxRuns.SentMeansDelivered: a first process starts from a file this code wrote; records already SENT in it are vouched for by an earlier process.
- ResearchCache.NextBoundaryIsEarliestExactly: an open or close strictly inside a stretch that a clock change skips is not covered; with whole hours this needs a change that begins off the hour.
- Metrics.OnePassFacts: exact reals, so rounding in the running totals is not modelled.
- DataPrep.CheckGaps: the interval is given, in ticks; inferring it as the most frequent difference and the rounding of quotients in floating point are not modelled.
- Collection.ArrivalsReachTheStreamOnce: one process; what was buffered or in flight when a process dies is gone with it, and the archive it leaves is covered by the results on cut passes.
- Corrupt outbox files: a file that no boot can parse is one that every boot fails to read until the next save.
- `allow_overlapping_trades=True`: the simulator then overwrites an open position; the engine is modelled with it false.
- Indicators, scoring, volatility regime, session classification and pivots: functions of the fed history whose mathematics is not modelled.
- Symbols are taken as already upper-cased; geometry-path counters, telemetry lists, progress callbacks and report dates are not modelled.
- Whole-run comparisons across cost scenarios: lockouts depend on net results, so trade sets differ.
- `talonx_compare/lock.py`, `projections.py`, `health.py`, `notification.py`, `transport.py`, cursors and the merging of diagnostics: file and process probing or field mapping; the evidence model takes their results as the batch of a pass.
- The detail texts, recorded problems lists and session notes of the integrity check: only its verdict is modelled.
- A publish in progress while another outbox operation runs, and the brain lock across several workers: the code gives no guarantee there.
- Report ranking, Sharpe and Sortino ratios, confidence intervals, win rates and walk-forward splits.
- Timestamp parsing and daylight-saving localisation of input data, CSV and directory loading.
- Dashboards, scripts, command lines, Redis, SQLite, HTTP, prompts, the language model and the vector store.
