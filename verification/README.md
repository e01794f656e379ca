# Verified model of the NEXUS research automation

A Dafny 4.11 model of six components of the repository, with proofs about whole runs of each. `dafny verify
dfyconfig.toml` checks everything.

1. **Agent lease protocol** (`AgentModel`, `AgentManager`, `AgentSafety`, `AgentCapacity`, `AgentDependencies`,
   `AgentScheduling`, `AgentCycle`, `AgentDispatch`, `AgentVerification`, `AgentRetry`, `AgentRouting`, `AgentRules`,
   `AgentRecords`, `AgentFrozen`). The task table of the manager and every loop that changes it: the manager cycle,
   the transport (owner boundaries, polling, dispatching and one save at the end), and the three recovery passes of
   the runner. A pass is a sweep over the rows. A transport run that raises or dies loses its table but not its posts:
   those are kept apart in `lost`. A run is any interleaving of cycles, transport runs (with any artifacts in the
   inbox, and killed after any number of rows), recoveries, changes of the workers' observed metrics, and starts on
   another commit.
2. **Target-exposure backtest** (`TargetExposure`, `TargetExposureLaws`, `TargetExposureRuns`, `TargetExposureBars`).
   One series, cost-aware sizing, long or short targets, end liquidation.
3. **Spot portfolio backtest** (`Portfolio`, `PortfolioLaws`, `PortfolioCausality`). Any number of assets, sells
   first, buys prorated to the cash, a fill journal, and the causal drawdown switch.
4. **Derivatives paper ledger** (`Derivatives`, `PaperStep`, `PaperStepLaws`, `PaperFunding`, `PaperOrders`,
   `PaperLedger`, `PaperLedgerLaws`, `PaperVerdict`, `PaperBooks`). Netted positions, funding, margin rejection,
   liquidation, and the hash-chained log that is extended in batches.
5. **Paid-request ledger** (`UsageLedger`, `UsageLedgerLaws`, `UsageLedgerMonths`, `UsageLedgerPrices`). Reserve
   before the network call, reconcile after it, lost replies, crashes, quarantine, month rollover, and a clock that
   runs back.
6. **Resumable backfill and pagination** (`Calendar`, `ArchivePlan`, `Backfill`, `BackfillLaws`, `BackfillRecovery`,
   `BackfillUnits`, `Klines`, `KlinesRows`). The archive plan over calendar months, checkpointed runs with faults at
   every point, and exact kline pages.

Loops of the program that update variables are methods with loops, proved equal to a specification function; the laws
are then proved about that function. Objects that the program updates in place (the task table, the simulator's
wallet, a position, the usage ledger, the candle files) are classes. `Prelude` and `Reals` hold the shared option,
result and product laws.

Reading of the numbers: money, prices and quantities are exact reals, and the absolute thresholds of 1e-12 and 1e-15
below which the program does nothing are a parameter (`dust`) of both spot simulators and zero in the derivatives
ledger. Larger tolerances (1e-7, 1e-8, 1e-9 and 1e-10) are kept as written. In the usage ledger every amount is an
integer number of quarters of 1e-10 USD, which is exact for all prices; the direction in which a tie is rounded is a
parameter. SHA-256 is an injective datatype, and `uuid4` yields the next unused number.

Results that differ from what one would expect, each with its exact condition or a concrete input:

- A lease is posted twice if and only if a transport run that raised or died had posted it before it could save
  (`RepostedIff`); without such a run at most once (`LeaseAtMostOnce`). Such a run is repeated post by post
  (`FailedRunIsRepeated`).
- A dispatch pass raises if and only if some row that is due cannot be posted (`DispatchFailsIff`). A special task
  that expires into an analyst's hands is such a row (`AnalystOfSpecialTaskStopsDispatch`). It stays one in every run
  until a cycle finds its lease stale and finds no analyst, or one whose work the courier carries (`StepKeepsWedge`),
  so that with an analyst who always has room no dispatch pass ever ends again (`WedgeIsPermanent`).
- Triage routing takes the working rows above the limit if and only if they are at it and the row gets an analyst
  (`RoutingExceedsLimitIff`, with a table in `ActiveLimitAloneIsNotKept`). No run from an all-PENDING table reaches
  such a table: there working plus triaged tasks stay within the limit (`LimitKeptFromInitial`).
- The worker who submits a result becomes its verifier if and only if it is the first-ranked verifier; it is then not
  the producer, and the result is a root-cause analysis (`SubmitterVerifiesIff`). `AnalystMayVerifyOwnAnalysis` is a
  run from an all-PENDING table in which this happens.
- A success is discarded exactly when the triage mode of an earlier analysis is still set and it is not the numeric
  receipt of a Research task (`SuccessIsDiscardedIffModeIsLeftOver`); an analyst's transient failure, its one retry
  and the producer's success lead there in every run (`RetryKeepsTriageMode`, `RetriedSuccessIsLost`).
- A request that is open over the end of a month freezes the usage ledger (`FrozenAfterRollover`). A month is charged
  the sum over the ledger's visits to it, each within the cap (`SpentIsSumOfVisits`): one visit on a clock that
  advances (`MonthlyCap`), and more than the cap on one that runs back, with requests the provider does send
  (`ClockBackExceedsCap`).
- A commit of candle files that is cut off after its first file stops the backfill for good on that unit
  (`TornForever`). Nothing else does: a state is torn if and only if that happened to a staged unit (`TornIff`), and
  runs without faults complete the plan if and only if the state is not torn and archives and bounds suffice
  (`CompletesIff`).
- The source list is the list of recorded units if and only if no staged unit was struck between the two writes
  (`ManifestIsCompleteIff`); a unit that it missed never gets into it (`MissedManifestForever`).
- Higher costs never raise the reported equity as long as the runs trade at the same bars (`CostMonotone`), which the
  threshold of 1e-12 can prevent (`ThresholdBreaksMonotonicity`).
- The program's own comment promises that the drawdown exit sells at the next open; this needs the trigger not to be
  on the last bar, and `TriggeredRunExitsAtNextOpen` says so.

## Model

| member | source | states |
|---|---|---|
| AgentSafety.PostsAndIngests | agent_transport.py:579-598 | In every run from the initial table, failed transport runs included, a lease's result is ingested at most once and never without a saved post, and the saved log posts it at most once; every further post is one of a run that did not save |
| AgentSafety.RepostedIff | agent_transport.py:231-250 | A post is a repetition if and only if a transport run that raised or died before its save had made it |
| AgentSafety.LeaseAtMostOnce | agent_transport.py:99-107 | In every run in which each transport run that dispatches also saves, every lease is posted at most once, and ingested only after its post |
| AgentSafety.RetiredForever | agent_manager.py:375-393 | A lease that expired, failed, finished or was replaced never becomes live again and is never posted or ingested again, whatever steps follow |
| AgentSafety.StaleResultsIgnored | agent_transport.py:546-564 | Two inboxes that agree on live leases give the same poll: results for any other lease change nothing |
| AgentSafety.FourEyesAndFinality | agent_manager.py:591-626 | In every run a VERIFYING or DONE task below level 4 has a verifier-capable verifier other than its producer, and a DONE one never changes again |
| AgentSafety.EveryRunSafe | agent_manager.py:826-834 | The inductive invariant behind the lease, verifier and finality results, over every run from every state that has it |
| AgentVerification.SubmitterVerifiesIff | agent_manager.py:591-626 | An accepted submission is verified by its submitter if and only if that worker is the first-ranked verifier; it is then not the producer, and the work was a root-cause analysis |
| AgentVerification.AnalystMayVerifyOwnAnalysis | agent_manager.py:559-626 | A run of six steps from an all-PENDING table after which the analyst is the verifier of its own analysis |
| AgentCapacity.EveryRunBounded | agent_manager.py:414-420 | Working plus triaged tasks stay within max_parallel_tasks and every worker within its capacity, over every run from such a start |
| AgentCapacity.LimitKeptFromInitial | agent_manager.py:414-420 | From an all-PENDING table no run takes working plus triaged tasks above max_parallel_tasks |
| AgentCapacity.RoutingExceedsLimitIff | agent_manager.py:559-588 | Routing a row takes the working rows above the limit if and only if they are at it and the row gets an analyst |
| AgentCapacity.ActiveLimitAloneIsNotKept | agent_manager.py:559-588 | A valid table at the limit that triage routing takes above it; not reachable from all-PENDING |
| AgentCapacity.VerifyBounded | agent_manager.py:599-605 | Requesting verification, which leaves the row itself out of the load, never overbooks a verifier |
| AgentDependencies.ReleasedAfterClosure | agent_manager.py:227-228 | In every run from all-PENDING, each task below level 4 that left PENDING has every task of every dependency chain from it DONE |
| AgentDependencies.DoomedStaysPending | agent_manager.py:366-372 | A task on a dependency cycle, or with a level-4 task down its chain, is PENDING in every reachable state |
| AgentScheduling.BestIsFirst | agent_manager.py:329-348 | The chosen worker is absent only if nobody is eligible, and no eligible worker has a higher score or the same score and a smaller id |
| AgentScheduling.RankedSorted | agent_manager.py:421-424 | Ready tasks are offered by falling priority, and by id within a priority |
| AgentScheduling.CycleLeavesNoIdleWork | agent_manager.py:425-470 | After a cycle, a leasable task still READY faces the parallelism limit or has no eligible allowed worker |
| AgentDispatch.DispatchFailsIff | agent_transport.py:277-294 | A dispatch pass raises if and only if some row that is to be posted fails the envelope checks, is Research QA without its commits, or is verifier-only work off the trusted branch |
| AgentDispatch.FailedRunIsRepeated | agent_transport.py:579-598 | A dispatching run that raised or died leaves the table, keeps its posts in the world, and everything it posted is posted again by the next run on the same commit, as far as that gets |
| AgentDispatch.ExpiredSpecialTaskWedges | agent_manager.py:375-588 | The cycle in which a special task expires hands it to an analyst, and then it fails every dispatch, or lets it go; it blocks it if and only if no analyst is found |
| AgentDispatch.AnalystOfSpecialTaskStopsDispatch | agent_transport.py:138-168 | Unless that cycle let the task go, every dispatch pass over its table raises |
| AgentDispatch.StepKeepsWedge | agent_manager.py:528-588 | No step but a cycle that finds the lease stale, and then no analyst or one served by the courier, ends the wedge |
| AgentDispatch.WedgeLasts | agent_transport.py:277-388 | Over every run in which it is not let go, the row stays wedged and every dispatch pass raises |
| AgentDispatch.WedgeIsPermanent | agent_manager.py:559-588 | With an analyst who has room for every other task, and none served by the courier, the wedge is kept by every run and no dispatch pass ends again |
| AgentRetry.SuccessIsDiscardedIffModeIsLeftOver | agent_manager_runner.py:128-171 | For every kind, an accepted submission is requeued by the runner and its evidence erased if and only if the triage mode is set and it is not the numeric receipt of a Research task |
| AgentRetry.RetryKeepsTriageMode | agent_manager.py:539-544 | Over all steps that neither expire nor answer its lease, a retried task keeps the triage mode and is with its producer |
| AgentRetry.RetriedSuccessIsLost | agent_manager_runner.py:128-171 | From an analyst's transient failure over the cycle that retries it and any undisturbed steps to the producer's success: the runner's next pass erases that success and readies the task again |
| AgentRouting.RowRouted | agent_manager.py:528-588 | One triaged row by its own fields: the owner's, one retry for a first transient failure of any kind and mode, the Research block, the free analyst with the least id under a 300-second lease, or the block for want of one; retries change in no other case |
| AgentRouting.RoutingPass | agent_manager.py:528-588 | The whole pass does that to every triaged row, in the table as it then is, and nothing to any other row |
| AgentRouting.DueRowIsRetried | agent_manager.py:539-544 | A task below level 4 with a first transient failure, triaged or stale, leaves the cycle with its retry used and its mode kept: leased to its producer, with its verifier if it needs no producer, or READY for one of the reasons of CycleLeavesNoIdleWork |
| AgentRouting.RetriesAreCounted | agent_manager.py:539-544 | Over every run a task's retries grow by exactly the cycles that found it due, and those are at most one |
| AgentRules.EligibleIffNotRejected | agent_manager.py:249-291 | A worker is eligible if and only if none of the twelve rejection reasons applies |
| AgentRules.OfferToBestFit | agent_manager.py:414-507 | An offer leases the row to a fit worker bound to the task whom no other fit one outscores, ties by id; it leases nothing exactly at the limit, for the owner's or disabled work, or when nobody is fit |
| AgentRules.VerificationToBestFit | agent_manager.py:591-626 | The same for verifiers, with the row itself left out of the load; without one the row is blocked |
| AgentRules.ScoreIsMonotone | agent_manager.py:293-309 | A worker no worse in health, latency, failure rate, cost, use and preference hits never scores lower |
| AgentRules.ScoreWeights | agent_manager.py:297-301 | What one unit of health, failure rate, cost and latency is worth, the latency up to ten seconds |
| AgentRules.PreferenceWeights | agent_manager.py:294-305 | Preferred resources, places and trust domains are worth 20, 15 and 10 for each hit |
| AgentRules.UseWeight | agent_manager.py:293-306 | An idle worker scores 25 above the same one at its capacity |
| AgentRecords.RecordRaisesIff | agent_manager.py:629-776 | Recording a result raises exactly for the owner's work, a foreign worker, an unknown outcome, wrong hands or receipt, or verifier-only work without its verification |
| AgentRecords.RecordedRow | agent_manager.py:629-776 | The row after every recorded outcome, all untouched fields included |
| AgentRecords.IngestedIff | agent_transport.py:481-543 | A result is taken in exactly when it is well formed, names the row's task, lease, correlation, dispatch, worker and route, and keeps the original failure or can be recorded |
| AgentRecords.IngestedRow | agent_transport.py:523-543 | What is taken in is logged once under its lease, and leaves the recorded row, or the row in triage with the original failure |
| AgentRecords.PolledIff | agent_transport.py:546-564 | A row is polled exactly when it runs or is verified under its own posted lease, not by the courier, and its result has come |
| AgentRecords.DispatchedRow | agent_transport.py:231-388 | What a dispatch pass makes of one row: nothing, the commit block, an error, or one post with a fresh 300-second clock |
| AgentRecords.RequeuedIff | agent_manager_runner.py:128-171 | The runner requeues exactly the finished analyses that are not the numeric receipt of a Research task |
| AgentRecords.FreedIff | agent_manager_runner.py:218-243 | It frees exactly the fail-closed blocks of deterministic workloads |
| AgentRecords.FailedClosedIff | agent_manager_runner.py:174-215 | It blocks exactly the specialized reasoning of other workloads that is triaged, ready, or blocked for another reason |
| AgentRecords.ReleasedIff | agent_manager.py:366-372 | A PENDING task is released exactly when every dependency is a DONE task of the table, and nothing else changes |
| AgentRecords.ResultsBeforePosts | agent_transport.py:592-596 | A transport run that saves logs its results and then its posts, and its mode says which of the two it has |
| AgentRecords.EveryRunRuled | agent_manager.py:414-626 | In every run a working row carries a clock of 300 seconds, a producer's lease of special work is in its bound hands, and special work is verified by QA alone |
| AgentFrozen.OwnerBoundary | agent_manager.py:231-245 | After the boundaries every level-4 row is free of worker, lease and clock and is the owner's, a quarantined one excepted, and every other row is as it was |
| AgentFrozen.RunsKeep | agent_manager.py:826-834 | No run adds, removes or redefines a task, or changes the limits, or touches a quarantined task or one finished below level 4; commit and workers are those last started on and last observed |
| AgentCycle.CycleSettles | agent_manager.py:826-834 | From any table, after a cycle no task is in triage, no lease is stale, level-4 tasks are with their owner, and each PENDING task waits for an unfinished dependency |
| AgentManager.ActiveWorkerLoad | agent_manager.py:216-224 | The counting loop yields, for every configured worker, the number of its working rows other than the excluded one |
| AgentManager.CountActive | agent_manager.py:418 | The count of working rows |
| AgentManager.AgentManager.EnforceOwnerBoundaries | agent_manager.py:231-245 | The loop performs the whole enforcing pass and keeps configuration, leases and log |
| AgentManager.AgentManager.ExpireStaleLeases | agent_manager.py:375-393 | The loop performs the whole expiring pass |
| AgentManager.AgentManager.RouteTriage | agent_manager.py:528-588 | The loop with its running load performs the routing pass in which every row sees the load counted afresh |
| AgentManager.AgentManager.RouteTask | agent_manager.py:531-588 | One triaged row is routed, and the returned load is the load of the new table |
| AgentManager.AgentManager.ReleaseReadyTasks | agent_manager.py:366-372 | The loop performs the whole releasing pass |
| AgentManager.AgentManager.AssignReadyTasks | agent_manager.py:414-525 | The loop with its early exit performs the assignment pass over the ready rows in rank order |
| AgentManager.AgentManager.OfferTask | agent_manager.py:426-507 | One ready row is offered; load and count are those of the new table |
| AgentManager.AgentManager.RunCycle | agent_manager.py:826-834 | The five loops in order are the cycle step |
| AgentManager.AgentManager.RequestVerification | agent_manager.py:591-626 | Verifier selection, or the error for a verifier-only task |
| AgentManager.AgentManager.RecordResult | agent_manager.py:629-776 | Every outcome of recording a result: triage, fail-closed block, done, verification, or an error |
| AgentManager.AgentManager.IngestResult | agent_transport.py:481-543 | A result is recorded and logged only if it is well formed and binds the current lease, correlation, dispatch, worker and transport; a refused analyst's lease keeps the original Research failure |
| AgentManager.AgentManager.PollResults | agent_transport.py:546-564 | The loop performs the polling pass, or fails with the first row that raises |
| AgentManager.AgentManager.DispatchTask | agent_transport.py:231-274 | One post with its envelope checks, status change and fresh heartbeat |
| AgentManager.AgentManager.DispatchPending | agent_transport.py:277-388 | The loop performs the dispatch pass, Research QA of another commit blocked, or fails with the first row that raises |
| AgentManager.AgentManager.RunTransport | agent_transport.py:579-598 | Owner boundaries, polling, dispatching and the single save in order equal the transport step; a run that raises or dies leaves the table and loses its posts |
| AgentManager.AgentManager.RecoverCompletedRootCauseAnalysis | agent_manager_runner.py:128-171 | The loop performs the requeue of finished analyses |
| AgentManager.AgentManager.BlockUnroutableSpecializedReasoning | agent_manager_runner.py:174-215 | The loop performs the fail-closed block |
| AgentManager.AgentManager.RecoverBoundedSpecializedReasoning | agent_manager_runner.py:218-243 | The loop performs the bounded release |
| TargetExposure.RunBacktest | backtest_engine.py:193-319 | The bar loop yields exactly the rows, fills or error of the recursive run |
| TargetExposure.CalculateDrawdown | backtest_engine.py:188-190 | From a positive first equity: each drawdown is at most zero, zero exactly at a new high, above -1 exactly while equity is positive, and relative to the peak so far |
| TargetExposureLaws.SizingFailsIff | backtest_engine.py:160-176 | The denominator error is raised if and only if there is a gap and the target times the cost fraction reaches one in size on the wrong side |
| TargetExposureLaws.SizedTrade | backtest_engine.py:165-181 | A sized trade goes the way of the gap, and the value it moves plus the target share of its cost is the gap |
| TargetExposureLaws.LandsOnTarget | backtest_engine.py:143-181 | After every trade, for every target, quantity times open is the target times the equity that is left after costs |
| TargetExposureLaws.TradeCosts | backtest_engine.py:238-247 | A trade lowers the equity at the reference price by fee and slippage and by nothing else |
| TargetExposureLaws.ExecuteSolvent | backtest_engine.py:229-247 | One execution with a target in [0,1] keeps cash and quantity non-negative and never raises |
| TargetExposureLaws.RunSolvent | backtest_engine.py:221-281 | The same over all bars |
| TargetExposureRuns.ReportSolvent | backtest_engine.py:266-313 | Every reported row, the liquidated last one included, has cash and quantity non-negative and equity positive |
| TargetExposureRuns.NoLookAhead | backtest_engine.py:198-203 | Accounts and fills of the first n bars depend on the first n candles and n-1 targets only |
| TargetExposureRuns.FirstEquity | backtest_engine.py:205-216 | The first reported equity of every accepted run is its positive initial cash, so its drawdowns are defined |
| TargetExposureRuns.ReportsAgreeOnCommonPast | backtest_engine.py:221-313 | Reported rows agree on every bar whose past agrees, the last bars included, unless exactly one of the runs ends there and sells out |
| TargetExposureRuns.FinalTargetIgnored | backtest_engine.py:198-203 | Changing the final target changes nothing in the outcome |
| TargetExposureRuns.JournalReplays | backtest_engine.py:249-313 | Replaying the fills from the initial cash reproduces every recorded account and the final one |
| TargetExposureRuns.CostMonotone | backtest_engine.py:143-181 | With targets in [0,1] and any threshold, raising fee or slippage or both never raises the reported equity of any bar or of the end, as long as both runs trade at the same bars; with a zero threshold without that condition |
| TargetExposureRuns.ThresholdBreaksMonotonicity | backtest_engine.py:162-163 | With the threshold of the program: two runs of two bars of which only the cheaper one trades and the dearer one reports twice the equity |
| TargetExposureRuns.ExecuteFraction | backtest_engine.py:229-247 | If one account is a fraction of another and both or neither trade, after one bar at higher costs it is a fraction that is no larger |
| TargetExposureBars.RefusedIff | backtest_engine.py:55-133 | Settings, candles and targets are each refused exactly for their own reasons, in this order |
| TargetExposureBars.BarAims | backtest_engine.py:221-247 | Every bar after the first executes the target of the bar before it at its own open and ends on it, or keeps the account when the trade is not above the threshold |
| TargetExposureBars.TradesIff | backtest_engine.py:160-176 | A trade is made exactly when both its gap in value and its quantity are above the threshold |
| TargetExposureBars.ReportSays | backtest_engine.py:233-313 | Each fill of a report is at the open of a later bar than the one before, or the sale at the last close, with slippage against the trader, the fee on what changed hands, and the account that the one before it left |
| TargetExposureBars.RowsAtClose | backtest_engine.py:266-281 | Every reported equity is cash plus quantity at its own close |
| Portfolio.ExactBacktest | bybit_portfolio_search_v3.py:309-554 | The loops over the quantity array yield exactly the outcome of the recursive run |
| Portfolio.Simulator.RebalanceAt | bybit_portfolio_search_v3.py:466-513 | Sells, prorated buys and the wallet check in place equal the rebalance function |
| Portfolio.Simulator.RunBar | bybit_portfolio_search_v3.py:433-524 | Forced exit, planned trade and mark of one bar |
| PortfolioLaws.RebalanceKeeps | bybit_portfolio_search_v3.py:467-513 | For any threshold: no borrowing and no short; sold assets land on their wanted quantity, bought ones move by one common share of their want; when it is below one, the cash left is what the purchases too small to be made would have cost |
| PortfolioLaws.RunIsCashOnly | bybit_portfolio_search_v3.py:458-513 | Cash and every quantity are non-negative at every bar, so neither wallet error is reachable, for any number of assets and any threshold |
| PortfolioLaws.ReportIsCashOnly | bybit_portfolio_search_v3.py:534-548 | The run ends without error, cash-only, and with no quantity above the threshold |
| PortfolioLaws.ReportJournaled | bybit_portfolio_search_v3.py:411-431 | Replaying the fill journal reproduces every recorded cash and quantity and the terminal wallet |
| PortfolioLaws.SameUntilTrigger | bybit_portfolio_search_v3.py:515-524 | The switched run is the plain run, bar by bar, up to and including the first close at or below 80 % of the peak |
| PortfolioLaws.HaltedForever | bybit_portfolio_search_v3.py:438-466 | After the exit at the next open no quantity is above the threshold, the wallet never changes, and each later mark is its value at that close |
| PortfolioLaws.TriggeredRunExitsAtNextOpen | bybit_portfolio_search_v3.py:438-548 | The whole report of a triggered run for any threshold: plain marks to the trigger, the marks of the sold-out wallet, and its cash at the end |
| PortfolioLaws.MarksAreCash | bybit_portfolio_search_v3.py:514 | Each mark after the exit is the cash of the sale plus at most the threshold of every asset, and that cash alone with a zero threshold |
| PortfolioLaws.UntriggeredRunIsPlain | bybit_portfolio_search_v3.py:357-363 | Without a trigger before the last bar the switch changes nothing in the report |
| PortfolioCausality.AcceptedIff | bybit_portfolio_search_v3.py:320-347 | A period is run exactly with three full rows or more, positive cash and costs below the whole, and it then ends without error |
| PortfolioCausality.NoLookAhead | bybit_portfolio_search_v3.py:433-524 | With the switch or without it the first bars depend on their prices and on the weights and review flags of all but the last of them |
| PortfolioCausality.LastSignalIgnored | bybit_portfolio_search_v3.py:434-468 | The last weights and the last review flag change nothing in the outcome |
| PortfolioCausality.TradesWhenAsked | bybit_portfolio_search_v3.py:434-514 | The book changes only by the forced exit or when the first, a changed or a scheduled signal of the bar before asks; every holding then heads for weight times equity over open, by one common share; and each mark is the book at its close |
| PortfolioCausality.ArmedAtFourFifths | bybit_portfolio_search_v3.py:515-524 | The switch is armed exactly by a close at or below four fifths of the highest close so far, and only while it watches |
| PortfolioCausality.ExposureWithinEquity | bybit_portfolio_search_v3.py:325-333 | What the weights of an accepted row ask for is worth at most the equity, up to 1e-10 of it |
| PortfolioCausality.ReportFills | bybit_portfolio_search_v3.py:441-548 | Every fill is at the open of its row, or sold at the last close, on the worse side by the slippage and with the fee on what changed hands |
| Derivatives.Position.ApplyTrade | bybit_derivatives_core_v1.py:338-355 | The position after an add, a partial close, a close or a flip, the profit it realizes, and the one-trade identity at every mark |
| Derivatives.TradeIdentity | bybit_derivatives_core_v1.py:338-363 | Realized profit plus the change of the unrealized profit is quantity times (mark - fill), at every mark |
| Derivatives.FloorStepTowardsZero | bybit_derivatives_core_v1.py:320-324 | Rounding to the step keeps the side, never grows the size and loses less than one step |
| Derivatives.TierIndex | bybit_derivatives_core_v1.py:314-317 | The first tier that covers the notional, or the last one when none does |
| Derivatives.MarginRequirements | bybit_derivatives_core_v1.py:366-397 | The accumulating loop yields the margin totals and details, or the first error |
| PaperBooks.InitialMargin | bybit_derivatives_core_v1.py:379-387 | Initial margin is the closing fee and the greatest of notional over account leverage, notional over tier leverage, and notional times the tier's rate |
| PaperBooks.MaintenanceMargin | bybit_derivatives_core_v1.py:379-391 | Maintenance margin is the closing fee and the tier's rate less its deduction, never below nothing |
| PaperBooks.MarginAddsUp | bybit_derivatives_core_v1.py:373-397 | Both totals are the sums over the details, one detail for each position |
| PaperStep.ProfileStep | bybit_prospective_paper_forward_v1.py:434-602 | One observation in place: funding, orders, close and liquidation equal the step function |
| PaperStep.Place | bybit_prospective_paper_forward_v1.py:482-541 | An order is tried on a copy of the positions and kept only if the margin check passes |
| PaperStep.Liquidate | bybit_prospective_paper_forward_v1.py:566-587 | Every open position is closed in place at the adverse mark with its charge |
| PaperStepLaws.StepAudited | bybit_prospective_paper_forward_v1.py:434-602 | Every observation keeps wallet, positions, fees, funding and all counters equal to what the execution journal alone yields |
| PaperStepLaws.ReplayWorth | bybit_derivatives_core_v1.py:338-363 | The value of any replayed journal at any marks is the start plus quantity times (mark - price) over its fills, minus fees, plus funding |
| PaperStepLaws.Conservation | bybit_prospective_paper_forward_v1.py:434-602 | The same for a row of the ledger |
| PaperStepLaws.SettledReports | bybit_prospective_paper_forward_v1.py:543-594 | With or without a liquidation, the reported equity is the account at the closing marks, positive, at most its high, with drawdown in [0,1) |
| PaperStepLaws.LiquidatedFlat | bybit_prospective_paper_forward_v1.py:566-587 | A liquidation leaves no position |
| PaperStepLaws.SurvivorIsSolvent | bybit_prospective_paper_forward_v1.py:543-589 | With closes inside the bar, an account that pays maintenance and is not liquidated closes above its maintenance margin, so the equity error cannot occur |
| PaperStepLaws.OrderWithinMargin | bybit_prospective_paper_forward_v1.py:502-532 | An order leaves wallet and positions alone, or reaches its size in an account inside all tiers whose initial margin its equity covers |
| PaperFunding.StepPaysFunding | bybit_derivatives_core_v1.py:358-359 | One observation moves the funding total by minus the sum over positions and rates of quantity times opening mark times rate, and counts every rate |
| PaperFunding.LongsPayShorts | bybit_prospective_paper_forward_v1.py:453-465 | At rates that are not negative longs never gain by funding and shorts never lose |
| PaperFunding.OppositesExchange | bybit_prospective_paper_forward_v1.py:453-465 | Two accounts with opposite positions exchange exactly what the other pays |
| PaperOrders.StepWrites | bybit_prospective_paper_forward_v1.py:472-587 | Everything an observation writes: orders at the profile's own reference price worsened by its costs, forced exits at the adverse extreme, the fee of each, and as many execution hits as orders that met trades |
| PaperOrders.ObservedWrites | bybit_prospective_paper_forward_v1.py:655-661 | Each row of the ledger is stepped with its own windows and costs |
| PaperOrders.ReferenceBetween | bybit_derivatives_core_v1.py:400-403 | The reference price of traded minutes lies between the prices at which they traded |
| PaperOrders.NeverBetter | bybit_prospective_paper_forward_v1.py:489-500 | No order is filled on the better side of its reference price |
| PaperBooks.StepAims | bybit_prospective_paper_forward_v1.py:466-544 | With changed targets each position ends at the rounded-down size of its share of the equity after funding, unless refused; without a change nothing is traded; a forced exit leaves all flat |
| PaperBooks.FilledIff | bybit_prospective_paper_forward_v1.py:482-541 | An order is filled if and only if the account it would leave is inside its tiers and covers its initial margin; otherwise the account is kept and the refusal counted |
| PaperBooks.StepReports | bybit_prospective_paper_forward_v1.py:543-596 | Reported equity is wallet plus quantity times (close - entry), and its high and worst drawdown are the greatest so far |
| PaperBooks.UseIsHighest | bybit_prospective_paper_forward_v1.py:533-565 | The uses of margin and of tiers are the greatest so far |
| PaperLedger.VerifyState | bybit_prospective_paper_forward_v1.py:186-228 | The walk along the chain accepts exactly the states with intact digests, frozen identities, matching count and last execution |
| PaperLedger.ApplyObservations | bybit_prospective_paper_forward_v1.py:641-692 | The loop over a batch yields the batch function's state or its first error |
| PaperLedgerLaws.BatchIndependence | bybit_prospective_paper_forward_v1.py:641-692 | Applying a and then b with advancing run ids is applying a + b at the final run id, digest included; if the observations of a fail, the joined batch fails with the same error |
| PaperLedgerLaws.NewStateAccepted | bybit_prospective_paper_forward_v1.py:137-183 | Verification accepts a new state |
| PaperLedgerLaws.AcceptsIff | bybit_prospective_paper_forward_v1.py:186-228 | A state is accepted exactly with its own digest, the frozen identities, and events that each name their place, their own digest and the digest before |
| PaperLedgerLaws.AppliedAccepted | bybit_prospective_paper_forward_v1.py:186-228 | Verification accepts every result of a batch on an accepted state |
| PaperLedgerLaws.HeadDeterminesLog | bybit_prospective_paper_forward_v1.py:211-224 | Two intact chains with the same last digest are the same log |
| PaperLedgerLaws.SameHeadSameAccounts | bybit_prospective_paper_forward_v1.py:664-682 | Two continuations of one accepted state that end in the same digest saw the same observations and hold the same accounts |
| PaperLedgerLaws.EveryRunConserves | bybit_prospective_paper_forward_v1.py:434-692 | Over every sequence of batches from a new state, both accounts replay from their journals and satisfy conservation at any marks, and the reported equity is that value at the last close |
| PaperBooks.EveryRunBalances | bybit_prospective_paper_forward_v1.py:434-692 | Over every sequence of batches and at any marks: initial cash, plus quantity times (mark - price) of every fill, minus the profile's fee on each, minus quantity times opening mark times rate of every funding |
| PaperBooks.RunsAreEvidence | bybit_prospective_paper_forward_v1.py:643-680 | Every event of every run digests a public observation, not older than the start, and repeats its times and targets |
| PaperVerdict.VerdictExact | bybit_prospective_paper_forward_v1.py:605-638 | After every batch: collecting exactly while days or bars do not suffice, owner review exactly when they do and both rows meet every gate, quarantined otherwise, with the decision of each |
| PaperVerdict.SettledCounts | bybit_prospective_paper_forward_v1.py:566-568 | A bar counts a liquidation exactly when the account at its adverse extreme is not above a positive maintenance margin |
| PaperVerdict.RunsJudged | bybit_prospective_paper_forward_v1.py:605-692 | In every run the state is new or its verdict fits its rows as they are |
| PaperVerdict.MarredIsNeverReviewed | bybit_prospective_paper_forward_v1.py:628-630 | Once a profile had an order refused or was liquidated, no later batch sends the account to review |
| UsageLedger.Validate | deepseek_provider.py:103-129 | The loop accepts exactly the valid ledgers: schema, pricing version, signs, request count, sum of reservations, cap |
| UsageLedger.Provider.Load | deepseek_provider.py:132-148 | The ledger a request sees in a month, the fresh one, or the rollover error |
| UsageLedger.Provider.Reserve | deepseek_provider.py:300-318 | The locked reserve section: amount, cap of its class, new record, save or error |
| UsageLedger.Provider.Reconcile | deepseek_provider.py:321-340 | The locked reconcile section: charge, quarantine, or error |
| UsageLedger.Provider.Chat | deepseek_provider.py:343-411 | Key, egress, route and network checks come before any reservation; nothing is reconciled before a saved reservation, and a lost reply leaves the reservation on disk |
| UsageLedger.RouteOfRequest | deepseek_provider.py:61-68 | Every request that is sent is priced as Pro if and only if it is a blocker or critical |
| UsageLedgerPrices.RequestAllowedIff | deepseek_egress.py:60-82 | A request is sent exactly with a key, a grant, a listed complexity and one clean, allowed user message of 1 to 24000 bytes |
| UsageLedgerPrices.ReservationIsWorstUsage | deepseek_provider.py:264-297 | A request is reserved exactly within 1 to 32768 output tokens and with a message, at the price of its payload bytes and 2048 more as uncached prompt and all output tokens |
| UsageLedgerPrices.CostIff | deepseek_provider.py:264-279 | A usage has a cost if and only if it reports some numbers of cached, other and output tokens that add up |
| UsageLedgerPrices.ReconcileCharges | deepseek_provider.py:321-340 | Reconciling an open request charges its tokens at the price list, closes and counts it, or quarantines it above the reservation, or changes nothing |
| UsageLedgerPrices.NothingOpen | deepseek_provider.py:324-328 | Without a reservation that is open in the month nothing is charged, and the reason is named |
| UsageLedgerPrices.OneTokenMore | deepseek_provider.py:279 | One more cached, other or output token is charged 145, 17400 or 34800 quarters of 1e-10 USD more under Pro, and 112, 5600 or 11200 under Flash |
| UsageLedgerPrices.ChargesAdd | deepseek_provider.py:279 | No tokens are charged nothing, and two usages in one what they are charged apart |
| UsageLedgerPrices.ChargeBetween | deepseek_provider.py:276-279 | A charge is never below the prompt at the cached price and never above it at the full price, the output added |
| UsageLedgerPrices.ValidIff | deepseek_provider.py:103-129 | Which ledgers are accepted, in numbers |
| UsageLedgerLaws.CostWithinReservation | deepseek_provider.py:264-297 | Usage of at most payload bytes + 2048 input and max_tokens output tokens never costs more than the reservation |
| UsageLedgerLaws.EveryRunSound | deepseek_provider.py:300-340 | Over any interleaving: reserved is exactly the sum of open reservations, committed is within the cap and its tolerance, no id is charged twice, and other requests hold at most 4.50 USD plus 1e-9 per overrun |
| UsageLedgerLaws.ReserveIsProtected | deepseek_provider.py:304-307 | Within the usage bounds the 5.00 USD cap holds without tolerance and requests that are not blockers hold at most 4.50 USD |
| UsageLedgerLaws.BlockerAdmitted | deepseek_provider.py:304-318 | Then, in any month, a blocker is admitted whenever blockers would hold at most 0.50 USD of it with it, unless a request of another month is open, which blocks it |
| UsageLedgerLaws.BoundedReconcileSucceeds | deepseek_provider.py:321-340 | Then reconciling an open request in its month always succeeds and closes it |
| UsageLedgerMonths.FrozenAfterRollover | deepseek_provider.py:143-146 | With a request open, no step outside the ledger's month changes anything |
| UsageLedgerMonths.SpentIsSumOfVisits | deepseek_provider.py:143-147 | On any clock, a month's charges are the sum over the ledger's visits to it, each from zero and within the cap and its tolerance |
| UsageLedgerMonths.CapPerVisit | deepseek_provider.py:126-147 | A month is charged at most one cap for each time that the ledger has left it, and one more |
| UsageLedgerMonths.MonthlyCap | deepseek_provider.py:126-129 | On a clock that never runs back, the charges of every single month are within the cap and its tolerance |
| UsageLedgerMonths.ClockBackExceedsCap | deepseek_provider.py:143-147 | A run of blocker requests within the egress, token and route rules, with a clock that runs back, that charges more than 6.20 USD to one month |
| ArchivePlan.BuildArchivePlan | bybit_spot_backfill.py:171-248 | The cursor loop ends and yields the plan of the range, or the error of a reversed range or a missing inventory |
| ArchivePlan.PlanMonth | bybit_spot_backfill.py:192-233 | One month: its monthly file when usable, else its days |
| ArchivePlan.PlanPartition | bybit_spot_backfill.py:190-234 | Every date of the range is covered by exactly one unit or listed exactly once; by the monthly unit if and only if the month is inside the range and all symbols have it; other dates do not appear |
| ArchivePlan.PlanInOrder | bybit_spot_backfill.py:190-236 | Units are strictly ordered by date and inside the range, so the final sort changes nothing |
| ArchivePlan.PlanTiles | bybit_spot_backfill.py:190-234 | Without unavailable dates the units follow one another day by day over the whole range |
| BackfillUnits.PlanNamesFiles | bybit_spot_backfill.py:196-233 | Every unit names, for every symbol, its own monthly file of that month or daily file of that date |
| Backfill.State.StageUnit | bybit_spot_backfill.py:481-527 | Staging merges every series or fails, and writes nothing |
| Backfill.State.CommitStagedFrames | bybit_spot_backfill.py:530-547 | The first files are replaced in order, up to the fault |
| Backfill.State.ProcessUnit | bybit_spot_backfill.py:673-701 | One unit under any fault: files, checkpoint, failures, source list |
| Backfill.State.RunBackfill | bybit_spot_backfill.py:617-701 | One bounded run is the run function |
| BackfillUnits.AttemptRecords | bybit_spot_backfill.py:673-701 | A unit is recorded as failed exactly when an exception stopped it, and the run goes on exactly when nothing did |
| BackfillUnits.ProcessedRecords | bybit_spot_backfill.py:673-701 | A run records at most one failure, of the unit at which it stops, and every unit before it as completed |
| BackfillUnits.DaysAreSpaced | bybit_spot_backfill.py:481-527 | The days of a unit hold a candle every 15, 60 or 240 minutes from the first midnight on, and nothing is left over |
| BackfillLaws.MergeKeeps | bybit_spot_backfill.py:464-478 | A merge fails if and only if a timestamp is shared, and otherwise keeps every candle of both, in time order |
| BackfillLaws.EveryRunReached | bybit_spot_backfill.py:654-701 | Over any runs, failures and crashes the recorded units are a prefix of the plan and every series holds that prefix, plus at most the one unit that was cut off |
| BackfillLaws.NoTimestampTwice | bybit_spot_backfill.py:464-478 | Every series is strictly rising and is the gapless grid of the days it covers |
| BackfillLaws.CompleteIsFullGrid | bybit_spot_backfill.py:617-715 | When all units are recorded every series is exactly the grid of the requested dates |
| BackfillLaws.TornForever | bybit_spot_backfill.py:464-478 | After a cut-off commit no later run records or stores anything |
| BackfillRecovery.CompletesIff | bybit_spot_backfill.py:654-701 | From every reachable state, runs without faults complete the plan if and only if nothing is torn, all archives are good and the bounds sum up to the units left |
| BackfillRecovery.BoundIndependence | bybit_spot_backfill.py:654-660 | From every untorn state, runs without faults record and store exactly the next units, up to the sum of their bounds or the first bad archive, however the work is cut into runs |
| BackfillRecovery.TornIff | bybit_spot_backfill.py:530-547 | Over all runs with any faults, a state is torn if and only if the commit of some staged unit was cut off after its first file, and untorn otherwise |
| BackfillRecovery.RecoverableRuns | bybit_spot_backfill.py:617-701 | From an empty start, any runs that never cut off a commit after its first file, followed by faultless runs with good archives and enough bound, complete the plan |
| BackfillRecovery.ManifestLags | bybit_spot_backfill.py:684-701 | Over all runs the source list misses exactly as many recorded units as were struck between the two writes |
| BackfillRecovery.ManifestIsCompleteIff | bybit_spot_backfill.py:684-701 | Over all runs the source list is the list of recorded units if and only if no staged unit was struck between the two writes |
| BackfillRecovery.ManifestOfRuns | bybit_spot_backfill.py:684-701 | Runs that are never struck between the two writes list exactly the recorded units, whatever else fails |
| BackfillRecovery.MissedManifestForever | bybit_spot_backfill.py:663-691 | A recorded unit that is not in the source list never gets into it |
| BackfillLaws.BuiltPlanOk | bybit_spot_backfill.py:171-248 | A built plan without unavailable dates meets the conditions of the results above |
| Calendar.NextDayNumber | bybit_spot_backfill.py:165-168 | The day after has the next day number, across months, leap years and years |
| Calendar.GregorianCycle | bybit_spot_backfill.py:165-168 | The same date 400 years later is 146097 days later, and the days before a year follow the leap rule in closed form |
| Klines.NormalizeClosedKlines | binance_public_klines.py:53-153 | The loop with its set of seen times yields the accepted rows or the first error |
| Klines.CompleteWindowAcceptance | binance_public_klines.py:88-153 | A complete window is accepted if and only if every row passes its own checks, times strictly rise and they are the grid of the window |
| Klines.FetchClosedKlinesPaginated | binance_public_kline_paginator.py:45-81 | The page loop yields the paginated result, and the requests it makes are the planned pages in order, all of them on success |
| Klines.PageCount | binance_public_kline_paginator.py:53-74 | The number of planned pages is exactly required_pages |
| Klines.EveryPageAllowed | binance_public_klines.py:177-194 | Every page meets every guard of the single-page request |
| Klines.PagesTile | binance_public_kline_paginator.py:59-74 | The page grids concatenate to the full grid without gap or overlap |
| Klines.PaginationExact | binance_public_kline_paginator.py:76-79 | Exactly required_pages pages, the open times of the full grid when all succeed, and no final completeness error |
| KlinesRows.ExpectedAreMultiples | binance_public_klines.py:45-50 | The expected open times are exactly the multiples of the interval inside the window, in rising order |
| KlinesRows.AcceptedRowsFit | binance_public_klines.py:88-153 | Every accepted row is a closed candle of the window, on the grid, positive, with its high and low around open and close, and the rows rise strictly |
| KlinesRows.CompleteIff | binance_public_klines.py:53-153 | A complete window is accepted exactly when its bounds are in order, its rows fit, and their open times are those multiples |
| KlinesRows.FirstFault | binance_public_klines.py:88-125 | A refused payload is refused for what is wrong with its first bad row |
| KlinesRows.PageAllowedIff | binance_public_klines.py:177-194 | A page is requested exactly when its window has between one and limit candles, limit is at most 1000, and all are closed |
| KlinesRows.PaginationAllowedIff | binance_public_kline_paginator.py:30-56 | A window is fetched exactly when its bounds are in order, it has candles, all are closed, and the allowed pages hold them |
| KlinesRows.PaginationRefusals | binance_public_kline_paginator.py:30-56 | Each refusal is given exactly when its own guard fails and those before it hold |

## Left out

- HTTP, GitHub API calls, ZIP, parquet, CSV and JSON files, locks, fsync, the command lines and all rendering: locked sections are atomic steps and files are values.
- Receipt, ancestry and binding checks of modules that are not part of this model: one uninterpreted boolean in the stored evidence.
- AgentManager.AgentManager.RecordResult: the receipt, binding and ancestry checks are one boolean of the evidence, and every raised error is one error.
- AgentManager.AgentManager.DispatchPending: Research QA of another commit is always blocked; the reviewed one-time record that lets one through, after a check of its ancestry, is not modelled.
- The Research cache gate and the Research source-epoch recovery: they can move a task to READY without its dependencies, so the dependency results hold for runs without them.
- The offline courier's own dispatching, and provider gates.
- The keys and the schema version of a result are one flag.
- The dispatch identity is collision-free by construction; that joining its parts with a bar is injective is not part of this model.
- Merging a changed task template: the template is fixed over a run.
- Stale-lease recovery of verifier-only tasks ends in raised errors and is a step that changes nothing.
- Rounding of the routing scores to six digits; scores are exact.
- The times at which things happened, external-wait snapshots and other fields that no later step reads.
- Returns, volatility, Sharpe ratios, turnover, exposure averages and other statistics of the reports.
- The weight search, the moving averages and momentum signals of the portfolio searches.
- The risk policy's exact text, time-grid checks and the observation buffers of the spot simulator; the journal is always recorded.
- PaperStep.ProfileStep: the journal is always recorded and without its descriptive fields, and the two symbols are any number of symbols.
- PaperLedgerLaws.EveryRunConserves: for observations with one entry per symbol, as the collector builds them; a malformed observation raises before it changes the ledger.
- Collecting observations and the manifest checks of the paper ledger.
- NaN and infinities, which the program rejects where it checks for them.
- UsageLedger.Provider.Load: does not model the initialization marker, so it has no error for a ledger file that was deleted by hand, and no separate error for a file that is not JSON.
- UsageLedger.Provider.Chat: the texts that the egress checks look for, the redaction and the network authorizer are inputs: whether they pass, and how long the redacted message is.
- Trade validation and resampling of the backfill: one function from unit and series to candles, accepted only on the exact time grid of the unit.
- `clean=True`, which starts the backfill from an empty directory, and the checks of the stored candle semantics.
- File sizes, retries and caching of downloads.
- Symbol and interval names of the kline requests; the interval is any positive length.
