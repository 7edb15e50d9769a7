# Accumulator capital core: model and proofs

This project models the parts of the accumulator that decide where money is and
whether history can be trusted, and proves what they promise.

**The durable ledger.** A journal of typed events is replayed into a state:
deposits and admissions, a time-sorted capital timeline, commitments and their
settlements, daily decisions, orders, fills and fees. The journal is hash
chained, its head is held in a separately protected anchor, and two crash
protocols keep journal, snapshot and anchor together: append with recovery, and
restore into another directory. Money is unsigned 64-bit with checked
arithmetic.

**Four smaller cores.** The horizon projection of a metrics snapshot, the
accumulator of an order's fills, the point-in-time backtest with its cohort
ledger, and the sizing of a purchase order.

## How the model is built

| modules | part |
|---|---|
| `Prelude`, `LedgerEvents`, `Decimals` | results, 64-bit money, events and their validation, exact decimals |
| `CapitalTimeline`, `LedgerReplay`, `ReplayMachine` | the timeline; what a journal replays to; the replay as a class with fields that its methods update |
| `CapitalConservation`, `PurchaseChain`, `PurchaseHistory`, `JournalTotals`, `JournalKeys`, `JournalSources`, `TaggedTimeline`, `SettlementProgress`, `CapitalStanding`, `Acceptance`, `CapitalClock`, `DecisionConfluence` | invariants and theorems over every journal that replays |
| `HashChain`, `DurableStore`, `CrashProtocol`, `AppendRuns`, `TamperEvidence` | records, codec and anchor; durable writes; recovery and append stopped anywhere; whole runs; runs in which the directory is not trusted |
| `DurableMedium`, `DurableLedgers`, `VenueIds`, `BatchValidation` | a medium that can give out at any write; the ledger handle; duplicate scans; batches |
| `RestoreProtocol`, `RestoreLedger` | restore as a protocol, and as the operation over two mediums |
| `HorizonFeasibility`, `HorizonMetrics` | deadline schedulability; the projection and the capital cross-check |
| `FillAccumulator` | merging windows, completeness, money totals |
| `CohortLedgers`, `PointInTime`, `Backtest`, `BacktestRun`, `BacktestCausality`, `BacktestAccounts`, `BacktestDiscipline`, `BacktestCapital`, `BacktestSizing`, `BacktestReport` | cohorts, revised data, the run, causality, accounts, trading rules, capital events, sizing, the report |
| `OrderSizing` | limit price, floored quantity, reserve and capital checks |

Code that changes state in place is a class or a method with loops, proved equal
to a specification function of the old state (`ReplayMachine`,
`DurableLedgers`, `RestoreLedger`, `FillRecord`, `CohortLedger`,
`RunBacktest`). The theorems are about those functions.

A directory with its anchor is a `World`; a durable operation is a `Plan`, the
list of durable writes it makes and what it then returns. A write is all or
nothing, except that a stopped append to the journal may leave any byte prefix of
its line, and an anchor move may take effect although its reply is lost. A crash
may hit any write, including the writes of recovery and of restore.

What is assumed, and where:

- Built into the model: a record hash determines what it hashes (the `Hash`
  datatype is structural), one writer at a time, and square root and the venue's
  price normalisation are arbitrary functions.
- Ledger theorems about bytes require `Faithful`: reading a journal line inverts
  writing it, and a line contains no line end. Those about runs require a
  consistent directory (`Consistent`, `SitesOk`) to start from, which an empty
  one is (`NewLedgerIsConsistent`, `NewDestinationIsOk`), and `RestoreIsCrashSafe`
  that nothing but restores uses the destination. `RestoredIsVouchedFor` and
  `RetriesAmongOpens` do without that. The theorems of `TamperEvidence` assume
  nothing of the codec or the directory.
- The exactness of the pace test is for positive residuals in date order
  (`AllPositive`, `Ascending`), which `GroupResiduals` proves of its table;
  `ProjectHorizons` takes them in date order.
- Fill windows are drawn from one history (`AllDrawnFrom`) where a theorem says
  what is true of that history, and completeness needs its sizes positive
  (`PositiveSizes`).
- An order is sized by the decimal division of amounts in micros, with the
  quotient rounded to the nearest decimal, half to even, at the finest scale up
  to 28 that fits a 96-bit coefficient (`Divide`), and lots of at most eight
  decimals. `SomeOrderPasses` takes a fee ceiling below 100%, as the
  configuration does.
- Backtest: capital events have positive amounts (`PositiveAmounts`, for
  `BacktestBalances`, `CohortsAreDeposits` and `ReportIsFaithful`), bars come in
  time order (`BarsOrdered`, for causality, `CohortsAreDeposits` and
  `OnePurchaseADate`), and prices are positive with a cost rate above minus one
  and a minimum trade that is not negative (`SoundPrices`, for
  `DrawdownIsAShare`). `PlainSpendsEvenly` is about one deposit under a plain
  policy (`Plain`), and `ScoreIsDeviation` about a function that is a square root.

Where the code and its documentation differ, or what one would expect of the code
holds only under a condition, the model follows the code:

- The flag of a projected horizon is named infeasible, and it is tested against
  the pace of everything due by that date. With final catch-up days and a
  restricted weekday set a day may serve an early horizon and no later one, and
  then residuals that can be spent in time are flagged (`FalseAlarmIsOne`). As a
  test of feasibility it is exact if and only if catch-up days are off or every
  weekday is a purchase day (`ExactIffOneCalendar`). A policy without catch-up
  days is rejected (src/pacing.rs:177), so for a validated policy the condition
  is that every weekday is a purchase day. The flag never misses an infeasible
  horizon (`UnflaggedIsSchedulable`).
- The configuration comment says that with a reserve below the fee ceiling the
  submission checks fail for every order size. They never fail for every size
  (`SomeOrderPasses`), and they pass for every size if and only if
  `(10000 + fee) * (10000 - reserve) <= 10000 * 10000`
  (`ReserveThresholdIsExact`), which a reserve slightly below the ceiling still
  meets. Beyond that threshold some orders fail and some pass; for one order the
  condition is that of `ChecksInWholeNumbers`.
- Retrying a restore completes (`RetriesComplete`), but opening the destination in
  between can end that: it creates an empty journal, which a restore without an anchor
  takes for somebody else's ledger. Opening is harmless exactly when the anchor
  has moved, or the source is empty and the destination holds the intent or the
  snapshot (`RestoreSurvivesOpening`).
- A batch that repeats a recorded fill under a new event identifier is refused by
  validation and taken by append, as a duplicate (`VenueRepeatIsRefused`); that is
  the only difference (`BatchValidatesIff`).

## Model

| member | source | states |
|---|---|---|
| CapitalTimeline.PushThenSort | src/ledger.rs:2371-2377 | pushing an entry and sorting stably by time is one insertion behind the entries of the same time |
| CapitalTimeline.RunIsNet | src/ledger.rs:2379-2386 | a timeline that passes the overdraft check closes at exactly its credits less its debits, and no prefix is overdrawn |
| CapitalTimeline.RefundKeepsCovered | src/ledger.rs:2365-2389 | inserting an entry that gives back at least what it takes, at any time, never overdraws a covered timeline |
| ReplayMachine.ReplayState.RecordCapitalTimelineEntry | src/ledger.rs:2365-2389 | the timeline becomes the one with the entry in time order if no prefix is overdrawn, and is unchanged with the first error otherwise |
| ReplayMachine.ReplayState.RecordDepositAdmission | src/ledger.rs:1251-1280 | an admission is taken exactly when the deposit is known, not later, and still covers it, and timeline and totals have room; otherwise its error is returned, and as in the source nothing is promised about the state, which the replay drops |
| ReplayMachine.ReplayState.RecordTransfer | src/ledger.rs:1129-1161 | a transfer withdrawal returns the listed unadmitted amounts to their deposits and debits the rest from the timeline |
| ReplayMachine.ReplayState.RecordCapitalCommitment | src/ledger.rs:1282-1319 | a commitment must be new, back the decision that already names it, not be later than it, and be covered at its time |
| ReplayMachine.ReplayState.RecordCapitalSettlement | src/ledger.rs:1321-1389 | a settlement closes an open commitment at a debit between recorded costs and the decision's commitment, and refunds the rest at its own time |
| ReplayMachine.ReplayState.RecordPurchaseDecision | src/ledger.rs:1435-1478 | a decision takes its date, identifier and commitment once each, and must be backed by a commitment already there |
| ReplayMachine.ReplayState.RecordPurchaseOrder | src/ledger.rs:1480-1519 | an order needs a new identifier, a decision that is not later, and an open commitment behind it |
| ReplayMachine.ReplayState.RecordPurchaseFill | src/ledger.rs:1521-1562 | a fill adds to its decision within the planned amount and the commitment, once per fill identifier and while the commitment is open |
| ReplayMachine.ReplayState.RecordPurchaseFee | src/ledger.rs:1564-1602 | a fee adds to its decision's costs within the commitment, once per fee identifier and while the commitment is open |
| ReplayMachine.ReplayState.RecordWithdrawal | src/ledger.rs:1162-1170 | a withdrawal debits the timeline at its time and adds to the withdrawn total, or its error is returned and the replay drops the state |
| ReplayMachine.ReplayState.ReturnAllocations | src/ledger.rs:1116-1136 | the loop returns each listed amount to its deposit, within what the deposit has left, and adds them up |
| ReplayMachine.ReplayState.FindLinked | src/ledger.rs:1328-1332 | the scan over decisions finds the one that names the commitment, if there is one |
| ReplayMachine.ReplayState.HasLaterActivity | src/ledger.rs:1321-1389 | the scan answers whether an order or cost of the decision is dated after a settlement |
| ReplayMachine.ReplayState.RecordOutcome | src/ledger.rs:1408-1433 | an outcome is recorded under its date and identifier when it is dated by the day it happened on and both are free; over journals this makes `JournalKeys.OneOutcomeADate` |
| ReplayMachine.ReplayState.RecordObservedBalance | src/ledger.rs:1391-1406 | an observation replaces the observed pair when it is at least as fresh; what the state then holds over a journal is `JournalKeys.RuntimeIsTold` |
| ReplayMachine.ReplayState.RecordRuntime | src/ledger.rs:1224-1244 | a cycle is prepared when it is new and committed when it is prepared and open, with the error named; over journals this makes `JournalKeys.KeysAreClaimedOnce` and `RuntimeIsTold` |
| ReplayMachine.ReplayState.Apply | src/ledger.rs:1092-1249 | one event changes the side of the state it concerns as specified, or fails with the specified error |
| ReplayMachine.ReplayJournal | src/ledger.rs:1050-1090 | the loop returns exactly what the journal replays to, or the error of its first failing event |
| LedgerReplay.SeenIsEventIds | src/ledger.rs:1052-1062 | a journal that replays holds every event identifier once |
| LedgerReplay.PrefixReplays | src/ledger.rs:1050-1090 | every prefix of a journal that replays also replays |
| CapitalConservation.AlwaysBalanced | src/ledger.rs:1092-1389 | in every reachable state open commitments add up to the committed total, deposits are covered, and totals and timeline agree |
| CapitalConservation.DeployableIsExact | src/ledger.rs:361-369 | withdrawn + committed + spent never exceed admitted, deployable capital is the exact difference and the closing balance of the sorted timeline, and no prefix of it is negative |
| CapitalConservation.DepositConservation | src/ledger.rs:269-281 | admitted + returned never exceed a deposit, the admissions add up to the admitted total, and net funding covers it |
| PurchaseChain.AlwaysChained | src/ledger.rs:1282-1634 | in every reachable state a commitment has at most one decision, filled <= planned, filled + fee <= decision commitment <= backing commitment, and after settlement filled + fee <= debit <= decision commitment |
| PurchaseChain.SettledIsFinal | src/ledger.rs:1615-1634 | once a commitment is settled, every further decision, order, fill, fee or settlement naming it is refused |
| PurchaseHistory.AlwaysAgrees | src/ledger.rs:1092-1249 | every commitment, settlement, decision, order, fill and fee of the journal shows in the replayed tables, and every row there comes from an event |
| JournalKeys.KeysAreClaimedOnce | src/ledger.rs:1050-1602 | in every journal that replays no two events claim one date, decision identifier, commitment, settlement, order, fill, fee, action, reward or correction identifier, cycle preparation or cycle completion, and the state holds exactly the claimed ones |
| JournalKeys.OneOutcomeADate | src/ledger.rs:1408-1433 | in every journal that replays each decision and each skip is dated by the UTC day it happened on, no two share a date or an identifier, the state holds them by date and nothing else, and the last decision time is the latest of them |
| JournalKeys.RuntimeIsTold | src/ledger.rs:1224-1244 | the observed balance is that of the latest-dated observation of the journal, the last one on ties; every committed cycle was prepared before, and the last cycle is the one committed last |
| JournalKeys.LastEventIsLatest | src/ledger.rs:1083-1086 | the last event time is the latest time of the journal |
| LedgerEvents.ValidateAllocations | src/ledger.rs:1657-1667 | allocations pass exactly when each has an identifier and an amount and none is listed twice; the first fault in list order is reported |
| LedgerEvents.CalendarIsCivil | src/ledger.rs:1408-1420 | dates are UTC days and weekdays turn with them, Monday being 1 |
| JournalTotals.CountersAreJournalSums | src/ledger.rs:1092-1602 | for every journal that replays the money counters are the journal's sums: fills and fees of every decision, funding, admissions and returns of every deposit, the debit of every commitment, and the totals admitted, withdrawn (withdrawals and transfers less what they return) and spent |
| JournalTotals.ReturnsAreBooked | src/ledger.rs:1116-1136 | returning unadmitted funding books on every deposit exactly what the list gives it, and adds up to the whole list |
| PurchaseHistory.PurchaseRunsForward | src/ledger.rs:1282-1634 | behind every recorded fill or fee stand an order, a decision and a commitment of the journal, dated commitment <= decision <= order <= cost <= settlement |
| TaggedTimeline.NeverOverflows | src/ledger.rs:2379-2386 | a covered timeline whose settlements refund at most their commitments never reaches the 64-bit limit while it is re-run |
| SettlementProgress.RangeIsNotEmpty | src/ledger.rs:1321-1389 | every open commitment has a debit that settles it: recorded costs never exceed the smaller of decision and commitment |
| SettlementProgress.SettlementAcceptedIff | src/ledger.rs:1321-1389 | a settlement of an open commitment is accepted exactly when its debit lies between the recorded costs and the smaller of decision and commitment, and it is not dated before linked activity |
| SettlementProgress.NoCommitmentIsStuck | src/ledger.rs:1321-1389 | for every journal that replays, a settlement of an open commitment replays exactly when its debit lies between the journal's sum of fills and fees for it and the smaller of decision and commitment, and no linked activity is later; neither the timeline check nor a subtraction nor an overflow check can refuse it |
| Acceptance.AcceptedIff | src/ledger.rs:1050-1634 | for every journal that replays and every event, the longer journal replays if and only if the event is well formed, its identifier is fresh, and it fits the journal's own events: sums of admissions, returns, fills and fees, backing, dates, unused identifiers, and capital standing from its time on; no other check of the ledger can refuse it |
| Acceptance.OrderAcceptedIff | src/ledger.rs:1480-1519 | an order is accepted exactly when no event records its identifier, a decision of the journal that is not later has the named identifier, and a commitment behind it that is not later and not settled has at least its amount |
| Acceptance.AdmitIff | src/ledger.rs:1251-1280 | an admission is accepted exactly when a deposit that is not later has room for it besides its admissions and returns, and all admissions still fit 64 bits |
| Acceptance.CommitIff | src/ledger.rs:1282-1319 | a commitment is accepted exactly when it is new, a decision that already names it is within it and not earlier, and the capital stands from its time on |
| Acceptance.DecideIff | src/ledger.rs:1435-1478 | a decision is accepted exactly when its day and identifier are free, no decision names its commitment, and that commitment, if there is one, is unsettled, not later and large enough |
| Acceptance.FillIff | src/ledger.rs:1521-1562 | a fill is accepted exactly when its identifier is new, its order is not later, the commitment is unsettled, and with the journal's fills and fees it stays within plan and commitment |
| Acceptance.ChargeIff | src/ledger.rs:1564-1602 | a fee is accepted exactly when its identifier is new, its order is not later, the commitment is unsettled, and with the journal's fills and fees it stays within the commitment |
| Acceptance.TransferIff | src/ledger.rs:1112-1161 | a transfer withdrawal is accepted exactly when every listed deposit has room for its amount, the list is within the transfer, and the rest of it stands from its time on |
| Acceptance.SettleIff | src/ledger.rs:1321-1389 | a settlement is accepted exactly when the commitment is there, unsettled and not later, the debit is within it and its decision and covers the journal's fills and fees, and nothing recorded under the decision is later |
| Acceptance.ValidIff | src/ledger.rs:1636-1790 | an event passes validation exactly when its identifiers, amounts, accounts and texts are well formed |
| CapitalStanding.DebitIsCoveredIff | src/ledger.rs:2365-2389 | a debit can be inserted into the sorted timeline exactly when, at its time and at every later point, what the movements recorded so far leave is at least the debit |
| JournalSources.SourcesAlwaysTold | src/ledger.rs:1092-1602 | deposits are the journal's funding events, the timeline is its movements of capital in time order, and the latest cost of a decision is the time of a fill or fee |
| CapitalClock.LastCapitalEventAt | src/ledger.rs:328-354 | for every journal that replays to this capital, the answer is the latest time among its deposits, withdrawals and transfer withdrawals |
| CapitalClock.CountCommitments | src/ledger.rs:329-336 | the loop counts the commitments of every time and amount |
| CapitalClock.UnmatchedIsWithdrawn | src/ledger.rs:330-346 | matching commitments out of the pure debits leaves exactly the withdrawal times, also when a withdrawal looks like a commitment |
| CapitalClock.ClockIsExact | src/ledger.rs:328-354 | whatever commitment counts are matched in timeline order, the latest remaining time is the journal's latest external time |
| DecisionConfluence.ArrivalOrderIsIrrelevant | src/ledger.rs:1282-1319 | a commitment and the decision naming it are accepted in either order under the same conditions and lead to the same state |
| HashChain.LoadRecords | src/ledger.rs:1865-1903 | the line loop accepts exactly the terminated lines that continue the hash chain and returns their records |
| HashChain.LoadInvertsWrite | src/ledger.rs:1865-1903 | loading the concatenated lines of a chain gives back its records |
| HashChain.HeadDeterminesChain | src/ledger.rs:2092-2105 | two chains of one length with one head hash are the same chain |
| HashChain.AnchorDeterminesJournal | src/ledger.rs:2276-2294 | two journals that load and agree with one anchor hold the same records, so an edited, reordered, truncated or rolled-back one is refused |
| HashChain.RolledBackIsTruncated | src/ledger.rs:2276-2294 | against its anchor a journal rolled back to fewer records is reported as truncated, and one whose anchor is lost as lacking it |
| HashChain.TornJournalIsRefused | src/ledger.rs:1865-1903 | a journal ending inside a line does not load |
| CrashProtocol.RecoverySafe | src/ledger.rs:1995-2064 | recovery of every consistent directory succeeds, brings it to rest with the records the anchor vouches for, and may be stopped after any write without changing them |
| AppendRuns.OpenSafe | src/ledger.rs:581-626 | opening a consistent directory always succeeds and returns the committed records |
| AppendRuns.AppendIsCrashAtomic | src/ledger.rs:682-723 | an append stopped after any write or inside its line has added its one record if the anchor moved and nothing otherwise |
| AppendRuns.NextOpenDecides | src/ledger.rs:682-723 | after that and any number of recoveries stopped anywhere, the next open returns the old records, or old and new, as the anchor decides |
| AppendRuns.NewLedgerIsConsistent | src/ledger.rs:581-626 | an empty directory without an anchor is consistent and has no records, so every run may start there |
| AppendRuns.HistorySurvives | src/ledger.rs:581-723 | over every run of opens and appends stopped anywhere committed history only grows, by attempted events, and an open that completes returns it |
| TamperEvidence.OpenIsAnchored | src/ledger.rs:581-626 | whatever the directory holds, opening it never moves the anchor, and an open that succeeds shows a chain the anchor vouches for and what it replays to |
| TamperEvidence.AnchorDeterminesOpen | src/ledger.rs:2276-2294 | two directories that open against one anchor show the same records and the same state |
| TamperEvidence.RecoveredOpens | src/ledger.rs:1995-2064 | whatever the directory holds, a recovery of a pending append that completes has dropped it, and what it leaves opens |
| TamperEvidence.TamperingShows | src/ledger.rs:581-723 | over every run of opens and appends stopped anywhere, with the files replaced at will in between, the anchor vouches for the first history grown by attempted events only, and an open that succeeds shows exactly that history |
| DurableMedium.Medium.DoAll | src/ledger.rs:2570-2591 | several durable writes all happen, or the medium stops as the crash model says |
| DurableMedium.StopIsACut | src/ledger.rs:2296-2309 | a stop, also one where an anchor move took effect and its reply was lost, is one of the cuts of the crash protocol |
| DurableLedgers.RecoverPending | src/ledger.rs:1995-2064 | the method makes exactly the writes of the recovery plan and returns its outcome, or stops with the medium |
| DurableLedgers.DurableLedger.Reopen | src/ledger.rs:591-626 | the handle shows the journal that was read, its replay and its index, or keeps everything it had |
| DurableLedgers.SnapshotIsCurrent | src/ledger.rs:1806-1863 | the snapshot check passes exactly for a snapshot of these records and their replayed state, or for none of an empty journal |
| DurableLedgers.DurableLedger.BuildIndex | src/ledger.rs:607-614 | the index holds exactly the events of the journal under their identifiers |
| DurableLedgers.DurableLedger.RecoverAndReopen | src/ledger.rs:685-686 | recovery and a fresh read make exactly the writes of opening and show what it returns |
| DurableLedgers.DurableLedger.RepeatOf | src/ledger.rs:858-951 | the scan over the index answers whether the event repeats one of the journal, by its own or by its venue identifier |
| DurableLedgers.DurableLedger.Append | src/ledger.rs:682-723 | append makes the writes of its plan wherever the medium gives out; after success the last record holds the event and the anchor vouches for the records shown, and a duplicate is an event that repeats one the handle shows |
| DurableLedgers.DurableLedger.Commit | src/ledger.rs:701-722 | once the anchor move is confirmed the handle shows the new record, even if a later write fails; before that it is unchanged |
| DurableLedgers.RunningAppendIsAtomic | src/ledger.rs:682-723 | a run of append on a medium that may give out anywhere is crash-atomic |
| DurableLedgers.DurableLedger.EnsureCurrent | src/ledger.rs:1006-1023 | the handle is current exactly when length, records, anchor and snapshot of the directory still agree with it |
| DurableLedgers.OpenedIsCurrent | src/ledger.rs:1006-1023 | a handle that was just opened is current |
| DurableLedgers.CurrentIsCommitted | src/ledger.rs:1006-1023 | a handle that passes the currency test of a consistent directory shows exactly its committed records |
| DurableLedgers.DurableLedger.ValidateAppendBatch | src/ledger.rs:647-670 | on a current handle the loop plans the batch behind the journal and returns the state it replays to, and a batch that passes appends to the directory event by event and ends in that state |
| VenueIds.ScanAgreesWithTables | src/ledger.rs:858-951 | the append-time scans find an order, fill or fee identifier exactly when the replayed tables hold it |
| VenueIds.VenueIdsAreUnique | src/ledger.rs:1480-1602 | every order, fill and fee identifier belongs to one event of the journal |
| BatchValidation.RepeatIsDuplicate | src/ledger.rs:682-703 | appending an event the journal holds is a duplicate and changes nothing that counts |
| BatchValidation.ValidatedBatchAppends | src/ledger.rs:647-703 | if a batch validates, appending its events one by one is never refused and ends in exactly the validated state, repeats included |
| BatchValidation.BatchValidatesIff | src/ledger.rs:647-703 | a batch validates exactly when its events can be appended one by one and none carries the order, fill or fee identifier of another event |
| BatchValidation.VenueRepeatIsRefused | src/ledger.rs:647-703 | a durable order, fill or fee under a new event identifier appends as a duplicate and is refused by validation |
| DurableLedgers.ValidatedByHandle | src/ledger.rs:647-703 | a batch that a current handle validates appends event by event to its directory and ends in the validated state |
| RestoreProtocol.SourceIsWhole | src/ledger.rs:1026-1048 | the payloads a restore copies are those of all committed records of the source |
| RestoreProtocol.FinishSafe | src/ledger.rs:832-855 | finishing a restore reaches its target, and stopped anywhere the destination is still on the way to it |
| RestoreProtocol.RestoreSafe | src/ledger.rs:762-856 | one restore stopped anywhere leaves a proper destination, and one that completes leaves it at rest with a prefix of the source |
| RestoreProtocol.RestoreIsCrashSafe | src/ledger.rs:762-856 | over every run of stopped restores, and of appends and opens of the source, the destination anchor moves at most once, from none to a prefix of the source, and every completed restore holds the prefix its own anchor vouches for |
| RestoreProtocol.SuccessIsAnchored | src/ledger.rs:762-856 | whatever the destination held, a restore that succeeds leaves it at rest with a prefix of the source that its anchor vouches for |
| RestoreProtocol.RestoredIsVouchedFor | src/ledger.rs:762-856 | the same after every run in which the destination is also opened and appended to between attempts, while the source only grows |
| RestoreProtocol.RestoreSurvivesOpening | src/ledger.rs:781-837 | after one open of a destination on its way to the source the next restore succeeds if and only if the anchor has moved, or the source is empty and the destination holds the intent or the snapshot; then it returns the whole source |
| RestoreProtocol.SpoiledForGood | src/ledger.rs:781-837 | a destination that was opened too early stays as it is, and every later restore from any state of any source is refused without a write, as long as nobody appends to it |
| RestoreProtocol.RetriesAmongOpens | src/ledger.rs:762-856 | over every run of restores and opens of the destination stopped anywhere, with an unchanged source, the next restore returns the whole source exactly when the destination is not spoiled |
| RestoreProtocol.NewDestinationIsOk | src/ledger.rs:815-821 | an empty destination without an anchor fits every source and a restore may start there |
| RestoreProtocol.RetriesComplete | src/ledger.rs:762-856 | with an unchanged source, after any number of stopped attempts the next one completes with the whole source |
| RestoreProtocol.StaleIntentNeedsItsAnchor | src/ledger.rs:803-812 | an intent for an older part of the source is honoured exactly when the destination anchor already holds that part and the intent keeps the journal the ledger writes for it; otherwise nothing is written |
| RestoreProtocol.FullIntentNeedsItsJournal | src/ledger.rs:781-814 | an intent for all records that is not the source's own one is honoured exactly when it keeps the journal the ledger writes for them |
| RestoreProtocol.OnlyOwnFilesAreReplaced | src/ledger.rs:781-837 | whatever the destination holds, a restore that writes finds no strange entry and no pending append there, and without an intent or without an anchor at most the files of an empty ledger |
| RestoreProtocol.SetAnchorStands | src/ledger.rs:838-842 | whatever source and destination hold, a restore never moves an anchor that is set |
| RestoreLedger.RebuildPrefix | src/ledger.rs:2154-2187 | the loop rebuilds the named prefix and accepts it only if it gives back the payloads of the intent |
| RestoreLedger.Finish | src/ledger.rs:838-855 | anchor, journal, snapshot, check and only then dropping the intent, wherever the medium gives out |
| RestoreLedger.Resume | src/ledger.rs:781-814 | an intent found in the destination is resumed towards its target or refused without a write |
| RestoreLedger.Start | src/ledger.rs:815-837 | a destination without an intent is started, found complete, or refused |
| RestoreLedger.RestoreClean | src/ledger.rs:762-856 | the operation recovers the source and makes exactly the writes of the restore plan, wherever either medium gives out |
| RestoreLedger.RunningRestoreIsSafe | src/ledger.rs:762-856 | a run of the operation on mediums that may give out anywhere, a lost anchor reply included, keeps both directories proper, moves the destination anchor at most once, and on success leaves the restored prefix |
| HorizonFeasibility.UnflaggedIsSchedulable | src/metrics.rs:553-592 | if no horizon is flagged, some schedule within the daily cap meets every horizon on days eligible for it |
| HorizonFeasibility.PaceTestIsExact | src/metrics.rs:553-592 | if a day that serves a horizon serves every later one, no horizon is flagged exactly when there is such a schedule |
| HorizonFeasibility.FalseAlarmIsOne | src/metrics.rs:553-592 | a catch-up day outside the weekdays and a later horizon give residuals that can be spent in time and are flagged |
| HorizonFeasibility.ExactIffOneCalendar | src/metrics.rs:553-592 | the test is exact for all residuals if and only if catch-up days are off or every weekday is a purchase day |
| HorizonFeasibility.SlotsAreDaysLeft | src/pacing.rs:1893-1915 | the slots are the number of purchase days from the observed day through the horizon, without it when it is decided |
| HorizonFeasibility.SpentIsScheduled | src/metrics.rs:553-592 | starting a day later is the same as paying nothing on a decided day |
| HorizonMetrics.RemainingPurchaseSlots | src/pacing.rs:1893-1915 | the loop counts exactly the eligible days |
| HorizonMetrics.DivCeil | src/metrics.rs:580-580 | the pace is the least amount that covers what is due in that many payments |
| HorizonMetrics.ProjectHorizons | src/metrics.rs:553-592 | each row shows the purchase days left, without a decided today, everything due by its date and the least pace for it; with one calendar no row is flagged exactly when some plan from the observed day that pays nothing on a decided day meets all residuals within the cap; it fails exactly when the total or the date overflows |
| HorizonMetrics.GroupResiduals | src/metrics.rs:215-224 | the table is in date order, without zeros, and shows for every date what the tranches need at it and by it; it fails exactly when the tranches of one date overflow |
| HorizonMetrics.ProjectTranches | src/metrics.rs:215-230 | the same over the residuals of all tranches; it fails exactly when their total or the date overflows |
| HorizonMetrics.AgreeingTotalsPass | src/metrics.rs:176-213 | on a replayed ledger the cross-check passes exactly when the totals agree, so its subtraction never underflows then, and what it shows adds up |
| FillAccumulator.MergeObservedFills | src/live_probe.rs:1370-1409 | the loop merges row by row and stops at the first incomplete or contradictory one |
| FillAccumulator.MergeSucceedsIff | src/live_probe.rs:1370-1409 | a merge succeeds exactly when some history explains the held fills and the window, and then drops and changes nothing |
| FillAccumulator.EntryShows | src/live_probe.rs:1375-1397 | what is stored of a row is its own size, value, fee and base fee, field by field, and a row without one of them is refused |
| FillAccumulator.WindowsJoin | src/live_probe.rs:1370-1409 | any windows of one history merge, and the result depends only on which fills were shown, not on order or repetition |
| FillAccumulator.CompleteIffAllHeld | src/live_probe.rs:1420-1434 | with positive sizes, held sizes reach the history's total if and only if every fill is held |
| FillAccumulator.FillsCoverQuantity | src/live_probe.rs:1420-1434 | the loop compares the exact sum of the held sizes with the authoritative quantity |
| FillAccumulator.DecimalToAtoms | src/live_probe.rs:1678-1694 | a quantity becomes atoms exactly when it is a whole number of them that fits, and then the product is exact |
| FillAccumulator.CumulativeCreditedHype | src/live_probe.rs:1452-1476 | the result is the exact sum of size less fee taken in HYPE, in whole atoms, and a fill that credits nothing is refused |
| FillAccumulator.CumulativeUsdc | src/live_probe.rs:1491-1531 | filled is within half a micro of the exact sum of the notionals and debited of that sum and the USDC fees, both exact when whole; it fails exactly when one of them is negative or does not fit |
| FillAccumulator.MicrosTold | src/pacing.rs:78-84 | an amount converts to micros exactly when it is not negative and fits, and then to the nearest number of them, or exactly when it is whole |
| FillAccumulator.FeesCountOnce | src/live_probe.rs:1452-1531 | every fee is counted in one asset only, and the two totals account for everything bought and every fee |
| FillAccumulator.CompleteTotalsAreTrue | src/live_probe.rs:1370-1531 | whatever windows were shown, the completeness test passes exactly when every fill was shown, and then the held fills are the history |
| FillAccumulator.FillRecord.MergeAndPersist | src/live_probe.rs:1231-1260 | the record binds one workflow and one venue order, stores the merged fills, and is unchanged by any refusal |
| FillAccumulator.FillRecord.Observe | src/live_probe.rs:556-580 | totals are reported exactly when every fill is held; they are the nearest micros of the history's notionals and of notionals and USDC fees, and its exact credit in atoms, or an error exactly when one of those does not fit |
| CohortLedgers.CohortLedger.Take | hype_research/engine.py:31-44 | the loop drains the oldest cohorts first, or refuses an amount beyond cash and dust without a change |
| CohortLedgers.OldestFirst | hype_research/engine.py:31-44 | a cohort changes only when every older one is drained |
| CohortLedgers.TakeFailsIff | hype_research/engine.py:31-33 | a take is refused exactly when the amount exceeds all cash by more than 1e-8 |
| CohortLedgers.TakeIsExactToDust | hype_research/engine.py:31-44 | every cohort keeps admitted = cash + invested + withdrawn with no debt, and what is taken differs from the amount by at most 1e-8 |
| PointInTime.LatestIsNewest | hype_research/contracts.py:137-146 | a history holds for every date its newest usable revision, and only usable ones |
| PointInTime.ByDateAscends | hype_research/contracts.py:146-146 | a history is in strict date order |
| PointInTime.HistoryIsPointInTime | hype_research/contracts.py:134-146 | a history holds, in date order, for every date with a revision available by then and at least the lag before the decision, the one available last, the larger identifier deciding ties |
| PointInTime.KnownByIs | hype_research/contracts.py:128-136 | what is known by a time are the revisions available by then |
| PointInTime.PointInTimeView.HistoryAt | hype_research/contracts.py:137-146 | the loops return exactly the history known at the decision |
| PointInTime.LatestOfKnown | hype_research/contracts.py:134-146 | what a decision sees does not depend on anything that became known after it |
| PointInTime.SortedUsable | hype_research/contracts.py:75-78 | sorting the usable events is the same as taking the usable ones of the sorted |
| PointInTime.SortedIsInOrder | hype_research/contracts.py:75-78 | the sorted events are the events, by time, at one time deposits before withdrawals, and then by identifier |
| PointInTime.BeforeIsLexicographic | hype_research/contracts.py:75-78 | identifiers compare by their first differing character, prefixes first |
| BacktestRun.ScoreFeatures | hype_research/engine.py:63-76 | the loop over series returns the average of the clamped scores and whether any series is missing or stale |
| BacktestRun.DecideAt | hype_research/engine.py:116-136 | the decision at a bar is the specified one and changes nothing; what it means is `BacktestSizing.EveryBarObeysLaw` |
| BacktestRun.RunBacktest | hype_research/engine.py:79-172 | the loops over events and bars return exactly the specified report, or the first error; what it shows is `BacktestReport.ReportIsFaithful`, what it buys `BacktestSizing.EveryBarObeysLaw`, and from what capital `BacktestCapital.CohortsAreDeposits` |
| BacktestReport.ReportIsFaithful | hype_research/engine.py:155-172 | every completed backtest on positive amounts reports: each number is the nearest one with its decimal places, every cohort has a row whose account balances up to rounding, every trade has a row, and status and valuation follow the horizon |
| BacktestCausality.TradesAreCausal | hype_research/engine.py:79-153 | inputs that agree on bars, usable events and available revisions up to a time give the same trades up to that time |
| BacktestCausality.EarlierAsOfCutsTrades | hype_research/engine.py:79-153 | moving as_of back to a time keeps exactly the trades up to it, and the earlier run completes if the later one does |
| BacktestAccounts.BacktestBalances | hype_research/engine.py:137-149 | cohorts balance, invested <= spend <= invested + trades * 1e-8, turnover is spend, and spend is what the units were worth plus costs |
| BacktestCapital.CohortsAreDeposits | hype_research/engine.py:47-51 | the cohorts of a completed backtest are the deposits usable by the as-of time and the end of the horizon, in order and at their amounts, and they have paid the withdrawals usable by then, but for at most 1e-8 each |
| BacktestCapital.EndIsLast | hype_research/engine.py:151-153 | events count to the last instant of the horizon date |
| BacktestCapital.BarsSeeUsableCapital | hype_research/engine.py:108-114 | the same at every bar, for the capital events usable by then |
| BacktestCapital.EventAppliesIff | hype_research/engine.py:31-51 | a deposit is always taken, and a withdrawal unless it exceeds the cash by more than 1e-8 |
| BacktestSizing.EveryBarObeysLaw | hype_research/engine.py:115-150 | a bar trades exactly when it is due and the order reaches the minimum; it then spends the least of the cash, an even share of it over the purchase dates left times the multiplier, and the maximum; any other bar counts as one skip for its reason, or as none on an off day |
| BacktestSizing.BarFailsIff | hype_research/engine.py:115-150 | once its capital events are paid, a bar fails exactly when the policy has no rule for outdated features, or when it buys at a price or cost rate of nothing |
| BacktestSizing.RemainingIsCount | hype_research/engine.py:53-59 | the slots are the number of dates, or of Mondays, from the decision through the horizon, and at least one |
| BacktestSizing.PlainSpendsEvenly | hype_research/engine.py:79-153 | a plain daily policy with one deposit and a bar on every date through the horizon spends the same on every bar and leaves nothing, where no bound is reached |
| BacktestSizing.ScoreIsDeviation | hype_research/engine.py:70-75 | the score of a series is by how many sample standard deviations its last value lies off the mean of the last five, at most two either way |
| BacktestSizing.DeviationsExpand | hype_research/engine.py:73-74 | the squared deviations are the squares less twice the centre times the sum, and the centre squared for every value |
| BacktestSizing.FeatureScoreIsAverage | hype_research/engine.py:63-76 | features are stale exactly when a series is short or old, and their score is the average over the series with a history |
| BacktestDiscipline.OnePurchaseADate | docs/data-contract.md:19-19 | at most one purchase a UTC date, each within the minimum and maximum order, and weekly policies buy only on Mondays |
| BacktestDiscipline.EveryBarCounts | hype_research/engine.py:101-150 | every bar of a completed run is one trade, one counted skip, or an off day of a weekly policy |
| BacktestDiscipline.DrawdownIsAShare | hype_research/engine.py:110-143 | the drawdown lies between nothing and the whole and never falls from bar to bar |
| BacktestDiscipline.DrawdownIsWorstFall | hype_research/engine.py:110-143 | the drawdown is at least the fall from the running peak at every bar and, unless it is nothing, is reached at one; the peak bounds what the holding is worth before and after every bar and, unless it is nothing, is reached at one |
| OrderSizing.LimitPriceOnGrid | src/order_envelope.rs:281-300 | a limit is accepted exactly when the price on the grid is a positive whole number of micros that fits, and then it is that number |
| Decimals.QuotientHoldsParts | src/order_envelope.rs:302-332 | the rounded decimal quotient of two 64-bit amounts exists and holds exactly as many whole parts, of up to eight decimals, as the true quotient |
| Decimals.UnitsAreValues | src/live_probe.rs:1420-1434 | decimals compare by value, however they are written |
| OrderSizing.SizedInLots | src/order_envelope.rs:302-332 | the rounding of the division never shows: quantity and refusals are those of the true quotient, in whole lots |
| OrderSizing.SizedIsLargest | src/order_envelope.rs:302-332 | the quantity is the largest whole number of lots the plan can pay: it costs at most the plan, also rounded up to a micro, and one more lot would cost more |
| OrderSizing.SizingFailsIff | src/order_envelope.rs:302-332 | an order is refused for its size exactly when the plan does not pay one lot, or pays more lots than fit 64 bits of atoms |
| OrderSizing.NotionalIsCeiling | src/order_envelope.rs:302-332 | the largest notional is the least number of micros not below the order |
| OrderSizing.CommitmentCovers | src/pacing.rs:1945-1962 | the commitment is the least amount whose unreserved part covers the plan |
| OrderSizing.CommitmentFailsIff | src/pacing.rs:1945-1962 | there is no commitment exactly when the reserve is everything or no 64-bit amount covers the plan |
| OrderSizing.ChecksInWholeNumbers | src/live_probe.rs:1582-1594 | the two capital checks of a submission, in whole numbers of micros and atoms |
| OrderSizing.LiveOrdersSubmit | src/config.rs:1703-1723 | with a reserve of at least the fee ceiling no sized order is refused by either capital check, whatever commitment has an unreserved part that covers its plan |
| OrderSizing.ReserveThresholdIsExact | src/config.rs:1703-1723 | orders of every size pass if and only if (10000 + fee)(10000 - reserve) <= 10000 squared |
| OrderSizing.SomeOrderPasses | src/config.rs:1703-1723 | whatever the reserve, some order passes both capital checks under every commitment that covers its plan |

## Left out

- File-system plumbing: permissions, links, locks, inode checks, directory syncs, and the byte-level text of errors.
- Leftover temporary files of an interrupted atomic write: the model takes such a write as all or nothing. A torn temporary makes the real restore refuse, so `RetriesComplete` holds under that premise.
- Writers that ignore the lock: the compare-and-swap of the anchor always finds the expected value, and the length check before a journal write always passes.
- SHA-256, JSON and hex text: hashes are structural, the line codec is any codec that inverts, and the payloads of a restore intent stand for their digests.
- Version 1 snapshots and pending files, and the checksums of snapshots, intents and the fill record.
- `checkpoint`, the read accessors, and the older in-memory entry ledger at the top of the file.
- Staking, delegation and reward events beyond the uniqueness of their identifiers: they do not move capital.
- The fields of the replayed state are grouped into capital, purchases and runtime; the source keeps them in one record.
- Decimal overflow and the rounding of intermediate decimals, but for the quotient of an order: other amounts are exact.
- Floating point in the backtest: numbers are exact reals.
- The text of a backtest report: the policy's name, and times in ISO format.
- The backtest's cohort fields are values in a sequence that the ledger reassigns; aliasing of a cohort object outside the ledger is not captured.
- `OrderSizing` takes the venue's price normalisation as a function and lots of at most eight decimals; the slippage markup of the best ask, expiry windows, nonces and signatures are not modelled.
- How pacing produces tranches and commitments is not modelled beyond the slot count and the reserve gross-up; workflow transitions after a fill observation are not modelled.
- Dataset loading, configuration parsing, networking, backup and status output.
