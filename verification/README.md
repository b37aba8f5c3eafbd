# A verified model of the exchange request path

This project models, in Dafny, the parts of the bot that decide whether, when
and how often a request leaves for the exchange, and what is made of the
candles that come back. `dafny verify dfyconfig.toml` checks every proof.

* **The cross-process rate limiter** (`app/exchange/global_rate_limiter.py`).
  Many processes share one durable document: a token bucket with weighted
  priorities, a FIFO queue for each class, a three-state breaker with epochs
  and an escalation ladder, a single recovery probe guarded by a witness file,
  and a registry that records each grant's outcome once.
  `LimiterDocument` holds the code's own form, a class whose methods update the
  working copy of one transaction in place; each method is proved against a
  function of `LimiterSpec`. `LimiterProtocol` then interleaves such
  transactions over any number of processes, with process death, reboot,
  requests that leave, witness pruning on stale reads, and writes that fail
  either before or after the new file is visible. `Run` is any finite sequence
  of enabled actions from the initial document; the theorems are about all runs.
  `LimiterRefresh`, `LimiterAcquire` and `LimiterOutcomes` say, in the document's
  fields, what each operation changes.
* **The budgeted GET and the paged reader** (`app/exchange/bybit_client.py`):
  `BudgetedGet` is the one retry loop with its attempt budget, rate-limit cap,
  absolute deadline and grant obligations, over an arbitrary environment, with
  `BudgetedReplies` on what each reply leads to;
  `PagedRange` is the page loop, compared with one read of the whole range.
* **Intervals of candles** (`app/analytics/candle_ranges.py`,
  `app/analytics/candle_sync.py`): sort-and-merge loops as canonical forms of
  point sets, batches that tile, and the account a reconciliation gives.
* **The telemetry line** (`app/exchange/api_telemetry.py`): an escaping printer
  with the reader that inverts it.

Times are reals in the limiter and the request loop, whole microseconds in the
candle modules and whole milliseconds in the page loop. Tokens are reals.

## Where the code and its documentation differ

The model follows the code. These differences are stated as lemmas.

* `record_result` promises that the probe's witness is let go only after the
  result is durable (lines 1971-1976 and 2063-2067), but a rate limit trips the
  breaker, which lets go of it before the write is attempted (1441-1442).
  `SlotGuardedAfterLostWrite` gives the exact condition, `EarlyReleaseOccurs` a
  run, `LostRateLimitIsNotEscalated` the consequence.
* The same text says a failed attempt applied nothing. An error after
  `os.replace` (1129-1130) comes too late: `VisibleFailureIsApplied`.
* An idle gap counts as ordinary time only when the clock step cap is not
  negative, which construction does not check: `IdleIsNormalIffCapNonNegative`.
* The success streak is not reset by neutral outcomes: `RecoveryClosesAtTarget`.
* The request loop promises one report for each grant on every exit. An
  exception out of `prepare_send` leaves the grant without one:
  `OneReportPerGrant` states when that happens and that nothing else does it,
  `UnreportedGrantOccurs` shows it.
* An HTTP status is said to mean the same however it is delivered. A returned
  401 or 403 is a plain error, a raised one an authentication failure:
  `DeliveryIndependence`. A timeout while the body is read is not retried and is
  recorded as an error, although the limiter hears of a timeout:
  `OutcomeMatchesRecord`.
* An interruption during a send (`KeyboardInterrupt`) leaves a send without a
  telemetry record: `OneRecordPerSend` and `UnrecordedSendOccurs`.
* `_sanitize` speaks of every other control character but escapes only those of
  ASCII: `LateControlsPass`. An empty service tag, request id, status source or
  retry reason prints like the word `none`: `LinesAgree`.
* The cutoff is to keep out candles that are not closed. A numeric timeframe
  that is none of the exchange's intervals is taken for five minutes, so its
  candles pass too early or too late: `CandleLength` says for which.
* A witness file spelled with a colon is read as the grant that the dashed name
  stands for: `PrunedNameIsTheWitness`.
* A batch of eight hours asks for at most 200 candles, so one-minute candles
  are not all asked for: `FullBatchFits`. Timeframes D, W and M cannot be
  converted by `int()` and every batch of theirs fails: `NamedTimeframesFail`.
* Gap rows are not validated; when some are empty the merged list may not be
  canonical: `MergedCanonicalIff`.

## Model

| member | source | states |
|---|---|---|
| LimiterConfig.SharesPartitionTheRate | app/exchange/global_rate_limiter.py:322-333 | the shares are to the sustained rate as the weights are to their sum, class by class: they add up to it and no class gets nothing; credits follow the shares |
| LimiterConfig.CapacityCoversTheBucket | app/exchange/global_rate_limiter.py:313-319 | the retention rule ceil(2GL) covers B + GL, all that the bucket can issue in one retention window, when B <= GL |
| LimiterDocument.Document.ApplyOpen | app/exchange/global_rate_limiter.py:1426-1444 | a trip in place: next epoch, usage and slot cleared, cooldown armed, level raised only on a bump |
| LimiterDocument.Document.DropLeaked | app/exchange/global_rate_limiter.py:1194-1199 | the in-place removal of leaked demands leaves the queue without exactly these |
| LimiterDocument.Document.ClockRule | app/exchange/global_rate_limiter.py:1226-1300 | reboot, forward step, backward step and ordinary time each leave clock, bucket and cooldown as specified |
| LimiterDocument.Document.PrunePending | app/exchange/global_rate_limiter.py:1305-1320 | the pruning loop removes exactly the lapsed, foreign-boot and provably dead demands |
| LimiterDocument.Document.ResolveDeadProbe | app/exchange/global_rate_limiter.py:1400-1424 | the dead holder's record is closed neutrally, and only a set send marker reopens the breaker |
| LimiterDocument.Document.ProbePhase | app/exchange/global_rate_limiter.py:1322-1340 | death is resolved; an overdue lease only marks the slot stalled |
| LimiterDocument.Document.CooldownPhase | app/exchange/global_rate_limiter.py:1342-1348 | OPEN becomes RECOVERY with an empty streak once the wall has reached the cooldown's end, and otherwise nothing changes |
| LimiterDocument.Document.ReconcilePhase | app/exchange/global_rate_limiter.py:1350-1383 | the loop closes exactly the open grants of provably dead owners |
| LimiterDocument.Document.EvictPhase | app/exchange/global_rate_limiter.py:1385-1395 | the loop removes exactly the terminal records past retention |
| LimiterDocument.Document.Refresh | app/exchange/global_rate_limiter.py:1189-1398 | all phases in the code's order give the specified document and dirty flag |
| LimiterDocument.Document.FindHead | app/exchange/global_rate_limiter.py:1447-1464 | one pass over the queue finds the least (registration, request) key of a class |
| LimiterDocument.Document.FindBestEligible | app/exchange/global_rate_limiter.py:1474-1480 | the loop in priority order returns the first eligible class with a waiter |
| LimiterDocument.Document.FindBorrower | app/exchange/global_rate_limiter.py:1482-1508 | the loop returns the class least over its curve among those that leave every other waiting class a token |
| LimiterDocument.Document.TryGrant | app/exchange/global_rate_limiter.py:1526-1603 | grants exactly on the request's turn, spends one token and one id, fills the slot in recovery, and changes nothing on a refusal |
| LimiterDocument.Document.DropLocked | app/exchange/global_rate_limiter.py:1616-1619 | only the named demand leaves the queue |
| LimiterDocument.Document.RegisterDemand | app/exchange/global_rate_limiter.py:1707-1801 | first registration, re-registration at the old anchor, renewal by half windows, and refusal when full or past the hard limit |
| LimiterDocument.Document.SelectTurn | app/exchange/global_rate_limiter.py:1802-1833 | what a registered request gets: a grant, a breaker denial, or more waiting |
| LimiterDocument.Document.AcquirePoll | app/exchange/global_rate_limiter.py:1704-1833 | the whole acquire transaction equals refresh, then registration, then selection |
| LimiterDocument.Document.PrepareSend | app/exchange/global_rate_limiter.py:1898-1953 | permission exactly for an open grant of the current epoch, with the send marker set on record and slot; a fenced one is revoked |
| LimiterDocument.Document.RecordResult | app/exchange/global_rate_limiter.py:1985-2062 | the outcome is written once, and trips, closes or frees the slot as specified |
| LimiterWorld.StepKeeps | app/exchange/global_rate_limiter.py:1146-1183 | every action of every process, with either kind of failed write, keeps the world invariant |
| LimiterWorld.RunInvariant | app/exchange/global_rate_limiter.py:868-913 | every world of every run satisfies it |
| LimiterSafety.TokensConserved | app/exchange/global_rate_limiter.py:1560-1571 | tokens = B + refills - grants, within [0, B]; ids count grants; usage adds up to the epoch's grants; answers GRANTED never exceed grants |
| LimiterSafety.TerminalForever | app/exchange/global_rate_limiter.py:1985-2010 | a terminal record never changes again, and its id is never open again |
| LimiterSafety.ExactlyOnce | app/exchange/global_rate_limiter.py:1985-2082 | over any run no id is returned GRANTED twice and none is answered APPLIED twice |
| LimiterSafety.GrantIsFresh | app/exchange/global_rate_limiter.py:1547-1588 | a returned id is new, and durably open when the caller sees it |
| LimiterSafety.ApplyIsFirst | app/exchange/global_rate_limiter.py:2004-2012 | APPLIED means the grant was open before, never applied before, and is durable with the caller's outcome |
| LimiterSafety.OneTransitionPerGrant | app/exchange/global_rate_limiter.py:2015-2054 | all causes of trips and closings of a run are pairwise distinct ids |
| LimiterSafety.EpochsAndLevels | app/exchange/global_rate_limiter.py:1426-1444 | the epoch is one more than the trips, trip i ended epoch i, the level is min(ladder, bumps since closing), CLOSED iff level 0, a probe only in RECOVERY |
| LimiterSafety.OneTripPerReport | app/exchange/global_rate_limiter.py:1400-1444 | one transaction raises the epoch by at most one, its opening refresh included |
| LimiterSafety.RefreshEpoch | app/exchange/global_rate_limiter.py:1322-1340 | a refresh starts an epoch exactly when the holder is gone after its send marker |
| LimiterSafety.StaleGrantsAreFenced | app/exchange/global_rate_limiter.py:1927-1930 | a grant of another epoch changes no breaker field, by result or by send check, and is refused its send |
| LimiterFencing.FencedForever | app/exchange/global_rate_limiter.py:1927-1930 | over any run, once the epoch has moved on, every later result or send check of an older grant leaves breaker and epoch to its opening refresh, and no send is allowed |
| LimiterFencing.OneTripPerStep | app/exchange/global_rate_limiter.py:1426-1444 | no step of any run lowers the epoch or raises it by more than one |
| LimiterSafety.SendIsAllowedIff | app/exchange/global_rate_limiter.py:1914-1947 | under the invariant a send is allowed iff the grant is open and of the current epoch; it then bears its send marker, and the slot its own |
| LimiterSafety.ProbeIsExclusive | app/exchange/global_rate_limiter.py:1532-1588 | in every reachable RECOVERY state the only open grant of the epoch is the slot's holder |
| LimiterFencing.OpenProbesHoldTheSlot | app/exchange/global_rate_limiter.py:1400-1424 | in every reachable state every open probe record, of any epoch, is the slot's holder |
| LimiterSafety.ClosingNeedsTheTarget | app/exchange/global_rate_limiter.py:2035-2054 | the breaker closes only by a report of OK, when the set of distinct ids of the epoch recorded OK has reached the target |
| LimiterSafety.StreakCountsOks | app/exchange/global_rate_limiter.py:1342-1348 | in RECOVERY the streak is the size of that set; an open breaker has none |
| LimiterSafety.RecoveryClosesAtTarget | app/exchange/global_rate_limiter.py:2035-2061 | a report in RECOVERY closes iff it is an OK that completes the target; neutral outcomes keep the streak |
| LimiterSafety.OksWereReported | app/exchange/global_rate_limiter.py:2035-2047 | each id of the set was open until an earlier step of the run, whose report wrote it as OK into a visible file |
| LimiterRefresh.QueueAfterRefresh | app/exchange/global_rate_limiter.py:1194-1320 | a demand outlives a refresh, unchanged, iff it is not leaked, not lapsed, of this boot, and its owner is this process or not known to be dead |
| LimiterRefresh.AbandonedDemandsGiveWay | app/exchange/global_rate_limiter.py:1302-1320 | when all demands of a class before a live one are lapsed, foreign, dead or leaked, the refresh leaves the live one at the head |
| LimiterRefresh.RecordAfterRefresh | app/exchange/global_rate_limiter.py:1350-1424 | an open record is closed iff its owner is gone, as UNKNOWN or NOT_SENT by its send marker; a record leaves iff it is then terminal and past retention |
| LimiterRefresh.BreakerAfterRefresh | app/exchange/global_rate_limiter.py:1254-1348 | the whole breaker after a refresh, case by case: closed, open with or without a forward step, recovering with a live, overdue or gone holder, with the rung of the ladder written out |
| LimiterRefresh.EpochAfterRefresh | app/exchange/global_rate_limiter.py:1400-1444 | a refresh starts an epoch, at this wall and with empty counters, iff it finds a gone holder with its send marker; it issues nothing |
| LimiterRefresh.BucketAfterRefresh | app/exchange/global_rate_limiter.py:1226-1300 | time is credited iff there was no reboot and the wall advanced within the cap of the monotonic clock, in every state of the breaker; the new baseline |
| LimiterRefresh.WriteIsAskedIff | app/exchange/global_rate_limiter.py:1189-1398 | a refresh asks for a write iff the clocks were stepped or rebooted or something beyond clock and bucket changed |
| LimiterAcquire.WhoIsLetIn | app/exchange/global_rate_limiter.py:1707-1775 | DEMAND_EXPIRED iff the request has no place and its hard limit is over, the capacity error iff it needs a place in a full queue; neither changes the document; everybody else keeps the anchor of its first registration |
| LimiterAcquire.WaitingKeepsThePlace | app/exchange/global_rate_limiter.py:1717-1801 | a request told to wait has its place with the expiry of the two limits, and nothing else has changed |
| LimiterAcquire.OpenBreakerAnswers | app/exchange/global_rate_limiter.py:1802-1824 | on an open breaker the lowest class is denied, another class iff the remaining cooldown is at least its budget, and exactly these lose their place; everybody else waits |
| LimiterAcquire.OpenBreakerStep | app/exchange/global_rate_limiter.py:1802-1824 | over a persisted step, request and place are still there iff the class is not the lowest and the budget exceeds the cooldown |
| LimiterAcquire.TurnAnswers | app/exchange/global_rate_limiter.py:1526-1603 | on any other breaker the answer is decided by token, free slot and turn, then by registry and witness, in this order |
| LimiterAcquire.GrantChanges | app/exchange/global_rate_limiter.py:1547-1603 | all that a grant changes: token, number, usage, record, slot with its lease, queue, and nothing besides |
| LimiterOutcomes.OnlyOpenGrantsAreRecorded | app/exchange/global_rate_limiter.py:1985-2012 | APPLIED iff the grant is open, DUPLICATE iff it is closed, UNKNOWN_GRANT iff there is no record; the last two change nothing |
| LimiterOutcomes.OutcomeChanges | app/exchange/global_rate_limiter.py:2013-2062 | all that an applied outcome changes in breaker, epoch and counters, by outcome, epoch and state, with the rung of the ladder written out |
| LimiterOutcomes.SendCheckChanges | app/exchange/global_rate_limiter.py:1898-1953 | a send check sets both send markers or revokes, by epoch and slot, and changes nothing else |
| LimiterOutcomes.TripsArmTheirRung | app/exchange/global_rate_limiter.py:1426-1436 | every trip of a run arms the cooldown of its level, the level being the escalations since the last closing, and a step trips at most once |
| LimiterSlot.SlotFreedByHolderOrDeath | app/exchange/global_rate_limiter.py:1322-1340 | the slot leaves its holder only by the holder's own report or once its witness is free for a reason; never by time |
| LimiterSlot.DeadHolderIsResolved | app/exchange/global_rate_limiter.py:1400-1424 | a dead holder with the marker reopens the breaker in a new epoch at the same level for its full rung; without it the slot is emptied; the record becomes UNKNOWN or NOT_SENT |
| LimiterSlot.FateOfOpenGrant | app/exchange/global_rate_limiter.py:1350-1395 | an ordinary open grant stays untouched iff its owner is not provably dead; otherwise it is closed neutrally, and past retention closed and removed in the same refresh |
| LimiterSlot.LiveOwnerKeepsGrant | app/exchange/global_rate_limiter.py:1350-1383 | no step but the owner's own calls closes a live process's open grant |
| LimiterSlot.PrunedWitnessIsInert | app/exchange/global_rate_limiter.py:2175-2234 | an id whose witness may be removed on stale knowledge is, then and later, neither open nor the slot's holder |
| LimiterSlot.PrunedFileIsInert | app/exchange/global_rate_limiter.py:2175-2235 | a file read as such a witness is not, by name, the witness file of any grant that is open or holds the slot, then or later |
| LimiterSlot.StaleTerminalSetIsSafe | app/exchange/global_rate_limiter.py:2140-2175 | what any earlier read found terminal is not open now |
| LimiterSlot.HeldWitnessHasItsFile | app/exchange/global_rate_limiter.py:968-1047 | a held witness lock always has its file and a live holder |
| LimiterSlot.SlotGuardedAfterLostWrite | app/exchange/global_rate_limiter.py:1971-1976 | after a lost write the slot's witness is still held iff the outcome was not a rate limit |
| LimiterExample.EarlyReleaseOccurs | app/exchange/global_rate_limiter.py:1441-1442 | a run of one live process, from the initial document to its probe, whose lost rate-limit report leaves the slot filled and the witness free |
| LimiterSlot.LostRateLimitIsNotEscalated | app/exchange/global_rate_limiter.py:2015-2034 | then the next refresh may reopen at the same level, and the retried rate limit is answered DUPLICATE |
| LimiterSlot.VisibleFailureIsApplied | app/exchange/global_rate_limiter.py:1129-1143 | an error after the new file is visible: the outcome is durable, the caller was not told, the retry is answered DUPLICATE |
| LimiterRate.RateBound | app/exchange/global_rate_limiter.py:1284-1289 | while the walls read between two documents do not go back, the grants between them are at most B + G times the advance of the wall clock, whatever came before or after and however old the stored baseline |
| LimiterRate.RegistryNeverOverflows | app/exchange/global_rate_limiter.py:1529-1543 | while the wall has never gone back, no poll is refused for registry capacity if open grants are younger than the retention window |
| LimiterClock.OpenIsLeftOnlyAfterCooldown | app/exchange/global_rate_limiter.py:1342-1348 | OPEN is left only at or after the stored end of the cooldown, and grants nothing before |
| LimiterClock.CooldownNeverShrinks | app/exchange/global_rate_limiter.py:1254-1266 | while a run stays in OPEN nothing is granted and the cooldown's end never moves earlier |
| LimiterClock.ForwardStepLeavesFullCooldown | app/exchange/global_rate_limiter.py:1254-1266 | an above-cap wall step on a stored monotonic baseline leaves a full cooldown to go and credits nothing; OPEN is left at once only when that cooldown is zero |
| LimiterClock.IdleGapKeepsCooldown | app/exchange/global_rate_limiter.py:1233-1281 | an idle gap of any length with zero skew never moves a cooldown, and recovery begins exactly when its end has come |
| LimiterClock.IdleIsNormalIffCapNonNegative | app/exchange/global_rate_limiter.py:1233-1253 | zero skew counts as ordinary time iff the step cap is not negative |
| LimiterClock.EagerCreditIsLazyCredit | app/exchange/global_rate_limiter.py:1284-1300 | committing whole refreshes at any set of instants or only at the last one gives the same tokens, refill total and clock baseline |
| LimiterClock.RefillIsExact | app/exchange/global_rate_limiter.py:1284-1300 | while the clocks agree a whole refresh leaves min(B, tokens + G times the elapsed wall) |
| LimiterClock.SkippedWriteIsInvisible | app/exchange/global_rate_limiter.py:1233-1300 | a later transaction computes the same whole working copy whether or not an idle refresh was written |
| LimiterFairness.HeadExists | app/exchange/global_rate_limiter.py:1447-1464 | a class has a head iff somebody waits in it |
| LimiterFairness.EligibleByWeight | app/exchange/global_rate_limiter.py:1466-1472 | a class is eligible iff its usage times the sum of the weights is at most G times its weight times elapsed time plus credit time |
| LimiterFairness.WinnerIsAHead | app/exchange/global_rate_limiter.py:1474-1508 | whoever has the turn is the FIFO head of its class |
| LimiterFairness.SomebodyHasTheTurn | app/exchange/global_rate_limiter.py:1466-1508 | somebody has the turn iff a waiting class is eligible, or somebody waits and there is a token for every class that has a waiter |
| LimiterFairness.OneWinner | app/exchange/global_rate_limiter.py:1526-1541 | at most one request can be granted, and one can iff there is a token, room, a free slot in recovery, and somebody has the turn |
| LimiterFairness.BorrowKeepsReserve | app/exchange/global_rate_limiter.py:1482-1508 | a borrow leaves at least one token for each other waiting class |
| LimiterFairness.BorrowGoesToTheLeast | app/exchange/global_rate_limiter.py:1482-1508 | a borrow goes to the waiting class least over its curve, usages weighed crosswise with the curves, priority breaking ties |
| LimiterFairness.BoundedBypass | app/exchange/global_rate_limiter.py:1466-1508 | while an eligible class waits unserved no lower class is served, and a higher one ends at most one above its own curve |
| LimiterFairness.NoBorrowInBypass | app/exchange/global_rate_limiter.py:1482-1541 | every grant returned meanwhile goes to a class eligible itself, the first such in priority order: nobody borrows |
| LimiterQueue.AnchorIsFixed | app/exchange/global_rate_limiter.py:1707-1801 | from first registration to exit a request's anchor and class are fixed through pruning, re-registration and renewal |
| LimiterQueue.OrderIsFixed | app/exchange/global_rate_limiter.py:1447-1464 | two queued requests of a class never swap places over a run |
| LimiterQueue.GrantsAreFifo | app/exchange/global_rate_limiter.py:1526-1541 | a grant goes to the queued request of its class with the earliest registration, the smaller id breaking ties |
| LimiterQueue.DemandsAreCapped | app/exchange/global_rate_limiter.py:1707-1801 | no demand's expiry passes its registration by more than the hard limit |
| LimiterQueue.PollRenews | app/exchange/global_rate_limiter.py:1760-1801 | a poll that keeps waiting leaves at least half a liveness window, within the hard limit |
| LimiterQueue.PollingWaiterIsKept | app/exchange/global_rate_limiter.py:1302-1320 | no other process's transaction prunes or moves a live waiter's entry before it lapses |
| LimiterQueue.WaiterSurvivesBetweenPolls | app/exchange/global_rate_limiter.py:1302-1320 | a waiter polling at gaps under half the window finds its entry at its own place |
| LimiterQueue.PollingWaiterKeepsItsPlace | app/exchange/global_rate_limiter.py:1760-1801 | over any number of polls, a waiter is queued at its first registration in every world, if all other transactions come within half a window of its latest poll and within its hard limit |
| GrantIds.GidTextRoundTrip | app/exchange/global_rate_limiter.py:1607-1614 | the epoch and number read from an id's text are those it was issued with |
| GrantIds.GidTextInjective | app/exchange/global_rate_limiter.py:1547-1548 | distinct grants have distinct texts |
| GrantIds.Spelling | app/exchange/global_rate_limiter.py:916-917 | an id and its witness name spelled out |
| GrantIds.WitnessNameRoundTrip | app/exchange/global_rate_limiter.py:916-917 | id to witness name to id is the identity on every issued id |
| GrantIds.PrunedNameIsTheWitness | app/exchange/global_rate_limiter.py:2190-2200 | a file read as a grant's witness is that witness iff its middle part has no colon |
| BudgetedGet.Budget | app/exchange/bybit_client.py:700-703 | between one and the hard maximum, and the configured value whenever that is in between |
| BudgetedGet.DeadlineIsTheEarliest | app/exchange/bybit_client.py:684-698 | the deadline is the earliest of the configured and the two caller deadlines, and absent iff none is given |
| BudgetedGet.AttemptOnce | app/exchange/bybit_client.py:904-1013 | each reply gets its record and its ending: a class, or an exception |
| BudgetedGet.SendOnce | app/exchange/bybit_client.py:760-1033 | the gate, the deadline checks, the send and the report happen in the specified order |
| BudgetedGet.BudgetedGet | app/exchange/bybit_client.py:1079-1149 | the loop over mutable counters gives the specified trace and result for every environment |
| BudgetedGet.AttemptsAreBudgeted | app/exchange/bybit_client.py:700-716 | at most budget sends, numbered one by one, and at most cap + 1 rate-limit results |
| BudgetedGet.OneRecordPerSend | app/exchange/bybit_client.py:760-778 | telemetry records that are not skips match the sends one by one iff the call gets to no turn whose send is interrupted |
| BudgetedGet.UnrecordedSendOccurs | app/exchange/bybit_client.py:914-933 | an interrupted send of a concrete environment has no record |
| BudgetedGet.OneReportPerGrant | app/exchange/bybit_client.py:1014-1033 | each grant is reported once, in order, on every exit, iff the call gets to no turn in which prepare_send raises |
| BudgetedGet.UnreportedGrantOccurs | app/exchange/bybit_client.py:870-875 | an exception of prepare_send in a concrete environment leaves its grant unreported |
| BudgetedGet.RetriesFollowTheirCause | app/exchange/bybit_client.py:1079-1149 | an attempt follows only a timeout or a rate limit and says which; a payload is returned iff a success was recorded |
| BudgetedGet.EveryEndHasItsCause | app/exchange/bybit_client.py:1055-1149 | no call gives up early: it ends by its last reply, by the used-up budget or rate-limit cap, or by something in the very next turn that kept it from sending |
| BudgetedGet.NoSendAfterDeadline | app/exchange/bybit_client.py:890-902 | every send starts before the deadline and its timeout fits into what remains |
| BudgetedGet.OutcomeMatchesRecord | app/exchange/bybit_client.py:364-411 | the limiter hears OK or RATE_LIMIT iff telemetry recorded it, and TIMEOUT also for a body read too late |
| BudgetedGet.DeliveryIndependence | app/exchange/bybit_client.py:253-265 | a failure status means the same raised or returned iff it is neither 401 nor 403 |
| BudgetedReplies.PayloadIsAnAnswer | app/exchange/bybit_client.py:985-1004 | attempt k's payload is returned iff the call gets to that turn, sends in it, and the reply is a 2xx envelope of code zero without a denial or rate-limit phrase |
| BudgetedReplies.SendingTurnDecides | app/exchange/bybit_client.py:914-1013 | how a turn that sends leaves the call, by the reply's fields: an answer is returned, a refusal (401, 403, 10003 to 10005, the phrase) and other failures are raised, and only a timeout or a rate limit (429, 10006, the phrase) goes on, within budget and class cap |
| BudgetedReplies.SendingTurnTells | app/exchange/bybit_client.py:890-1033 | what such a turn records and reports, by the reply's fields, and exactly how long it waits |
| BudgetedReplies.SilentTurnEnds | app/exchange/bybit_client.py:700-902 | which error ends a call in a turn that does not send, in the order in which its causes are looked at |
| BudgetedReplies.SilentTurnGivesBack | app/exchange/bybit_client.py:840-902 | a grant that no send follows is reported NOT_SENT, or REVOKED when the permission was denied |
| PagedRange.GetKlinesRange | app/exchange/bybit_client.py:1189-1230 | the method with its interval checks and page loop equals the specified outcome |
| PagedRange.WindowsTile | app/exchange/bybit_client.py:1205-1226 | the windows follow each other without gap or overlap from start to end |
| PagedRange.LimitSuffices | app/exchange/bybit_client.py:1205-1207 | the limit is never smaller than the grid opens of the page |
| PagedRange.PageCount | app/exchange/bybit_client.py:1198-1207 | the number of requests a range needs, by division |
| PagedRange.FailClosed | app/exchange/bybit_client.py:1198-1216 | candles are returned iff the pages fit the bound and every one was answered with rows |
| PagedRange.RangeIsOrderly | app/exchange/bybit_client.py:1217-1230 | whatever the source answers: unique, ascending, inside the range, on the grid |
| PagedRange.PagedEqualsOneShot | app/exchange/bybit_client.py:1189-1252 | over a source of newest rows the result is the one-shot candles of the range, or the page-bound error iff the bound is too small |
| PagedRange.PagedCandlesAreRows | app/exchange/bybit_client.py:1189-1252 | then a candle is returned iff the exchange holds a row for its open time in the range whose first five cells are its values in order, all finite |
| PagedRange.RowGivesCandle | app/exchange/bybit_client.py:1233-1252 | a row gives a candle iff its open time is on the grid and not negative and its first five cells are the candle's values, finite |
| PagedRange.IntervalIsChecked | app/exchange/bybit_client.py:1179-1190 | anything but 1 to 1440 minutes is rejected, and an empty range gives no candles |
| NewestRows.ServeIsHonest | app/exchange/bybit_client.py:1167-1174 | serving the newest rows of a window meets the assumption made on the source of pages and on the exchange of candle batches, whatever is held there |
| Spans.MergeSpans | app/analytics/candle_ranges.py:137-169 | the merge loop keeps every instant and is canonical on proper spans |
| Spans.MergedIsTheCanonicalForm | app/analytics/candle_sync.py:478-503 | the merged list is the only canonical list with these instants |
| Spans.MergedDependsOnPoints | app/analytics/candle_ranges.py:137-169 | two inputs merge alike iff they cover the same instants: order, repetition and cuts do not matter |
| Spans.MergedIdempotent | app/analytics/candle_sync.py:450-476 | merging a merged list changes nothing |
| Spans.MergedCanonicalIff | app/analytics/candle_sync.py:450-476 | with empty spans the result is canonical iff every empty one touches one that is not |
| CandleRanges.ExtractGaps | app/analytics/candle_ranges.py:171-221 | the nested loops give the canonical form of what is both required and missing |
| CandleRanges.ExtractedOfMerged | app/analytics/candle_ranges.py:191-221 | merging the required ranges first changes nothing |
| CandleRanges.EstimateCoversTheGap | app/analytics/candle_ranges.py:296-303 | the estimate covers the candles of a gap, both ends included, is exact for a gap that starts on the grid, and rounds towards zero |
| CandleRanges.SplitGapsForApi | app/analytics/candle_ranges.py:253-300 | the batches join to the input, exceed the limit only as singletons, and are opened only when the one before has no room |
| CandleRanges.SplitIsFewest | app/analytics/candle_ranges.py:267-286 | no other way of cutting the list into fitting batches has fewer |
| CandleSync.FetchCandles | app/analytics/candle_sync.py:133-199 | the loop keeps the passing candles of each answered batch and lists each failed one |
| CandleSync.BatchesTile | app/analytics/candle_sync.py:155-165 | the batches follow each other from start to clamped end, none longer than eight hours |
| CandleSync.FetchedOrFailed | app/analytics/candle_sync.py:166-199 | every instant of the range is in exactly one of the fetched and the failed batches |
| CandleSync.NothingAfterCutoff | app/analytics/candle_sync.py:271-300 | every stored candle is valid and closes, its open time plus its length, by the cutoff |
| CandleSync.CandleLength | app/analytics/candle_sync.py:55-65 | a numeric timeframe has its own number of minutes iff it is one of the exchange's intervals or five; days, weeks and months have their lengths |
| CandleSync.RequestLimitSuffices | app/analytics/candle_sync.py:246-249 | the limit of a request covers the grid of its batch iff that grid has at most 200 instants, whose number is given by division |
| CandleSync.FullBatchFits | app/analytics/candle_sync.py:246-249 | an eight-hour batch is asked for completely iff candles are of three minutes or more |
| CandleSync.NamedTimeframesFail | app/analytics/candle_sync.py:246-249 | for D, W and M every batch is listed as failed and nothing is stored |
| CandleSync.Reconcile | app/analytics/candle_sync.py:366-448 | merging, coverage, coalescing, fetching and the running totals give the specified report |
| CandleSync.TotalsAddUp | app/analytics/candle_sync.py:405-440 | inserted, updated and rejected each add up over the gaps, and a gap without candles adds nothing |
| CandleSync.ReconcileAccounts | app/analytics/candle_sync.py:389-448 | an instant reported missing before the cutoff is either in an answered batch or listed as failed, and none is asked for twice |
| CandleHistory.GapIsComplete | app/analytics/candle_sync.py:133-177 | over an exchange that answers with its newest candles, a gap stores exactly the valid candles that open in it or at its end and whose open time plus number of minutes is by the cutoff, from three-minute candles on |
| CandleHistory.ReconcileIsComplete | app/analytics/candle_sync.py:389-448 | then nothing fails, and every valid candle that opens at an instant reported missing and whose open time plus number of minutes is by the cutoff is stored |
| CandleSync.AlignIsRemainder | app/analytics/candle_sync.py:68-101 | hours and minutes of the day give the remainder of the whole time |
| CandleSync.AlignIsGreatest | app/analytics/candle_sync.py:68-101 | the result is the last grid instant not after the time, so aligning again changes nothing |
| Telemetry.Sanitize | app/exchange/api_telemetry.py:97-121 | the loop's output is the escaped text and is read back as the value |
| Telemetry.HexSpelling | app/exchange/api_telemetry.py:97-121 | control characters spelled out in two lower-case hexadecimal digits |
| Telemetry.UnescapeEscaped | app/exchange/api_telemetry.py:97-121 | every string is recovered from its escaped form, with or without escaped spaces |
| Telemetry.EscapedIsClean | app/exchange/api_telemetry.py:97-121 | no output holds an ASCII control character or '=', nor a space when spaces are escaped |
| Telemetry.PlainTextIsKept | app/exchange/api_telemetry.py:97-121 | a value is printed unchanged iff nothing in it needs an escape |
| Telemetry.LateControlsPass | app/exchange/api_telemetry.py:97-121 | the output is free of all control characters iff the value has none of U+0080 to U+009F |
| Telemetry.LineIsReadable | app/exchange/api_telemetry.py:597-651 | every line splits back into its fields although the message may hold spaces |
| Telemetry.LinesAgree | app/exchange/api_telemetry.py:369-380 | two attempts print the same line iff they agree on all a line shows |
| TelemetryReader.LineTellsTheRecord | app/exchange/api_telemetry.py:597-651 | every entry of the record is read back from the line under its own key, with the escapes undone |
| TelemetryReader.OnlyTheMessageHasSpaces | app/exchange/api_telemetry.py:97-121 | every value but the message is a single word, and a message that needs no escape is printed as it is |
| Telemetry.OneLinePerCall | app/exchange/api_telemetry.py:597-651 | one line, no control characters, one '=' for each field and none inside a value |

## Left out

- Anomaly counters, logging, cycle summaries and per-key statistics: they change no decision.
- File locks, file modes, fsync, checksums and JSON text of the limiter's document: a commit is atomic, and a failure is either before or after the new file is visible.
- Loss of the limiter's document: recovery from a deleted file restarts epochs and numbers.
- Floating-point rounding: clocks, tokens and deadlines are reals, and a duration is rounded before it is printed.
- The wall and monotonic clocks are read once in each transaction, and a transaction's liveness answers do not change while it runs.
- The configuration fingerprint, the disabled mode, `snapshot` and `grant_outcome`: reads and one-branch checks.
- Sleeping between polls, wait hints, the deadline arithmetic of waiting and the cap on loop turns: a waiter polls at any time, and may leave at any time.
- `record_result`'s own retry loop is any number of reports in a run, with other processes' steps in between.
- Request ids are numbers, because hexadecimal text of one width sorts like them.
- `int()` accepts signs, spaces and underscores; the texts of ids and timeframes are digits only.
- Records without process id or boot id, written by older versions.
- BudgetedGet.BudgetedGet: the retry storm guard, the breaker gate, the process-local limiter and the backoff are answers of the environment; so is the shared limiter.
- BudgetedGet.AttemptOnce: headers, signatures and message texts; two flags say whether the message holds a denial or a rate-limit phrase.
- PagedRange.GetKlinesRange: the interval arrives as a parsed integer or as none, and a source answers a window without regard to when it is asked.
- Spans.MergedCanonicalIff: spans that end before they start are kept as they are by the merge, depending on the order of equal starts; only keeping of instants is stated for them.
- CandleRanges.SplitIsFewest: gaps that end before they start have estimates that are not positive, for which fewer batches may exist.
- Spans: instrument and timeframe of a range, which a merged range takes from its first part; every call merges ranges of one instrument.
- CandleSync.Reconcile: database and exchange are functions, and an exception of the coverage query ends the call.
- CandleHistory.ReconcileIsComplete: a request's ends are instants and not truncated to milliseconds, and the timeframe is one of the exchange's own minute intervals.
- CandleSync.AlignToGrid: weekly and monthly candles are aligned to midnight, as the code does, not to the exchange's week or month.
- Telemetry.Line: the record arrives complete; service detection by caller path and response headers are not modelled.
- Order submission and its journal, `create_order`, HTTP transport and signing.
- SQL, repositories, the runners, settings, scripts, back-testing and the one-shot readers.
