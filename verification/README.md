# Verification of the investor engine

A Dafny model of the parts of the repository in which orders, money and stored state move,
with proofs of what those parts are meant to guarantee. `dafny verify dfyconfig.toml` checks
all of it.

**Order lifecycle.** `Trading`, `Broker`, `AutoTrade`, `Ledger`, `Storage` and `Reconciliation` hold the
entities and the steps: accept and reject, the auto-trade pass with its guards, kill switch,
re-adoption and read-back, un-accept, the expiry sweep, polling of closed orders, inferred
cancels, bulk cancel and weekly reset, target reload, storing drafts, matching and storing
fills. Each step is a function from state to state. The class `TradingDesk.Desk` runs the
same steps as the code does, in loops over mutable suggestions, rows, modes and broker world,
and each of its methods ensures that it computes that function. The broker is a second party:
whatever it decides (what fills or closes between two calls, which call raises and whether it
raises after accepting, what it echoes, what it lists) is read from a script of ticks, so a
theorem for every script is a theorem for every broker. Theorems about single passes and about
arbitrary runs are in `Consistency`, `PassSafety`, `Rollback`, `Runs`, `Submissions`,
`Outcomes`, `DryRunErasure`, `CapSafety`, `Lifecycle`, `Replay` and `Fifo`; what each guard and
step does to every suggestion and row, said over the stored fields alone, is in `GuardFacts`,
`LedgerFacts` and `ReconciliationFacts`. `OrderIds` is the printer and parser of client order ids.

**Sizing and review of the week's drafts.** `Levels` and `Sizing` choose anchors and size
orders and top-ups under the cash budget, `Review` adjusts drafts, re-keys rationales and
applies the critic's verdicts. Whatever the language model returns (multipliers, preferred
anchors, rationales, verdicts, changes) is an arbitrary argument. Theorems are in
`SizingFacts` and `ReviewFacts`.

**Smaller machines.** `Movers` is the tiered mover alert with its weekly reset and the
deduplication of stored news; `Versioned` holds the two close-and-insert tables.

Money, prices and share counts are `real`; rounding to cents, truncation and floors are
modelled exactly on them. Times are seconds since 1970 in UTC. Lists of rows and suggestions
are in id order, and suggestion ids start at 1.

Where the code does less than its comments promise, the model follows the code; a lemma gives
a case, and another says exactly when the promise holds:

- Re-adoption can take a live pass over the day cap, after a lawful run
  (`CapSafety.ReadoptionCanPassDayCap`); a pass meets it exactly when every row it takes back is
  counted today already or its own worth still fits (`PassMeetsDayCapIff`). Only the day cap can
  be passed: a row taken back is of the current week, so the week's cap on the ticker, the order
  count and the per-order cap hold whatever is taken back (`TakenBackThisWeek`, `PassWithinCaps`).
- Storing the same fills again can change realised profit (`Replay.ReplayOutOfOrderDiffers`);
  it changes nothing exactly when every stored sell carries the profit the stored rows give
  (`ReplayIsIdleIff`), as it does when buys come before the sells they fund or are stored
  already (`ReplayInOrderIsIdle`).
- The critic can move a buy above the market (`ReviewFacts.CriticCanCrossTheMarket`); the
  finals are all passive exactly when every verdict meets a condition on the named level or
  the requested price (`RevisedIsPassiveIff`, `FinalsArePassiveIff`, `ReviewIsPassiveIff`).
- A pass an exception escapes from forgets the orders it placed (`Rollback.EscapeForgetsAnOrder`,
  `EscapedPassForgets`). One escapes exactly when a cancel that the guards ask for, or the reading
  of the buying power, raises (`PassEscapesIff`). The kill switch cancels recorded orders only,
  and so leaves the order of the failed submission without a row, but no other
  (`PassSafety.PassIsSafe`). At the suggestion's next submission the same id is asked for, and the
  open order is found and recorded, not duplicated (`ForgottenOrderIsRecovered`,
  `Runs.StrandedOrderIsRecovered`).
- A row records the terms the suggestion has when it is written. They are the order's own exactly
  when the order is new or was submitted for the same terms (`Rollback.RecordedTermsIff`).
- Un-accept can answer "cancelled" while an order of the suggestion works on: when the calls raise
  (`Outcomes.UnacceptCanMissTheOrder`), and, with no call raising, when the newest placed row is
  that of another order (`UnacceptCanAskForAnother`). After un-accept the suggestion has a recorded
  working order exactly when a row claims one that is open at the last look, unacknowledged, and
  either is not the newest row's or its cancel raised (`UnacceptStopsOrderIff`). After expiry the
  same holds of the row the query returned; the attempt also misses an order of another account
  than the adapter's, and without an adapter there is none (`ExpiryStopsOrderIff`).
- The id parser accepts a trailing newline (`OrderIds.ParserMeetsGrammar`).
- A gap row under its band with no positive gap is dropped without being listed as skipped
  (`SizingFacts.EveryRowIsAccounted`); with bands that bracket their targets there is none, and
  every ticker is answered once (`EveryTickerIsAnswered`).

## Model

| member | source | states |
|---|---|---|
| OrderIds.ParserMeetsGrammar | src/investor/services/reconciliation.py:23-29 | the parser returns n exactly for strings of the grammar "sug-" digits, optionally "-r" digits, optionally a final newline, whose digits denote n |
| OrderIds.GrammarParses | src/investor/services/reconciliation.py:23-29 | every string of that grammar parses, to the value of its digits |
| OrderIds.ParsePrint | src/investor/services/auto_trade.py:67-81 | parsing a printed id gives back the suggestion, for every suggestion and retry count |
| OrderIds.PrintInjective | src/investor/services/auto_trade.py:67-81 | two printed ids are equal only for the same suggestion and the same retry count |
| AutoTrade.FetchIsEligible | src/investor/services/auto_trade.py:115-152 | the ids fetched are exactly those of this week's accepted suggestions of the account whose real rows, if any, are all cancelled |
| TradingDesk.Desk.FetchAcceptedUnexecuted | src/investor/services/auto_trade.py:115-152 | the query loop returns exactly the eligible ids in order |
| TradingDesk.Desk.CheckStaleLiveOrder | src/investor/services/auto_trade.py:174-243 | clears or refuses on rows that still claim the ticker, asking and cancelling at the broker in row order, with the error paths of both calls |
| TradingDesk.Desk.CheckGuards | src/investor/services/auto_trade.py:155-351 | the guards in their order, each with its refusal, and the broker calls they make |
| GuardFacts.WhatIsLetThrough | src/investor/services/auto_trade.py:155-351 | a suggestion let through has no uncancelled row, its share is claimed by no other suggestion, a buy has no real loss sale of the share in the thirty days before, the order is within all four caps, and for a buy the broker last named a buying power of at least its worth |
| GuardFacts.WhatIsRefused | src/investor/services/auto_trade.py:155-351 | every refusal has its cause, said over the fields of the rows, the caps and the broker's answer |
| GuardFacts.EarlierGuardsPassed | src/investor/services/auto_trade.py:486-500 | the guards come in their order: a refusal also means that all the earlier guards had nothing against the order |
| GuardFacts.PowerIsReadLast | src/investor/services/auto_trade.py:341-351 | the buying power is read only for a buy the other guards have nothing against, and last |
| GuardFacts.RefusalIsReported | src/investor/services/auto_trade.py:490-511 | a refusal is reported with its reason and the side the pass works on, and the pass goes on |
| GuardFacts.CapsAreChecked | src/investor/services/auto_trade.py:272-338 | the caps check passes exactly within all four caps, summed over the account's rows of that side that were not rejected, of the day and, for the share, of the week |
| GuardFacts.OnlyClaimsAreCleared | src/investor/services/auto_trade.py:174-243 | the stale check marks at most rows by which other suggestions claim the share, and leaves none when it lets the suggestion through |
| TradingDesk.Desk.TriggerKillSwitch | src/investor/services/auto_trade.py:354-408 | mode OFF for the account and one cancel attempt per recently placed open row; row statuses untouched |
| GuardFacts.KillAsksForTheRecent | src/investor/services/auto_trade.py:354-408 | the account alone is turned off, and the calls made are one cancel for each order the engine placed for it within a day and still has open, in row order |
| TradingDesk.Desk.SubmitAndVerify | src/investor/services/auto_trade.py:591-710 | submission under the next retry id, read-back, and either a recorded row, a refusal, or the kill switch |
| TradingDesk.Desk.PlaceOrReadopt | src/investor/services/auto_trade.py:535-710 | a cancelled order still live at the broker is taken back, anything else is submitted afresh |
| GuardFacts.SubmissionIsJudged | src/investor/services/auto_trade.py:591-710 | the present terms are submitted under the id that counts the cancelled rows; each answer of the broker leads to its outcome: a refusal the pass goes on from, the kill switch with its reason, or the row |
| GuardFacts.NewestIsReRead | src/investor/services/auto_trade.py:535-590 | the newest cancelled row with an order decides: open again it is claimed and dated now, otherwise the suggestion is submitted |
| GuardFacts.SimulationIsRecorded | src/investor/services/auto_trade.py:512-533 | a simulated placement only adds its row, with the suggestion's terms and no order |
| TradingDesk.Desk.RunAutoTradePass | src/investor/services/auto_trade.py:428-730 | the whole pass, its outcomes, its early stop, and the rollback when an exception escapes |
| PassSafety.NextIdIsFresh | src/investor/services/auto_trade.py:67-81 | counting cancelled rows yields an id that no real row of any suggestion carries |
| PassSafety.GuardsKeep | src/investor/services/auto_trade.py:155-351 | the guards keep the ledger a sound view of the broker, and when they let a suggestion through its ticker is free of other claims |
| PassSafety.SubmitFreshKeeps | src/investor/services/auto_trade.py:591-710 | a submission keeps the view sound; it leaves an accepted order without a row only by stopping the pass with mode OFF |
| PassSafety.ProcessKeeps | src/investor/services/auto_trade.py:486-730 | the same for one whole turn of the pass, in both modes |
| PassSafety.PassIsSafe | src/investor/services/auto_trade.py:428-730 | no lost order: if the mode survives, every suggestion has its outcome and every engine order accepted has a row; otherwise this account and no other is OFF; when it stopped, at most one accepted order has no row: a new order of this account for the last outcome's suggestion, whose submission failed, under the id the next submission asks for; outcomes are one per processed suggestion, in order |
| Rollback.EscapedPassForgets | src/investor/services/auto_trade.py:217-243 | a pass an exception escapes from keeps the view sound apart from the orders it placed, which no row names and which still carry the next id of their suggestion, whose real rows are all cancelled |
| Rollback.EscapeForgetsAnOrder | src/investor/services/auto_trade.py:341-351 | a pass that places and records a sell and then escapes: mode LIVE, the order working, no row |
| Rollback.GuardsEscapeIff | src/investor/services/auto_trade.py:208-351 | the guards let an exception escape exactly when a cancel or the reading of the buying power among their calls raises; a reading of an order that raises never escapes |
| Rollback.PassEscapesIff | src/investor/services/auto_trade.py:486-730 | an exception escapes from a pass exactly when it gets to a turn whose guards make such a call |
| Rollback.ForgottenOrderIsRecovered | src/investor/services/auto_trade.py:591-710 | the suggestion's next submission asks for the same id, is handed the open order and records it; no other order is created; the row shows the order's terms exactly when the suggestion's are still the same |
| Rollback.RecordedTermsIff | src/investor/services/auto_trade.py:591-710 | a recorded row shows its order's ticker, side, quantity and limit exactly when the order is new or was submitted for the present terms; an order handed over is one no row names |
| Rollback.PassFromGrows | src/investor/services/auto_trade.py:428-730 | during any pass old orders only close or get cancelled, and every new engine order carries an id that is right for the rows before the pass |
| Consistency.OneWorkingOrder | src/investor/services/auto_trade.py:174-243 | in a sound state two recorded working orders of one account and ticker are the same order, and it has its open row |
| Consistency.SettleKeeps | src/investor/services/orders.py:27-55 | a row may leave accepted_for_routing once its order is closed or its cancel acknowledged |
| Consistency.ReadoptKeeps | src/investor/services/auto_trade.py:556-584 | a cancelled row whose order is live may be opened again when nothing else claims the ticker |
| Runs.CancelWorkingKeeps | src/investor/services/orders.py:27-55 | re-reading and cancelling an order keeps the view sound on every outcome |
| Runs.UnacceptKeeps | src/investor/services/unaccept.py:29-61 | un-accept keeps the view sound |
| Runs.SweepAcceptedKeeps | src/investor/jobs/suggestion_expiry.py:45-95 | the expiry sweep keeps the view sound |
| Runs.SyncKeeps | src/investor/services/reconciliation.py:245-296 | polling closed orders keeps the view sound |
| Runs.ReconcileKeeps | src/investor/services/reconciliation.py:137-200 | storing true activities keeps the view sound |
| Runs.CancelAllFromKeeps | src/investor/main.py:1375-1404 | bulk cancel keeps the view sound |
| Runs.ResetFromKeeps | src/investor/main.py:1459-1509 | the weekly reset keeps the view sound |
| Runs.DropFromKeeps | src/investor/services/targets.py:121-165 | expiring suggestions of removed tickers keeps the view sound |
| Runs.FinalizeKeeps | src/investor/graphs/suggestion_review.py:819-836 | storing reviewed drafts keeps the view sound |
| Runs.StepKeeps | src/investor/services/auto_trade.py:428-730 | every step of the system keeps the view sound |
| Runs.RunKeeps | src/investor/services/auto_trade.py:428-730 | over every lawful run each recorded working engine order has a real row in accepted_for_routing, no account and ticker has two such rows, and the row of an open order is no older than its suggestion's week |
| Runs.AtMostOneWorkingOrder | src/investor/services/auto_trade.py:174-243 | from an empty ledger on, of two distinct working engine orders of one account and ticker one was left without a row by a step of the run: by the submission that fired the kill switch, or by a pass an exception escaped from |
| Runs.OnlyKilledOrdersAreExtra | src/investor/services/auto_trade.py:174-243 | in a run no exception escapes from, one of the two is the order whose submission fired the kill switch |
| Runs.OneRecordedWorkingOrder | src/investor/services/auto_trade.py:174-243 | two recorded ones are the same order, and it has its open row |
| Runs.EveryOrderIsAccounted | src/investor/services/auto_trade.py:663-710 | every engine order ever accepted in a run has a row naming it, and a working one a row claiming it, unless a step left it without one in one of these two ways |
| Runs.StrandedOrderIsRecovered | src/investor/services/auto_trade.py:591-710 | an order left without a row in either way is the one that the next submission asks for after a promotion, is handed and records |
| Runs.NoOrderIsLost | src/investor/services/auto_trade.py:663-710 | if every pass runs to its end, every engine order ever accepted has a row naming it and every working one a row claiming it |
| Submissions.BeforeIsOnThePass | src/investor/services/auto_trade.py:486-730 | the pass goes on from the state before its j-th turn, with one outcome per turn so far |
| Submissions.PassSubmissionsAreFresh | src/investor/services/auto_trade.py:67-81 | every submission in a pass's call history is made at a turn of a live pass past the guards, under an id no real row of any suggestion carries at that moment |
| Submissions.SubmissionsAreFresh | src/investor/services/auto_trade.py:67-81 | so is every submission in the call history of every lawful run, and nothing but passes submits |
| Runs.OffSticks | src/investor/services/auto_trade.py:460-466 | once OFF, an account stays OFF and submits nothing over any run until a promotion |
| DryRunErasure.LivePassIgnoresSimulations | src/investor/services/auto_trade.py:428-730 | a live pass on a ledger and on the same ledger without its dry-run rows has the same outcomes, calls, modes and real rows |
| DryRunErasure.GuardsErased | src/investor/services/auto_trade.py:155-351 | every guard of a live turn decides the same with the dry-run rows erased |
| DryRunErasure.DryRunPassTouchesNothing | src/investor/services/auto_trade.py:512-533 | a dry-run pass reads only the account, submits and cancels nothing, and leaves suggestions, modes and real rows as they were |
| CapSafety.PassWithinCaps | src/investor/services/auto_trade.py:272-338 | at every turn of a pass and at its end each ticker's week spend and the order count are at most the larger of their start and their cap, and every new row is within the per-order cap |
| CapSafety.TakenBackThisWeek | src/investor/services/auto_trade.py:556-584 | a row taken back is one of this account dated in the current week |
| CapSafety.PassMeetsDayCapIff | src/investor/services/auto_trade.py:272-338 | the day's spend ends a pass that returns at most at the larger of its start and the cap exactly when every row taken back is counted today already or its own worth still fits |
| CapSafety.PassWithinDayCap | src/investor/services/auto_trade.py:272-338 | so it does, at every turn and at the end, if no placed row is worth more than its suggestion asks for now |
| CapSafety.ReadoptionMeetsDayCapIff | src/investor/services/auto_trade.py:556-584 | after re-adoption the day cap holds exactly when the row was counted already or its own worth still fits |
| CapSafety.ReadoptionMeetsTickerCapIff | src/investor/services/auto_trade.py:556-584 | the same for the week's cap on the ticker, for a row of any age |
| CapSafety.ReadoptionCanPassDayCap | src/investor/services/auto_trade.py:556-584 | after a lawful Monday of placing, resetting and re-sizing, a live pass with nothing spent today takes the order back and ends over the day cap |
| Ledger.CancelWorking | src/investor/services/orders.py:27-55 | no row but the given one changes, and that one only by being marked cancelled, always when the answer is cancelled, never when it is partial or filled; nothing is submitted |
| LedgerFacts.CancelAnswersMean | src/investor/services/orders.py:27-68 | filled and partly filled are what the reading says; the row is marked when the reading says closed unfilled or the cancel returned; no cancel is asked for a closed order |
| Outcomes.CancelStopsOrderIff | src/investor/services/orders.py:27-68 | after a cancel attempt any engine order works exactly when the broker's script has it open at the attempt's last look, none of its cancels was acknowledged before, and it is not the order asked for or the cancel does not get through; never when the answer is cancelled or already filled |
| Outcomes.CancelStopsSuggestionIff | src/investor/services/orders.py:27-68 | a suggestion has a recorded working order after a cancel attempt exactly when one of its rows claims an order that outlives it |
| Outcomes.UnacceptStopsOrderIff | src/investor/services/unaccept.py:29-61 | the same after un-accept, whose attempt is for the newest placed row; without a placed row the suggestion has no working order |
| Outcomes.UnacceptCanAskForAnother | src/investor/services/unaccept.py:38-61 | with no call raising, after reconciliation matched a cancelled hand trade to the suggestion, un-accept answers cancelled and the engine's order works on |
| Outcomes.UnacceptCanMissTheOrder | src/investor/services/unaccept.py:45-61 | with every broker call raising, un-accept answers cancelled and the broker's book is unchanged |
| Outcomes.ExpiryStopsOrderIff | src/investor/jobs/suggestion_expiry.py:62-84 | the suggestion expires either way; it has a recorded working order afterwards exactly when it had one and there is no adapter, or the attempt for whichever row the query returned misses one |
| Outcomes.KillCancelsRecent | src/investor/services/auto_trade.py:374-398 | the kill switch asks for the cancel of every recently placed open row |
| Outcomes.KillCancelsOnlyRecent | src/investor/services/auto_trade.py:374-398 | and for nothing else |
| TradingDesk.Desk.UnacceptSuggestion | src/investor/services/unaccept.py:29-61 | the newest placed row decides; a filled order leaves the suggestion alone |
| LedgerFacts.UnacceptAnswers | src/investor/services/unaccept.py:29-61 | each answer means what it says of the newest placed row; a filled order leaves the suggestion accepted, any other makes it cancelled and stamped, and nothing else of it changes |
| TradingDesk.Desk.SweepExpiredSuggestions | src/investor/jobs/suggestion_expiry.py:24-104 | stale accepted suggestions expire after one cancel attempt for whichever placed row the database returns, then stale pending ones |
| LedgerFacts.SweepExpiresTheOverdue | src/investor/jobs/suggestion_expiry.py:40-104 | exactly the accepted and pending suggestions in scope whose deadline has passed are expired and stamped |
| TradingDesk.Desk.CancelAllOrders | src/investor/main.py:1375-1404 | one cancel attempt per open or cancelled placed row in scope, a row is marked only when the call returns |
| LedgerFacts.BulkCancelAsksForAll | src/investor/main.py:1375-1404 | the calls made are one cancel for each real placed row in scope that is open or was marked cancelled, in row order, and no other row is marked |
| TradingDesk.Desk.ResetWeekSuggestions | src/investor/main.py:1445-1509 | accepted suggestions of the week without a fill go back to pending after their orders are cancelled |
| TradingDesk.Desk.CancelOrdersOfSuggestion | src/investor/main.py:1478-1505 | one cancel attempt per placed row of the suggestion, open or cancelled |
| LedgerFacts.ResetReopensTheUnfilled | src/investor/main.py:1445-1509 | exactly the accepted suggestions of the week in scope and on the side, without a fill, go back to pending unstamped, after one cancel call for each of their placed rows |
| LedgerFacts.WeeksStartOnMondays | src/investor/services/suggest.py:76-86 | weeks start on Mondays: the current one on the last, the reset's on the only one at most two days past and four ahead |
| TradingDesk.Desk.ExpireRemovedTickers | src/investor/services/targets.py:117-165 | this week's accepted suggestions of removed tickers expire and their open orders are cancelled |
| TradingDesk.Desk.CancelOpenOrdersOf | src/investor/services/targets.py:140-165 | one cancel attempt per open row of the suggestion |
| LedgerFacts.ReloadExpiresTheRemoved | src/investor/services/targets.py:117-165 | exactly this week's accepted suggestions of removed tickers expire and are stamped, after one cancel call for each of their open rows |
| TradingDesk.Desk.SyncOpenOrderStatuses | src/investor/services/reconciliation.py:245-296 | open rows whose orders closed unfilled are marked cancelled with the time |
| LedgerFacts.PollingMarksTheUnfilled | src/investor/services/reconciliation.py:245-296 | exactly the open real rows whose orders are listed as canceled, expired, rejected, done for the day or replaced are marked with the time; none when the call raises |
| TradingDesk.Desk.InferCancels | src/investor/services/reconciliation.py:299-345 | accepted suggestions whose newest row was cancelled before the cutoff, and that have no open row, become cancelled |
| LedgerFacts.InferenceCancelsTheLongCancelled | src/investor/services/reconciliation.py:299-345 | exactly the account's accepted suggestions become cancelled whose newest real row was marked cancelled more than the given hours ago and that have no open row |
| TradingDesk.Desk.PatchSuggestion | src/investor/main.py:605-623 | a pending suggestion is decided and stamped; anything else is refused and unchanged |
| LedgerFacts.DecisionIsStored | src/investor/main.py:605-623 | a pending suggestion becomes accepted or rejected as asked and stamped, and no other changes |
| Lifecycle.StepMoves | src/investor/main.py:612-619 | every step moves every suggestion along permitted transitions only, keeps the terms of decided ones, and stamps acted_at exactly on leaving pending |
| Lifecycle.RunKeepsTerminal | src/investor/services/reconciliation.py:196-200 | over any run filled, expired, rejected and cancelled suggestions never change again, and stamps stay right |
| Lifecycle.RunKeepsSlots | src/investor/services/suggest.py:463-513 | over any run one suggestion per account, week, ticker and side |
| Reconciliation.MatchIsClosest | src/investor/services/reconciliation.py:76-134 | without an engine id the closest candidate is matched, automatically exactly when it is the only one, and untracked when there is none |
| ReconciliationFacts.MatchIsClosestFill | src/investor/services/reconciliation.py:76-134 | the same over the fields: same account, share and side, filled within two days, price within half a percent of the limit, closest in quantity and price together |
| ReconciliationFacts.EngineIdDecides | src/investor/services/reconciliation.py:60-75 | an id of the printed grammar, and only such, matches its suggestion automatically |
| ReconciliationFacts.EveryTimedIsMatched | src/investor/services/reconciliation.py:45-134 | the results are the matches of exactly the activities with a fill time, each once, in order |
| TradingDesk.Desk.MatchActivity | src/investor/services/reconciliation.py:60-134 | the scan computes that match |
| TradingDesk.Desk.ReconcileActivities | src/investor/services/reconciliation.py:45-134 | one result per activity with a fill time, in order |
| TradingDesk.Desk.PersistFill | src/investor/services/reconciliation.py:147-192 | the fill goes over the order's own row, or a new row; a sell is priced on the rows as they then are |
| ReconciliationFacts.FillIsStored | src/investor/services/reconciliation.py:147-192 | the first real row of the account's order gets quantity, price, time and status of the fill and keeps the rest; without one a row is added with the activity's fields; no other row changes |
| TradingDesk.Desk.PersistReconciliation | src/investor/services/reconciliation.py:137-200 | all results stored in order, and accepted suggestions filled at most once |
| ReconciliationFacts.FillsFillSuggestions | src/investor/services/reconciliation.py:137-200 | exactly the accepted suggestions that some result matches automatically with a whole fill become filled, stamped with the time of the first such fill |
| ReconciliationFacts.EveryFillIsStored | src/investor/services/reconciliation.py:137-200 | after storing results of distinct orders every one is shown by a row of its order |
| TradingDesk.ComputeRealizedPnl | src/investor/services/reconciliation.py:205-242 | the lot loop computes proceeds minus first-in first-out cost, or nothing without earlier buys |
| Fifo.PriorBuysAreSorted | src/investor/services/reconciliation.py:207-222 | the lots are exactly the earlier buys of the ticker, oldest first |
| Fifo.FifoIsLineCost | src/investor/services/reconciliation.py:224-238 | the loop's cost is, lot by lot, the part of the lot that lies within the quantity sold on the time-ordered line of lots |
| Fifo.FifoIsShareByShare | src/investor/services/reconciliation.py:224-238 | for whole lots the cost is that of the first shares of the lots flattened one by one; what exceeds them costs nothing |
| Fifo.PnlIsProceedsMinusOldest | src/investor/services/reconciliation.py:205-242 | profit is proceeds minus that cost |
| Fifo.SellsDoNotConsume | src/investor/services/reconciliation.py:207-218 | earlier sells do not use lots up |
| Replay.ReplayReachesFixedPoint | src/investor/services/reconciliation.py:137-200 | storing the same results twice equals once except for realised profit, three times equals twice on everything |
| Replay.ReplayIsIdleIff | src/investor/services/reconciliation.py:137-200 | storing twice equals once exactly when every stored sell carries the profit the stored rows give |
| Replay.ReplayInOrderIsIdle | src/investor/services/reconciliation.py:137-200 | it does if every buy precedes the sells it funds or is stored already |
| Replay.StoredFillsComeFirst | src/investor/services/reconciliation.py:137-200 | fills that are all stored already, in whatever order, are such results |
| Replay.ReplayOutOfOrderDiffers | src/investor/services/reconciliation.py:137-200 | a sell stored before its buy changes its profit on the second replay |
| Levels.RoundingError | src/investor/services/suggest.py:96-113 | rounding to cents errs by at most half a cent, floor and ceiling by less than one, each to its own side |
| Levels.RoundedToCents | src/investor/services/suggest.py:96-113 | rounding ends on a whole cent, and on the even one halfway between two |
| Levels.TruncationIsTowardZero | src/investor/services/suggest.py:96-100 | truncation drops the fraction, toward zero |
| Levels.WholeShares | src/investor/services/suggest.py:96-100 | the share count is the largest the dollars pay for |
| Levels.NearestIsNearest | src/investor/services/levels.py:376-394 | the n nearest levels are of the right type and side, and none left out is nearer |
| Levels.SelectAnchorIsBest | src/investor/services/suggest.py:117-141 | the anchor is in reach, the most confident of the confident ones or else the closest; none exactly when nothing is in reach |
| Sizing.ChoicesAreLevels | src/investor/services/suggest.py:181-238 | a chosen anchor is a computed level on the passive side, in reach, and for buys not broken |
| Sizing.BuyRefusedOnlyWithoutSupport | src/investor/services/suggest.py:181-238 | a buy is refused exactly when no unbroken support is in reach |
| SizingFacts.ChoiceIsBest | src/investor/services/suggest.py:181-238 | the anchor is the most confident scored level of the side in reach, or the closest if none is confident enough; without one the closest nearby level of the side, and a refusal only when none of them is in reach |
| SizingFacts.RefusalsHaveCauses | src/investor/services/suggest.py:181-238 | each reason for refusing an anchor is true of the levels |
| Sizing.NearbyIsUsable | src/investor/services/levels.py:372-394 | nearby levels built from positive prices lie on their own side of the close, nearest first |
| Sizing.GenerateSuggestions | src/investor/services/suggest.py:241-442 | the loop with its running cash computes the orders and the skips |
| Sizing.GenerateTopupSuggestions | src/investor/services/suggest.py:544-653 | the top-up loop with its running cash |
| Sizing.ComposeWeek | src/investor/jobs/weekly_suggestions.py:273-284 | top-ups share what the regular buys leave at their limit prices |
| SizingFacts.OrdersAreTight | src/investor/services/suggest.py:271-440 | every regular order is the largest whole-share count within fraction times gap of one out-of-band row, at an anchor chosen for it |
| SizingFacts.EveryRowIsAccounted | src/investor/services/suggest.py:271-440 | orders and skips of a ticker are as many as its out-of-band rows exactly when no row falls through |
| SizingFacts.SkipsHaveCauses | src/investor/services/suggest.py:271-440 | each skip names its cause: no nearby levels, no anchor, no affordable share, or the largest affordable buy reaching into the cash floor |
| SizingFacts.GapCloses | src/investor/sql/gap_allocation.sql:18-36 | the gap closes the distance to the target in percent and in dollars, and the band status is what the holding is |
| SizingFacts.BracketedBandSign | src/investor/config.py:173 | a band that brackets its target fixes the sign of an out-of-band gap |
| SizingFacts.EveryTickerIsAnswered | src/investor/services/suggest.py:271-440 | with distinct tickers and bands that bracket their targets every out-of-band ticker gets exactly one order or skip, every other none |
| SizingFacts.RegularBuysFitCash | src/investor/services/suggest.py:307-335 | regular buys at anchor prices never reach into the cash floor |
| SizingFacts.FractionIsMonotone | src/investor/services/suggest.py:521-541 | more fear never gives a smaller fraction, and fractions lie between a quarter and one |
| SizingFacts.FractionOfReading | src/investor/services/suggest.py:521-541 | which readings give which fraction |
| SizingFacts.TopupQtyIsModest | src/investor/services/suggest.py:593-626 | a top-up costs at most its gap or one share, fits the cash and stays under the band ceiling |
| SizingFacts.TopupQtyIsLargest | src/investor/services/suggest.py:593-626 | a top-up is dropped exactly when not one share fits cash and ceiling; otherwise it is one share or at most the whole gap shares times fraction times confidence, and one share more would exceed that or not fit |
| SizingFacts.TopupStepIsLargest | src/investor/services/suggest.py:576-653 | a row gets a top-up exactly when it may have one, an anchor is chosen and one share fits, and then the largest |
| SizingFacts.EveryRowMayTopUp | src/investor/services/suggest.py:576-653 | rows are taken in order, each with the cash the earlier ones left, and none is left out; without equity there are no top-ups |
| SizingFacts.BuysAreTaken | src/investor/jobs/weekly_suggestions.py:273-284 | top-ups keep away from exactly the tickers of the regular buys |
| SizingFacts.TopupsAreLargest | src/investor/services/suggest.py:576-653 | every drafted top-up is the largest for its row from the cash left before it |
| SizingFacts.TopupsAreModest | src/investor/services/suggest.py:576-653 | so does every drafted top-up, and together they fit the cash above the floor |
| SizingFacts.LimitCostIsClose | src/investor/services/suggest.py:335 | limit prices move a total by at most half a cent per share |
| SizingFacts.WeekFitsCash | src/investor/jobs/weekly_suggestions.py:273-284 | regular buys at limit prices and top-ups at anchor prices together fit the cash above the floor, at limit prices up to half a cent per share |
| Review.DeeperAnchor | src/investor/graphs/suggestion_review.py:351-360 | the nearest level beyond the draft's limit, if there is one |
| Review.NewLevel | src/investor/graphs/suggestion_review.py:366-399 | a draft is moved only to a level of its ticker, deeper than its limit or on the passive side of a known close |
| Review.ContextAdjust | src/investor/graphs/suggestion_review.py:489-572 | dropping drafts and re-keying rationales by position equals letting each rationale ride on its draft |
| Review.ReviseDrafts | src/investor/graphs/suggestion_review.py:761-811 | the same for rejections and revisions, with the list of rejected drafts |
| Review.CriticRoute | src/investor/graphs/suggestion_review.py:691-705 | skipping revision when no verdict asks for a change gives what revision would, and every draft is kept or listed |
| Review.ReviewDrafts | src/investor/graphs/suggestion_review.py:844-913 | the three stages in order |
| ReviewFacts.EarningsComeFirst | src/investor/graphs/suggestion_review.py:520-541 | before earnings a draft goes to the nearest level beyond its limit, if there is one; only otherwise to a level of the preferred name, of the right kind, on the passive side of a known close and within 15% of it |
| ReviewFacts.ScaledWithinBounds | src/investor/graphs/suggestion_review.py:502-518 | the narrative scales an order within the configured bounds, earnings once more |
| ReviewFacts.QuantityIsMultiplied | src/investor/graphs/suggestion_review.py:502-518 | the quantity is multiplied by the narrative's multiplier, or the bound it lies beyond, and by the earnings factor, and cut to whole shares; a top-up passes as it is |
| ReviewFacts.LimitIsMoved | src/investor/graphs/suggestion_review.py:520-555 | limit and name stay unless there is a level to move to; then they are that level's, the price rounded to the cent away from the market |
| ReviewFacts.VerdictDecides | src/investor/graphs/suggestion_review.py:761-811 | only a rejection drops a draft; approved and unmentioned drafts stay as they are |
| ReviewFacts.RejectedAreListed | src/investor/graphs/suggestion_review.py:761-811 | the list of rejections is exactly the rejected drafts in order |
| ReviewFacts.RationalesAreGiven | src/investor/graphs/suggestion_review.py:844-913 | a written rationale, cut to 600 characters, replaces the old one unless every draft has one |
| ReviewFacts.LastIsCached | src/investor/jobs/weekly_suggestions.py:299-321 | the rationale cached for a share and side is the last stored one of that account and week |
| ReviewFacts.StartCarriesTheCached | src/investor/jobs/weekly_suggestions.py:299-321 | each draft enters the review with the rationale cached for its share and side |
| ReviewFacts.ChangesAreChecked | src/investor/graphs/suggestion_review.py:708-758 | changes are invalid exactly for an unknown name, a price no level is near, or less than a share; a name outranks a price |
| ReviewFacts.WeekIsDistinct | src/investor/services/suggest.py:579-583 | no two drafts of a week share ticker and side |
| ReviewFacts.ReviewKeepsPairs | src/investor/graphs/suggestion_review.py:489-572 | whatever is dropped, resized, moved or rejected, a rationale that fits its order's ticker and side still does |
| ReviewFacts.FinalsAreStored | src/investor/graphs/suggestion_review.py:819-836 | the returned ids are distinct and in step with the finals; a pending row holds its final and the final's rationale |
| Storage.DraftIsStored | src/investor/services/suggest.py:449-513 | a draft goes into the pending suggestion of its account, week, share and side, leaves a decided one alone, and is a new pending one otherwise |
| ReviewFacts.RationalesStayOnTheirOrders | src/investor/jobs/weekly_suggestions.py:299-321 | from stored rationales through cache, adjustment, critic and storing, every stored rationale fits its row |
| TradingDesk.Desk.PersistSuggestions | src/investor/services/suggest.py:449-513 | all drafts in order, with the id of each |
| TradingDesk.Desk.FinalizeReview | src/investor/graphs/suggestion_review.py:819-836 | drafts stored, then rationales given to pending rows by position |
| ReviewFacts.AdjustOneIsTight | src/investor/graphs/suggestion_review.py:535-555 | the adjusted quantity is the largest whole number within the factor, dropped exactly below one share; a moved limit is a level rounded to its passive side |
| ReviewFacts.NoInventedPrice | src/investor/graphs/suggestion_review.py:708-758 | whatever the language model returns, every final is for at least one share and limited within a cent of a computed level of its ticker |
| ReviewFacts.PassiveUntilTheCritic | src/investor/graphs/suggestion_review.py:525-541 | with the same closes at both stages no limit crosses the market by more than half a cent before the critic |
| ReviewFacts.RevisedIsPassiveIff | src/investor/graphs/suggestion_review.py:708-758 | a passive draft stays passive exactly when its verdict changes nothing, is refused, or moves the limit to the passive side |
| ReviewFacts.FinalsArePassiveIff | src/investor/graphs/suggestion_review.py:761-811 | the finals of passive drafts are all passive exactly when every verdict meets that condition |
| ReviewFacts.ReviewIsPassiveIff | src/investor/graphs/suggestion_review.py:489-811 | the same from the week's drafts to the finals |
| ReviewFacts.CriticCanCrossTheMarket | src/investor/graphs/suggestion_review.py:724-737 | a verdict that moves a passive buy above the close |
| Movers.Watch.Run | src/investor/jobs/movers.py:163-305 | one day's run: alerts, then resets, then recorded tiers |
| Movers.Decide | src/investor/jobs/movers.py:169-200 | the filter loop computes which tickers to alert at which tier and which to reset |
| Movers.EachMovesAlone | src/investor/jobs/movers.py:169-212 | every ticker moves on from its own state by its own move |
| Movers.EveryTickerGetsItsAlert | src/investor/jobs/movers.py:169-305 | a ticker is alerted exactly when its move calls for it: at 5 first and after a turn, else 5 above the last tier of this week; a move under 5 percent wipes out an alert that counts |
| Movers.TiersAreSound | src/investor/jobs/movers.py:297-305 | over any run a stored tier is a whole number of steps that the stored move reached |
| Movers.WeeklyAlertsClimb | src/investor/jobs/movers.py:184-200 | in a steady week from a fresh start the k-th alert is at k steps and at most the largest move |
| Movers.AlertsAreBounded | src/investor/jobs/movers.py:169-212 | so over days of many tickers, a steady ticker is alerted at most once per step of its largest move |
| Movers.BuildNewsEvents | src/investor/jobs/movers.py:85-128 | the set-based loop stores exactly the first storable occurrence of each new article |
| Movers.EventsAreUnique | src/investor/jobs/movers.py:95-101 | no article is stored twice or again, and every storable new one is stored |
| Movers.FirstTickerClaims | src/investor/jobs/movers.py:85-128 | an event is stored under the first ticker its article is found under, with that ticker's triage |
| Versioned.AccountTable.WriteBrokerAccount | src/investor/services/snapshot.py:96-151 | the latest open row is touched or closed and followed by a new one |
| Versioned.SnapshotIsWritten | src/investor/services/snapshot.py:96-151 | within a cent of the open row synced last only that row's time is renewed; otherwise it is closed and a row with the snapshot's figures added under its identity |
| Versioned.RowsTileTime | src/investor/services/snapshot.py:109-147 | over snapshots in order of time, an account's rows follow one another without gap or overlap under one identity, whatever broker and mode come with later snapshots |
| Versioned.OneRowInForce | src/investor/services/snapshot.py:109-147 | from an account's first row on, exactly one row is in force at any time |
| Versioned.WriteKeepsThePast | src/investor/services/snapshot.py:118-147 | a snapshot changes nothing that was in force before it and leaves an open row within a cent of it in cash and equity |
| Versioned.MaxShift | src/investor/services/targets.py:104-107 | the largest absolute shift is reached and not exceeded |
| Versioned.TargetTable.LoadTargets | src/investor/services/targets.py:68-117 | rows, hash and audit entry of a load; nothing when the hash is unchanged |
| Versioned.LoadInstalls | src/investor/services/targets.py:68-101 | a load makes the account's open rows its configuration, leaves other accounts alone, and is idempotent |
| Versioned.LastLoadIsInForce | src/investor/services/targets.py:68-101 | over any run of loads the open rows are the last loaded configuration |
| Versioned.LoadKeepsThePast | src/investor/services/targets.py:75-99 | a load rewrites no terms and changes nothing in force before it |
| Versioned.ShiftsExplain | src/investor/services/targets.py:25-27 | the recorded shifts turn the old percentages into the new ones, over exactly the union of tickers |

## Left out

- Steps are atomic: sessions, locks and interleaving inside a step are not modelled. A pass that an exception escapes from is rolled back as a whole, as its session is.
- One clock reading per step; the code reads the clock several times within one.
- Brokers: order ids are unique across accounts, a cancel call that returns is an acknowledgement, a client id is never accepted twice for one account, and orders are not replaced by the broker under a new id. Activities handed to reconciliation are of closed orders and carry the order's own client id.
- CapSafety.PassWithinDayCap: assumes that cancelled rows are worth no more than their suggestion asks for now; CapSafety.PassMeetsDayCapIff says exactly when the day cap holds without that.
- CapSafety.PassMeetsDayCapIff: quantities and limits are assumed not to be negative, as sizing makes them.
- Rollback.ForgottenOrderIsRecovered: assumes that the two calls of the submission succeed and that the order stays open meanwhile.
- Replay.ReplayReachesFixedPoint: replays the same results; matching the same activities again may match another suggestion.
- ReviewFacts.PassiveUntilTheCritic: assumes the review sees a close for every drafted ticker and the same one; without a close the code checks only a level's type.
- ReviewFacts.RationalesStayOnTheirOrders: what a rationale is about is an arbitrary relation; that the language model names the right position when it writes one is an assumption.
- Movers.AlertsAreBounded: within one week; a run that starts in one week and stores in another is covered by the other theorems only.
- Sizing.ComposeWeek: gap rows, nearby and scored levels, closes and sentiment are inputs; prices are positive and nearby levels lie on their own side of the close.
- Ties: among equally new rows, equally close matches and buys filled at the same time the model takes the first in id order.
- Ids with more digits than the interpreter converts, which raise. Decimal digits are those of Unicode 15.
- Division by a close or a limit of zero raises in the code; such inputs are excluded by positive prices or by the guard in the matcher's model.
- Malformed numbers in the critic's changes, which make the review fail, and NaN values.
- Soak windows and logs of promotions: any promotion may happen at any time, which includes those the code allows.
- The manual match endpoint, edits of caps, account identity edits, tokens, links, emails, templates and charts.
- Prose: reasons, context notes, highlight flags and the content of prompts and rationales.
- Indicators, level computation from bars, level scoring, news fetching and triage graphs.
- Which activities a reconciliation run looks back for.
- Floating-point rounding: prices and money are exact reals.
