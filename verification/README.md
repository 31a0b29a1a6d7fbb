# A verified model of the trading core

This project models the deterministic part of a crypto-futures decision and simulation system and proves what it
keeps: money, positions, gates and order protocols.  It has five parts.

* **Shadow sizing and profit** (`Funding`, `ShadowPnl`, `ShadowSizing`, `ShadowSizingOptimal`, `ShadowRiskCover`,
  `ShadowFigures`): an approved size is the best one that fits, and the worst loss it was sized for is compared, from
  above and from below, with what the profit calculation charges at the stop.
* **Paper account** (`RiskSizing`, `PaperModel`, `PaperInvariant`, `PaperGate`, `PaperLedger`, `PaperRecords`,
  `PaperExposure`, `PaperReach`, `PaperStops`, `PaperRuns`, `PaperFigures`, `PaperEngine`): an account driven by
  signals, ticks, closes, halts and resumes refines a naive fill-by-fill cash ledger, its positions grow only through
  an open gate, and its rounded records stay within half a cent each.
* **Live position** (`LivePosition`, `LiveFigures`, `LivePositionState`): a risk bound over any run of partial closes
  and DCAs.
* **Backtest** (`BacktestModel`, `BacktestLedger`, `BacktestCharges`, `BacktestCosts`, `BacktestFunding`,
  `BacktestCausality`, `BacktestFills`, `BacktestFigures`, `BacktestMetrics`, `BacktestEngine`): an exact ledger
  identity at every bar, no look-ahead in any run, every trade closed once, and drawdowns against all pairs.
* **Execution and gates** (`ExecutionModel`, `ExecutionSafety`, `ExecutionFigures`, `ExecutionEngine`,
  `PipelineModel`, `PipelineSafety`, `PipelineFigures`, `PipelineEngine`, `KillSwitchModel`, `KillSwitchSafety`,
  `KillSwitchFigures`, `KillSwitchEngine`, `Candidate`, `CandidateSafety`, `CandidateFigures`): an order protocol
  against any gateway, a ten-step pipeline against any agents, a kill switch over a key store with expiry, and the
  figures of a trade candidate.

## How it is built

What the program updates in place is a class whose methods carry `modifies` clauses and are proved against functions
on values (`PaperEngine`, `LivePositionState`, `BacktestEngine`, `BacktestMetrics`, `ExecutionEngine`,
`PipelineEngine`, `KillSwitchEngine`); what the system promises is proved about those functions, over whole runs.

The `Figures` module of a component says what its operations do without the names of the model's helpers: limits,
prices, sides, shares and codes are written out, and a quantity is characterised by what it is the most or the least
of.

* A `Decimal` or a float is a `real`, and division is exact.  Every `quantize`, floor, ceiling and `ROUND_HALF_UP` of
  the code is written out.
* Time is an integer number of microseconds, from a UTC midnight, or from a Monday midnight where weeks matter.
* The gateway, the AI review and the other agents are arbitrary functions; `None` stands for an exception or a
  timeout.
* A product or a quotient that several proofs need has a name, and facts about products are stated on `Decimals.Mul`.

Check it with `dafny verify dfyconfig.toml`.

## Where the code does not do what it is meant to do

Each of these has a lemma with the exact condition and one with a concrete case.

* The worst loss of shadow sizing does not cover a long that pays funding: it averages the entry with the slipped
  stop, the profit calculation with the stop itself (`ShadowRiskCover.WorstLossIsExceeded`, `ReserveCoversFunding`).
* The paper cooldown after three losses is documented to end by itself.  A flat account with three trailing losses
  never trades again, four calls lead there from a fresh account, and an account comes back exactly when it still
  holds a position to close (`PaperGate.LockedOutForever`, `PaperRuns.LockoutIsReached`,
  `PaperGate.LockoutEndsOnlyByClosing`).
* A paper partial close of a round quantity can be refused: half of 10 counts in tens
  (`PaperInvariant.HalfOfTenIsRefused`, `PartialCloseNeedsUnit`).
* The risk that a paper account books for a DCA is not what the position can lose: the position keeps its old stop
  while the added quantity is sized for the new one, so two accepted signals can put over twice the portfolio limit at
  the stop.  An added quantity loses no more than it was sized for exactly when the old stop is no further out than
  the new one, and while that is so the portfolio limit holds for the losses themselves
  (`PaperRuns.SecondStopIsIgnored`, `PaperStops.DcaLoss`, `StopsKeepPortfolioRisk`).
* Of the paper leverages below 1 the engine refuses 0 alone; a negative one locks a margin that is not positive
  (`PaperRuns.ZeroLeverageIsRefused`, `NegativeLeverageIsAccepted`, `PaperReach.MarginNeedsLeverage`).
* The live DCA bound of twice the original risk is missed by up to half a cent a coin, exactly when the rounding of
  the average does not fit (`LivePosition.RoundingExceedsTwiceTheRisk`, `TwiceTheRiskKept`).
* The backtest takes entry fees and accrued funding from cash and again through the net profit
  (`BacktestLedger.ChargesCountTwice`, `BacktestCharges.OneTradeCountsTwice`, `AnySignalCountsTwice`), charges a trade
  that leaves on a funding bar twice and counts a funding credit as a cost (`BacktestLedger.LeavingIsChargedAgain`,
  `CreditCountsAsCost`, `BacktestCosts.ShortPaysItsCredit`), takes slippage twice
  (`BacktestCosts.LongPaysSlippageTwice`, `SlippageCountsTwice`), charges each funding once only on bars of which one
  falls into every funding hour (`BacktestFunding.ChargedOnceEach`, `OtherBarsDoNot`), and fills a stop that the
  market jumped over at a price that was never traded (`BacktestFills.JumpFillsAtStop`, `LeavesWithinBar`).
* The drawdown pass misses the worst pair when an equity is negative (`BacktestMetrics.NegativeEquityMissed`,
  `MaxIsWorstPair`).
* After an emergency close the target of the trade stays with the exchange (`ExecutionSafety.TargetOutlivesClose`,
  `TargetLeftOver`), guards ignore a partly filled entry (`GuardsIgnorePartialFill`, `GuardsMatchFill`), and a run
  whose order was refused ends as completed (`PipelineSafety.RefusedIsCompleted`, `CompletedUntraded`).
* A candidate can be made with a reward ratio that no gate passes, and its rounded entry can equal its stop
  (`CandidateSafety.CentDoomsCandidate`, `ReachesTwo`, `EntryMayMeetStop`, `EntryMeetsExits`).


## Model

| member | source | states |
|---|---|---|
| Decimals.QuantizeError | agents/shadow/pnl.py:60-67 | Quantizing a decimal lands on the grid and moves it by at most half a quantum. |
| Decimals.FloorToStepLargest | agents/shadow/exchange_rules.py:37-38 | Flooring to a step gives the greatest multiple of the step that is not above a non-negative value. |
| Funding.FundingEventCount | agents/shadow/pnl.py:84-99 | The two loops terminate and count the difference of the whole intervals before the end and before the start, zero for an empty span. |
| Funding.FundingEventsSplit | agents/shadow/pnl.py:84-99 | Splitting a time span neither loses nor repeats a funding event. |
| Funding.FundingEventsAreBoundaries | agents/shadow/pnl.py:84-99 | The closed form is the number of funding instants after the start and up to the end. |
| Funding.GetFundingTimestamps | agents/backtest/costs.py:174-192 | Nothing when funding is switched off; otherwise the hour-by-hour scan lists exactly the funding instants of the span, in order, and as many as the shadow counter counts. |
| ShadowSizingOptimal.SizingOutcome | agents/shadow/sizing.py:93-181 | Approval if and only if the largest fitting quantity meets the minimum size, the minimum notional and the portfolio limit; each rejection code means what it says; INSUFFICIENT_BALANCE and RISK_BUDGET_EXCEEDED never occur. |
| ShadowSizingOptimal.ApprovedIsLargest | agents/shadow/sizing.py:93-181 | An approved quantity is the largest lot multiple within the risk budget and the margin cap times the leverage cap, held at the least leverage from 1 whose margin fits the cap. |
| ShadowSizingOptimal.RejectedMeansNothingFits | agents/shadow/sizing.py:128-171 | A rejection for size means that every fitting lot multiple is below the minimum; one for notional, that every fitting one is worth too little. |
| ShadowSizingOptimal.ReevaluationAgrees | agents/shadow/sizing.py:184-230 | Evaluating the approved quantity, leverage and margin as a fixed quantity returns the same approved result. |
| ShadowSizingOptimal.LeastLeverage | agents/shadow/sizing.py:128-160 | A leverage from 1 up carries the notional under the margin cap exactly when it is at least the chosen one. |
| ShadowFigures.SizeMeans | agents/shadow/sizing.py:93-181 | A bad input is refused with the first thing wrong with it; any other is approved exactly when there is capacity and the largest quantity that fits budget and leverage is tradable, with that quantity at the least leverage and its own figures; limits and worst loss written out. |
| ShadowFigures.RefusalMeans | agents/shadow/sizing.py:113-171 | Every refusal code of a good input is the first of five reasons, each stated over all quantities. |
| ShadowFigures.FixedMeans | agents/shadow/sizing.py:184-230 | A fixed quantity is refused for size, step, leverage, budget or portfolio, in this order, and approved with its figures otherwise. |
| ShadowFigures.RulesMean | agents/shadow/exchange_rules.py:22-34 | There are rules for two symbols alone: orders in steps that are also their minimum, worth five at least. |
| ShadowRiskCover.LossAtStopBounds | agents/shadow/sizing.py:65-90 | The loss `calculate_shadow_pnl` charges at the stop is at most the sized worst loss plus the rounding of ten figures plus, for a long that pays funding, the gap; and it reaches that bound up to rounding when all intervals are charged. |
| ShadowRiskCover.ReserveCoversFunding | agents/shadow/sizing.py:71-90 | The reserved funding covers every charge within the sized intervals if and only if the trade is not a long that pays funding and slips at its stop. |
| ShadowRiskCover.ApprovedTradeKeepsBudget | agents/shadow/sizing.py:93-181 | A size approved from a risk budget, stopped out after no more funding events than it was sized for, loses at most the budget plus gap plus rounding. |
| ShadowRiskCover.WorstLossIsExceeded | agents/shadow/sizing.py:65-90 | A concrete long trade loses more at its stop than the worst loss it was sized for. |
| ShadowPnl.FillIsAgainstTrader | agents/shadow/pnl.py:70-81 | Slippage is always against the trader: a buy fills at the price or above, a sale at it or below. |
| ShadowPnl.FlatTradeLoses | agents/shadow/pnl.py:102-153 | A trade closed where it was opened, before any funding falls due, never gains. |
| ShadowFigures.TradeMeans | agents/shadow/pnl.py:102-153 | Every figure of a trade is what its prices, its quantity and the rates make it, for both sides; the return is a hundred times the net profit over the margin. |
| RiskSizing.RiskRewardMeans | agents/risk/sizing.py:57-92 | A signal passes the ratio check if and only if its stop is on the losing side and its target at least twice as far away on the other. |
| RiskSizing.DailyLossMeans | agents/risk/validators.py:176-231 | The loss checks pass if and only if the losses are below a positive limit and, for the day, the projected loss still fits it. |
| PaperInvariant.GatePasses | agents/paper_trading/risk_engine.py:90-171 | The ordered gate passes if and only if every one of its checks does. |
| PaperInvariant.ValidateHaltsOnLosses | agents/paper_trading/risk_engine.py:124-171 | A validation halts only on a loss limit or five losses in a row, and starts a thirty-minute cooldown only on three or four, never both. |
| PaperInvariant.RunKeepsSound | agents/paper_trading/engine.py:68-260 | In every reachable account: one position per coin, at most the smaller of the user and plan limits, no more than two DCAs each, quantities positive and within the original. |
| PaperInvariant.StepKeepsSound | agents/paper_trading/engine.py:68-260 | Every single engine call keeps those invariants. |
| PaperInvariant.ApprovedSize | agents/paper_trading/risk_engine.py:90-238 | An approval means an open gate (no halt, no cooldown, fewer than three trailing losses, projected daily loss within the limit), a positive quantity, a free slot or a DCA below two, and no change of the account. |
| PaperFigures.GateMeans | agents/paper_trading/risk_engine.py:90-171 | The gate refuses with the first of its limits in order, with the figures 2.0, 0.6, three and five losses and the shares of the balance written out; which refusals halt and which cool. |
| PaperFigures.VerdictMeans | agents/paper_trading/risk_engine.py:90-238 | A signal is refused with the code of the first limit it meets; a loss limit or five losses halt the account, three or four start a cooldown of thirty minutes if none runs, nothing else changes. |
| PaperFigures.SizeMeans | agents/paper_trading/risk_engine.py:172-262 | Past the gate a signal is refused for slots (1, 5 or 20 by plan), two DCAs, a size that cannot be computed, a bad size or the portfolio share, in this order, and approved with that size otherwise. |
| PaperFigures.ApprovedSizeMeans | agents/risk/sizing.py:30-150 | An approved size has the least of the leverages asked for, allowed by the user and by the plan (5, 10 or 20), the most lots within the risk of the free balance, and margin and loss of these to the cent, within a fifth of what is free and the portfolio share. |
| PaperFigures.PositionsWithinPlan | agents/risk/constants.py:32-36 | In every account a run can reach, at most 1, 5 or 20 positions are open by plan, and no more than the user allows. |
| PaperFigures.EntryMeans | agents/paper_trading/position_manager.py:49-97 | An entry debits its fee and opens a position with every figure of the verdict and the signal, or adds quantity, margin and loss to the one held, at the average price. |
| PaperFigures.CloseMeans | agents/paper_trading/position_manager.py:134-200 | A close credits the move less its fee, takes the position out and appends a record with these figures to the cent and the fee of both ways. |
| PaperFigures.PartialMeans | agents/paper_trading/position_manager.py:204-279 | A partial close credits and records the part, and leaves the position without it and without the share of the margin. |
| PaperFigures.ReverseMeans | agents/paper_trading/engine.py:98-124 | An approved signal against what is held first closes that at the entry of the signal, and does nothing before its last decision otherwise. |
| PaperFigures.StepMeans | agents/paper_trading/engine.py:68-262 | What every call of the engine does to the account: which position a price, a close or a partial close goes to, for which reason, and what a halt, a resume and prices change alone. |
| PaperFigures.TrailingMeans | agents/paper_trading/state.py:93-100 | The count is that of the losses at the end of the history: the record before them is none. |
| PaperInvariant.SubmissionShape | agents/paper_trading/engine.py:76-150 | A submission is accepted exactly when it is approved in the account of its last decision, the one after a reverse close if there was one; otherwise only that refusal takes effect. |
| PaperInvariant.ValidateKeepsPositions | agents/paper_trading/risk_engine.py:90-238 | A validation never moves money, positions or history; it can only halt or start a cooldown. |
| PaperInvariant.PartialQuantityBounds | agents/paper_trading/position_manager.py:222-228 | A partial close takes less than the whole position. |
| PaperInvariant.PartialCloseNeedsUnit | agents/paper_trading/position_manager.py:204-228 | A partial close succeeds if and only if the ratio is inside (0, 1) and the part is worth one unit of the last non-zero digit of the quantity. |
| PaperInvariant.HalfOfTenIsRefused | agents/paper_trading/position_manager.py:222-228 | Half of a position of exactly 10 cannot be closed. |
| PaperGate.GrowsOnlyThroughGate | agents/paper_trading/engine.py:76-150 | Whenever a position is larger after a call than before it, the call was an accepted signal and the gate was open in the account of its last decision. |
| PaperReach.RunKeepsBacked | agents/paper_trading/engine.py:68-260 | In every account a run can reach from a sound one, quantities stay whole lots of 0.001, at least one, at any leverage; and no margin turns negative when every leverage asked for and allowed is at least 1. |
| PaperReach.DigitsAreExact | agents/paper_trading/position_manager.py:222-228 | In every account a run can reach, a quantity has at most three decimals, so a partial close counts in the digits of the quantity itself. |
| PaperReach.AcceptedExposure | agents/paper_trading/engine.py:76-150 | In every reachable account, whatever an accepted signal does (open, DCA, or open after a reverse close), the open risk that is booked rises by at most balance times risk per trade, to the cent, and at least 79 percent of the free balance stays free. |
| PaperStops.FreshEntryLoss | agents/paper_trading/engine.py:76-150 | In every reachable account, an accepted signal in a coin not held when it is decided opens a position whose gross loss at its own stop is at most balance times risk per trade. |
| PaperStops.DcaLoss | agents/paper_trading/position_manager.py:283-329 | An accepted signal in a coin that is held leaves the stop where it is: the loss at that stop rises by the loss the added quantity was sized for plus the way between the two stops, so by no more than the sized loss if and only if the position's stop is no further out than the signal's. |
| PaperStops.StopsKeepPortfolioRisk | agents/paper_trading/risk_engine.py:225-238 | Over runs in which every signal that adds to a position is sized for a stop its own stop covers, after any accepted signal all positions together would lose at their stops no more than the share of the balance, up to one and a half cents a position. |
| PaperStops.StepKeepsBooked | agents/paper_trading/engine.py:68-260 | Every such engine call keeps the loss at the stop of every position within its booked risk, to half a cent an entry. |
| PaperRuns.SecondStopIsIgnored | agents/paper_trading/position_manager.py:283-329 | Two accepted signals on a fresh default account book a risk of 395.98 and would lose 2159.80 at the stop that is kept, over twice what the open risk may be. |
| PaperReach.MarginNeedsLeverage | agents/risk/sizing.py:30-42 | An approved entry has a resolved leverage other than 0, and locks a positive margin if and only if that leverage is at least 1. |
| PaperRuns.ZeroLeverageIsRefused | agents/paper_trading/risk_engine.py:211-238 | A signal whose leverage resolves to 0 is refused in every sound account. |
| PaperRuns.NegativeLeverageIsAccepted | agents/paper_trading/risk_engine.py:211-238 | At every negative leverage a concrete entry is accepted on a fresh default account and locks no positive margin: -12500.00 at a leverage of -1. |
| PaperRuns.LockoutIsReached | agents/paper_trading/risk_engine.py:146-171 | Four calls on a fresh default account, one entry sold in three parts at a small loss, lead to an account that never accepts a signal again. |
| PaperGate.LockedOutForever | agents/paper_trading/risk_engine.py:146-171 | A flat account with three trailing losses refuses every signal after every run of calls, `resume` included, though the cooldown is documented to end by itself. |
| PaperGate.LockoutEndsOnlyByClosing | agents/paper_trading/state.py:93-100 | The loss count of an account with three trailing losses falls below three in some run if and only if the account still holds a position. |
| PaperLedger.StepBooked | agents/paper_trading/position_manager.py:49-354 | Every engine call books exactly one trade of the change in quantity at its price with its fee, or none; a reversal books as one trade. |
| PaperLedger.RunRefinesLedger | agents/paper_trading/engine.py:68-235 | Over any run, balance minus the signed cost of open positions is the cash of a naive fill ledger, and the net quantity per coin is what its fills add up to. |
| PaperLedger.EquityIsLedgerEquity | agents/paper_trading/engine.py:68-235 | From a fresh account, after any run and at any prices, balance plus unrealized profit is the ledger cash plus its holdings at those prices. |
| PaperLedger.AverageCost | agents/risk/sizing.py:216-227 | The recalculated average entry keeps the total cost of both parts. |
| PaperRecords.StepKept | agents/paper_trading/position_manager.py:134-328 | Every engine call keeps the rounded records within half a cent of the balance they describe and attributes each debited entry fee once. |
| PaperRecords.RecordsFollowBalance | agents/paper_trading/position_manager.py:134-280 | After any run the balance differs from the initial balance minus entry fees plus recorded net profits by at most half a cent a record. |
| PaperRecords.ClosedPositionFees | agents/paper_trading/position_manager.py:134-328 | Over the life of a closed position the entry fees in its records add up to the entry fees debited for it, whatever the order of DCAs and partial closes. |
| PaperRecords.ShareIsFee | agents/paper_trading/position_manager.py:159-162 | The share of the original entry fee attributed on a full close is the fee of what is left. |
| PaperExposure.EntryBooksExposure | agents/paper_trading/position_manager.py:63-97 | An entry, new or added, locks exactly the approved margin, adds exactly the approved loss and debits exactly the fee. |
| PaperExposure.AcceptedKeepsPortfolioRisk | agents/paper_trading/risk_engine.py:225-238 | After any accepted signal, a reversal included, the open risk that the account books for all positions is within the share of the balance it was decided on. |
| PaperExposure.TickClosesWhenReached | agents/paper_trading/engine.py:154-179 | A price closes the position of its coin iff it is not strictly between stop and target: all of it, at that price, as a target hit whenever the target was reached. |
| PaperExposure.LossWindows | agents/paper_trading/state.py:75-90 | Daily and weekly loss are what was lost since the last midnight and the last Monday midnight. |
| PaperExposure.HoursGoRoundTheClock | agents/risk/validators.py:148-170 | Trading hours that span midnight admit exactly the minutes from start to end, counted round the clock. |
| PaperExposure.RecordFiguresAgree | agents/paper_trading/position_manager.py:151-184 | Gross, fee and net of a record agree with each other and with the price move, each to its rounding. |
| PaperEngine.PaperPosition.UpdatePrice | agents/paper_trading/position_manager.py:101-130 | Sets the price and reports the target or stop hit in the order the code tests them; a closed position is left alone. |
| PaperEngine.PaperAccountState.ConsecutiveLosses | agents/paper_trading/state.py:93-100 | The counting loop returns the number of losses at the end of the history. |
| PaperEngine.PaperAccountState.GetOpenByCoin | agents/paper_trading/state.py:141-144 | Finds the first position in a coin, or none. |
| PaperEngine.PaperAccountState.RemovePosition | agents/paper_trading/state.py:135-136 | Removes the position with an identifier and keeps the order of the others, or leaves all as it was when there is none. |
| PaperEngine.PositionManager.OpenPosition | agents/paper_trading/position_manager.py:49-97 | In place: debits the entry fee and adds the position, as the function on account values. |
| PaperEngine.PositionManager.ClosePosition | agents/paper_trading/position_manager.py:134-200 | In place: credits the net profit, records the rounded figures, removes the position. |
| PaperEngine.PositionManager.PartialClose | agents/paper_trading/position_manager.py:204-279 | In place: reduces quantity and margin, records the part and returns that record, or changes nothing when the code raises. |
| PaperEngine.PositionManager.ApplyDca | agents/paper_trading/position_manager.py:283-329 | In place: debits the fee and enlarges the position at the averaged entry. |
| PaperEngine.PaperTradingEngine.Validate | agents/paper_trading/risk_engine.py:90-238 | The ordered checks with their halt and cooldown side effects. |
| PaperEngine.PaperTradingEngine.SubmitSignal | agents/paper_trading/engine.py:68-150 | Reject, reverse and validate again, DCA or open, exactly as the function on account values; returns the position entered or the code of the refusal, and the record of the reverse close. |
| PaperEngine.PaperTradingEngine.Tick | agents/paper_trading/engine.py:154-179 | The loop over the positions closes what was hit and returns exactly the records it appended. |
| PaperEngine.PaperTradingEngine.ManualClose | agents/paper_trading/engine.py:183-205 | Closes the position with an identifier and returns the record it appended, or does nothing. |
| PaperEngine.PaperTradingEngine.ManualPartialClose | agents/paper_trading/engine.py:209-235 | Closes a part of the position with an identifier and returns the record it appended, or does nothing. |
| PaperEngine.PaperTradingEngine.UpdatePrices | agents/paper_trading/engine.py:239-249 | Updates the prices of the named coins and nothing else. |
| PaperEngine.PaperTradingEngine.Halt | agents/paper_trading/engine.py:253-256 | Sets the halt and nothing else. |
| PaperEngine.PaperTradingEngine.Resume | agents/paper_trading/engine.py:258-262 | Clears halt and cooldown and nothing else. |
| LiveFigures.EligibilityMeans | agents/position_manager/dca.py:27-97 | The check answers with the first of its four conditions and four prohibitions that speaks against a DCA, with the figures 2, half the daily limit, three quarters of the weekly one and five percent of the margin written out, and with none if nothing does. |
| LivePosition.FeeIsPaid | agents/position_manager/lifecycle.py:156-169 | Closing pays the gross profit less a fee that is never negative; at the entry price it never pays. |
| LivePosition.SplitClosePaysTheSame | agents/position_manager/lifecycle.py:73-151 | Closing in two steps at one price pays what closing at once pays, to within three roundings. |
| LivePosition.MarginFollowsRatio | agents/position_manager/lifecycle.py:107-151 | A partial close gives back its share of the margin, to half a ten-thousandth. |
| LivePosition.LiquidationLosesMargin | agents/position_manager/lifecycle.py:172-177 | Closing at the liquidation price loses the isolated margin less 0.4 percent of the notional. |
| LivePosition.PartialKeepsBound | agents/position_manager/lifecycle.py:107-151 | A partial close keeps the quantity positive and the risk bound. |
| LivePosition.DcaRisk | agents/position_manager/dca.py:100-162 | After a DCA the risk at the stop is that of both parts, up to half a cent a coin for the rounded average. |
| LivePosition.DcaKeepsBound | agents/position_manager/dca.py:27-97 | A DCA that the eligibility check approves keeps the risk bound. |
| LivePosition.RunKeepsRiskBounded | agents/position_manager/dca.py:27-162 | Over any run of partial closes and approved DCAs: quantity positive, at most two DCAs, risk at most twice the original plus 0.005 a coin. |
| LivePosition.DcaRiskExact | agents/position_manager/dca.py:100-162 | The risk after a DCA is that of both parts plus exactly what the cent-rounding of the average entry adds. |
| LivePosition.TwiceTheRiskKept | agents/position_manager/dca.py:27-162 | An approved DCA keeps the risk within twice the original if and only if that rounding cost fits into what both risks leave; always when the average is a cent price. |
| LivePosition.RoundingExceedsTwiceTheRisk | agents/position_manager/dca.py:146-162 | A freshly opened position and one DCA that the eligibility check approves end with a risk of 20.0025, above twice the original 10. |
| LiveFigures.OpenedMeans | agents/position_manager/lifecycle.py:28-71 | A position is opened as asked for, with its risk and margin on record and its liquidation price. |
| LiveFigures.CloseMeans | agents/position_manager/lifecycle.py:73-104 | A close realizes the net profit it reports for the whole quantity; gross, fee and net agree with the move to their roundings. |
| LiveFigures.PartialMeans | agents/position_manager/lifecycle.py:107-151 | A partial close goes through exactly for an open position, a ratio inside (0, 1) and at least a thousandth, and closes the most thousandths within the ratio. |
| LiveFigures.DcaMeans | agents/position_manager/dca.py:100-162 | A DCA adds quantity and margin, averages the entry to the cent, and moves the liquidation price to the new entry. |
| LiveFigures.LifeKeepsRisk | agents/position_manager/dca.py:27-162 | From its opening, over any partial closes and approved DCAs, a position keeps a positive quantity and its stop, makes at most two DCAs, and would lose at its stop at most twice its first risk plus half a cent a coin. |
| LiveFigures.StepMeans | agents/position_manager/dca.py:27-143 | A DCA is applied exactly when nothing forbids it; a partial close that is refused changes nothing. |
| LivePositionState.PositionState.PartialClose | agents/position_manager/lifecycle.py:107-151 | In place: reduces the position, or changes nothing when the code raises. |
| LivePositionState.PositionState.Close | agents/position_manager/lifecycle.py:73-104 | In place: closes the position and adds its profit. |
| LivePositionState.PositionState.ApplyDca | agents/position_manager/dca.py:100-143 | In place: the cent-rounded average entry, the sums, the recomputed liquidation price and the fee of the result. |
| BacktestLedger.LedgerIdentity | agents/backtest/engine.py:110-187 | At the end of every bar cash plus open margins is the capital plus closed net profits, less entry fees and accrued funding of all trades. |
| BacktestLedger.FinalEquity | agents/backtest/engine.py:175-190 | After forced closing nothing is open and the last equity and cash are the cent-rounding of that identity. |
| BacktestFigures.CurveMeans | agents/backtest/engine.py:161-190 | At every bar the point of a whole run has as equity the cent-rounding of the capital, plus closed net profits, less all charges, plus the signed moves of the open trades at the close; as cash that without moves and margins; and the moves and the number of trades; only equity and cash of the last point may be those of the end. |
| BacktestFigures.LastPointMeans | agents/backtest/engine.py:175-190 | Equity and cash of the last point are the capital and all net profits less what was charged on the way. |
| BacktestFigures.EntryKeepsEquity | agents/backtest/engine.py:112-124 | Without costs, entering a trade at the close of a bar leaves the equity of its point as it was. |
| BacktestFigures.BarMeans | agents/backtest/engine.py:110-173 | A run plays its bars in order: the signal that waited is entered, what is open is charged, what was reached leaves, the first signal of the bar waits if there is room, and the equity is that of its close. |
| BacktestFigures.EnteringMeans | agents/backtest/engine.py:112-127 | A waiting signal is entered where there is room, for its margin and its fee. |
| BacktestFigures.LeavingMeans | agents/backtest/engine.py:136-153 | The trades whose stop or target the bar reached leave, at the one reached or the one nearer to the open, in order, and give back margin and net profit; the others stay in order. |
| BacktestFigures.EndMeans | agents/backtest/engine.py:175-187 | What is still open at the end leaves at the last close, in order. |
| BacktestLedger.NetHasCharges | agents/backtest/executor.py:200-257 | A net profit is, to the cent, gross profit less entry fee, exit fee, the size of all funding, and both slippages. |
| BacktestLedger.ChargesCountTwice | agents/backtest/engine.py:112-152 | Final cash is the capital plus the net profits if and only if entry fees and accrued funding sum to zero: they are taken twice. |
| BacktestLedger.LeavingIsChargedAgain | agents/backtest/executor.py:200-257 | A trade that leaves on a marked bar pays that bar's funding twice, at the close and at its exit price; on any other bar leaving charges no funding. |
| BacktestLedger.CreditCountsAsCost | agents/backtest/executor.py:200-257 | The net profit takes the size of the funding: it is right if and only if the trade received none on balance, and a balance received lowers it by that much. |
| BacktestCosts.ShortPaysItsCredit | agents/backtest/executor.py:200-257 | A concrete short that leaves on a marked bar at a positive rate receives that funding twice and pays both: it nets 194.78 where it earns 200.38. |
| BacktestCosts.SlippageCountsTwice | agents/backtest/executor.py:200-245 | The gross profit is taken between slipped prices and both slippages are taken from it again: before rounding, what a trade nets is right if and only if the slippage rate is zero and too low by the slippage of both ends otherwise, for both sides and both slippage models. |
| BacktestCosts.LongPaysSlippageTwice | agents/backtest/executor.py:200-245 | A concrete long at the default fee and slippage nets 194.12 where it should net 196.22. |
| BacktestFunding.ChargedOnceEach | agents/backtest/costs.py:263-268 | For bars in increasing order, the marked bars are the funding instants of the span, each once, if and only if every hour in which one falls due holds exactly one bar and the first bar does not start late within a funding hour. |
| BacktestFunding.HourlyBarsChargeOnce | agents/backtest/costs.py:263-268 | On a grid of n bars to the hour every funding hour covered is charged n times, so once if and only if the bars are hourly. |
| BacktestFunding.OtherBarsDoNot | agents/backtest/costs.py:263-268 | Half-hour bars charge one funding twice; daily bars charge one of three fundings. |
| BacktestFunding.EachMarkCosts | agents/backtest/engine.py:130-134 | At one price and rate a held trade is charged one funding for every marked bar. |
| BacktestCharges.FeesCountTwice | agents/backtest/engine.py:112-152 | Without funding, final cash is never more than capital plus net profits, and equal to it if and only if every entry fee rounds to zero. |
| BacktestCharges.AnySignalCountsTwice | agents/backtest/engine.py:112-152 | With fees that do not round to zero and no funding, final cash is capital plus net profits if and only if no bar but the last carries a signal. |
| BacktestCharges.NoFeesCountOnce | agents/backtest/engine.py:112-152 | At a fee rate of zero and without funding nothing is taken twice. |
| BacktestCharges.OneTradeCountsTwice | agents/backtest/engine.py:112-152 | One signal on two hourly bars at the default fee ends with less cash than capital plus its net profit. |
| BacktestCausality.NoLookAhead | agents/backtest/engine.py:59-216 | Two whole runs whose inputs agree on the first k bars and the signals stamped with their times report the same first k equity points and the same trades closed by then, whatever comes later; every further trade of either leaves later. |
| BacktestCausality.ResultGrows | agents/backtest/engine.py:110-193 | The result of a whole run begins with what had happened after its first k bars. |
| BacktestCausality.RunTimely | agents/backtest/engine.py:110-187 | After every bar each trade was entered strictly after its signal and left not before its entry, open trades stay within the cap, and a waiting signal is the current bar's. |
| BacktestCausality.PendingHasRoom | agents/backtest/engine.py:112-159 | A waiting signal always finds room at the next bar. |
| BacktestCausality.RunEntries | agents/backtest/engine.py:112-153 | After every bar the open and closed trades are, as a multiset, the trades entered so far. |
| BacktestCausality.ClosedExactlyOnce | agents/backtest/engine.py:175-193 | The trades of the result are the entered trades, each exactly once and each closed. |
| BacktestFills.LeavesWithinBar | agents/backtest/executor.py:161-198 | The exit price is one the bar traded at if and only if the bar did not jump over it. |
| BacktestFills.JumpFillsAtStop | agents/backtest/executor.py:161-198 | A long whose stop lies above the whole bar still sells at that stop. |
| BacktestFills.SlippageNeverHelps | agents/backtest/costs.py:95-155 | A buy fills at the wanted price or above, a sale at it or below, and the volume model slips by at most one percent. |
| BacktestFills.TradePaysSlippage | agents/backtest/executor.py:51-129 | A trade is entered at its base price or worse and left at its level or worse. |
| BacktestFigures.EntryMeans | agents/backtest/executor.py:51-129 | Price, lots, margin, fee and slippage of an entered trade, from the base price, the risk and the rates. |
| BacktestFigures.ExitMeans | agents/backtest/executor.py:200-257 | Price, fee, funding, slippage, gross and net profit of a trade that leaves at a level, from that level and the rates. |
| BacktestFigures.AccrualMeans | agents/backtest/engine.py:130-134 | At 0, 8 and 16 hours every open trade is charged at the close, longs what shorts receive, and cash falls by all of it; at no other hour. |
| BacktestFills.QuantityWithinRisk | agents/backtest/executor.py:88-99 | A trade has at least one lot, and unless it is the single smallest lot its way to the stop is worth no more than the risk. |
| BacktestFills.FundingMovesBetweenSides | agents/backtest/costs.py:194-219 | What funding takes from a long it gives to an equal short, and a positive rate is paid by the long. |
| BacktestEngine.TradeRecord.AccrueFunding | agents/backtest/executor.py:263-278 | In place: adds the funding of a marked bar and returns it. |
| BacktestEngine.TradeRecord.Close | agents/backtest/executor.py:200-257 | In place: fills in the exit figures, the total funding and the total slippage. |
| BacktestEngine.TradeRecord.CheckExit | agents/backtest/executor.py:135-198 | Leaves at the stop or the target that the bar decides, or by force at its close; otherwise unchanged. |
| BacktestEngine.BuildSignalIndex | agents/backtest/engine.py:266-273 | The index built by the loop agrees with filtering the signals by instant, for every instant. |
| BacktestEngine.AccrueOpen | agents/backtest/engine.py:130-134 | The loop charges every open trade once and takes the sum from cash. |
| BacktestEngine.ExitOpen | agents/backtest/engine.py:136-153 | The loop over open trades keeps the stayers in order and appends the leavers, with margin and net profit returned. |
| BacktestEngine.CalcUnrealizedPnl | agents/backtest/engine.py:276-288 | The loop sums the signed price move times quantity of the open trades. |
| BacktestEngine.PlayBars | agents/backtest/engine.py:110-187 | The bar loop over mutable trades computes the state function on which the ledger and causality results are proved. |
| BacktestEngine.Run | agents/backtest/engine.py:59-216 | The whole run: an error without bars, otherwise the result function, with every point ranked by the running peak. |
| BacktestMetrics.CalcMaxDrawdown | agents/backtest/metrics.py:60-83 | The single pass returns the least of zero and the drawdowns from the running peak. |
| BacktestMetrics.BuildEquityCurveWithDrawdown | agents/backtest/metrics.py:227-242 | In place: every point gets the prefix maximum and the drawdown from it, and keeps its other figures. |
| BacktestMetrics.PeakIsMaximum | agents/backtest/metrics.py:234-239 | The running peak is the prefix maximum. |
| BacktestMetrics.MaxIsLeastStored | agents/backtest/metrics.py:60-83 | The maximum drawdown equals the least drawdown stored on the points. |
| BacktestMetrics.MaxIsWorstPair | agents/backtest/metrics.py:60-83 | The maximum drawdown is zero or that of some pair; it is the worst over all pairs if and only if, for every negative equity, the way down from the lowest positive equity before it is no longer than some way down from a running peak; always without negative equities. |
| BacktestMetrics.PeakIsWorstStart | agents/backtest/metrics.py:71-81 | The running peak is the worst start for a point if and only if its equity is not negative or no lower positive equity came before. |
| BacktestMetrics.NegativeEquityMissed | agents/backtest/metrics.py:71-81 | With a negative equity the pass misses the worst pair, on a concrete curve. |
| ExecutionSafety.OrdersOnlyWhenCleared | agents/execution/engine.py:199-312 | Orders are sent if and only if live mode, approval, final side, direction, stop, target, quantity, leverage and safety gate all hold, and then the entry comes first. |
| ExecutionSafety.PositionIsGuarded | agents/execution/engine.py:315-441 | For every gateway: executed iff the entry was taken; then exactly one target and one stop of the approved quantity, or no stop and exactly one close of the filled quantity, or a reported failed close; at most five orders; one refusal never unprotects. |
| ExecutionSafety.OnlyEntryEnlarges | agents/execution/engine.py:199-441 | Whatever the gateway answers, every order of a whole call after its first is reduce-only, in the same symbol and opposite to the entry; no order but the entry can enlarge a position. |
| ExecutionSafety.TryRecorded | agents/execution/engine.py:318-361 | One try at the guards records exactly what the gateway took, sends no stop after a failed target, and fails by exactly one refusal. |
| ExecutionSafety.TargetLeftOver | agents/execution/engine.py:315-407 | For every gateway: after an emergency close the target is still with the exchange if and only if it was taken at one of its two sends. |
| ExecutionSafety.TargetOutlivesClose | agents/execution/engine.py:341-407 | A gateway that refuses every stop leaves the target with the exchange after the close. |
| ExecutionSafety.GuardsMatchFill | agents/execution/engine.py:315-441 | For every gateway: target and stop are for the quantity entered if and only if the entry was filled in the approved quantity, and can close all of it if and only if it was filled in no more. |
| ExecutionSafety.GuardsIgnorePartialFill | agents/execution/engine.py:72-101 | After an entry filled in part target and stop still carry the approved quantity. |
| ExecutionFigures.RefusedByFirst | agents/execution/engine.py:199-312 | A request is refused with the code of the first of its obstacles, by name and in order; without one it is approved on paper when not live, stopped by the safety gate with its own or the default code, or sends its orders; a refusal carries no fill. |
| ExecutionFigures.OrdersOnTheExchange | agents/execution/engine.py:60-118 | For every gateway an executed call leaves one MARKET entry on the side of the trade, and one TAKE_PROFIT_MARKET at the target price and one STOP_MARKET at the stop price, reduce-only on the other side and at the approved quantity, or one reduce-only MARKET close of the filled quantity. |
| ExecutionFigures.FillsAreAnswers | agents/execution/engine.py:315-441 | Every fill in an outcome is the answer of the gateway to an order of that purpose; a refused entry is a system error. |
| ExecutionEngine.Engine.Execute | agents/execution/engine.py:199-441 | The imperative call returns the outcome and sends the orders of the protocol function. |
| ExecutionEngine.Engine.PlaceAll | agents/execution/engine.py:315-441 | Entry, guards, one retry of what is missing, and the close, as the protocol function. |
| ExecutionEngine.Gateway.PlaceOrder | agents/execution/models.py:140-150 | The gateway is any function of the orders so far; each order is logged with its answer. |
| PipelineSafety.GatesAreAskedOnce | agents/orchestrator/pipeline.py:192-203 | What the decision, risk, portfolio and position-manager agents would answer to a second attempt, and the others beyond their retries, changes nothing in a whole run. |
| PipelineSafety.StepIsFirstGood | agents/orchestrator/runner.py:50-118 | A step succeeds iff one of its retries-plus-one attempts does, with the first good attempt and its output. |
| PipelineSafety.StepsAreTheTen | agents/orchestrator/pipeline.py:247-688 | Every run logs the ten step names in order, each once. |
| PipelineSafety.FinalActionIsTheCandidates | agents/decision/final_decision.py:95-195 | The final action is the candidate's side if and only if nothing speaks against it, and HOLD otherwise; never the other side. |
| PipelineSafety.ExecutesOnlyThroughGates | agents/orchestrator/pipeline.py:247-671 | A run executes if and only if every critical step gave something, the review did not veto, risk approved, the final action is the candidate's side and the portfolio agreed; otherwise it sends nothing. |
| PipelineSafety.StatusTellsProtection | agents/orchestrator/pipeline.py:582-671 | What each final status says about the orders the exchange took. |
| PipelineSafety.CompletedUntraded | agents/orchestrator/pipeline.py:582-671 | A run that reaches its execution ends as completed without a trade if and only if something before its entry order stopped it or the gateway refused that order. |
| PipelineSafety.RefusedIsCompleted | agents/orchestrator/pipeline.py:582-671 | So a live run whose order the safety gate refuses ends as completed, with nothing sent. |
| PipelineSafety.ReviewerCannotSteer | agents/orchestrator/pipeline.py:399-443 | Two runs that differ in the AI review alone send the same orders, or one of them sends none. |
| PipelineSafety.ReviewOnlyVetoes | agents/orchestrator/pipeline.py:399-443 | A reviewed run sends what the run without review would send, or nothing. |
| PipelineFigures.ReachingRunEnds | agents/orchestrator/pipeline.py:445-671 | A run that gets to its portfolio gate asks it once about the maximum loss of the risk result, zero if it names none, and is rejected unless it agrees; it is broken unless the position manager opens; else it executes the order of the candidate and ends as the outcome says. |
| PipelineFigures.OtherRunsHold | agents/orchestrator/pipeline.py:247-524 | Every other run sends nothing; it is broken when three tries gave no market data and on hold otherwise. |
| PipelineFigures.ExecutedWasAsked | agents/decision/final_decision.py:78-195 | A run that executes had the portfolio agree to that loss, and its candidate promised more than the explicit minimum or, without one, than the configured share of its notional. |
| PipelineEngine.RunAgent | agents/orchestrator/runner.py:50-118 | The retry loop updates attempt and status of the result and returns the first good output. |
| PipelineEngine.AppendSkipped | agents/orchestrator/pipeline.py:676-688 | The loop adds a skipped result for every name not yet logged. |
| PipelineEngine.Pipeline.Run | agents/orchestrator/pipeline.py:247-671 | The imperative run over the growing step log is the run function. |
| PipelineEngine.Pipeline.ReviewStep | agents/orchestrator/pipeline.py:399-436 | Skips or runs the review and stops on a failure or a rejection. |
| PipelineEngine.Pipeline.GateSteps | agents/orchestrator/pipeline.py:445-524 | The risk gate and the final decision. |
| PipelineEngine.Pipeline.PlaceSteps | agents/orchestrator/pipeline.py:526-580 | The portfolio gate and the position manager. |
| PipelineEngine.Pipeline.ExecuteStep | agents/orchestrator/pipeline.py:582-671 | The execution and the status its outcome decides. |
| KillSwitchSafety.MidnightIsNext | agents/risk/kill_switch.py:62-69 | A daily halt ends at the first midnight to come. |
| KillSwitchSafety.MondayIsNext | agents/risk/kill_switch.py:72-79 | A weekly halt ends at the first Monday midnight to come, a week away on a Monday. |
| KillSwitchSafety.ExpiryNearEnd | agents/risk/kill_switch.py:170-177 | The key of a timed halt outlives its end less one second, and its end only by a late write or the one-second minimum. |
| KillSwitchSafety.ManualHaltHolds | agents/risk/kill_switch.py:150-243 | After an emergency stop, or a validation that halted on five losses, every later validation of the user is refused until the user is resumed. |
| KillSwitchSafety.TimedHaltHolds | agents/risk/engine.py:226-251 | After a validation that met a loss limit every validation at least one second before the end of the halt is refused, until a resume. |
| KillSwitchSafety.CooldownHolds | agents/risk/validators.py:238-275 | After any run, a validation refused for three or four losses in a row keeps the user from every approval until its cooldown ends, the one in force or a new one of thirty minutes, until a resume. |
| KillSwitchSafety.ResumeLiftsOnlyTheUser | agents/risk/kill_switch.py:189-195 | Resuming clears the user's stop, halt and cooldown and nothing else; trading goes on iff no global stop is active. |
| KillSwitchSafety.GlobalStopHolds | agents/risk/kill_switch.py:114-128 | Under a global stop every validation of every user is refused until it is lifted, whatever else is called. |
| KillSwitchSafety.StateAgreesWithCheck | agents/risk/kill_switch.py:197-221 | `get_halt_state` reports halted exactly when `check_kill_switch` refuses, at every instant. |
| KillSwitchFigures.HaltMeans | agents/risk/kill_switch.py:150-243 | A halt writes the halt of its user with its trigger, its end and its time to live, and nothing else; an emergency stop writes a stop without an end beside it. |
| KillSwitchFigures.ReportMeans | agents/risk/kill_switch.py:197-221 | What is reported: a global stop, a manual stop of the user, a halt with its trigger and end, or nothing, in this order. |
| KillSwitchFigures.HaltIsReported | agents/risk/kill_switch.py:197-221 | A halt is reported by the trigger it was given and the end that trigger has, for as long as its key lives. |
| KillSwitchFigures.ValidationMeans | agents/risk/engine.py:172-262 | A validation answers with its first obstacle; what it writes in each case. |
| KillSwitchSafety.OthersUnaffected | agents/risk/kill_switch.py:150-243 | No call for one user changes what another user is told. |
| KillSwitchSafety.RefusedExactlyWhenHeld | agents/risk/validators.py:50-80 | After any run of calls a user is refused iff the global switch was last turned on or what last held the user has not ended. |
| KillSwitchEngine.KillSwitch.HaltTrading | agents/risk/kill_switch.py:150-187 | Writes the halt with the expiry its trigger decides. |
| KillSwitchEngine.KillSwitch.EmergencyStop | agents/risk/kill_switch.py:225-243 | Sets the user stop and the halt. |
| KillSwitchEngine.KillSwitch.ResumeTrading | agents/risk/kill_switch.py:189-195 | Deletes the three keys of the user. |
| KillSwitchEngine.RiskEngine.CheckConsecutiveLosses | agents/risk/validators.py:238-275 | The cooldown check and its write. |
| KillSwitchEngine.RiskEngine.Validate | agents/risk/engine.py:172-262 | The checks in order with the halts and cooldowns they write. |
| CandidateSafety.OtherScoreOnlyVetoes | agents/decision/candidate_generator.py:302-493 | Changing the other side's score leaves a candidate the same in every figure as long as it is not strong, and turns it into HOLD once it is; never into the other side. |
| CandidateSafety.SizeIsCapped | agents/decision/candidate_generator.py:429-452 | Leverage and margin ratio stay within their caps and the notional is what they and the balance make, up to rounding. |
| CandidateSafety.StopStandsAtLevel | agents/decision/candidate_generator.py:242-275 | Without a strategy stop, a candidate's stop stands, to the half cent, at the nearest level on the losing side; without any such level it is exactly clear of the volatility and the least percentage, whichever is greater. |
| CandidateSafety.TargetStandsAtLevel | agents/decision/candidate_generator.py:258-286 | Without a strategy target, a candidate's target stands at the nearest level beyond the price, and does so whenever every such level is far enough, or else it is the required multiple of the way to the stop, to the cent. |
| CandidateSafety.StrategyExitsStand | agents/decision/candidate_generator.py:242-288 | In every candidate a strategy stop on the losing side is taken, to the half cent; a strategy target on the other side is never drawn nearer: it is taken, or moved out to the required multiple of the way to the stop, to the cent. |
| CandidateSafety.CostsAreTwoSided | agents/decision/candidate_generator.py:456-459 | Fees and slippage are charged for both ways of the notional. |
| CandidateSafety.LiquidationLosesMargin | agents/decision/candidate_generator.py:291-299 | The liquidation price is one part in the leverage of the entry away on the losing side, to the cent. |
| Candidate.NearestBelow | agents/decision/candidate_generator.py:167-169 | The greatest level below a price, if there is one. |
| Candidate.NearestAbove | agents/decision/candidate_generator.py:172-174 | The least level above a price, if there is one. |
| CandidateSafety.ExitsKeepReward | agents/decision/candidate_generator.py:234-288 | Both exits are cent prices and the way to the target is the required multiple of the way to the stop, up to 0.005 times one plus the multiple. |
| CandidateSafety.BuildFigures | agents/decision/candidate_generator.py:414-493 | Net figures are the gross ones with both costs exactly; gross figures are within half a money quantum of the notional share of the move. |
| CandidateSafety.CandidateIsSound | agents/decision/candidate_generator.py:302-493 | Every candidate has its stop and target on the correct sides of the price read, on the side chosen by the scores, with that reward and those net figures. |
| CandidateFigures.MadeExactly | agents/decision/candidate_generator.py:302-411 | A candidate is made exactly when the strategy is known, nothing forbids trading, the risk is within its maximum, there is a positive price, exactly one score is strong and that side has exits; it has the side of the strong score and those exits. |
| CandidateFigures.FiguresMean | agents/decision/candidate_generator.py:414-493 | Every candidate carries the leverage and the margin ratio asked for wherever they lie within their caps, the notional they make, the worth and the costs of its two ways, its ratio, its price to the cent and its liquidation price. |
| CandidateFigures.ApprovedExactly | agents/risk/engine.py:444-622 | A candidate is approved exactly when its figures are within their limits, its liquidation price lies beyond the stop by the buffer and nothing else speaks against it. |
| CandidateSafety.ApprovedIsOrdered | agents/risk/engine.py:606-622 | An approved candidate stands in the order liquidation, stop, entry, target, reversed for a short. |
| CandidateSafety.CentPricesKeepReward | agents/decision/candidate_generator.py:234-288 | At cent prices the required ratio of two survives rounding. |
| CandidateSafety.CentPricesPassGate | agents/risk/engine.py:444-463 | So a candidate at cent prices passes a reward gate of two. |
| CandidateSafety.ReachesTwo | agents/risk/engine.py:444-463 | Every candidate reaches a ratio of two if and only if its way to the target is at least 1.99995 times its way to the stop. |
| CandidateSafety.CentDoomsCandidate | agents/risk/engine.py:444-463 | Off the cent a candidate can be made with a ratio of one that no gate of two passes. |
| CandidateSafety.EntryMeetsExits | agents/decision/candidate_generator.py:468-493 | The rounded entry of every candidate equals its stop, or its target, if and only if the price read lies within half a cent of it. |
| CandidateSafety.EntryMayMeetStop | agents/decision/candidate_generator.py:468-493 | A concrete candidate whose rounded entry equals its stop. |

## Left out

- Collectors, Redis and database clients, publishers, alerts, metrics export, scripts, frontend and migrations: input and output only.
- The AI clients, prompts and parsing: a review is an arbitrary result.
- Indicator, regime, chart, news, derivatives and strategy scoring: threshold ladders read off one branch; their results are inputs.
- Sharpe, Sortino, CAGR, profit factor and the other summary ratios: float powers and averages.
- `agents/shadow/strategies` and the experiment wrapper around it.
- Messages, logging, identifiers and latencies: an identifier is a counter in the paper account and is absent elsewhere.
- Display figures that nothing reads back: percentage profit, duration, the liquidation price and maximum profit of paper positions.
- 28-digit decimal rounding of division and multiplication, and the rounding of binary floats: arithmetic is exact.
- Several clock readings in one paper call: a call reads the clock once; the kill switch keeps its four readings apart.
- Cancellation of an order call by the step timeout: gateway calls are atomic, so the execution step succeeds at its first attempt.
- Exceptions raised between pipeline steps, and agents that succeed with nothing to return: inputs are well formed.
- The `is_funding_bar` field that `mark_funding_bars` writes: the model computes the mark from the bar's time.
- The construction-time rejection of live mode together with paper mode, and the choice between testnet and live.
- Kill-switch calls that the risk engine does not make: `set_cooldown`, `clear_cooldown`, and halts for API failures, liquidations and system errors.
- Concurrent calls for one user: calls are taken one at a time.
- `round_exit_price`, `accumulate_for_trade` and `calculate_liquidation_distance`: one-branch helpers that the modelled paths do not call.
- RunKeepsRiskBounded: takes the risk figure given to the check to be the stop risk of the added quantity, which is the caller's to compute.
- LossWindows: takes a history that does not run ahead of the clock.
- ApprovedIsOrdered: takes a liquidation buffer that is not negative, as its default 0.001 is; a negative one could be configured.
- KillSwitchEngine.RiskEngine.Validate: the checks before and after the loss checks enter as their outcomes.
- Candidate.ValidateCandidate: the checks that do not read the candidate's prices enter as one outcome, and the order of rejection codes is not kept.
- LossAtStopBounds: takes no more funding events than the trade was sized for; more are not reserved.
- BacktestModel.TestSignal: prices are positive and leverage at least 1, as the signal generator makes them.
- AcceptedExposure: takes leverages of at least 1, which is the system's absolute minimum though the code passes negative ones on (NegativeLeverageIsAccepted), and a fee rate up to the default; what is booked is not what is lost at a stop, see PaperStops.
- FreshEntryLoss: takes leverages of at least 1; a position opened at a negative one counts as free money.
- SlippageCountsTwice: takes rates and volumes that are not negative.
- LockoutEndsOnlyByClosing: takes a fee rate from 0 to below 1; at 1 a long pays all it sells for.
- AnySignalCountsTwice: takes costs that are not negative, slippage of at most one percent, no funding, room for one trade, and prices at which the fee of the smallest lot does not round to nothing.
- FeesCountTwice: takes no funding; with funding ChargesCountTwice and LeavingIsChargedAgain say what is taken twice.
- OnlyEntryEnlarges: an exchange keeps reduce-only orders from enlarging a position by its own rules; those are not part of this model.
- PaperEngine.PositionManager.OpenPosition: the liquidation price, original margin and maximum profit, which nothing on the modelled paths reads back.
- PaperEngine.PositionManager.ClosePosition: the percentage profit and duration of the record.
- PaperEngine.PositionManager.ApplyDca: the recomputed liquidation price and maximum profit.
- BacktestEngine.Run: the summary metrics of the result other than the drawdowns.
- OpenedMeans: the entry fee that opening returns is the caller's to book and is not part of the position.
- EntryMeans: in the backtest, takes a trade whose entry price is positive, as it is for slippage below one hundred percent.
