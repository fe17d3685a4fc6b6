# Verified models of a Taiwan index-futures trading system

A Dafny model of the stateful cores of `tfx_quant`, with proofs over every run of them.

| part | files | what it is |
|---|---|---|
| Strategy engine | `MovingAverage`, `Engine`, `EngineProofs`, `EngineWait`, `EngineRules` | the state machine over bars, trade prices, clock ticks and fills that decides entries, stops, pullback exits and the 04:55 flatten |
| History replay | `ReplayModel`, `Replay`, `SkipProofs`, `SkipExact`, `ReplayProofs`, `ReplayLog`, `ReplayPricing`, `ReplayWarmup`, `FullReplay` | the replay that asks the engine for a price band and jumps to the first recorded trade outside it, proved equal to the replay that feeds every recorded trade; and the warm-up every entry has behind it |
| FIFO ledger | `Fifo`, `FifoProofs`, `LedgerProofs`, `LedgerTrades` | matching of fills into realized trades, with lot, cash, fee and tax conservation |
| Calendar and live bars | `Calendar`, `CalendarDays`, `Aggregator`, `AggregatorProofs`, `AggregatorExact` | the 60-minute grid of each session and the incremental aggregation of trades into bars with a "complete" flag, proved exact |
| Orders | `Orders`, `OrderManager`, `ManagerProofs`, `ReconcileProofs`, `OrderBranches`, `BookGrowth` | one order's lifecycle, and the manager with idempotent submission, one live order per contract and bounded exposure |
| Workflows | `Reversal`, `ReversalService`, `ReversalProofs`, `ReversalHalt`, `ReversalQuery`, `ReversalBranches`, `ReversalResume`, `ReversalProgress`, `ReversalRuns`, `Flatten`, `RiskSupervisor`, `FlattenProofs`, `FlattenHalt`, `FlattenBranches`, `FlattenResume`, `FlattenProgress`, `FlattenRuns` | the persisted reversal and end-of-day flatten protocols above the manager |

Each part has a model on values, a class or a set of methods in the imperative form of the source whose
contracts tie every new state to that model, and lemmas about the model. Run `dafny verify dfyconfig.toml`.

## How the surroundings are modelled

- Prices and money are `real`; `Decimal` rounding to 28 digits is ignored. Timestamps are integers
  (microseconds of Taipei time), so a date is a quotient and a time of day a remainder.
- A repository is a table whose writes are atomic. The trace of the order book records every write, every
  gateway call and every answer to a position query, in order. A process may die before any effect: each
  operation takes the number of effects left, and what was written stays.
- Broker answers, health flags, clocks, fresh ids and the position lookup are parameters. An exception is a
  result value, or `alive == false` in a workflow handler.
- Handlers are atomic steps, as they are under each service's lock. In the workflow runs a fill event is
  announced after its write (order_manager.py:453-470), ids are fresh, and other users of the manager do not
  use a workflow's keys.
- `Config.Usable()` says what the engine's configuration needs to work at all: positive windows, a positive
  activation threshold (otherwise the retracement may divide by zero) and a band that does not cross midnight.

## Where the code differs from what one would expect

- The replay prices the 04:55 exit at the last trade before it, says the comment at history_replay.py:191-192.
  When the last trades lie in a hole before the bar and none follow from the bar's start on, the search
  cursor has moved past them and the exit uses an older price: `StaleFlattenExample`. When exactly is
  `FlattensAtLastTradeExactly`: the price kept is the most favourable trade of the hole if it reaches the
  favourable edge of the watch band, and the price before the hole otherwise.
- A bar that reached the stop without a recorded trade doing so gets an assumed fill, also when the window ends
  at 04:55 inside the bar: `AssumedFillExample`. `SkipAgreesExactly` shows this is the only way the skip differs.
- Delivering a report twice is not always the same as once: an illegal report parks the order without using
  its sequence number, and the duplicate may then be legal, or park it again at a later time
  (`IllegalReportReplay`, `RedeliveredReport`, `IllegalReplayExample`). A late illegal report on a terminal order
  raises out of the handler and writes nothing.
- `FILLED` can be reached by a report without fills: `FilledByReportExample`, and exactly when by
  `FilledWithLotsOpen`. The workflows trust the status, and are safe because they ask for the position after it.
- Resuming a reversal from `FLAT_CONFIRMED` sends the entry without asking again. `ReversalIsSafe` therefore
  promises a confirming query after the fill, not one just before the entry: `OutdatedConfirmationExample`.
  `EntryFollowsItsQuery` says exactly when the two belong together.
- The flatten handler takes any fill of a followed order for the close (risk_supervisor.py:606-622). That this
  is right rests on the map from orders to workflows, which is part of the invariant.
- The key of a scheduled flatten holds contract and date but no account (risk_supervisor.py:290-293): a second
  account selected on the same date gets no scheduled flatten of its own for that contract.

## Model

| member | source | states |
|---|---|---|
| `MovingAverage.MovingAverageSeries` | src/tfx_quant/domain/moving_average.py:35-49 | the loop returns, oldest first, the mean of every complete window ending at one of the newest `count` closes |
| `MovingAverage.Reverse` | src/tfx_quant/domain/moving_average.py:48 | the in-place reversal: element `k` of the result is element `n-1-k` of the input |
| `MovingAverage.SmaStep` | src/tfx_quant/domain/moving_average.py:26-32 | one more close moves the average by exactly (newest close - close leaving the window) / window |
| `MovingAverage.SlopeIsWindowComparison` | src/tfx_quant/domain/moving_average.py:52-61 | the slope is up (down) if and only if there are more than `window` closes and the newest is above (below) the close `window` bars earlier |
| `MovingAverage.TruncationKeepsSeries` | src/tfx_quant/domain/moving_average.py:35-49 | the series depends on the last `window + count - 1` closes only |
| `MovingAverage.CountSmallChanges` | src/tfx_quant/domain/strategy_signal_engine.py:396-402 | the loop over the newest one-bar changes counts the trailing run under the threshold |
| `Engine.CandleStreakCounter.OnBarClosed` | src/tfx_quant/domain/bar_aggregator.py:32-42 | a same-colour close extends the streak, another colour starts one, a doji clears it |
| `Engine.StrategySignalEngine.OnBarClosed` | src/tfx_quant/domain/strategy_signal_engine.py:233-260 | a bar of another contract is refused unchanged; otherwise the whole new state and the decision are those of the model function whose laws are below |
| `Engine.StrategySignalEngine.OnTradePrice` | src/tfx_quant/domain/strategy_signal_engine.py:278-295 | new state and decision of a trade price, every field |
| `Engine.StrategySignalEngine.OnClockTick` | src/tfx_quant/domain/strategy_signal_engine.py:262-276 | new state and decision of a clock tick, every field |
| `Engine.StrategySignalEngine.DecideNow` | src/tfx_quant/domain/strategy_signal_engine.py:432-441 | the rules in priority order: end of day, stop, pullback (with its effect on the tracked peak), entry |
| `Engine.StrategySignalEngine.CheckProfitPullback` | src/tfx_quant/domain/strategy_signal_engine.py:513-550 | activation, peak update and the pullback exit, in that order |
| `Engine.StrategySignalEngine.OnFillConfirmed` | src/tfx_quant/domain/strategy_signal_engine.py:297-334 | opening fills append lots and rebase the peak, closing fills count down to a reset, anything beyond the lots is refused |
| `Engine.StrategySignalEngine.ResetMarketHistory` | src/tfx_quant/domain/strategy_signal_engine.py:336-342 | closes, streak and the waiting flag are cleared and the position is kept |
| `EngineProofs.StepKeepsSound` | src/tfx_quant/domain/strategy_signal_engine.py:297-366 | every event keeps: flat if and only if no lots, at most two lots, the stop basis is the mean of the lots, tracking is active exactly when a positive peak is stored |
| `EngineProofs.RunKeepsSound` | src/tfx_quant/domain/strategy_signal_engine.py:297-548 | the same in every run of bars, prices, ticks, fills and resets, so the retracement never divides by zero |
| `EngineProofs.PeakIsRunningMaximum` | src/tfx_quant/domain/strategy_signal_engine.py:513-548 | in every run the stored peak, as a price, is the most favourable price looked at since tracking began |
| `EngineProofs.FillKeepsPeakPrice` | src/tfx_quant/domain/strategy_signal_engine.py:297-334 | a fill that leaves tracking active keeps the side and the absolute peak price |
| `EngineProofs.InsideBandIsQuiet` | src/tfx_quant/domain/strategy_signal_engine.py:212-229 | outside [04:55, 10:45) a trade strictly inside the watch band gives no signal and changes nothing but the last price |
| `EngineProofs.ExitsExactlyPastAdverseEdge` | src/tfx_quant/domain/strategy_signal_engine.py:477-548 | with no active order, a trade at or past the adverse edge exits; with a positive pullback ratio, if and only if |
| `EngineProofs.TrackingMovesOnlyPastFavourableEdge` | src/tfx_quant/domain/strategy_signal_engine.py:212-229 | short of the adverse edge, the stored peak moves if and only if a trade reaches the favourable edge of the watch band, and passes it once a peak is stored |
| `EngineProofs.ExitsAtFollowedEdge` | src/tfx_quant/domain/strategy_signal_engine.py:477-548 | for every configuration: a trade exits if and only if it is at or past the adverse edge of the peak followed up to and including it |
| `EngineProofs.RunRemembers` | src/tfx_quant/domain/strategy_signal_engine.py:246-252 | in every run the kept closes are the last ones of the whole bar history since the reset and the streak is the trailing run of its colour |
| `EngineProofs.AveragesIgnoreTruncation` | src/tfx_quant/domain/strategy_signal_engine.py:380-395 | the averages computed from the kept closes are those of the whole history |
| `EngineWait.WaitIsExact` | src/tfx_quant/domain/strategy_signal_engine.py:396-428 | in every run from a fresh engine the wait for a breakout is on if and only if some reliable bar since the last reset or opening fill had its `flatLookback + 1` newest moves of the average, each the newest close against the one `window` bars earlier, all under the threshold |
| `EngineWait.EntryExactly` | src/tfx_quant/domain/strategy_signal_engine.py:552-668 | in every run an entry is signalled if and only if: enough closes since the reset, two trailing candles of that colour, the newest close beyond the one `window` bars earlier, no such wait or a newest move of at least the threshold, data reliable, no order or doubt, outside the band, flat; all in terms of the closed bars |
| `EngineRules.RuleDecides` | src/tfx_quant/domain/strategy_signal_engine.py:432-550 | every evaluation, by price: inside the band of an open position the flatten speaks, else the stop if the loss has reached it, else the pullback if the allowed share of the followed peak is given back; an order in flight silences each, and nothing else closes or adds to a position |
| `EngineRules.KeyDecides` | src/tfx_quant/domain/strategy_signal_engine.py:698-719 | a decision has a key exactly when it signals: contract, rule, and the calendar date for the flatten or the newest bar for all others |
| `EngineRules.ForeignBarsAreRefused` | src/tfx_quant/domain/strategy_signal_engine.py:233-245 | a bar of another instrument or contract is not judged and changes nothing, and only such a bar |
| `EngineRules.PositionIsFills` | src/tfx_quant/domain/strategy_signal_engine.py:297-334 | in every run the signed lots held are the sum of the fills that counted, partial closes and closes beyond the held lots included |
| `EngineRules.BasisIsAverage` | src/tfx_quant/domain/strategy_signal_engine.py:297-354 | in every run the lots kept are those opened since the position was last flat and the stop basis times their number is what they cost |
| `EngineRules.AveragingRebases` | src/tfx_quant/domain/strategy_signal_engine.py:305-327 | an opening fill keeps profit tracking on if and only if the absolute peak price is still a gain over the new average, at that price, and ends the wait for a breakout |
| `HistoryReplay.AcceptDecision` | src/tfx_quant/application/strategy_signal/history_replay.py:147-164 | a passed signal is logged with side and size and applied to the engine; any other decision changes nothing |
| `HistoryReplay.FeedExits` | src/tfx_quant/application/strategy_signal/history_replay.py:92-145 | the skipping loop terminates and returns exactly the exits, engine and cursor of the model search |
| `HistoryReplay.FeedTick` | src/tfx_quant/application/strategy_signal/history_replay.py:196-224 | exits up to 04:55, then the last trade before it, then the clock |
| `HistoryReplay.FeedBetween` | src/tfx_quant/application/strategy_signal/history_replay.py:193-226 | the day loop between two closes |
| `HistoryReplay.ReplayOne` | src/tfx_quant/application/strategy_signal/history_replay.py:166-241 | one record: contract switch, hole, warm-up, events between closes, the close |
| `HistoryReplay.ReplayHistoryState` | src/tfx_quant/application/strategy_signal/history_replay.py:79-242 | the whole replay: trades, final engine and review records |
| `SkipProofs.SkipRefinesFeed` | src/tfx_quant/application/strategy_signal/history_replay.py:92-145 | for every tape and cursor outside the flatten band the skip either agrees with feeding every trade, or takes exactly one exit, at the stop or the open beyond it |
| `SkipExact.FeedLeavesOpen` | src/tfx_quant/application/strategy_signal/history_replay.py:138-144 | feeding a run of trades leaves the position open if and only if none is at or past the adverse edge for the running peak |
| `SkipExact.SkipAgreesExactly` | src/tfx_quant/application/strategy_signal/history_replay.py:92-145 | the skip finds the same exits and the same engine but for the last price if and only if the bar did not reach a stop that every trade of the window survives, read off the tape; otherwise it takes exactly one exit more |
| `SkipExact.AssumedFillExample` | src/tfx_quant/application/strategy_signal/history_replay.py:121-137 | a bar and a tape, the window ending at 04:55 inside the bar, for which the skip assumes an exit that feeding does not make |
| `SkipProofs.SkipAgreesWhenStopIsRecorded` | src/tfx_quant/application/strategy_signal/history_replay.py:92-145 | if a bar that reached the stop has a window trade that did, skipping equals feeding every trade |
| `SkipProofs.StopAlwaysFills` | src/tfx_quant/application/strategy_signal/history_replay.py:121-137 | the synthetic trade at the stop closes the position at its price and time, at any time of day |
| `SkipProofs.FeedReachesStop` | src/tfx_quant/application/strategy_signal/history_replay.py:138-144 | once a fed trade reaches the stop the position is closed |
| `ReplayPricing.OutsideBandUntilTick` | src/tfx_quant/application/strategy_signal/history_replay.py:195-226 | with no 04:55 in between, an instant after one outside the band is outside it |
| `ReplayPricing.ReplaySkipsSafely` | src/tfx_quant/application/strategy_signal/history_replay.py:92-145 | in every reachable replay the searches of a held position lie outside the flatten band, so skipping is exact there |
| `ReplayProofs.TradeExitsSpan` | src/tfx_quant/application/strategy_signal/history_replay.py:92-145 | a search makes at most one exit, inside its window, and leaves the engine flat after it or the position unchanged |
| `ReplayProofs.AtTickFlattens` | src/tfx_quant/application/strategy_signal/history_replay.py:196-224 | at a 04:55 instant the position is flat afterwards, with at most one exit |
| `ReplayProofs.BetweenSpan` | src/tfx_quant/application/strategy_signal/history_replay.py:193-226 | between two closes at most one exit, and none later than any 04:55 instant in between |
| `ReplayPricing.FlattenPrice` | src/tfx_quant/application/strategy_signal/history_replay.py:202-224 | the 04:55 exit is priced at the last trade behind the search cursor, or else at what the engine last saw |
| `ReplayPricing.FlattensAtLastTrade` | src/tfx_quant/application/strategy_signal/history_replay.py:191-224 | with no uncovered hole the 04:55 exit is at the last trade up to then |
| `ReplayPricing.HoleCarries` | src/tfx_quant/application/strategy_signal/history_replay.py:101-120 | a search of a hole that closes nothing leaves as last price the most favourable trade if it reaches the favourable edge, and otherwise the price before |
| `ReplayPricing.UncoveredHolePrice` | src/tfx_quant/application/strategy_signal/history_replay.py:103-120 | with the hole uncovered, the 04:55 exit is taken at that price |
| `ReplayPricing.FlattensAtLastTradeExactly` | src/tfx_quant/application/strategy_signal/history_replay.py:191-224 | a position open at 04:55 is flattened at the documented price, the last trade up to then, if and only if that trade is not in an uncovered hole or is the one carried out of it |
| `ReplayPricing.StaleFlattenExample` | src/tfx_quant/application/strategy_signal/history_replay.py:166-226 | a replay state and a record whose replay exits at 04:55 at the previous close and not at the last trade |
| `FullReplay.FirstTickAgrees` | src/tfx_quant/application/strategy_signal/history_replay.py:196-224 | up to the first 04:55 instant, skipping and feeding every trade make the same exits |
| `FullReplay.ReplayFeedsEverything` | src/tfx_quant/application/strategy_signal/history_replay.py:79-242 | over time-ordered records whose trades respect the bars, record every stop that was reached and do not end in an uncovered hole, the replay equals one that feeds every recorded trade: trades with their decisions, final engine, review records |
| `ReplayLog.CloseShape` | src/tfx_quant/application/strategy_signal/history_replay.py:227-235 | a close makes at most one trade: an opposite exit when open, a two-lot entry outside the band when flat |
| `ReplayLog.ThroughAdds` | src/tfx_quant/application/strategy_signal/history_replay.py:186-235 | one record keeps the log ordered with distinct keys and tells which trade opened the position |
| `ReplayLog.EveryReplayIsOk` | src/tfx_quant/application/strategy_signal/history_replay.py:166-242 | that invariant after every replay over time-ordered records |
| `ReplayLog.TradesAreOrderedWithDistinctKeys` | src/tfx_quant/domain/strategy_signal_engine.py:698-719 | no two trades of a replay share an intent key, and they are in time order |
| `ReplayLog.OneContractAlternates` | src/tfx_quant/application/strategy_signal/history_replay.py:147-242 | for one contract, two-lot entries and opposite two-lot exits strictly alternate, the engine is open exactly after an unmatched entry, and nothing is held across a 04:55 instant covered by the records |
| `ReplayLog.NetStaysWhole` | src/tfx_quant/application/strategy_signal/history_replay.py:147-164 | after every trade of such a log the position is -2, 0 or 2 |
| `SkipExact.AssumedFillIsNearestOpen` | src/tfx_quant/application/strategy_signal/history_replay.py:121-137 | a bar reached the stop if and only if its range holds a price at or past it, and the assumed fill is the one of those nearest the open |
| `ReplayWarmup.WarmUpIsLongest` | src/tfx_quant/application/strategy_signal/history_replay.py:166-191 | the warm-up of a list of records, defined on the records alone, is the longest suffix of complete MXF bars of one contract, each ending at the next close after the one before |
| `ReplayWarmup.ReviewIsWarmUp` | src/tfx_quant/application/strategy_signal/history_replay.py:166-241 | after every replay the review records are that suffix |
| `ReplayWarmup.MemoryIsWarmUp` | src/tfx_quant/application/strategy_signal/history_replay.py:174-241 | after every replay over time-ordered records an engine holds exactly the closes and the candle streak of the review records, and waits for a breakout exactly when one of them found the average settled and no entry was logged since |
| `ReplayWarmup.EntriesAreWarm` | src/tfx_quant/application/strategy_signal/history_replay.py:174-235 | every entry a replay logs belongs to a record that closes with the full warm-up behind it, outside the band, with the momentum of its side over the warm-up and no standing wait; and with no position open every such record enters |
| `Fifo.MatchFills` | src/tfx_quant/application/trade_reports/_fifo.py:63-156 | the pass fails exactly when some fill has no positive multiplier; otherwise its trades and open lots are those of the posted ledger |
| `Fifo.MatchFill` | src/tfx_quant/application/trade_reports/_fifo.py:73-139 | the inner loop consumes the front of the queue and opens a lot with what is left |
| `Fifo.Flatten` | src/tfx_quant/application/trade_reports/_fifo.py:140-155 | open lots listed key by key in order of first use |
| `FifoProofs.CloseFrontUnits` | src/tfx_quant/application/trade_reports/_fifo.py:75-130 | closing removes exactly the matched units from the front, in order, and stops only when one side runs out |
| `FifoProofs.FifoUnits` | src/tfx_quant/application/trade_reports/_fifo.py:64-156 | against a reference that looks at the net position only: the units consumed, then the units still queued, are the units opened, in order; the closing units are those that reduce the position; the queue is one-sided and holds the net |
| `FifoProofs.QueueConserves` | src/tfx_quant/application/trade_reports/_fifo.py:64-156 | any per-lot quantity is conserved over one queue |
| `FifoProofs.FewMatches` | src/tfx_quant/application/trade_reports/_fifo.py:64-156 | matches and open lots together never exceed the fills |
| `LedgerProofs.KeysAreIndependent` | src/tfx_quant/application/trade_reports/_fifo.py:64-73 | each account and contract is matched as if it were alone |
| `LedgerProofs.QueuesAreOneSided` | src/tfx_quant/application/trade_reports/_fifo.py:73-139 | every queue is one-sided and holds its key's net position |
| `LedgerProofs.LedgerConserves` | src/tfx_quant/application/trade_reports/_fifo.py:63-156 | any per-lot quantity is conserved over the whole ledger, and matches and open lots never exceed the fills |
| `LedgerProofs.MatchesArePaired` | src/tfx_quant/application/trade_reports/_fifo.py:75-111 | every match pairs opposite sides of one account and contract |
| `LedgerProofs.CashIdentity` | src/tfx_quant/application/trade_reports/_fifo.py:63-156 | signed cash of all fills equals exact realized gross minus the signed cost of the open lots |
| `LedgerProofs.FeesConserved` | src/tfx_quant/application/trade_reports/_fifo.py:78-81 | every commission is divided without loss over matches and open lots |
| `LedgerProofs.RoundsToNearest` | src/tfx_quant/domain/trade_report.py:135-137 | a rounded amount is whole, at most half a unit away, ties away from zero |
| `LedgerProofs.RoundingBound` | src/tfx_quant/application/trade_reports/_fifo.py:83 | the rounded gross total is within half a unit per match of the exact one |
| `LedgerProofs.SortSorts` | src/tfx_quant/application/trade_reports/_fifo.py:66 | the pass runs over the same fills in time order, ties by id |
| `LedgerProofs.InputOrderIsIrrelevant` | src/tfx_quant/application/trade_reports/_fifo.py:66 | with distinct ids the result does not depend on the order of the input |
| `LedgerTrades.TradesDescribeFills` | src/tfx_quant/application/trade_reports/_fifo.py:75-111 | every trade of a priced ledger names an earlier fill and a later one of the other side of the same account and contract, on the day of the closing one; gross, commission and tax are each the nearest whole amount to what those lots won or bear, and net is their difference |
| `LedgerTrades.TaxesConserved` | src/tfx_quant/application/trade_reports/_fifo.py:79-82 | every tax is divided without loss over matches and open lots |
| `LedgerTrades.NetBalances` | src/tfx_quant/application/trade_reports/_fifo.py:63-156 | the realized net plus what open lots carry is the balance of the whole ledger (cash less charges) within one and a half units a trade |
| `LedgerTrades.OrderIsFirstUse` | src/tfx_quant/application/trade_reports/_fifo.py:64-73 | keys are listed in the order in which the fills first use them, each used key once |
| `LedgerTrades.OpenLotsByFirstUse` | src/tfx_quant/application/trade_reports/_fifo.py:140-155 | so open lots are listed account by account and contract by contract in that order |
| `LedgerTrades.TiesAreAlphabetical` | src/tfx_quant/application/trade_reports/_fifo.py:66 | fills of one instant are ordered by id as in a dictionary: by the first character that differs, a prefix first |
| `TradingCalendar.ListBoundaries` | src/tfx_quant/domain/trading_calendar.py:69-84 | the cursor loop lists the hourly pieces of one session window |
| `TradingCalendar.FindBoundary` | src/tfx_quant/domain/trading_calendar.py:111-125 | the nested loops over days, sessions and pieces return the first hit |
| `TradingCalendar.FindInDay` | src/tfx_quant/domain/trading_calendar.py:111-125 | the part of that search inside one day |
| `CalendarProofs.GridPartitions` | src/tfx_quant/domain/trading_calendar.py:69-84 | a window is cut into contiguous pieces, all but the last exactly one hour |
| `CalendarProofs.GridCovers` | src/tfx_quant/domain/trading_calendar.py:69-84 | an instant is in the window if and only if it is in one of the pieces, and the pieces are disjoint |
| `CalendarProofs.ContainingIsComplete` | src/tfx_quant/domain/trading_calendar.py:111-125 | a boundary is found if and only if the instant lies in a session of some trading day: searching one day either way is enough |
| `CalendarProofs.ContextAgrees` | src/tfx_quant/domain/trading_calendar.py:127-149 | for non-overlapping sessions the open label of that boundary leads back to the same day and session |
| `CalendarProofs.BoundariesFormGrid` | src/tfx_quant/domain/trading_calendar.py:111-125 | any two boundaries are equal or disjoint |
| `CalendarDays.WeekdayCycles` | src/tfx_quant/domain/trading_calendar.py:46-47 | 1970-01-01 is a Thursday and the days of the week follow each other |
| `CalendarDays.WindowIsClock` | src/tfx_quant/domain/trading_calendar.py:61-84 | an instant is in a session of a day if and only if the clock says so: between start and end of that day, and before an early close; across midnight until the end on the next day, early close or not |
| `CalendarDays.OpenExactly` | src/tfx_quant/domain/trading_calendar.py:111-125 | an instant has a bar if and only if the day or night session of some trading day is open at it; the bar carries that day and that session |
| `Aggregator.RealtimeBarAggregator.AcceptEvent` | src/tfx_quant/application/market_data/realtime_bar_aggregator.py:86-158 | new forming bar, new gap list and emitted bars of one event |
| `Aggregator.RealtimeBarAggregator.Prune` | src/tfx_quant/application/market_data/realtime_bar_aggregator.py:94-108 | gaps over before the boundary are dropped and open ones end at this trade |
| `Aggregator.RealtimeBarAggregator.AdvanceTo` | src/tfx_quant/application/market_data/realtime_bar_aggregator.py:160-175 | the forming bar is emitted exactly when the clock has passed its boundary |
| `Aggregator.RealtimeBarAggregator.Mark` | src/tfx_quant/application/market_data/realtime_bar_aggregator.py:177-185 | the gap is remembered, and an overlapping forming bar is marked |
| `AggregatorProofs.EveryRunIsGood` | src/tfx_quant/application/market_data/realtime_bar_aggregator.py:86-185 | the invariant of every run on one nondecreasing timeline |
| `AggregatorProofs.EmittedBarsAreBatches` | src/tfx_quant/application/market_data/realtime_bar_aggregator.py:110-199 | every emitted bar is the first, highest, lowest and last price and the volume of all the counted trades of its boundary; emitted boundaries strictly increase and are disjoint |
| `AggregatorProofs.CompleteBarsAreSound` | src/tfx_quant/application/market_data/realtime_bar_aggregator.py:86-185 | a bar that closes complete overlaps no gap reported by then, starts at or after the recording, and counts trades of one session |
| `CalendarGrid.CalendarIsGrid` | src/tfx_quant/application/market_data/realtime_bar_aggregator.py:64-77 | the calendar search satisfies what the aggregator assumes of its boundaries |
| `AggregatorExact.CompleteIsExact` | src/tfx_quant/application/market_data/realtime_bar_aggregator.py:86-185 | a bar closes complete if and only if no gap reported by then overlaps its boundary, no unbounded mark fell after its first trade, it starts no earlier than the recording, no trade of it was refused for its number, and its counted trades share one session with totals that never fall |
| `AggregatorExact.GapFreeIs` | src/tfx_quant/application/market_data/realtime_bar_aggregator.py:94-108 | no reported gap overlaps a boundary, gap by gap: each ends where its report says, or else at the first trade after the report at or after its start, or not at all |
| `AggregatorExact.OverlapIsShared` | src/tfx_quant/application/market_data/realtime_bar_aggregator.py:105-108 | a gap overlaps a boundary if and only if they share an instant |
| `AggregatorExact.TradesAreComplete` | src/tfx_quant/application/market_data/realtime_bar_aggregator.py:86-93 | a callback that is no trade, lacks time, price, quantity or total, or falls outside every session changes nothing; any other joins the batch of its boundary |
| `AggregatorExact.RepeatsAre` | src/tfx_quant/application/market_data/realtime_bar_aggregator.py:111-116 | a repeat has the time text, price, quantity and total of the last counted trade; its number and session do not matter |
| `AggregatorExact.EmittedExactly` | src/tfx_quant/application/market_data/realtime_bar_aggregator.py:110-175 | the bars emitted are those of the boundaries that held a trade and whose end a clock reading or a later trade has reached, no more and no fewer |
| `OrderMachine.OrderStateMachine.Transition` | src/tfx_quant/domain/order_state_machine.py:312-321 | a move is made exactly when the table lists it |
| `OrderMachine.OrderStateMachine.MarkCancelPending` | src/tfx_quant/domain/order_state_machine.py:234-239 | only an acknowledged or partially filled order becomes cancel-pending |
| `OrderMachine.OrderStateMachine.ToUnknown` | src/tfx_quant/domain/order_state_machine.py:241-252 | any live order can be parked, a terminal one cannot |
| `OrderMachine.OrderStateMachine.ApplyOrderReport` | src/tfx_quant/domain/order_state_machine.py:254-276 | stale reports are ignored, illegal ones change nothing, others set status and sequence number |
| `OrderMachine.OrderStateMachine.ApplyExecution` | src/tfx_quant/domain/order_state_machine.py:278-306 | stale, late or excessive fills are ignored; others add lots, average and sequence number |
| `OrderProofs.FillsAreAccounted` | src/tfx_quant/domain/order_state_machine.py:278-341 | over every sequence of events: filled lots are the sum of the applied fills and at most the order, average times filled is their notional, fully filled implies FILLED |
| `OrderProofs.RunProgresses` | src/tfx_quant/domain/order_state_machine.py:254-321 | over every sequence: identity kept, fills and sequence number never fall, terminal states absorb |
| `OrderProofs.FillReplayIsNoop` | src/tfx_quant/domain/order_state_machine.py:278-310 | a fill seen before changes nothing, whatever came in between |
| `OrderProofs.ReportReplayIsNoop` | src/tfx_quant/domain/order_state_machine.py:254-276 | nor does a report that was applied or stale |
| `OrderProofs.InsertedReplayChangesNothing` | src/tfx_quant/domain/order_state_machine.py:254-310 | so inserting replays anywhere in a run, whenever they are delivered, leaves the final record as it was |
| `OrderProofs.RedeliveredReport` | src/tfx_quant/application/order_management/order_manager.py:405-437 | whatever came in between, a report delivered again changes nothing if and only if its number has been passed, the order is terminal, or it is illegal and the order was parked at that instant |
| `OrderProofs.FilledWithLotsOpen` | src/tfx_quant/domain/order_state_machine.py:254-306 | over every sequence of events, an order with nothing filled ends FILLED with lots open if and only if a FILLED report was applied while lots were open |
| `OrderProofs.FilledByReportExample` | src/tfx_quant/domain/order_state_machine.py:254-276 | an acknowledged order with nothing filled, FILLED after one report |
| `OrderProofs.IllegalReportReplay` | src/tfx_quant/application/order_management/order_manager.py:405-437 | a report delivered twice in a row equals once if and only if it was not an illegal report to a live order whose status is legal from UNKNOWN or whose second delivery is later |
| `OrderProofs.IllegalReplayExample` | src/tfx_quant/application/order_management/order_manager.py:405-437 | a FILLED report ahead of its acknowledgement: parked first, filled by its duplicate |
| `OrderManagement.WorstCaseNetPositionRange` | src/tfx_quant/domain/order_state_machine.py:197-216 | the loop computes the range whose exactness is proved below |
| `OrderManagement.OrderManager.SubmitOrder` | src/tfx_quant/application/order_management/order_manager.py:171-323 | every refusal leaves the table alone; otherwise persist, stage, call, in that order, cut anywhere |
| `OrderManagement.OrderManager.PersistAndSend` | src/tfx_quant/application/order_management/order_manager.py:215-323 | the effects in order, the row parked when the call raises |
| `OrderManagement.OrderManager.OnEvent` | src/tfx_quant/application/order_management/order_manager.py:383-490 | applied events are stored, illegal ones park the order, the rest changes nothing |
| `OrderManagement.OrderManager.CancelOrder` | src/tfx_quant/application/order_management/order_manager.py:325-355 | the cancel is stored before the gateway is asked |
| `OrderManagement.OrderManager.ReconcileOne` | src/tfx_quant/application/order_management/order_manager.py:565-606 | all reports, then all fills, under one sequence gate; nothing new parks the order |
| `OrderManagement.OrderManager.SweepTimeouts` | src/tfx_quant/application/order_management/order_manager.py:494-528 | every order silent for too long is parked, then reconciled with the answer of a query |
| `ManagerProofs.StepKeepsOk` | src/tfx_quant/application/order_management/order_manager.py:171-606 | every operation, cut after any effect, keeps: rows valid, keys distinct, one live order per account and contract, calls after their stored intent |
| `ManagerProofs.RunKeepsOk` | src/tfx_quant/application/order_management/order_manager.py:171-606 | the same after every run |
| `ManagerProofs.EachKeyIsCalledAtMostOnce` | src/tfx_quant/application/order_management/order_manager.py:171-323 | over every run with crashes, a key reaches the gateway at most once, directly after its intent was stored as SUBMITTING and with its terms, and at most one live order exists per account and contract |
| `ManagerProofs.WorstCaseIsExact` | src/tfx_quant/domain/order_state_machine.py:197-216 | a net position lies in the range if and only if some partial fill of the active orders reaches it |
| `ManagerProofs.ExposureIsFolded` | src/tfx_quant/application/order_management/validation.py:18-61 | position plus worst case of the active orders is a fold over all orders |
| `ManagerProofs.LaterNarrows` | src/tfx_quant/domain/order_state_machine.py:254-306 | no report or fill ever widens that range |
| `ManagerProofs.RunKeepsCapped` | src/tfx_quant/application/order_management/validation.py:18-61 | with truthful position lookups every run keeps the range within two lots |
| `ManagerProofs.PositionStaysWithinCap` | src/tfx_quant/application/order_management/validation.py:18-61 | so whatever the live orders still fill, the position stays in [-2, 2] |
| `BookGrowth.SubmitExtends` | src/tfx_quant/application/order_management/order_manager.py:171-323 | a submission calls the gateway, if at all, with its own terms, and the row it returns carries its key |
| `BookGrowth.StepExtends` | src/tfx_quant/application/order_management/order_manager.py:171-606 | every operation only extends the table and the trace, and none but a submission calls the gateway |
| `OrderBranches.TransitionsByTarget` | src/tfx_quant/domain/order_state_machine.py:60-115 | the transition table read by target: what may lead to each status |
| `OrderBranches.LastNewsDecides` | src/tfx_quant/domain/order_state_machine.py:254-306 | over every sequence of events the record is what the last event that counted left, by its own terms, and no later event counts |
| `OrderBranches.SubmitDecides` | src/tfx_quant/application/order_management/order_manager.py:171-214 | each answer of a submission, if and only if, in the order of the checks; the book changes exactly when the request is accepted and something was written |
| `OrderBranches.SubmitStores` | src/tfx_quant/application/order_management/order_manager.py:215-323 | an accepted request leaves one new row with its own terms whose status says how far it got; the caller hears of it only after the call, and of doubt only after the doubt is stored |
| `OrderBranches.IncomingDecides` | src/tfx_quant/application/order_management/order_manager.py:383-490 | an event changes its own row and no other, and is written down exactly when it counts |
| `OrderBranches.CancelDecides` | src/tfx_quant/application/order_management/order_manager.py:325-355 | a cancel is stored, then asked for, exactly for an acknowledged or partly filled order |
| `OrderBranches.TimeOutDecides` | src/tfx_quant/application/order_management/order_manager.py:494-528 | an order is parked for silence if and only if it is live and its last news is older than the timeout |
| `OrderBranches.EveryHistoryIsLived` | src/tfx_quant/application/order_management/order_manager.py:171-606 | in every run with crashes, the stored statuses of each order begin with CREATED, end with the one it has, and nothing is written after a terminal one; no cancel is asked for before it is stored |
| `ReconcileProofs.FillsAreTaken` | src/tfx_quant/domain/order_state_machine.py:278-306 | of any list of fills exactly those newer than the last that counted and within what is open are taken: lots and notional are the old ones plus theirs |
| `ReconcileProofs.GoodFillsAllCount` | src/tfx_quant/domain/order_state_machine.py:278-310 | fills in order and within what is open are all taken |
| `ReconcileProofs.ReconciledTakesAll` | src/tfx_quant/application/order_management/order_manager.py:565-606 | a reconciled order is parked if and only if nothing was new; otherwise it holds every report that counts, then every fill that counts |
| `ReconcileProofs.ReconciledIsDelivered` | src/tfx_quant/application/order_management/order_manager.py:565-606 | when no report is illegal in its turn and anything is new, the reconciled row is the one that delivering all the reports and then all the fills would leave |
| `ReconcileProofs.ReconcileStores` | src/tfx_quant/application/order_management/order_manager.py:565-606 | that row is stored, and no other changes |
| `ReconcileProofs.SweepRow` | src/tfx_quant/application/order_management/order_manager.py:494-545 | row by row: an overdue order is parked and takes what the broker answers for it, any other stays as it is |
| `ReversalScaling.ReversalWorkflowStateMachine.Transition` | src/tfx_quant/domain/reversal_workflow.py:223-232 | a workflow moves exactly as the table allows |
| `ReversalScaling.ReversalWorkflowService.Submit` | src/tfx_quant/application/reversal_scaling/reversal_service.py:275-314 | a leg is submitted and its row linked and tracked; a refusal pauses, an exception leaves the workflow as it is |
| `ReversalScaling.ReversalWorkflowService.PauseSafely` | src/tfx_quant/application/reversal_scaling/reversal_service.py:405-423 | the pause is stored, then the orders are no longer followed |
| `ReversalScaling.ReversalWorkflowService.AdvanceFromStarted` | src/tfx_quant/application/reversal_scaling/reversal_service.py:241-273 | the position is asked; zero blocks the workflow |
| `ReversalScaling.ReversalWorkflowService.AdvanceFromQueried` | src/tfx_quant/application/reversal_scaling/reversal_service.py:275-314 | the close leg, sized by the recorded position |
| `ReversalScaling.ReversalWorkflowService.AdvanceFromCloseFilled` | src/tfx_quant/application/reversal_scaling/reversal_service.py:316-358 | a fresh query decides between confirmed flat and a pause |
| `ReversalScaling.ReversalWorkflowService.AdvanceFromFlat` | src/tfx_quant/application/reversal_scaling/reversal_service.py:360-403 | the two-lot entry leg, without asking again |
| `ReversalScaling.ReversalWorkflowService.StartWorkflow` | src/tfx_quant/application/reversal_scaling/reversal_service.py:136-226 | only a reversal signal is taken; one workflow per trigger and one active per account and contract; too close to 04:55 it is stored blocked |
| `ReversalScaling.ReversalWorkflowService.OnOrderStateTransitioned` | src/tfx_quant/application/reversal_scaling/reversal_service.py:427-477 | fills and cancels of followed orders |
| `ReversalScaling.ReversalWorkflowService.OnOrderRequiresManualReview` | src/tfx_quant/application/reversal_scaling/reversal_service.py:479-490 | an order needing review pauses its workflow |
| `ReversalScaling.ReversalWorkflowService.ReloadTracked` | src/tfx_quant/application/reversal_scaling/reversal_service.py:119-132 | the map is rebuilt from the active, unpaused workflows |
| `ReversalScaling.ReversalWorkflowService.ResumeLinkedOrder` | src/tfx_quant/application/reversal_scaling/reversal_service.py:527-575 | a submitted leg is judged by its stored order |
| `ReversalScaling.ReversalWorkflowService.ResumePendingWorkflows` | src/tfx_quant/application/reversal_scaling/reversal_service.py:497-525 | the loop over pending workflows, ended by an exception |
| `ReversalProofs.NextOk` | src/tfx_quant/application/reversal_scaling/reversal_service.py:230-575 | every step, cut after any effect, keeps the invariant tying workflows, orders and gateway calls |
| `ReversalProofs.RunKeepsWorld` | src/tfx_quant/application/reversal_scaling/reversal_service.py:230-575 | the same after every interleaving of starts, order events, restarts and other users of the manager |
| `ReversalProofs.ReversalIsSafe` | src/tfx_quant/application/reversal_scaling/reversal_service.py:230-403 | each leg reaches the gateway at most once; the close brings the position the broker had answered to zero; the entry is two lots and comes after the close was stored FILLED and a later query showed zero lots, no active order and healthy channels |
| `ReversalProofs.LegsShareASide` | src/tfx_quant/domain/reversal_workflow.py:159-166 | both legs of a workflow trade on the same side |
| `ReversalProofs.OneReversalPerSlot` | src/tfx_quant/application/reversal_scaling/reversal_service.py:143-162 | at most one unfinished reversal per account and contract and one per trigger |
| `ReversalHalt.StepLeavesHalted` | src/tfx_quant/application/reversal_scaling/reversal_service.py:497-515 | no step changes or sends for a paused, completed or blocked workflow |
| `ReversalHalt.HaltedStaysHalted` | src/tfx_quant/application/reversal_scaling/reversal_service.py:497-515 | in every run, once halted a workflow never moves on, never calls the gateway again and asks nothing |
| `ReversalQuery.EntryFollowsItsQuery` | src/tfx_quant/application/reversal_scaling/reversal_service.py:316-403 | when a step calls an entry, the query that confirmed the flat position lies in that same step if and only if the workflow was not stored as FLAT_CONFIRMED before it |
| `ReversalRuns.OutdatedConfirmationExample` | src/tfx_quant/application/reversal_scaling/reversal_service.py:360-380 | a run cut right after FLAT_CONFIRMED was stored: another order on the same contract fills, and the resumed workflow sends the entry without asking |
| `ReversalRuns.ReversalCompletes` | src/tfx_quant/application/reversal_scaling/reversal_service.py:136-477 | from any reachable world with a free slot, start, fills and events end in COMPLETED with exactly two calls and the position turned over to two lots |
| `BookGrowth.SubmitGoesThrough` | src/tfx_quant/application/order_management/order_manager.py:171-323 | a request that is not blank, not known, alone on its contract and within the cap is stored, staged and sent with its own terms |
| `ReversalProgress.StartSendsClose` | src/tfx_quant/application/reversal_scaling/reversal_service.py:136-314 | for every open position answered, a new reversal asks, then sends exactly one close of that whole position, and follows it |
| `ReversalProgress.CloseFillDecides` | src/tfx_quant/application/reversal_scaling/reversal_service.py:427-477 | after the close is filled the entry of two lots is sent if and only if the fresh query shows a flat, quiet, healthy account; otherwise the workflow pauses and sends nothing |
| `ReversalProgress.EntryFillCompletes` | src/tfx_quant/application/reversal_scaling/reversal_service.py:467-477 | the filled entry completes the reversal, which is then no longer followed |
| `ReversalProofs.CompletedMeansFilled` | src/tfx_quant/application/reversal_scaling/reversal_service.py:467-575 | in every run a workflow stored COMPLETED has a close and an entry order; their rows carry its close key and its entry key and are stored FILLED, and a query after the close confirmed a flat position |
| `ReversalBranches.MovesByTarget` | src/tfx_quant/domain/reversal_workflow.py:60-92 | the transition table read by target |
| `ReversalBranches.ResumedLegDecides` | src/tfx_quant/application/reversal_scaling/reversal_service.py:527-575 | a resumed submitted leg: an order in flight is followed and nothing else changes; a missing, rejected, cancelled or doubtful one pauses; a filled entry completes |
| `ReversalBranches.ResumedCloseAsks` | src/tfx_quant/application/reversal_scaling/reversal_service.py:527-575 | a resumed filled close asks the broker first: anything but a flat, quiet, healthy account pauses it |
| `ReversalBranches.StartDecides` | src/tfx_quant/application/reversal_scaling/reversal_service.py:136-226 | another signal, a known trigger or a busy contract changes nothing; too close to 04:55, or with nothing held, the new workflow is stored blocked and sends nothing |
| `ReversalBranches.NewsDecides` | src/tfx_quant/application/reversal_scaling/reversal_service.py:427-490 | of a followed order a cancel or a review pauses, and other news but a fill changes nothing; news of other orders never does |
| `ReversalBranches.LegAnswered` | src/tfx_quant/application/reversal_scaling/reversal_service.py:275-314 | a refused leg pauses the workflow and leaves the book alone; a leg already known is linked without a call |
| `ReversalBranches.ReloadedFollows` | src/tfx_quant/application/reversal_scaling/reversal_service.py:119-132 | after a restart exactly the linked orders of active, unpaused workflows are followed |
| `ReversalResume.ResumeLeavesNoneBehind` | src/tfx_quant/application/reversal_scaling/reversal_service.py:497-575 | from any sound world, a resume that is not cut short leaves every workflow over, paused, or waiting for a submitted leg whose order is followed for it |
| `Risk.EodFlattenWorkflowStateMachine.Transition` | src/tfx_quant/domain/risk.py:213-222 | a flatten workflow moves exactly as the table allows |
| `Risk.RiskSupervisor.AdvanceFromStartedOrWaiting` | src/tfx_quant/application/risk/risk_supervisor.py:450-498 | live orders are waited for, then the position is asked |
| `Risk.RiskSupervisor.AdvanceFromQueried` | src/tfx_quant/application/risk/risk_supervisor.py:500-542 | without a known price the workflow pauses, otherwise the close is submitted and linked |
| `Risk.RiskSupervisor.AdvanceFromCloseFilled` | src/tfx_quant/application/risk/risk_supervisor.py:544-578 | a fresh query decides between complete and a pause |
| `Risk.RiskSupervisor.PauseSafely` | src/tfx_quant/application/risk/risk_supervisor.py:580-598 | the pause is stored, then the order is no longer followed |
| `Risk.RiskSupervisor.BeginWorkflow` | src/tfx_quant/application/risk/risk_supervisor.py:367-436 | one workflow per trigger, one active per account and contract |
| `Risk.RiskSupervisor.MaybeTriggerScheduledFlatten` | src/tfx_quant/application/risk/risk_supervisor.py:259-309 | only a crossing into the band seen by this process starts a workflow; the look is remembered in any case |
| `Risk.RiskSupervisor.TriggerEmergencyFlatten` | src/tfx_quant/application/risk/risk_supervisor.py:313-353 | a stale confirmation or an active workflow is refused |
| `Risk.RiskSupervisor.OnOrderStateTransitioned` | src/tfx_quant/application/risk/risk_supervisor.py:606-630 | fills and cancels of followed orders |
| `Risk.RiskSupervisor.OnOrderRequiresManualReview` | src/tfx_quant/application/risk/risk_supervisor.py:632-643 | an order needing review pauses its workflow |
| `Risk.RiskSupervisor.ReloadTracked` | src/tfx_quant/application/risk/risk_supervisor.py:746-753 | the map is rebuilt from the active, unpaused workflows |
| `Risk.RiskSupervisor.ResumeLinkedOrder` | src/tfx_quant/application/risk/risk_supervisor.py:716-744 | a submitted close is judged by its stored order |
| `Risk.RiskSupervisor.RetireSimulatedSchedules` | src/tfx_quant/application/risk/risk_supervisor.py:225-243 | in simulation, scheduled workflows that never got past waiting are retired |
| `Risk.RiskSupervisor.HandleClockTick` | src/tfx_quant/application/risk/risk_supervisor.py:211-223 | retire, resume, then look at the clock; an exception ends the tick |
| `Risk.RiskSupervisor.HandleSessionReady` | src/tfx_quant/application/risk/risk_supervisor.py:645-651 | the map is rebuilt, then a tick |
| `Risk.RiskSupervisor.HandleBarClosed` | src/tfx_quant/application/risk/risk_supervisor.py:602-604 | the close becomes the known price of that contract |
| `Risk.RiskSupervisor.Start` | src/tfx_quant/application/risk/risk_supervisor.py:183-190 | a new process: empty memory, retired schedules, rebuilt map |
| `FlattenProofs.NextOk` | src/tfx_quant/application/risk/risk_supervisor.py:211-744 | every step, cut after any effect, keeps the invariant, including that a followed order is the close of its workflow |
| `FlattenProofs.RunKeepsWorld` | src/tfx_quant/application/risk/risk_supervisor.py:211-744 | the same after every run of ticks, buttons, order events, crashes and restarts |
| `FlattenProofs.FlattenIsSafe` | src/tfx_quant/application/risk/risk_supervisor.py:367-598 | each workflow sends at most one close, bringing the position the broker had answered to zero; COMPLETED only after the close was stored FILLED and a later query showed zero, no active order and healthy channels; one that ends already flat has sent nothing |
| `FlattenProofs.OneFlattenPerSlot` | src/tfx_quant/application/risk/risk_supervisor.py:290-309 | at most one unfinished flatten per account and contract and one scheduled flatten per contract and date |
| `FlattenProofs.RestartInsideBandStaysQuiet` | src/tfx_quant/application/risk/risk_supervisor.py:270-289 | a process that starts inside the band and looks at the clock only inside it never starts a scheduled flatten, whatever else happens |
| `FlattenHalt.StepLeavesHalted` | src/tfx_quant/domain/risk.py:80-116 | no step changes or sends for a workflow that is paused or over, nor starts another while it is paused |
| `FlattenHalt.HaltedStaysHalted` | src/tfx_quant/domain/risk.py:80-116 | in every run, once a flatten paused no later step moves it on, calls the gateway for it, or starts another one, scheduled or by button, for its account and contract |
| `FlattenRuns.FlattenCompletes` | src/tfx_quant/application/risk/risk_supervisor.py:313-622 | from any reachable world with a free slot and a known price, button, fill and event end in COMPLETED with exactly one call and no position |
| `FlattenProgress.BeginSendsClose` | src/tfx_quant/application/risk/risk_supervisor.py:367-542 | for every open position answered, with a known price and no live order, a new workflow sends exactly one close of that whole position |
| `FlattenProgress.LookStartsExactly` | src/tfx_quant/application/risk/risk_supervisor.py:259-309 | a look at the clock starts a scheduled flatten if and only if it is the first inside the band after one outside, the session is healthy and neither trigger nor contract is taken; the look is remembered in any case |
| `FlattenProgress.CloseFillDecides` | src/tfx_quant/application/risk/risk_supervisor.py:544-622 | after the close is filled the workflow completes if and only if the fresh query shows a flat, quiet, healthy account, and pauses otherwise |
| `FlattenProgress.WaitsForLiveOrders` | src/tfx_quant/application/risk/risk_supervisor.py:450-474 | while a live order exists the workflow waits, without asking or sending |
| `FlattenBranches.MovesByTarget` | src/tfx_quant/domain/risk.py:80-121 | the transition table read by target |
| `FlattenBranches.ResumedCloseDecides` | src/tfx_quant/application/risk/risk_supervisor.py:716-744 | a resumed submitted close: an order in flight is followed and nothing else changes; a missing, rejected, cancelled or doubtful one pauses |
| `FlattenBranches.ResumedCloseAsks` | src/tfx_quant/application/risk/risk_supervisor.py:716-744 | a resumed filled close asks the broker first and completes only a flat, quiet, healthy account |
| `FlattenBranches.AnswerIsStored` | src/tfx_quant/application/risk/risk_supervisor.py:475-498 | the position answered is stored before anything is sent, and zero ends the workflow at once |
| `FlattenBranches.CloseAnswered` | src/tfx_quant/application/risk/risk_supervisor.py:500-542 | without a known price or when refused the workflow pauses and the book stays as it was; a close already known is linked without a call |
| `FlattenBranches.NewsDecides` | src/tfx_quant/application/risk/risk_supervisor.py:606-643 | of a followed order a cancel or a review pauses, and other news but a fill changes nothing; news of other orders never does |
| `FlattenBranches.ButtonDecides` | src/tfx_quant/application/risk/risk_supervisor.py:313-353 | a confirmation the broker no longer shares or a busy contract raises and changes nothing, a known token is ignored, otherwise one workflow of that token is stored |
| `FlattenBranches.ReloadedFollows` | src/tfx_quant/application/risk/risk_supervisor.py:746-753 | after a restart exactly the linked orders of moving workflows are followed |
| `FlattenBranches.RetiresExactly` | src/tfx_quant/application/risk/risk_supervisor.py:225-243 | in simulation the scheduled workflows that never got past waiting end as already flat and no other changes |
| `FlattenBranches.RestartForgets` | src/tfx_quant/application/risk/risk_supervisor.py:183-190 | a new process has seen no clock and no price, and outside simulation changes nothing stored |
| `FlattenBranches.BarPricesItsSeries` | src/tfx_quant/application/risk/risk_supervisor.py:602-604 | a close is the known price of its own contract and of no other |
| `FlattenBranches.SeriesAreContracts` | src/tfx_quant/application/risk/risk_supervisor.py:265-272 | prices and looks at the clock are kept per instrument and contract, whatever the account |
| `FlattenBranches.BandEdges` | src/tfx_quant/domain/risk.py:44-52 | the band holds its first instant and not the one at which entries open again, on every day |
| `FlattenResume.PollLeavesNoneBehind` | src/tfx_quant/application/risk/risk_supervisor.py:211-243 | from any sound world, a poll that is not cut short leaves every workflow over, paused, waiting for live orders, or waiting for its submitted close, which is followed |

## Left out

- The desktop user interface, composition and quote runtime; logging and telemetry.
- The SQL repositories: only unique keys and atomic writes are used. The branch for a key saved twice by a race
  and the outbox checkpoints around the gateway call are not modelled.
- The broker gateways and session, `ConnectivityMonitor`, `LiveQuoteService`, `EventCoordinator`: foreign calls,
  timers and threads. A gateway that calls back into a service during a call is not modelled.
- `PositionReconciliationService` and manual sync: its position lookup is a parameter, assumed to equal the signed
  filled lots in `PositionStaysWithinCap`; of the sync only the retirement of a paused reversal is a step.
- `ScalingService`, `StartupSafetyGate`, `StrategyStateMachine`, the startup check inside the band, settings,
  contract months and the fee model: single decisions that would only add easy members.
- `HistoricalSimulationService`, which rests on a mock gateway.
- `TradingCalendar.boundary_for_open` and `trading_days_between`: variants of the searches modelled here.
- Reason strings, pause reasons, masking, correlation ids, the diagnostic copies in a decision, provisional reasons
  of a ledger fill, and the prices of submitted orders (whether one is known is modelled).
- Liveness: that a timer fires, that an event arrives, that a scheduled flatten is eventually started.
- OrderManagement.OrderManager.ReconcileOne: the reports and fills are those already filtered for the order and sorted, as its caller passes them.
- Risk.RiskSupervisor.TriggerEmergencyFlatten: does not model the safe pause forced on the strategy first (risk_supervisor.py:329), which belongs to the strategy's own state machine.
- Risk.RiskSupervisor.HandleSessionReady: does not model the startup check between reload and tick (risk_supervisor.py:648-650), which only pauses the strategy and alerts.
- OrderProofs.FillsAreAccounted: exact average; the source divides `Decimal`s with 28 digits.
- LedgerProofs.CashIdentity: exact gross; the rounded total is bounded by `RoundingBound`.
- ReplayLog.OneContractAlternates: a change of contract drops the engine with its position, as the code does, so the claim is for one contract.
- CalendarProofs.ContextAgrees: for sessions that do not overlap; with overlapping ones the first in search order is taken.
