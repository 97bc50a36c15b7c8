# Trading-strategy backtester, modelled in Dafny

This project models the backtesting core of a single-instrument trading
analyzer (`trading_strategies.py`). The analyzer replays a series of closing
prices, bar by bar, through three rule-based strategies and a
buy-and-hold baseline:

- **Strategy 1 (Always Invested).** Buy one share when nothing is held, or
  when the close is at least 0.50 below the last buy price. Each share is
  sold once the close reaches 1.5% above its entry.
- **Strategy 2 (Tiered Selling).** On the first bar and after every 0.50
  drop, buy ten one-share lots. The lots have targets 1.5%, 4%, 8%, 10%,
  12%, 15%, 20%, 25%, 30% and 35% above entry. The cash check compares the
  cash with the price of one share (line 360), but the purchase debits all
  ten (line 379), so the cash can go negative. The last buy price moves
  whenever the price rule fires, even when the cash check then blocks the
  purchase.
- **Strategy 3 (Moderate Tiers).** Buy five lots, with targets 2%, 5%, 10%,
  15% and 20%, when nothing is held or after a 0.50 drop, and only if all
  five lots are affordable.
- **Buy & Hold.** Buy as many whole shares as the initial cash allows at the
  first close and value them at the last close.

Every bar does three things, in this order:

1. The sell pass. Every open position whose target the close reached is sold
   at the close, and its Trade is recorded.
2. The buy decision.
3. The buy itself. It opens one purchase event with a new id.

At the end, the open positions are marked to market at the last close.

The project has seven modules:

- `Basics`: Option, Result, and a sum over sequences.
- `Ledger`: the Position and Trade records and the money sums over them.
- `Rules`: the strategies as pure functions. `Step` is one bar, `Run` is
  the first n bars, `Evaluate` is a whole run and its valuation, and
  `BuyAndHold` and `AllStrategies` complete the set.
- `RunInvariants`: invariants that every bar preserves.
- `StrategyProperties`: what the strategies promise.
- `Analyzer`: the simulators as loops that update their local state in
  place, proved equal to `Evaluate`, and the `TradingStrategyAnalyzer`
  object that stores the results of a complete run.
- `Report`: the trade statistics the summary report prints.

A return percentage divides by the initial cash. With an initial cash of 0,
only the three strategies raise a division error, because their totals are
then plain numbers. In the model that case is `Result.DivisionByZero`. The
baseline divides floating-point scalars taken from the price series, so
0 / 0 yields NaN rather than an error. In the model the baseline's
percentage is then `Percentage.NotANumber`.

## Model

| member | source | states |
|---|---|---|
| Ledger.CloseTrade | trading_strategies.py:221-234 | a sold position's trade copies its entry price, entry time, quantity, strategy name and id, and records the given exit price and exit bar |
| Ledger.TradeMeaning | trading_strategies.py:219-237 | a sold position's trade satisfies proceeds = cost + profit and entry * (100 + return%) = 100 * exit; a sale at or above a target set above the entry is a strict gain with positive profit and return |
| Ledger.MarketValueIsPriceTimesShares | trading_strategies.py:281-282 | the final position value (last close times each quantity, summed) is the last close times the shares held |
| Ledger.RealizedIsProceedsMinusCost | trading_strategies.py:221-237 | for trades priced as the sell pass prices them, total profit = total proceeds - total entry cost |
| Rules.TierTargets | trading_strategies.py:317-318 | each tiered strategy has one positive tier percentage per lot: the ten of Strategy 2 here, and the five of Strategy 3 at lines 423-424 |
| Rules.SellTarget | trading_strategies.py:364-365 | a lot's target is the close raised by its tier's percentage (Strategy 2 here, Strategy 3 at line 470, and Strategy 1's 1.015 multiplier at line 262), and it lies strictly above the close |
| Rules.Strategy1BuyRule | trading_strategies.py:243-257 | Strategy 1 buys iff it has one share's price in cash and either holds nothing or the close is at least 0.50 below the last buy price; a buy moves the marker to the close, no buy keeps it |
| Rules.Strategy2BuyRule | trading_strategies.py:350-360 | Strategy 2's price rule fires with no marker or after a 0.50 drop and then moves the marker to the close whatever the cash; it buys iff the rule fires and the cash covers one share |
| Rules.Strategy3BuyRule | trading_strategies.py:454-463 | Strategy 3 buys iff the cash covers all five lots and either it holds nothing or the close is at least 0.50 below the last buy price; a buy moves the marker to the close, no buy keeps it |
| Rules.BuyMeaning | trading_strategies.py:259-273 | a purchase takes the next id, keeps the open positions and appends LotsPerPurchase one-share lots at the close under that id (one for Strategy 1, ten and five as at lines 360-379 and 466-483), debits close times that number, and leaves trades and marker alone |
| Rules.Step | trading_strategies.py:213-273 | one bar only appends the trades of the positions it sells, and opens at most one purchase event |
| Rules.Finalize | trading_strategies.py:280-295 | the report fails with a division error exactly when the initial cash is 0; otherwise it carries the run's trades, open positions and cash, the position value is the last close times the shares held, total = cash + position value, return = total - initial cash, and return% * initial = return * 100 |
| Rules.Evaluate | trading_strategies.py:280-295 | a run fails with a division error exactly when the initial cash is 0, and otherwise yields a traded-strategy result |
| Rules.Trunc | trading_strategies.py:514 | int() truncates toward zero: the result is the integer part, within 1 of its argument on the side of zero |
| Rules.BuyAndHold | trading_strategies.py:502-529 | the baseline reports the first and last close and return = final value - initial cash; with no initial cash it buys nothing, is worth 0 and its percentage is NaN; otherwise return% * initial = return * 100 |
| Rules.AllStrategies | trading_strategies.py:531-549 | exactly the keys strategy_1, strategy_2, strategy_3 and buy_hold, each holding its own run's result (the evaluation of that strategy, or the baseline); a zero initial cash makes the first strategy raise, which aborts the run |
| RunInvariants.SellPassSelects | trading_strategies.py:216-241 | a position stays open iff it was open and the close is below its target, and is sold iff it was open and the close reached its target |
| RunInvariants.SellPassPartitions | trading_strategies.py:216-241 | the sell pass splits the open positions into kept and sold, as multisets and in count |
| RunInvariants.SoldMatchesMatured | trading_strategies.py:219-236 | one trade per sold position, in the same order, each closed at the bar's close on that bar |
| RunInvariants.BuyEventShape | trading_strategies.py:360-376 | a purchase opens LotsPerPurchase lots sharing the new id, numbered from 1, one share each at the close, each with its tier's target |
| RunInvariants.BuyEventCost | trading_strategies.py:378-379 | a purchase event costs the number of lots times the close |
| RunInvariants.RunPositionsOk | trading_strategies.py:213-273 | after n bars every open position is one share with a valid lot number and its tier's target, bought on an earlier bar with an id already issued |
| RunInvariants.RunTradesOk | trading_strategies.py:216-237 | after n bars every trade is one share sold strictly above its entry with positive profit and return, on a later bar than its purchase, and the trades are in exit order |
| RunInvariants.RunTradesPriced | trading_strategies.py:221-222 | every recorded trade's profit and return are derived from its entry and exit prices |
| RunInvariants.RunCounted | trading_strategies.py:361-376 | trades + open positions = lots per purchase times purchase events |
| RunInvariants.RunBalanced | trading_strategies.py:216-273 | the cash is the initial cash, less the cost of every lot ever opened, plus the proceeds of every sale |
| StrategyProperties.TradesAreStrictGains | trading_strategies.py:219-237 | every completed trade has a positive entry, an exit strictly above it, positive profit and return, and an exit on a later bar than its entry |
| StrategyProperties.TradesInExitOrder | trading_strategies.py:226-234 | completed trades are in non-decreasing exit order |
| StrategyProperties.LotConservation | trading_strategies.py:361-376 | every lot ever opened is completed or still open, and every id lies between 1 and the number of purchase events |
| StrategyProperties.RunUnitLots | trading_strategies.py:264-267 | every open position is a single share |
| StrategyProperties.CashLedger | trading_strategies.py:237-273 | cash = initial - cost of all lots + proceeds, equivalently cash + cost of the open lots = initial + realized profit |
| StrategyProperties.FinalizeIdentity | trading_strategies.py:280-295 | from a balanced single-share state, the report's values obey the valuation identity |
| StrategyProperties.ValuationIdentity | trading_strategies.py:280-295 | the final position value is the last close times the open lots, total = cash + position value, return% * initial = return * 100, and total return = realized profit + unrealized gain |
| StrategyProperties.SellPassCredits | trading_strategies.py:237 | a sell pass never lowers the cash |
| StrategyProperties.StepCashNonNegative | trading_strategies.py:245-273 | a bar of Strategy 1 or 3 keeps non-negative cash non-negative |
| StrategyProperties.CashNeverNegative | trading_strategies.py:245-273 | from non-negative initial cash, Strategies 1 and 3 never overdraw |
| StrategyProperties.Strategy2StepFloor | trading_strategies.py:360-379 | a bar of Strategy 2 keeps the cash at or above -9 times a bound on the close |
| StrategyProperties.Strategy2CashFloor | trading_strategies.py:360-379 | Strategy 2 can overdraw, but never below -9 times the highest close |
| StrategyProperties.Strategy2Overdraws | trading_strategies.py:360-379 | one bar at 10.0 with 10.0 of cash opens ten lots and leaves the cash at -90 |
| StrategyProperties.Strategy2MarkerIgnoresCash | trading_strategies.py:352-360 | when Strategy 2's price rule fires, the last buy price moves to the close, even when the cash check then blocks the buy |
| StrategyProperties.Strategy2FirstBarBlocked | trading_strategies.py:352-360 | with too little cash on the first bar, Strategy 2 buys nothing but records the close as its last buy price |
| StrategyProperties.StaysInvested | trading_strategies.py:245-249 | at the end of every bar, Strategy 1 holds nothing only if its cash is below that bar's close |
| StrategyProperties.NeverAffordable | trading_strategies.py:245-257 | if the initial cash is below every close, Strategy 1's state never changes |
| StrategyProperties.NeverAffordableResult | trading_strategies.py:245-295 | ... so it reports no trades and no open positions, keeps all its cash and has a zero return |
| StrategyProperties.InsufficientFundsScenario | trading_strategies.py:245-295 | ten bars at 1000 with 100 of cash: no trades, cash unchanged |
| StrategyProperties.FirstFlatBar | trading_strategies.py:245-273 | a first bar at 25 with 1000 of cash buys one share targeting 25.375 |
| StrategyProperties.SecondFlatBar | trading_strategies.py:216-257 | a second bar at 25 neither sells (target not reached) nor buys (no 0.50 drop) |
| StrategyProperties.TwoFlatBarsScenario | trading_strategies.py:194-295 | two bars at 25 with 1000 of cash: one open share, no trade, 975 cash, a zero return |
| StrategyProperties.TruncRemainderNonNegative | trading_strategies.py:514-515 | truncating a non-negative quotient leaves a remainder in [0, divisor) |
| StrategyProperties.TruncRemainderNegative | trading_strategies.py:514-515 | truncating a negative quotient leaves a remainder in (-divisor, 0] |
| StrategyProperties.BaselineBounds | trading_strategies.py:514-515 | the baseline buys as many whole shares as the cash allows: the leftover is less than one share's price and has the initial cash's sign |
| StrategyProperties.BaselineValue | trading_strategies.py:514-519 | final value = initial cash + shares times the price move; no share bought means a zero return, and a 0% return unless the initial cash was 0 |
| StrategyProperties.BaselineScenario | trading_strategies.py:502-529 | 25000 at 25.0 then 30.0: 1000 shares, nothing left over, final value 30000, a 20% return |
| Analyzer.SellMatured | trading_strategies.py:216-241 | the sell loop keeps exactly the unreached positions in order, appends their trades and credits their proceeds |
| Analyzer.AppendTieredLots | trading_strategies.py:363-376 | the lot loop appends exactly the purchase event's lots, in tier order |
| Analyzer.DecideBuy | trading_strategies.py:243-463 | the buy rule of each strategy (lines 243-257, 350-360 and 454-463) yields the buy flag and the new last-buy-price marker of the decision rule |
| Analyzer.SimulateBar | trading_strategies.py:213-273 | one iteration of a simulator's loop computes exactly one bar of the rules |
| Analyzer.Simulate | trading_strategies.py:194-295 | a simulator's loop over all bars and its final valuation compute exactly Evaluate |
| Analyzer.TradingStrategyAnalyzer.constructor | trading_strategies.py:128-141 | stores the series and the initial cash (23000 by default) with no results yet |
| Analyzer.TradingStrategyAnalyzer.Strategy1BuyOnDropSellAtTarget | trading_strategies.py:194-295 | returns Strategy 1's evaluation |
| Analyzer.TradingStrategyAnalyzer.Strategy2TieredSelling | trading_strategies.py:297-401 | returns Strategy 2's evaluation |
| Analyzer.TradingStrategyAnalyzer.Strategy3ModerateTiered | trading_strategies.py:403-500 | returns Strategy 3's evaluation |
| Analyzer.TradingStrategyAnalyzer.BuyAndHoldBaseline | trading_strategies.py:502-529 | returns the buy-and-hold baseline, NaN percentage included |
| Analyzer.TradingStrategyAnalyzer.RunAllStrategies | trading_strategies.py:531-549 | returns the four results and stores them; a division error leaves the stored results untouched |
| Report.Profits | trading_strategies.py:592 | one profit per trade, in order |
| Report.Winners | trading_strategies.py:595 | a value is a winner iff it is a profit and above 0 |
| Report.Losers | trading_strategies.py:596 | a value is a loser iff it is a profit and below 0 |
| Report.Flat | trading_strategies.py:595-596 | a value is flat iff it is a profit equal to 0 |
| Report.WinnersCount | trading_strategies.py:595 | each positive profit is a winner as many times as it occurs among the profits, and nothing else is |
| Report.LosersCount | trading_strategies.py:596 | each negative profit is a loser as many times as it occurs among the profits, and nothing else is |
| Report.FlatCount | trading_strategies.py:595-596 | each zero profit is flat as many times as it occurs among the profits, and nothing else is |
| Report.WinLossPartition | trading_strategies.py:595-596 | winners + losers + flat trades = all trades |
| Report.AllPositiveAllWin | trading_strategies.py:595-596 | if every profit is positive, the winners are all profits, in order, and there are no losers |
| Report.WinPercentage | trading_strategies.py:601 | win% times the number of trades = winners * 100, and it lies between 0 and 100 |
| Report.LossPercentage | trading_strategies.py:602 | loss% times the number of trades = losers * 100, and it lies between 0 and 100 |
| Report.TradesPerDay | trading_strategies.py:610-611 | a period of zero or fewer days gives 0; otherwise rate * days = trades and the rate is non-negative |
| Report.ProfitableTradesAllWin | trading_strategies.py:595-602 | trades that all made a profit have no loser or flat trade and, when there is one, a 100% win rate and a 0% loss rate |
| Report.SimulatedTradesAllWin | trading_strategies.py:591-602 | a simulated strategy reports only winners: no loser, no flat trade, and a 100% win rate and 0% loss rate whenever it completed a trade |

## Left out

- Data preparation (`_prepare_data`: flattening and renaming columns, column checks, dropping rows with missing values) is not part of this model. The price series is taken as already prepared: non-empty, with every close positive (`PriceSeries`). Position and Trade entry prices are typed as positive prices, and quantities as natural numbers.
- Timestamps are bar indices. The report's calendar-day span is the `totalDays` parameter of `TradesPerDay`, and is not computed from dates.
- Floating point is modelled as exact real arithmetic. Rounding in `*`, `/` and the 1.015 and tier multipliers is not modelled, and neither is printed rounding. The baseline's `int()` is modelled exactly, as truncation toward zero.
- `positions.remove(pos)` removes a Position by object identity. Every removed object is one of the sold positions, so the model keeps the unsold positions in order. Aliasing between Position objects is not modelled.
- Logging, printing, the summary report's table and formatting, CSV loading and export, the interactive `main` and the visualization module are I/O and are left out.
- Report: the averages, best/worst trade, total profit, standard deviation and Sharpe-like ratio are left out. They are floating-point statistics with no ledger property to state beyond what `RealizedPnL` and the trade lemmas already give.
- The `strategies` attribute of the analyzer is never read or written after construction, so it is not modelled.
- The strategy ranking in the usage examples, the package setup and the test suite are outside the core.
