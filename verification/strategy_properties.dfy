/** What the three tiered simulators and the baseline promise, proved about
    the pure rules: trades are strict gains in bar order, lots are
    conserved, the cash ledger and the final valuation agree, Strategies 1
    and 3 never overdraw while Strategy 2 can, Strategy 1 stays invested,
    and the baseline buys as many whole shares as its cash allows. */
module StrategyProperties {
  import opened Basics
  import opened Ledger
  import opened Rules
  import opened RunInvariants

  // ----- trades and lots -----

  /** Every completed trade of a run was sold at or above a target set above
      its entry, on a later bar than it was bought: a strict gain whose
      profit and return are the ones its prices give. */
  lemma TradesAreStrictGains(s: Strategy, prices: PriceSeries, initialCash: real)
    ensures forall t :: t in Run(s, prices, |prices|, initialCash).trades ==>
      t.exitPrice > t.entryPrice > 0.0 &&
      t.profitLoss == (t.exitPrice - t.entryPrice) * t.quantity as real &&
      t.returnPct == (t.exitPrice - t.entryPrice) / t.entryPrice * 100.0 &&
      t.profitLoss > 0.0 && t.returnPct > 0.0 &&
      t.entryTime < t.exitTime < |prices|
  {
    RunTradesOk(s, prices, |prices|, initialCash);
    RunTradesPriced(s, prices, |prices|, initialCash);
  }

  /** Trades are appended in bar order. */
  lemma TradesInExitOrder(s: Strategy, prices: PriceSeries, initialCash: real)
    ensures forall i, j :: 0 <= i < j < |Run(s, prices, |prices|, initialCash).trades| ==>
      Run(s, prices, |prices|, initialCash).trades[i].exitTime <=
      Run(s, prices, |prices|, initialCash).trades[j].exitTime
  {
    RunTradesOk(s, prices, |prices|, initialCash);
  }

  /** Every lot ever opened is either completed or still open:
      trades + open positions = lots per purchase * purchase events, and
      every id lies between 1 and the number of purchase events. */
  lemma LotConservation(s: Strategy, prices: PriceSeries, n: nat, initialCash: real)
    requires n <= |prices|
    ensures var st := Run(s, prices, n, initialCash);
      |st.trades| + |st.positions| == LotsPerPurchase(s) * st.positionId &&
      (forall p :: p in st.positions ==> 1 <= p.positionId <= st.positionId &&
                                         1 <= p.lotNumber <= LotsPerPurchase(s)) &&
      (forall t :: t in st.trades ==> 1 <= t.positionId <= st.positionId)
  {
    RunCounted(s, prices, n, initialCash);
    RunPositionsOk(s, prices, n, initialCash);
    RunTradesOk(s, prices, n, initialCash);
  }

  /** Every open position is a single share. */
  lemma RunUnitLots(s: Strategy, prices: PriceSeries, n: nat, initialCash: real)
    requires n <= |prices|
    ensures forall k :: 0 <= k < |Run(s, prices, n, initialCash).positions| ==>
      Run(s, prices, n, initialCash).positions[k].quantity == 1
  {
    RunPositionsOk(s, prices, n, initialCash);
    var ps := Run(s, prices, n, initialCash).positions;
    forall k | 0 <= k < |ps| ensures ps[k].quantity == 1 {
      assert ps[k] in ps;
    }
  }

  // ----- money -----

  /** Cash ledger: the cash is the initial cash, less what every lot ever
      opened cost, plus what every sold lot fetched; equivalently the cash
      plus the cost of the open lots is the initial cash plus the realized
      profit. */
  lemma CashLedger(s: Strategy, prices: PriceSeries, n: nat, initialCash: real)
    requires n <= |prices|
    ensures var st := Run(s, prices, n, initialCash);
      st.cash == initialCash - (CostBasis(st.positions) + EntryCost(st.trades)) + Proceeds(st.trades) &&
      st.cash + CostBasis(st.positions) == initialCash + RealizedPnL(st.trades)
  {
    RunBalanced(s, prices, n, initialCash);
    RunTradesPriced(s, prices, n, initialCash);
    var st := Run(s, prices, n, initialCash);
    forall k | 0 <= k < |st.trades| ensures Priced(st.trades[k]) {
      assert st.trades[k] in st.trades;
    }
    RealizedIsProceedsMinusCost(st.trades);
  }

  /** What the final valuation of a run reports: open positions marked at
      the last close, the total as cash plus that value, the return against
      the initial cash, and the total return as the realized profit plus the
      unrealized gain of the open lots. */
  predicate ValuedAt(r: StrategyResult, last: real, initialCash: real)
    requires r.Traded?
  {
    r.finalPositionValue == last * |r.openPositions| as real &&
    r.totalFinalValue == r.finalCash + r.finalPositionValue &&
    r.totalReturn == r.totalFinalValue - initialCash &&
    r.returnPercentage.Percent? &&
    r.returnPercentage.value * initialCash == r.totalReturn * 100.0 &&
    r.totalReturn == RealizedPnL(r.completedTrades) +
                     (r.finalPositionValue - CostBasis(r.openPositions))
  }

  /** Marking single-share positions to market for which the ledger holds. */
  lemma FinalizeIdentity(s: Strategy, st: RunState, last: Price, initialCash: real)
    requires initialCash != 0.0
    requires forall k :: 0 <= k < |st.positions| ==> st.positions[k].quantity == 1
    requires st.cash + CostBasis(st.positions) == initialCash + RealizedPnL(st.trades)
    ensures ValuedAt(Finalize(s, st, last, initialCash).value, last, initialCash)
  {
    MarketValueIsPriceTimesShares(st.positions, last);
    UnitLotShares(st.positions);
  }

  /** Final valuation of a run. */
  lemma ValuationIdentity(s: Strategy, prices: PriceSeries, initialCash: real)
    requires initialCash != 0.0
    ensures ValuedAt(Evaluate(s, prices, initialCash).value, prices[|prices| - 1], initialCash)
  {
    CashLedger(s, prices, |prices|, initialCash);
    RunUnitLots(s, prices, |prices|, initialCash);
    FinalizeIdentity(s, Run(s, prices, |prices|, initialCash), prices[|prices| - 1], initialCash);
  }

  // ----- cash discipline -----

  /** A sell pass never lowers the cash. */
  lemma SellPassCredits(st: RunState, n: nat, close: Price)
    ensures SellPass(st, close, n).cash >= st.cash
  {
    var sold := Sold(st.positions, close, n);
    SoldMatchesMatured(st.positions, close, n);
    SumNonNegative(sold, TradeExitValue);
  }

  /** Strategies 1 and 3 buy only when the cash covers the whole purchase. */
  lemma StepCashNonNegative(s: Strategy, st: RunState, n: nat, close: Price)
    requires s != Strategy2 && st.cash >= 0.0
    ensures Step(s, st, close, n).cash >= 0.0
  {
    SellPassCredits(st, n, close);
  }

  /** Strategy 2 checks the price of one share but pays for ten: a buy can
      take the cash from `close` down to -9 * close, and no lower. */
  lemma Strategy2StepFloor(st: RunState, n: nat, close: Price, high: real)
    requires close <= high && st.cash >= -9.0 * high
    ensures Step(Strategy2, st, close, n).cash >= -9.0 * high
  {
    SellPassCredits(st, n, close);
  }

  lemma RunStepCashNonNegative(s: Strategy, prices: PriceSeries, n: nat, initialCash: real)
    requires s != Strategy2 && 0 < n <= |prices|
    requires Run(s, prices, n - 1, initialCash).cash >= 0.0
    ensures Run(s, prices, n, initialCash).cash >= 0.0
  {
    var prev := Run(s, prices, n - 1, initialCash);
    var next := Step(s, prev, prices[n - 1], n - 1);
    assert Run(s, prices, n, initialCash) == next;
    StepCashNonNegative(s, prev, n - 1, prices[n - 1]);
  }

  lemma RunStepStrategy2Floor(prices: PriceSeries, n: nat, initialCash: real, high: real)
    requires 0 < n <= |prices| && prices[n - 1] <= high
    requires Run(Strategy2, prices, n - 1, initialCash).cash >= -9.0 * high
    ensures Run(Strategy2, prices, n, initialCash).cash >= -9.0 * high
  {
    var prev := Run(Strategy2, prices, n - 1, initialCash);
    var next := Step(Strategy2, prev, prices[n - 1], n - 1);
    assert Run(Strategy2, prices, n, initialCash) == next;
    Strategy2StepFloor(prev, n - 1, prices[n - 1], high);
  }

  /** From non-negative initial cash, Strategies 1 and 3 never overdraw. */
  lemma {:induction false} CashNeverNegative(s: Strategy, prices: PriceSeries, n: nat, initialCash: real)
    requires s != Strategy2 && initialCash >= 0.0 && n <= |prices|
    ensures Run(s, prices, n, initialCash).cash >= 0.0
    decreases n
  {
    if n > 0 {
      CashNeverNegative(s, prices, n - 1, initialCash);
      RunStepCashNonNegative(s, prices, n, initialCash);
    }
  }

  /** Strategy 2 can overdraw, but never below -9 times the highest close. */
  lemma {:induction false} Strategy2CashFloor(prices: PriceSeries, n: nat, initialCash: real, high: real)
    requires initialCash >= 0.0 && high >= 0.0 && n <= |prices|
    requires forall i :: 0 <= i < n ==> prices[i] <= high
    ensures Run(Strategy2, prices, n, initialCash).cash >= -9.0 * high
    decreases n
  {
    if n > 0 {
      Strategy2CashFloor(prices, n - 1, initialCash, high);
      RunStepStrategy2Floor(prices, n, initialCash, high);
    }
  }

  /** A one-bar run that shows Strategy 2 overdrawing: ten lots at 10.0
      bought with 10.0 of cash. */
  lemma Strategy2Overdraws()
    ensures Run(Strategy2, [10.0], 1, 10.0).cash == -90.0
    ensures |Run(Strategy2, [10.0], 1, 10.0).positions| == 10
  {
    assert Run(Strategy2, [10.0], 0, 10.0) == Fresh(10.0);
  }

  /** Strategy 2 moves its marker whenever its price rule fires, even when the
      cash check then blocks the buy. */
  lemma Strategy2MarkerIgnoresCash(st: RunState, close: Price, bar: nat)
    requires st.lastBuyPrice.None? || close <= st.lastBuyPrice.value - 0.50
    ensures Step(Strategy2, st, close, bar).lastBuyPrice == Some(close)
    ensures SellPass(st, close, bar).cash < close ==>
              Step(Strategy2, st, close, bar).positionId == st.positionId
  {
  }

  /** With too little cash on the first bar, Strategy 2 buys nothing but
      still records the first close as its marker. */
  lemma Strategy2FirstBarBlocked()
    ensures Run(Strategy2, [10.0], 1, 5.0) == RunState(5.0, [], [], 0, Some(10.0))
  {
    assert Run(Strategy2, [10.0], 0, 5.0) == Fresh(5.0);
  }

  // ----- Strategy 1: stay invested -----

  /** At the end of every bar, Strategy 1 holds no position only if its
      cash is below that bar's close. */
  lemma StaysInvested(prices: PriceSeries, n: nat, initialCash: real)
    requires 1 <= n <= |prices|
    ensures |Run(Strategy1, prices, n, initialCash).positions| == 0 ==>
      Run(Strategy1, prices, n, initialCash).cash < prices[n - 1]
  {
    var close := prices[n - 1];
    var afterSells := SellPass(Run(Strategy1, prices, n - 1, initialCash), close, n - 1);
    var d := Decide(Strategy1, afterSells, close);
    if d.buy {
      assert |NewLots(Strategy1, close, n - 1, afterSells.positionId + 1)| == 1;
    }
  }

  /** If the initial cash is below every close, Strategy 1 never buys: its
      state never leaves the fresh state. */
  lemma {:induction false} NeverAffordable(prices: PriceSeries, n: nat, initialCash: real)
    requires n <= |prices|
    requires forall i :: 0 <= i < |prices| ==> initialCash < prices[i]
    ensures Run(Strategy1, prices, n, initialCash) == Fresh(initialCash)
    decreases n
  {
    if n > 0 {
      NeverAffordable(prices, n - 1, initialCash);
      assert Matured([], prices[n - 1]) == [];
    }
  }

  /** ... so the run ends with no trades, with the initial cash and with a
      zero return. */
  lemma NeverAffordableResult(prices: PriceSeries, initialCash: real)
    requires initialCash != 0.0
    requires forall i :: 0 <= i < |prices| ==> initialCash < prices[i]
    ensures var r := Evaluate(Strategy1, prices, initialCash).value;
      r.completedTrades == [] && r.openPositions == [] &&
      r.finalCash == initialCash && r.totalFinalValue == initialCash && r.returnPercentage == Percent(0.0)
  {
    NeverAffordable(prices, |prices|, initialCash);
  }

  /** Ten flat bars at 1000 with 100 of cash: no trades, cash unchanged. */
  lemma InsufficientFundsScenario()
    ensures var r := Evaluate(Strategy1, seq(10, _ => 1000.0), 100.0).value;
      r.completedTrades == [] && r.finalCash == 100.0
  {
    NeverAffordableResult(seq(10, _ => 1000.0), 100.0);
  }

  /** The first bar at 25.0 with 1000 of cash buys one share with target 25.375. */
  lemma FirstFlatBar()
    ensures Step(Strategy1, Fresh(1000.0), 25.0, 0) ==
      RunState(975.0, [Position(25.0, 0, 1, 25.375, "Strategy_1", 1)], [], 1, Some(25.0))
  {
    assert NewLots(Strategy1, 25.0, 0, 1) == [Position(25.0, 0, 1, 25.375, "Strategy_1", 1)];
  }

  /** A second bar at 25.0 neither sells (the target is not reached) nor buys
      (the price has not dropped). */
  lemma SecondFlatBar()
    ensures var st := RunState(975.0, [Position(25.0, 0, 1, 25.375, "Strategy_1", 1)], [], 1, Some(25.0));
      Step(Strategy1, st, 25.0, 1) == st
  {
    var p := Position(25.0, 0, 1, 25.375, "Strategy_1", 1);
    assert Remaining([p], 25.0) == [p] by { RemainingKeepsUnreached([p], 25.0); }
    assert Matured([p], 25.0) == [];
  }

  /** Two bars at 25.0 with 1000 of cash: one share bought on the first bar
      with target 25.375, still open at the end, and a zero return. */
  lemma TwoFlatBarsScenario()
    ensures var r := Evaluate(Strategy1, [25.0, 25.0], 1000.0).value;
      r.completedTrades == [] && |r.openPositions| == 1 &&
      r.openPositions[0].sellTarget == 25.375 &&
      r.finalCash == 975.0 && r.finalPositionValue == 25.0 && r.totalFinalValue == 1000.0 &&
      r.totalReturn == 0.0 && r.returnPercentage == Percent(0.0)
  {
    var prices: PriceSeries := [25.0, 25.0];
    var p := Position(25.0, 0, 1, 25.375, "Strategy_1", 1);
    var st1 := RunState(975.0, [p], [], 1, Some(25.0));
    FirstFlatBar();
    SecondFlatBar();
    assert Run(Strategy1, prices, 0, 1000.0) == Fresh(1000.0);
    assert Run(Strategy1, prices, 1, 1000.0) == st1;
    assert Run(Strategy1, prices, 2, 1000.0) == st1;
    assert MarketValue([p], 25.0) == 25.0 by { MarketValueIsPriceTimesShares([p], 25.0); UnitLotShares([p]); }
  }

  // ----- the baseline -----

  /** x <= y scaled by a positive price keeps its order. */
  lemma ScaleMonotone(x: real, y: real, c: real)
    requires c > 0.0 && x <= y
    ensures x * c <= y * c
  {
  }

  lemma ScaleStrict(x: real, y: real, c: real)
    requires c > 0.0 && x < y
    ensures x * c < y * c
  {
  }

  /** One more unit of c on top of m units. */
  lemma ScaleSucc(m: real, c: real)
    ensures (m + 1.0) * c == m * c + c
  {
  }

  /** A quotient x = a / c at least m leaves a remainder a - m * c >= 0. */
  lemma RemainderAtLeast(a: real, c: real, x: real, m: real)
    requires c > 0.0 && x * c == a && m <= x
    ensures 0.0 <= a - m * c
  {
    ScaleMonotone(m, x, c);
  }

  /** A quotient x = a / c below m + 1 leaves a remainder a - m * c < c. */
  lemma RemainderBelowDivisor(a: real, c: real, x: real, m: real)
    requires c > 0.0 && x * c == a && x < m + 1.0
    ensures a - m * c < c
  {
    ScaleStrict(x, m + 1.0, c);
    ScaleSucc(m, c);
  }

  /** A quotient x = a / c above m - 1 leaves a remainder a - m * c > -c. */
  lemma RemainderAboveMinusDivisor(a: real, c: real, x: real, m: real)
    requires c > 0.0 && x * c == a && m - 1.0 < x
    ensures -c < a - m * c
  {
    ScaleStrict(m - 1.0, x, c);
    ScaleSucc(m - 1.0, c);
  }

  /** A quotient x = a / c at most m leaves a remainder a - m * c <= 0. */
  lemma RemainderAtMost(a: real, c: real, x: real, m: real)
    requires c > 0.0 && x * c == a && x <= m
    ensures a - m * c <= 0.0
  {
    ScaleMonotone(x, m, c);
  }

  /** Truncating a non-negative quotient leaves a remainder below the divisor. */
  lemma TruncRemainderNonNegative(a: real, c: real)
    requires c > 0.0 && a >= 0.0
    ensures Trunc(a / c) >= 0 && 0.0 <= a - Trunc(a / c) as real * c < c
  {
    var x := a / c;
    assert x * c == a;
    assert x >= 0.0 by {
      if x < 0.0 {
        ScaleStrict(x, 0.0, c);
      }
    }
    RemainderAtLeast(a, c, x, Trunc(x) as real);
    RemainderBelowDivisor(a, c, x, Trunc(x) as real);
  }

  /** Truncating a negative quotient toward zero leaves a remainder above
      minus the divisor. */
  lemma TruncRemainderNegative(a: real, c: real)
    requires c > 0.0 && a < 0.0
    ensures Trunc(a / c) <= 0 && -c < a - Trunc(a / c) as real * c <= 0.0
  {
    var x := a / c;
    assert x * c == a;
    assert x < 0.0 by {
      if x >= 0.0 {
        ScaleMonotone(0.0, x, c);
      }
    }
    RemainderAboveMinusDivisor(a, c, x, Trunc(x) as real);
    RemainderAtMost(a, c, x, Trunc(x) as real);
  }

  /** The baseline buys as many whole shares as the cash allows: the cash
      left over is less than one share and has the sign of the initial cash. */
  lemma BaselineBounds(prices: PriceSeries, initialCash: real)
    ensures initialCash >= 0.0 ==>
      SharesBought(prices, initialCash) >= 0 && 0.0 <= CashRemaining(prices, initialCash) < prices[0]
    ensures initialCash < 0.0 ==>
      SharesBought(prices, initialCash) <= 0 && -prices[0] < CashRemaining(prices, initialCash) <= 0.0
  {
    if initialCash >= 0.0 {
      TruncRemainderNonNegative(initialCash, prices[0]);
    } else {
      TruncRemainderNegative(initialCash, prices[0]);
    }
  }

  /** The baseline's final value is the initial cash plus the price move on
      the shares it bought; with no share bought it is the initial cash and
      the return is zero (NaN when there was no cash at all). */
  lemma BaselineValue(prices: PriceSeries, initialCash: real)
    ensures var r := BuyAndHold(prices, initialCash);
      r.sharesBought == SharesBought(prices, initialCash) &&
      r.finalValue == initialCash + r.sharesBought as real * (r.finalPrice - r.initialPrice) &&
      (r.sharesBought == 0 ==> r.finalValue == initialCash && r.totalReturn == 0.0) &&
      (r.sharesBought == 0 && initialCash != 0.0 ==> r.returnPercentage == Percent(0.0))
  {
  }

  /** 25000 of cash, first close 25.0, last close 30.0: 1000 shares, nothing
      left over, final value 30000, a 20% return. */
  lemma BaselineScenario()
    ensures var r := BuyAndHold([25.0, 30.0], 25000.0);
      r.sharesBought == 1000 && CashRemaining([25.0, 30.0], 25000.0) == 0.0 &&
      r.finalValue == 30000.0 && r.returnPercentage == Percent(20.0)
  {
    assert Trunc(25000.0 / 25.0) == 1000 by {
      assert 25000.0 / 25.0 == 1000.0;
    }
  }
}
