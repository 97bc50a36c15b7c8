/** The simulators as the backtester runs them: a loop over the bars that
    updates the cash, the open positions, the completed trades, the id
    counter and the last-buy-price marker in place, and the analyzer object
    that runs the four strategies and keeps their results. Each loop is
    proved to compute exactly what the pure rules of module Rules define. */
module Analyzer {
  import opened Basics
  import opened Ledger
  import opened Rules

  /** The sell pass of one bar: every open position whose target the close
      reached is sold, its trade appended and close * quantity credited;
      the unsold positions are kept in their order. */
  method SellMatured(positions: seq<Position>, trades: seq<Trade>, cash: real, close: Price, bar: nat)
    returns (kept: seq<Position>, trades': seq<Trade>, cash': real)
    ensures kept == Remaining(positions, close)
    ensures trades' == trades + Sold(positions, close, bar)
    ensures cash' == cash + Proceeds(Sold(positions, close, bar))
  {
    kept, trades', cash' := [], trades, cash;
    var j := 0;
    while j < |positions|
      invariant 0 <= j <= |positions|
      invariant kept == Remaining(positions[..j], close)
      invariant trades' == trades + Sold(positions[..j], close, bar)
      invariant cash' == cash + Proceeds(Sold(positions[..j], close, bar))
    {
      var pos := positions[j];
      ghost var seen := positions[..j];
      assert positions[..j + 1] == seen + [pos];
      assert (seen + [pos])[..|seen|] == seen;
      if close >= pos.sellTarget {
        var trade := Trade(pos.entryPrice, close, pos.entryTime, bar, pos.quantity,
                           (close - pos.entryPrice) * pos.quantity as real,
                           ((close - pos.entryPrice) / pos.entryPrice) * 100.0,
                           pos.strategyName, pos.positionId);
        assert trade == CloseTrade(pos, close, bar);
        assert Sold(positions[..j + 1], close, bar) == Sold(seen, close, bar) + [trade];
        SumAppend(Sold(seen, close, bar), [trade], TradeExitValue);
        assert Sum([trade], TradeExitValue) == close * pos.quantity as real;
        trades' := trades' + [trade];
        cash' := cash' + close * pos.quantity as real;
      } else {
        assert Sold(positions[..j + 1], close, bar) == Sold(seen, close, bar);
        kept := kept + [pos];
      }
      j := j + 1;
    }
    assert positions[..|positions|] == positions;
  }

  /** The tiered purchase of Strategies 2 and 3: one lot per tier, each a
      single share with its tier's target, appended in tier order. */
  method AppendTieredLots(s: Strategy, positions: seq<Position>, close: Price, bar: nat, id: int)
    returns (positions': seq<Position>)
    requires !s.Strategy1?
    ensures positions' == positions + NewLots(s, close, bar, id)
  {
    var tiers := TierTargets(s);
    positions' := positions;
    var k := 0;
    while k < |tiers|
      invariant 0 <= k <= |tiers|
      invariant positions' == positions + NewLots(s, close, bar, id)[..k]
    {
      var lot := Position(close, bar, 1, close * (1.0 + tiers[k] / 100.0), PositionLabel(s), id, k + 1);
      assert lot == NewLots(s, close, bar, id)[k];
      assert NewLots(s, close, bar, id)[..k + 1] == NewLots(s, close, bar, id)[..k] + [lot];
      positions' := positions' + [lot];
      k := k + 1;
    }
    assert NewLots(s, close, bar, id)[..k] == NewLots(s, close, bar, id);
  }

  /** The buy rule of each strategy, taken after the sell pass: whether to
      buy on this bar, and the new last-buy-price marker. */
  method DecideBuy(s: Strategy, ghost st: RunState, cash: real, openCount: nat,
                   lastBuyPrice: Option<real>, close: Price)
    returns (shouldBuy: bool, marker: Option<real>)
    requires st.cash == cash && |st.positions| == openCount && st.lastBuyPrice == lastBuyPrice
    ensures Decision(shouldBuy, marker) == Decide(s, st, close)
  {
    shouldBuy, marker := false, lastBuyPrice;
    match s {
      case Strategy1 =>
        if openCount == 0 && cash >= close {
          shouldBuy, marker := true, Some(close);
        } else if openCount > 0 && lastBuyPrice.Some? &&
                  close <= lastBuyPrice.value - 0.50 && cash >= close {
          shouldBuy, marker := true, Some(close);
        }
      case Strategy2 =>
        if lastBuyPrice.None? {
          shouldBuy, marker := true, Some(close);
        } else if close <= lastBuyPrice.value - 0.50 {
          shouldBuy, marker := true, Some(close);
        }
        // the marker has already moved; the purchase itself needs one share's price
        shouldBuy := shouldBuy && cash >= close;
      case Strategy3 =>
        var cost := close * 5.0;
        if openCount == 0 && cash >= cost {
          shouldBuy, marker := true, Some(close);
        } else if lastBuyPrice.Some? && close <= lastBuyPrice.value - 0.50 && cash >= cost {
          shouldBuy, marker := true, Some(close);
        }
    }
  }

  /** One bar of a simulator, on its local state: the sell pass, the buy
      decision and, when it says so, one purchase with a new id. */
  method SimulateBar(s: Strategy, cash: real, positions: seq<Position>, trades: seq<Trade>,
                     positionId: int, lastBuyPrice: Option<real>, close: Price, bar: nat)
    returns (cash': real, positions': seq<Position>, trades': seq<Trade>,
             positionId': int, lastBuyPrice': Option<real>)
    ensures RunState(cash', positions', trades', positionId', lastBuyPrice')
         == Step(s, RunState(cash, positions, trades, positionId, lastBuyPrice), close, bar)
  {
    ghost var before := RunState(cash, positions, trades, positionId, lastBuyPrice);
    positions', trades', cash' := SellMatured(positions, trades, cash, close, bar);
    positionId' := positionId;
    ghost var afterSells := RunState(cash', positions', trades', positionId, lastBuyPrice);
    assert afterSells == SellPass(before, close, bar);

    var shouldBuy;
    shouldBuy, lastBuyPrice' := DecideBuy(s, afterSells, cash', |positions'|, lastBuyPrice, close);

    if shouldBuy {
      positionId' := positionId' + 1;
      if s.Strategy1? {
        var lot := Position(close, bar, 1, close * 1.015, "Strategy_1", positionId');
        assert NewLots(s, close, bar, positionId') == [lot];
        positions' := positions' + [lot];
        cash' := cash' - close;
      } else {
        positions' := AppendTieredLots(s, positions', close, bar, positionId');
        cash' := cash' - close * LotsPerPurchase(s) as real;
      }
    }
  }

  /** One strategy's backtest over the whole series, bar by bar; finally the
      open positions are marked at the last close. */
  method Simulate(s: Strategy, prices: PriceSeries, initialCash: real) returns (r: Result<StrategyResult>)
    ensures r == Evaluate(s, prices, initialCash)
  {
    var positions: seq<Position> := [];
    var trades: seq<Trade> := [];
    var cash := initialCash;
    var positionId := 0;
    var lastBuyPrice: Option<real> := None;
    var i := 0;
    while i < |prices|
      invariant 0 <= i <= |prices|
      invariant RunState(cash, positions, trades, positionId, lastBuyPrice) == Run(s, prices, i, initialCash)
      decreases |prices| - i
    {
      cash, positions, trades, positionId, lastBuyPrice :=
        SimulateBar(s, cash, positions, trades, positionId, lastBuyPrice, prices[i], i);
      i := i + 1;
    }
    r := Finalize(s, RunState(cash, positions, trades, positionId, lastBuyPrice), prices[|prices| - 1], initialCash);
  }

  /** The backtester object: the prepared price series, the starting cash
      and the results of the last complete run of all strategies. */
  class TradingStrategyAnalyzer {
    const data: PriceSeries
    const initialCash: real
    var results: map<string, StrategyResult>

    constructor (data: PriceSeries, initialCash: real := 23000.0)
      ensures this.data == data && this.initialCash == initialCash
      ensures results == map[]
    {
      this.data := data;
      this.initialCash := initialCash;
      results := map[];
    }

    /** Buy one share when flat or after a 0.50 drop, sell it 1.5% higher. */
    method Strategy1BuyOnDropSellAtTarget() returns (r: Result<StrategyResult>)
      ensures r == Evaluate(Strategy1, data, initialCash)
    {
      r := Simulate(Strategy1, data, initialCash);
    }

    /** Buy ten tiered lots on the first bar and after each 0.50 drop. */
    method Strategy2TieredSelling() returns (r: Result<StrategyResult>)
      ensures r == Evaluate(Strategy2, data, initialCash)
    {
      r := Simulate(Strategy2, data, initialCash);
    }

    /** Buy five tiered lots when flat or after a 0.50 drop, if all five are affordable. */
    method Strategy3ModerateTiered() returns (r: Result<StrategyResult>)
      ensures r == Evaluate(Strategy3, data, initialCash)
    {
      r := Simulate(Strategy3, data, initialCash);
    }

    /** Buy as many whole shares as possible at the first close and hold;
        with no initial cash the return percentage is NaN. */
    method BuyAndHoldBaseline() returns (r: StrategyResult)
      ensures r == BuyAndHold(data, initialCash)
    {
      var initialPrice := data[0];
      var finalPrice := data[|data| - 1];
      var sharesBought := Trunc(initialCash / initialPrice);
      assert sharesBought == SharesBought(data, initialCash);
      var cashRemaining := initialCash - sharesBought as real * initialPrice;
      assert cashRemaining == CashRemaining(data, initialCash);
      var finalValue := sharesBought as real * finalPrice + cashRemaining;
      var totalReturn := finalValue - initialCash;
      var returnPct := NotANumber;
      if initialCash != 0.0 {
        returnPct := Percent(totalReturn / initialCash * 100.0);
      }
      r := BuyHold("Buy & Hold (Baseline)", sharesBought, initialPrice, finalPrice,
                   finalValue, totalReturn, returnPct);
    }

    /** Run the four strategies in order and store their results; a division
        by a zero initial cash aborts the run and leaves the stored results
        as they were. */
    method RunAllStrategies() returns (r: Result<map<string, StrategyResult>>)
      modifies this
      ensures r == AllStrategies(data, initialCash)
      ensures r.Ok? ==> results == r.value
      ensures r.DivisionByZero? ==> results == old(results)
    {
      var s1 := Strategy1BuyOnDropSellAtTarget();
      if s1.DivisionByZero? {
        return DivisionByZero;
      }
      var s2 := Strategy2TieredSelling();
      if s2.DivisionByZero? {
        return DivisionByZero;
      }
      var s3 := Strategy3ModerateTiered();
      if s3.DivisionByZero? {
        return DivisionByZero;
      }
      var bh := BuyAndHoldBaseline();
      results := map["strategy_1" := s1.value, "strategy_2" := s2.value,
                     "strategy_3" := s3.value, "buy_hold" := bh];
      r := Ok(results);
    }
  }
}
