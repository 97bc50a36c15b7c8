/** The rules of the three tiered buy/sell simulators and of the buy-and-hold
    baseline, written as pure functions: one bar of a simulator is `Step`,
    a run over the first n bars is the fold `Run`, and `Evaluate` adds the
    mark-to-market valuation after the last bar. The imperative simulators
    in module Analyzer are proved equal to these functions, and the
    invariants every bar keeps and the properties of the strategies are
    proved about them in RunInvariants and StrategyProperties. */
module Rules {
  import opened Basics
  import opened Ledger

  /** A validated series of closing prices: at least one bar, every close
      positive. Bar i has timestamp i. */
  type PriceSeries = s: seq<Price> | |s| > 0 witness [1.0]

  datatype Strategy = Strategy1 | Strategy2 | Strategy3

  /** Number of single-share lots bought per purchase event. */
  function LotsPerPurchase(s: Strategy): nat
  {
    match s
    case Strategy1 => 1
    case Strategy2 => 10
    case Strategy3 => 5
  }

  /** Gain targets in percent, one per lot. Strategy 1 writes its single
      target as the multiplier 1.015; see SellTarget. */
  function TierTargets(s: Strategy): (tiers: seq<real>)
    ensures |tiers| == LotsPerPurchase(s)
    ensures forall k :: 0 <= k < |tiers| ==> tiers[k] > 0.0
  {
    match s
    case Strategy1 => [1.5]
    case Strategy2 => [1.5, 4.0, 8.0, 10.0, 12.0, 15.0, 20.0, 25.0, 30.0, 35.0]
    case Strategy3 => [2.0, 5.0, 10.0, 15.0, 20.0]
  }

  /** The strategy name stored in each Position and Trade. */
  function PositionLabel(s: Strategy): string
  {
    match s
    case Strategy1 => "Strategy_1"
    case Strategy2 => "Strategy_2"
    case Strategy3 => "Strategy_3"
  }

  /** The strategy name stored in a result. */
  function ResultLabel(s: Strategy): string
  {
    match s
    case Strategy1 => "Strategy 1 (Always Invested)"
    case Strategy2 => "Strategy 2 (Tiered Selling)"
    case Strategy3 => "Strategy 3 (Moderate Tiers)"
  }

  /** Sell target of lot number `lot` (1-based) of a purchase at `close`. */
  function SellTarget(s: Strategy, close: Price, lot: int): (target: real)
    requires 1 <= lot <= LotsPerPurchase(s)
    ensures target == close * (1.0 + TierTargets(s)[lot - 1] / 100.0)
    ensures target > close
  {
    if s.Strategy1? then close * 1.015
    else close * (1.0 + TierTargets(s)[lot - 1] / 100.0)
  }

  /** Lot `lot` of the purchase event `id` made at `close` on bar `bar`.
      Strategy 1 builds its Position without a lot number (default 1). */
  function Lot(s: Strategy, close: Price, bar: nat, id: int, lot: int): Position
    requires 1 <= lot <= LotsPerPurchase(s)
  {
    if s.Strategy1? then Position(close, bar, 1, SellTarget(s, close, 1), PositionLabel(s), id)
    else Position(close, bar, 1, SellTarget(s, close, lot), PositionLabel(s), id, lot)
  }

  /** All lots of one purchase event, in lot-number order. */
  function NewLots(s: Strategy, close: Price, bar: nat, id: int): seq<Position>
  {
    seq(LotsPerPurchase(s), k requires 0 <= k < LotsPerPurchase(s) => Lot(s, close, bar, id, k + 1))
  }

  /** The close has reached the position's target, so the sell pass sells it. */
  predicate Reached(p: Position, close: real)
  {
    close >= p.sellTarget
  }

  /** The positions the sell pass keeps, in their original order. */
  function Remaining(ps: seq<Position>, close: real): seq<Position>
    decreases |ps|
  {
    if |ps| == 0 then []
    else
      Remaining(ps[..|ps| - 1], close) + (if Reached(ps[|ps| - 1], close) then [] else [ps[|ps| - 1]])
  }

  /** The positions the sell pass sells, in their original order. */
  function Matured(ps: seq<Position>, close: real): seq<Position>
    decreases |ps|
  {
    if |ps| == 0 then []
    else
      Matured(ps[..|ps| - 1], close) + (if Reached(ps[|ps| - 1], close) then [ps[|ps| - 1]] else [])
  }

  /** The trades the sell pass appends on bar `bar`: one per matured
      position, in the same order. */
  function Sold(ps: seq<Position>, close: real, bar: nat): seq<Trade>
    decreases |ps|
  {
    if |ps| == 0 then []
    else
      var last := ps[|ps| - 1];
      Sold(ps[..|ps| - 1], close, bar) + (if Reached(last, close) then [CloseTrade(last, close, bar)] else [])
  }

  /** Simulator-local state: created fresh for every run. */
  datatype RunState = RunState(
    cash: real,
    positions: seq<Position>,
    trades: seq<Trade>,
    positionId: int,
    lastBuyPrice: Option<real>)

  function Fresh(initialCash: real): RunState
  {
    RunState(initialCash, [], [], 0, None)
  }

  /** Step 1 of a bar: sell every position whose target the close reached,
      record its trade and credit close * quantity. */
  function SellPass(st: RunState, close: real, bar: nat): RunState
  {
    var sold := Sold(st.positions, close, bar);
    st.(positions := Remaining(st.positions, close),
        trades := st.trades + sold,
        cash := st.cash + Proceeds(sold))
  }

  /** Outcome of the buy decision: whether to buy, and the new value of the
      last-buy-price marker. */
  datatype Decision = Decision(buy: bool, marker: Option<real>)

  /** Step 2 of a bar: the buy decision, taken on the state after the sell pass. */
  function Decide(s: Strategy, st: RunState, close: Price): Decision
  {
    match s
    case Strategy1 =>
      if |st.positions| == 0 && st.cash >= close then Decision(true, Some(close))
      else if |st.positions| > 0 && st.lastBuyPrice.Some? &&
              close <= st.lastBuyPrice.value - 0.50 && st.cash >= close
      then Decision(true, Some(close))
      else Decision(false, st.lastBuyPrice)
    case Strategy2 =>
      // the marker moves whenever the price rule fires; only one share's
      // price is checked against the cash
      var triggered := st.lastBuyPrice.None? || close <= st.lastBuyPrice.value - 0.50;
      Decision(triggered && st.cash >= close, if triggered then Some(close) else st.lastBuyPrice)
    case Strategy3 =>
      var cost := close * LotsPerPurchase(s) as real;
      if |st.positions| == 0 && st.cash >= cost then Decision(true, Some(close))
      else if st.lastBuyPrice.Some? && close <= st.lastBuyPrice.value - 0.50 && st.cash >= cost
      then Decision(true, Some(close))
      else Decision(false, st.lastBuyPrice)
  }

  /** Step 3 of a bar: one purchase event with a new id, its lots appended
      and their cost debited. */
  function Buy(s: Strategy, st: RunState, close: Price, bar: nat): RunState
  {
    var id := st.positionId + 1;
    st.(positionId := id,
        positions := st.positions + NewLots(s, close, bar, id),
        cash := st.cash - close * LotsPerPurchase(s) as real)
  }

  /** Strategy 1 buys exactly when it holds nothing or the close dropped
      0.50 below the last buy price, and it has one share's price in cash;
      a buy moves the marker to the close, and no buy keeps it. */
  lemma Strategy1BuyRule(st: RunState, close: Price)
    ensures Decide(Strategy1, st, close).buy <==>
      st.cash >= close &&
      (|st.positions| == 0 || (st.lastBuyPrice.Some? && close <= st.lastBuyPrice.value - 0.50))
    ensures Decide(Strategy1, st, close).buy ==> Decide(Strategy1, st, close).marker == Some(close)
    ensures !Decide(Strategy1, st, close).buy ==> Decide(Strategy1, st, close).marker == st.lastBuyPrice
  {
  }

  /** Strategy 2's price rule fires with no marker or after a 0.50 drop; it
      then moves the marker to the close whatever the cash, and buys only
      if the cash covers one share. */
  lemma Strategy2BuyRule(st: RunState, close: Price)
    ensures var fires := st.lastBuyPrice.None? || close <= st.lastBuyPrice.value - 0.50;
      (Decide(Strategy2, st, close).buy <==> fires && st.cash >= close) &&
      (fires ==> Decide(Strategy2, st, close).marker == Some(close)) &&
      (!fires ==> Decide(Strategy2, st, close).marker == st.lastBuyPrice)
  {
  }

  /** Strategy 3 buys exactly when it holds nothing or the close dropped
      0.50 below the last buy price, and the cash covers all five lots; a
      buy moves the marker to the close, and no buy keeps it. */
  lemma Strategy3BuyRule(st: RunState, close: Price)
    ensures Decide(Strategy3, st, close).buy <==>
      st.cash >= close * 5.0 &&
      (|st.positions| == 0 || (st.lastBuyPrice.Some? && close <= st.lastBuyPrice.value - 0.50))
    ensures Decide(Strategy3, st, close).buy ==> Decide(Strategy3, st, close).marker == Some(close)
    ensures !Decide(Strategy3, st, close).buy ==> Decide(Strategy3, st, close).marker == st.lastBuyPrice
  {
  }

  /** What one purchase event does to the state: a new id, the open
      positions kept with the event's lots after them, its cost debited. */
  lemma BuyMeaning(s: Strategy, st: RunState, close: Price, bar: nat)
    ensures var r := Buy(s, st, close, bar);
      r.positionId == st.positionId + 1 &&
      r.trades == st.trades && r.lastBuyPrice == st.lastBuyPrice &&
      |r.positions| == |st.positions| + LotsPerPurchase(s) &&
      r.positions[..|st.positions|] == st.positions &&
      r.cash == st.cash - close * LotsPerPurchase(s) as real
    ensures var r := Buy(s, st, close, bar);
      forall k :: |st.positions| <= k < |r.positions| ==>
        r.positions[k].positionId == r.positionId && r.positions[k].quantity == 1 &&
        r.positions[k].entryPrice == close && r.positions[k].entryTime == bar
  {
  }

  /** One bar of a simulator: sell pass, buy decision, buy execution. */
  function Step(s: Strategy, st: RunState, close: Price, bar: nat): (r: RunState)
    // trades are only ever appended, and only by the sell pass
    ensures r.trades == st.trades + Sold(st.positions, close, bar)
    // at most one purchase event per bar
    ensures r.positionId == st.positionId || r.positionId == st.positionId + 1
  {
    var afterSells := SellPass(st, close, bar);
    var d := Decide(s, afterSells, close);
    var decided := afterSells.(lastBuyPrice := d.marker);
    if d.buy then
      Buy(s, decided, close, bar)
    else decided
  }

  /** The state of a simulator after the first n bars. */
  function Run(s: Strategy, prices: PriceSeries, n: nat, initialCash: real): (st: RunState)
    requires n <= |prices|
    decreases n
  {
    if n == 0 then Fresh(initialCash)
    else Step(s, Run(s, prices, n - 1, initialCash), prices[n - 1], n - 1)
  }

  /** A return percentage as the source computes it on floating-point
      scalars: a number, or NaN where the baseline divides 0 by 0. */
  datatype Percentage = Percent(value: real) | NotANumber

  /** What a run reports. The baseline has no ledger, so it is its own variant. */
  datatype StrategyResult =
    | Traded(
        strategyName: string,
        completedTrades: seq<Trade>,
        openPositions: seq<Position>,
        finalCash: real,
        finalPositionValue: real,
        totalFinalValue: real,
        totalReturn: real,
        returnPercentage: Percentage)
    | BuyHold(
        strategyName: string,
        sharesBought: int,
        initialPrice: real,
        finalPrice: real,
        finalValue: real,
        totalReturn: real,
        returnPercentage: Percentage)

  /** Mark the open positions to market at the last close and report;
      the return percentage divides by the initial cash, which raises a
      division error when that cash is 0 (the totals are then plain 0). */
  function Finalize(s: Strategy, st: RunState, lastClose: real, initialCash: real): (r: Result<StrategyResult>)
    ensures r.DivisionByZero? <==> initialCash == 0.0
    ensures r.Ok? ==> r.value.Traded? && r.value.strategyName == ResultLabel(s)
    ensures r.Ok? ==> r.value.completedTrades == st.trades && r.value.openPositions == st.positions
    ensures r.Ok? ==> r.value.finalCash == st.cash
    ensures r.Ok? ==> r.value.finalPositionValue == lastClose * Shares(st.positions)
    ensures r.Ok? ==> r.value.totalFinalValue == st.cash + r.value.finalPositionValue
    ensures r.Ok? ==> r.value.totalReturn == r.value.totalFinalValue - initialCash
    ensures r.Ok? ==> r.value.returnPercentage.Percent? &&
                      r.value.returnPercentage.value * initialCash == r.value.totalReturn * 100.0
  {
    MarketValueIsPriceTimesShares(st.positions, lastClose);
    var positionValue := MarketValue(st.positions, lastClose);
    var total := st.cash + positionValue;
    if initialCash == 0.0 then DivisionByZero
    else Ok(Traded(ResultLabel(s), st.trades, st.positions, st.cash, positionValue,
                   total, total - initialCash, Percent((total - initialCash) / initialCash * 100.0)))
  }

  /** The result of a whole simulator run. */
  function Evaluate(s: Strategy, prices: PriceSeries, initialCash: real): (r: Result<StrategyResult>)
    ensures r.DivisionByZero? <==> initialCash == 0.0
    ensures r.Ok? ==> r.value.Traded?
  {
    Finalize(s, Run(s, prices, |prices|, initialCash), prices[|prices| - 1], initialCash)
  }

  /** Python's int() on a float: truncation toward zero. */
  function Trunc(x: real): (n: int)
    ensures 0.0 <= x ==> 0 <= n && n as real <= x < n as real + 1.0
    ensures x < 0.0 ==> n <= 0 && n as real - 1.0 < x <= n as real
  {
    if x >= 0.0 then x.Floor else -((-x).Floor)
  }

  /** Whole shares the baseline buys at the first close. */
  function SharesBought(prices: PriceSeries, initialCash: real): int
  {
    Trunc(initialCash / prices[0])
  }

  /** Cash the baseline keeps after buying its shares. */
  function CashRemaining(prices: PriceSeries, initialCash: real): real
  {
    initialCash - SharesBought(prices, initialCash) as real * prices[0]
  }

  /** The buy-and-hold baseline. Its totals are floating-point scalars, so
      with an initial cash of 0 the return percentage is 0 / 0, which is NaN
      rather than a division error. */
  function BuyAndHold(prices: PriceSeries, initialCash: real): (r: StrategyResult)
    ensures r.BuyHold? && r.initialPrice == prices[0] && r.finalPrice == prices[|prices| - 1]
    ensures r.totalReturn == r.finalValue - initialCash
    ensures initialCash == 0.0 ==>
      r.sharesBought == 0 && r.finalValue == 0.0 && r.totalReturn == 0.0 && r.returnPercentage == NotANumber
    ensures initialCash != 0.0 ==>
      r.returnPercentage.Percent? && r.returnPercentage.value * initialCash == r.totalReturn * 100.0
  {
    var initialPrice := prices[0];
    var finalPrice := prices[|prices| - 1];
    var shares := SharesBought(prices, initialCash);
    var finalValue := shares as real * finalPrice + CashRemaining(prices, initialCash);
    var totalReturn := finalValue - initialCash;
    var returnPct := if initialCash == 0.0 then NotANumber else Percent(totalReturn / initialCash * 100.0);
    BuyHold("Buy & Hold (Baseline)", shares, initialPrice, finalPrice, finalValue, totalReturn, returnPct)
  }

  /** The four independent runs, keyed as the analyzer keys them. With a
      zero initial cash the first strategy raises, which aborts the whole
      collection. */
  function AllStrategies(prices: PriceSeries, initialCash: real): (r: Result<map<string, StrategyResult>>)
    ensures r.DivisionByZero? <==> initialCash == 0.0
    ensures r.Ok? ==> r.value.Keys == {"strategy_1", "strategy_2", "strategy_3", "buy_hold"}
    // each key holds its own run's result
    ensures r.Ok? ==>
      r.value["strategy_1"] == Evaluate(Strategy1, prices, initialCash).value &&
      r.value["strategy_2"] == Evaluate(Strategy2, prices, initialCash).value &&
      r.value["strategy_3"] == Evaluate(Strategy3, prices, initialCash).value &&
      r.value["buy_hold"] == BuyAndHold(prices, initialCash)
  {
    if initialCash == 0.0 then DivisionByZero
    else Ok(map[
      "strategy_1" := Evaluate(Strategy1, prices, initialCash).value,
      "strategy_2" := Evaluate(Strategy2, prices, initialCash).value,
      "strategy_3" := Evaluate(Strategy3, prices, initialCash).value,
      "buy_hold" := BuyAndHold(prices, initialCash)])
  }
}
