/** The ledger records of the backtester: an open Position and a completed
    Trade, and the money sums that the simulators and their final valuation
    take over collections of them. Timestamps are bar indices into the
    price series. */
module Ledger {
  import opened Basics

  /** A closing price: every price the backtester trades at is positive. */
  type Price = x: real | x > 0.0 witness 1.0

  /** An open, unsold holding. `lotNumber` distinguishes the tiered lots of
      one purchase and defaults to 1, as the source's constructor does. */
  datatype Position = Position(
    entryPrice: Price,
    entryTime: nat,
    quantity: nat,
    sellTarget: real,
    strategyName: string,
    positionId: int,
    lotNumber: int := 1)

  /** A completed round trip, created once when a Position is sold. */
  datatype Trade = Trade(
    entryPrice: Price,
    exitPrice: real,
    entryTime: nat,
    exitTime: nat,
    quantity: nat,
    profitLoss: real,
    returnPct: real,
    strategyName: string,
    positionId: int)

  /** The Trade recorded when position `p` is sold at `exitPrice` on bar
      `exitTime`; what its profit and return mean is proved in TradeMeaning. */
  function CloseTrade(p: Position, exitPrice: real, exitTime: nat): (t: Trade)
    ensures t.entryPrice == p.entryPrice && t.entryTime == p.entryTime
    ensures t.quantity == p.quantity && t.positionId == p.positionId
    ensures t.strategyName == p.strategyName
    ensures t.exitPrice == exitPrice && t.exitTime == exitTime
  {
    Trade(p.entryPrice, exitPrice, p.entryTime, exitTime, p.quantity,
          (exitPrice - p.entryPrice) * p.quantity as real,
          ((exitPrice - p.entryPrice) / p.entryPrice) * 100.0,
          p.strategyName, p.positionId)
  }

  /** A recorded trade is priced from its entry and exit: the sale proceeds
      are the cost plus the profit, the exit price is recovered from the
      entry price and the return percentage, and a sale at or above a target
      set above a positive entry is a strict gain. */
  lemma TradeMeaning(p: Position, exitPrice: real, exitTime: nat)
    ensures var t := CloseTrade(p, exitPrice, exitTime);
      Priced(t) &&
      t.exitPrice * t.quantity as real == t.entryPrice * t.quantity as real + t.profitLoss &&
      t.entryPrice * (100.0 + t.returnPct) == 100.0 * t.exitPrice &&
      (p.entryPrice < p.sellTarget <= exitPrice && p.quantity >= 1 ==>
         t.exitPrice > t.entryPrice && t.profitLoss > 0.0 && t.returnPct > 0.0)
  {
    var t := CloseTrade(p, exitPrice, exitTime);
    var r := (exitPrice - p.entryPrice) / p.entryPrice;
    assert r * p.entryPrice == exitPrice - p.entryPrice;
    assert t.returnPct == r * 100.0;
    if p.entryPrice < p.sellTarget <= exitPrice && p.quantity >= 1 {
      assert r > 0.0;
      assert t.profitLoss == (exitPrice - p.entryPrice) * p.quantity as real;
    }
  }

  /** Well-formed trade: its profit and return are the ones CloseTrade derives. */
  predicate Priced(t: Trade)
  {
    t.profitLoss == (t.exitPrice - t.entryPrice) * t.quantity as real &&
    t.returnPct == (t.exitPrice - t.entryPrice) / t.entryPrice * 100.0
  }

  function EntryValue(p: Position): real { p.entryPrice * p.quantity as real }
  function SharesOf(p: Position): real { p.quantity as real }
  function ValueAt(price: real): Position -> real { (p: Position) => price * p.quantity as real }
  function TradeEntryValue(t: Trade): real { t.entryPrice * t.quantity as real }
  function TradeExitValue(t: Trade): real { t.exitPrice * t.quantity as real }
  function ProfitOf(t: Trade): real { t.profitLoss }

  /** What was paid for the open positions. */
  function CostBasis(ps: seq<Position>): real { Sum(ps, EntryValue) }

  /** Number of shares held. */
  function Shares(ps: seq<Position>): real { Sum(ps, SharesOf) }

  /** Mark-to-market value of the open positions at `price`. */
  function MarketValue(ps: seq<Position>, price: real): real { Sum(ps, ValueAt(price)) }

  /** What was paid for the shares of the completed trades. */
  function EntryCost(ts: seq<Trade>): real { Sum(ts, TradeEntryValue) }

  /** What the completed trades were sold for. */
  function Proceeds(ts: seq<Trade>): real { Sum(ts, TradeExitValue) }

  /** Total profit/loss of the completed trades. */
  function RealizedPnL(ts: seq<Trade>): real { Sum(ts, ProfitOf) }

  /** Valuing positions at one price is that price times the shares held. */
  lemma {:induction false} MarketValueIsPriceTimesShares(ps: seq<Position>, price: real)
    ensures MarketValue(ps, price) == price * Shares(ps)
    decreases |ps|
  {
    if |ps| > 0 {
      MarketValueIsPriceTimesShares(ps[..|ps| - 1], price);
    }
  }

  /** With single-share lots the number of shares is the number of positions. */
  lemma UnitLotShares(ps: seq<Position>)
    requires forall k :: 0 <= k < |ps| ==> ps[k].quantity == 1
    ensures Shares(ps) == |ps| as real
  {
    SumConstant(ps, SharesOf, 1.0);
  }

  /** The realized profit of priced trades is their proceeds minus their cost. */
  lemma {:induction false} RealizedIsProceedsMinusCost(ts: seq<Trade>)
    requires forall k :: 0 <= k < |ts| ==> Priced(ts[k])
    ensures RealizedPnL(ts) == Proceeds(ts) - EntryCost(ts)
    decreases |ts|
  {
    if |ts| > 0 {
      RealizedIsProceedsMinusCost(ts[..|ts| - 1]);
      var t := ts[|ts| - 1];
      assert Priced(t);
      assert t.profitLoss == t.exitPrice * t.quantity as real - t.entryPrice * t.quantity as real;
    }
  }
}
