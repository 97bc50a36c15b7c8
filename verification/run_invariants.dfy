/** The invariants every run of the three tiered simulators keeps, proved bar
    by bar over the pure rules: what an open position and a completed trade
    look like, that trades are recorded in bar order, that every lot of
    every purchase event is accounted for, and the cash ledger. */
module RunInvariants {
  import opened Basics
  import opened Ledger
  import opened Rules

  /** An open position of strategy s, after n bars, under id counter `id`. */
  predicate PositionOk(s: Strategy, p: Position, n: nat, id: int)
  {
    p.quantity == 1 &&
    1 <= p.lotNumber <= LotsPerPurchase(s) &&
    p.sellTarget == SellTarget(s, p.entryPrice, p.lotNumber) &&
    p.entryTime < n &&
    1 <= p.positionId <= id &&
    p.strategyName == PositionLabel(s)
  }

  /** A completed trade of strategy s, after n bars, under id counter `id`:
      a strict gain, closed on a later bar than it was opened. */
  predicate TradeOk(s: Strategy, t: Trade, n: nat, id: int)
  {
    t.quantity == 1 && t.entryPrice < t.exitPrice &&
    t.profitLoss > 0.0 && t.returnPct > 0.0 &&
    t.entryTime < t.exitTime < n &&
    1 <= t.positionId <= id &&
    t.strategyName == PositionLabel(s)
  }

  predicate PositionsOk(s: Strategy, ps: seq<Position>, n: nat, id: int)
  {
    forall p :: p in ps ==> PositionOk(s, p, n, id)
  }

  predicate TradesOk(s: Strategy, ts: seq<Trade>, n: nat, id: int)
  {
    forall t :: t in ts ==> TradeOk(s, t, n, id)
  }

  predicate AllPriced(ts: seq<Trade>)
  {
    forall t :: t in ts ==> Priced(t)
  }

  /** Trades are recorded in bar order. */
  predicate ExitsOrdered(ts: seq<Trade>)
  {
    forall i, j :: 0 <= i < j < |ts| ==> ts[i].exitTime <= ts[j].exitTime
  }

  /** Every purchase event opened exactly LotsPerPurchase(s) lots, and each
      lot is either still open or completed. */
  predicate Counted(s: Strategy, st: RunState)
  {
    |st.trades| + |st.positions| == LotsPerPurchase(s) * st.positionId
  }

  /** Cash ledger: what was paid for every lot ever opened is debited, what
      every sold lot fetched is credited. */
  predicate Balanced(st: RunState, initialCash: real)
  {
    st.cash == initialCash - CostBasis(st.positions) - EntryCost(st.trades) + Proceeds(st.trades)
  }

  // ----- the sell pass -----

  /** The sell pass keeps exactly the open positions whose targets the close
      has not reached, and sells exactly the others. */
  lemma {:induction false} SellPassSelects(ps: seq<Position>, close: real, p: Position)
    ensures p in Remaining(ps, close) <==> p in ps && !Reached(p, close)
    ensures p in Matured(ps, close) <==> p in ps && Reached(p, close)
    decreases |ps|
  {
    if |ps| > 0 {
      var init, x := ps[..|ps| - 1], ps[|ps| - 1];
      assert ps == init + [x];
      SellPassSelects(init, close, p);
    }
  }

  /** Every open position is either kept or sold, and none twice. */
  lemma {:induction false} SellPassPartitions(ps: seq<Position>, close: real)
    ensures multiset(Remaining(ps, close)) + multiset(Matured(ps, close)) == multiset(ps)
    ensures |Remaining(ps, close)| + |Matured(ps, close)| == |ps|
    decreases |ps|
  {
    if |ps| > 0 {
      var init, x := ps[..|ps| - 1], ps[|ps| - 1];
      SellPassPartitions(init, close);
      assert ps == init + [x];
    }
  }

  /** The sell pass records one trade per sold position, in the same order,
      closed at the bar's close on that bar. */
  lemma {:induction false} SoldMatchesMatured(ps: seq<Position>, close: real, bar: nat)
    ensures |Sold(ps, close, bar)| == |Matured(ps, close)|
    ensures forall k :: 0 <= k < |Sold(ps, close, bar)| ==>
      Sold(ps, close, bar)[k] == CloseTrade(Matured(ps, close)[k], close, bar)
    decreases |ps|
  {
    if |ps| > 0 {
      SoldMatchesMatured(ps[..|ps| - 1], close, bar);
    }
  }

  /** Any amount over the positions splits into the kept and the sold part. */
  lemma {:induction false} SumPartition(ps: seq<Position>, close: real, f: Position -> real)
    ensures Sum(ps, f) == Sum(Remaining(ps, close), f) + Sum(Matured(ps, close), f)
    decreases |ps|
  {
    if |ps| > 0 {
      var init, x := ps[..|ps| - 1], ps[|ps| - 1];
      SumPartition(init, close, f);
      assert Sum([x], f) == f(x) by { assert [x][..0] == []; }
      if Reached(x, close) {
        assert Remaining(ps, close) == Remaining(init, close);
        assert Matured(ps, close) == Matured(init, close) + [x];
        SumAppend(Matured(init, close), [x], f);
      } else {
        assert Remaining(ps, close) == Remaining(init, close) + [x];
        assert Matured(ps, close) == Matured(init, close);
        SumAppend(Remaining(init, close), [x], f);
      }
    }
  }

  /** Positions whose targets the close has not reached are kept unchanged, in order. */
  lemma {:induction false} RemainingKeepsUnreached(ps: seq<Position>, close: real)
    requires forall k :: 0 <= k < |ps| ==> !Reached(ps[k], close)
    ensures Remaining(ps, close) == ps
    decreases |ps|
  {
    if |ps| > 0 {
      RemainingKeepsUnreached(ps[..|ps| - 1], close);
    }
  }

  /** A sold position's trade carries the position's cost. */
  lemma SoldCost(ps: seq<Position>, close: real, bar: nat)
    ensures EntryCost(Sold(ps, close, bar)) == CostBasis(Matured(ps, close))
  {
    SoldMatchesMatured(ps, close, bar);
    SumPointwise(Sold(ps, close, bar), TradeEntryValue, Matured(ps, close), EntryValue);
  }

  /** Kept positions stay valid one bar later. */
  lemma KeptPositionsOk(s: Strategy, ps: seq<Position>, close: real, n: nat, id: int)
    requires PositionsOk(s, ps, n, id)
    ensures PositionsOk(s, Remaining(ps, close), n + 1, id)
  {
    forall p | p in Remaining(ps, close) ensures PositionOk(s, p, n + 1, id) {
      SellPassSelects(ps, close, p);
    }
  }

  /** The trades of a sell pass on bar n are strict gains closed on bar n. */
  lemma SoldTradesOk(s: Strategy, ps: seq<Position>, close: real, n: nat, id: int)
    requires PositionsOk(s, ps, n, id)
    ensures TradesOk(s, Sold(ps, close, n), n + 1, id)
    ensures forall k :: 0 <= k < |Sold(ps, close, n)| ==> Sold(ps, close, n)[k].exitTime == n
  {
    var matured, sold := Matured(ps, close), Sold(ps, close, n);
    SoldMatchesMatured(ps, close, n);
    forall t | t in sold ensures TradeOk(s, t, n + 1, id) {
      var k :| 0 <= k < |sold| && sold[k] == t;
      SellPassSelects(ps, close, matured[k]);
      TradeMeaning(matured[k], close, n);
    }
  }

  lemma SoldTradesPriced(ps: seq<Position>, close: real, n: nat)
    ensures AllPriced(Sold(ps, close, n))
  {
    var matured, sold := Matured(ps, close), Sold(ps, close, n);
    SoldMatchesMatured(ps, close, n);
    forall t | t in sold ensures Priced(t) {
      var k :| 0 <= k < |sold| && sold[k] == t;
      TradeMeaning(matured[k], close, n);
    }
  }

  lemma TradesOkLater(s: Strategy, ts: seq<Trade>, n: nat, n': nat, id: int, id': int)
    requires TradesOk(s, ts, n, id) && n <= n' && id <= id'
    ensures TradesOk(s, ts, n', id')
  {
  }

  lemma PositionsOkLater(s: Strategy, ps: seq<Position>, n: nat, n': nat, id: int, id': int)
    requires PositionsOk(s, ps, n, id) && n <= n' && id <= id'
    ensures PositionsOk(s, ps, n', id')
  {
  }

  /** Trades appended on bar n after trades closed before bar n keep the bar order. */
  lemma ExitsOrderedAppend(a: seq<Trade>, b: seq<Trade>, n: nat)
    requires ExitsOrdered(a) && forall k :: 0 <= k < |a| ==> a[k].exitTime < n
    requires forall k :: 0 <= k < |b| ==> b[k].exitTime == n
    ensures ExitsOrdered(a + b)
  {
  }

  lemma SellPassBalanced(st: RunState, close: real, n: nat, initialCash: real)
    requires Balanced(st, initialCash)
    ensures Balanced(SellPass(st, close, n), initialCash)
  {
    var ps := st.positions;
    var sold := Sold(ps, close, n);
    SumPartition(ps, close, EntryValue);
    SoldCost(ps, close, n);
    SumAppend(st.trades, sold, TradeEntryValue);
    SumAppend(st.trades, sold, TradeExitValue);
  }

  // ----- the buy -----

  /** Shape of one purchase event: LotsPerPurchase(s) lots sharing id `id`,
      numbered 1.., one share each bought at the close on bar `bar`, each
      with its tier's target. */
  lemma BuyEventShape(s: Strategy, close: Price, bar: nat, id: int)
    ensures |NewLots(s, close, bar, id)| == LotsPerPurchase(s)
    ensures forall k :: 0 <= k < LotsPerPurchase(s) ==>
      var p := NewLots(s, close, bar, id)[k];
      p.positionId == id && p.lotNumber == k + 1 && p.quantity == 1 &&
      p.entryPrice == close && p.entryTime == bar &&
      p.sellTarget == close * (1.0 + TierTargets(s)[k] / 100.0)
  {
  }

  /** One purchase event costs LotsPerPurchase(s) times the close. */
  lemma BuyEventCost(s: Strategy, close: Price, bar: nat, id: int)
    ensures CostBasis(NewLots(s, close, bar, id)) == LotsPerPurchase(s) as real * close
  {
    var lots := NewLots(s, close, bar, id);
    forall k | 0 <= k < |lots| ensures EntryValue(lots[k]) == close {
      assert lots[k] == Lot(s, close, bar, id, k + 1);
    }
    SumConstant(lots, EntryValue, close);
  }

  lemma NewLotsOk(s: Strategy, close: Price, n: nat, id: int)
    requires id >= 1
    ensures PositionsOk(s, NewLots(s, close, n, id), n + 1, id)
  {
    var lots := NewLots(s, close, n, id);
    forall p | p in lots ensures PositionOk(s, p, n + 1, id) {
      var k :| 0 <= k < |lots| && lots[k] == p;
    }
  }

  // ----- one bar -----

  /** The positions invariant of a state after n bars, with a non-negative id counter. */
  predicate PositionsInv(s: Strategy, st: RunState, n: nat)
  {
    st.positionId >= 0 && PositionsOk(s, st.positions, n, st.positionId)
  }

  lemma StepPositionsOk(s: Strategy, st: RunState, n: nat, close: Price)
    requires PositionsInv(s, st, n)
    ensures PositionsInv(s, Step(s, st, close, n), n + 1)
  {
    var afterSells := SellPass(st, close, n);
    KeptPositionsOk(s, st.positions, close, n, st.positionId);
    var d := Decide(s, afterSells, close);
    if d.buy {
      var id := st.positionId + 1;
      NewLotsOk(s, close, n, id);
      PositionsOkLater(s, afterSells.positions, n + 1, n + 1, st.positionId, id);
      assert Step(s, st, close, n).positions == afterSells.positions + NewLots(s, close, n, id);
    }
  }

  lemma StepTradesOk(s: Strategy, st: RunState, n: nat, close: Price)
    requires PositionsOk(s, st.positions, n, st.positionId)
    requires TradesOk(s, st.trades, n, st.positionId) && ExitsOrdered(st.trades)
    ensures TradesOk(s, Step(s, st, close, n).trades, n + 1, Step(s, st, close, n).positionId)
    ensures ExitsOrdered(Step(s, st, close, n).trades)
  {
    var r := Step(s, st, close, n);
    var sold := Sold(st.positions, close, n);
    SoldTradesOk(s, st.positions, close, n, st.positionId);
    TradesOkLater(s, sold, n + 1, n + 1, st.positionId, r.positionId);
    TradesOkLater(s, st.trades, n, n + 1, st.positionId, r.positionId);
    forall k | 0 <= k < |st.trades| ensures st.trades[k].exitTime < n {
      assert st.trades[k] in st.trades;
    }
    ExitsOrderedAppend(st.trades, sold, n);
  }

  lemma StepTradesPriced(s: Strategy, st: RunState, n: nat, close: Price)
    requires AllPriced(st.trades)
    ensures AllPriced(Step(s, st, close, n).trades)
  {
    SoldTradesPriced(st.positions, close, n);
  }

  /** The sell pass moves positions to trades one for one. */
  lemma SellPassSizes(ps: seq<Position>, close: real, n: nat)
    ensures |Remaining(ps, close)| + |Sold(ps, close, n)| == |ps|
  {
    SellPassPartitions(ps, close);
    SoldMatchesMatured(ps, close, n);
  }

  /** A purchase event adds LotsPerPurchase(s) positions under one new id. */
  lemma BuyCounted(s: Strategy, st: RunState, close: Price, n: nat)
    requires Counted(s, st)
    ensures Counted(s, Buy(s, st, close, n))
  {
    var r := Buy(s, st, close, n);
    assert |r.positions| == |st.positions| + LotsPerPurchase(s);
    assert LotsPerPurchase(s) * r.positionId == LotsPerPurchase(s) * st.positionId + LotsPerPurchase(s);
  }

  lemma StepCounted(s: Strategy, st: RunState, n: nat, close: Price)
    requires Counted(s, st)
    ensures Counted(s, Step(s, st, close, n))
  {
    SellPassSizes(st.positions, close, n);
    var afterSells := SellPass(st, close, n);
    var d := Decide(s, afterSells, close);
    var decided := afterSells.(lastBuyPrice := d.marker);
    assert Counted(s, decided);
    if d.buy {
      BuyCounted(s, decided, close, n);
    }
  }

  /** A purchase debits exactly what the new lots cost. */
  lemma BuyBalanced(s: Strategy, st: RunState, close: Price, n: nat, initialCash: real)
    requires Balanced(st, initialCash)
    ensures Balanced(Buy(s, st, close, n), initialCash)
  {
    var lots := NewLots(s, close, n, st.positionId + 1);
    BuyEventCost(s, close, n, st.positionId + 1);
    SumAppend(st.positions, lots, EntryValue);
  }

  lemma StepBalanced(s: Strategy, st: RunState, n: nat, close: Price, initialCash: real)
    requires Balanced(st, initialCash)
    ensures Balanced(Step(s, st, close, n), initialCash)
  {
    SellPassBalanced(st, close, n, initialCash);
    var afterSells := SellPass(st, close, n);
    var d := Decide(s, afterSells, close);
    var decided := afterSells.(lastBuyPrice := d.marker);
    if d.buy {
      BuyBalanced(s, decided, close, n, initialCash);
    }
  }

  // ----- whole runs -----

  /** Run(n) is Step applied to Run(n - 1); each bridge below carries one
      invariant across that bar, so the inductions need not unfold Step. */
  lemma RunStepPositionsOk(s: Strategy, prices: PriceSeries, n: nat, initialCash: real)
    requires 0 < n <= |prices|
    requires PositionsInv(s, Run(s, prices, n - 1, initialCash), n - 1)
    ensures PositionsInv(s, Run(s, prices, n, initialCash), n)
  {
    var prev := Run(s, prices, n - 1, initialCash);
    var next := Step(s, prev, prices[n - 1], n - 1);
    assert Run(s, prices, n, initialCash) == next;
    StepPositionsOk(s, prev, n - 1, prices[n - 1]);
  }

  lemma RunStepTradesOk(s: Strategy, prices: PriceSeries, n: nat, initialCash: real)
    requires 0 < n <= |prices|
    requires PositionsOk(s, Run(s, prices, n - 1, initialCash).positions, n - 1, Run(s, prices, n - 1, initialCash).positionId)
    requires TradesOk(s, Run(s, prices, n - 1, initialCash).trades, n - 1, Run(s, prices, n - 1, initialCash).positionId)
    requires ExitsOrdered(Run(s, prices, n - 1, initialCash).trades)
    ensures TradesOk(s, Run(s, prices, n, initialCash).trades, n, Run(s, prices, n, initialCash).positionId)
    ensures ExitsOrdered(Run(s, prices, n, initialCash).trades)
  {
    StepTradesOk(s, Run(s, prices, n - 1, initialCash), n - 1, prices[n - 1]);
  }

  lemma RunStepPriced(s: Strategy, prices: PriceSeries, n: nat, initialCash: real)
    requires 0 < n <= |prices|
    requires AllPriced(Run(s, prices, n - 1, initialCash).trades)
    ensures AllPriced(Run(s, prices, n, initialCash).trades)
  {
    StepTradesPriced(s, Run(s, prices, n - 1, initialCash), n - 1, prices[n - 1]);
  }

  lemma RunStepCounted(s: Strategy, prices: PriceSeries, n: nat, initialCash: real)
    requires 0 < n <= |prices|
    requires Counted(s, Run(s, prices, n - 1, initialCash))
    ensures Counted(s, Run(s, prices, n, initialCash))
  {
    StepCounted(s, Run(s, prices, n - 1, initialCash), n - 1, prices[n - 1]);
  }

  lemma RunStepBalanced(s: Strategy, prices: PriceSeries, n: nat, initialCash: real)
    requires 0 < n <= |prices|
    requires Balanced(Run(s, prices, n - 1, initialCash), initialCash)
    ensures Balanced(Run(s, prices, n, initialCash), initialCash)
  {
    StepBalanced(s, Run(s, prices, n - 1, initialCash), n - 1, prices[n - 1], initialCash);
  }

  /** Every open position is a single share bought at a close on an earlier
      bar, with its tier's target and an id already handed out. */
  lemma {:induction false} RunPositionsOk(s: Strategy, prices: PriceSeries, n: nat, initialCash: real)
    requires n <= |prices|
    ensures PositionsInv(s, Run(s, prices, n, initialCash), n)
    decreases n
  {
    if n > 0 {
      RunPositionsOk(s, prices, n - 1, initialCash);
      RunStepPositionsOk(s, prices, n, initialCash);
    }
  }

  /** Every completed trade is a strict gain closed after the bar it was
      opened on, and trades are recorded in bar order. */
  lemma {:induction false} RunTradesOk(s: Strategy, prices: PriceSeries, n: nat, initialCash: real)
    requires n <= |prices|
    ensures TradesOk(s, Run(s, prices, n, initialCash).trades, n, Run(s, prices, n, initialCash).positionId)
    ensures ExitsOrdered(Run(s, prices, n, initialCash).trades)
    decreases n
  {
    if n > 0 {
      RunPositionsOk(s, prices, n - 1, initialCash);
      RunTradesOk(s, prices, n - 1, initialCash);
      RunStepTradesOk(s, prices, n, initialCash);
    }
  }

  /** Every completed trade carries the profit and return its prices give. */
  lemma {:induction false} RunTradesPriced(s: Strategy, prices: PriceSeries, n: nat, initialCash: real)
    requires n <= |prices|
    ensures AllPriced(Run(s, prices, n, initialCash).trades)
    decreases n
  {
    if n > 0 {
      RunTradesPriced(s, prices, n - 1, initialCash);
      RunStepPriced(s, prices, n, initialCash);
    }
  }

  /** Completed trades plus open positions is lots per purchase times the
      number of purchase events. */
  lemma {:induction false} RunCounted(s: Strategy, prices: PriceSeries, n: nat, initialCash: real)
    requires n <= |prices|
    ensures Counted(s, Run(s, prices, n, initialCash))
    decreases n
  {
    if n > 0 {
      RunCounted(s, prices, n - 1, initialCash);
      RunStepCounted(s, prices, n, initialCash);
    }
  }

  /** The cash ledger holds after every bar. */
  lemma {:induction false} RunBalanced(s: Strategy, prices: PriceSeries, n: nat, initialCash: real)
    requires n <= |prices|
    ensures Balanced(Run(s, prices, n, initialCash), initialCash)
    decreases n
  {
    if n > 0 {
      RunBalanced(s, prices, n - 1, initialCash);
      RunStepBalanced(s, prices, n, initialCash);
    }
  }
}
