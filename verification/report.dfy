/** The trade statistics the report prints for each simulated strategy:
    the winning and losing trades, the win percentage and the trading
    frequency, and the fact that a simulator never records a loser. */
module Report {
  import opened Ledger
  import opened Rules
  import RunInvariants

  /** The profit/loss of every completed trade, in order. */
  function Profits(ts: seq<Trade>): (ps: seq<real>)
    ensures |ps| == |ts|
    ensures forall i :: 0 <= i < |ts| ==> ps[i] == ts[i].profitLoss
  {
    seq(|ts|, i requires 0 <= i < |ts| => ts[i].profitLoss)
  }

  /** The strictly positive profits, in order. */
  function Winners(ps: seq<real>): (w: seq<real>)
    ensures |w| <= |ps|
    ensures forall x :: x in w <==> x in ps && x > 0.0
    decreases |ps|
  {
    if |ps| == 0 then []
    else Winners(ps[..|ps| - 1]) + (if ps[|ps| - 1] > 0.0 then [ps[|ps| - 1]] else [])
  }

  /** The strictly negative profits, in order. */
  function Losers(ps: seq<real>): (l: seq<real>)
    ensures |l| <= |ps|
    ensures forall x :: x in l <==> x in ps && x < 0.0
    decreases |ps|
  {
    if |ps| == 0 then []
    else Losers(ps[..|ps| - 1]) + (if ps[|ps| - 1] < 0.0 then [ps[|ps| - 1]] else [])
  }

  /** The break-even trades, which the report counts as neither. */
  function Flat(ps: seq<real>): (f: seq<real>)
    ensures forall x :: x in f <==> x in ps && x == 0.0
    decreases |ps|
  {
    if |ps| == 0 then []
    else Flat(ps[..|ps| - 1]) + (if ps[|ps| - 1] == 0.0 then [ps[|ps| - 1]] else [])
  }

  /** Each winning profit is kept as often as it occurs, and nothing else is. */
  lemma {:induction false} WinnersCount(ps: seq<real>)
    ensures forall x :: multiset(Winners(ps))[x] == if x > 0.0 then multiset(ps)[x] else 0
    decreases |ps|
  {
    if |ps| > 0 {
      WinnersCount(ps[..|ps| - 1]);
      assert ps == ps[..|ps| - 1] + [ps[|ps| - 1]];
    }
  }

  /** Each losing profit is kept as often as it occurs, and nothing else is. */
  lemma {:induction false} LosersCount(ps: seq<real>)
    ensures forall x :: multiset(Losers(ps))[x] == if x < 0.0 then multiset(ps)[x] else 0
    decreases |ps|
  {
    if |ps| > 0 {
      LosersCount(ps[..|ps| - 1]);
      assert ps == ps[..|ps| - 1] + [ps[|ps| - 1]];
    }
  }

  /** Each zero profit is kept as often as it occurs, and nothing else is. */
  lemma {:induction false} FlatCount(ps: seq<real>)
    ensures forall x :: multiset(Flat(ps))[x] == if x == 0.0 then multiset(ps)[x] else 0
    decreases |ps|
  {
    if |ps| > 0 {
      FlatCount(ps[..|ps| - 1]);
      assert ps == ps[..|ps| - 1] + [ps[|ps| - 1]];
    }
  }

  /** Every trade is a winner, a loser or flat, and exactly one of them. */
  lemma {:induction false} WinLossPartition(ps: seq<real>)
    ensures |Winners(ps)| + |Losers(ps)| + |Flat(ps)| == |ps|
    decreases |ps|
  {
    if |ps| > 0 {
      WinLossPartition(ps[..|ps| - 1]);
    }
  }

  /** When every profit is positive, every trade is a winner, in order. */
  lemma {:induction false} AllPositiveAllWin(ps: seq<real>)
    requires forall i :: 0 <= i < |ps| ==> ps[i] > 0.0
    ensures Winners(ps) == ps
    ensures Losers(ps) == []
    decreases |ps|
  {
    if |ps| > 0 {
      AllPositiveAllWin(ps[..|ps| - 1]);
      assert ps[..|ps| - 1] + [ps[|ps| - 1]] == ps;
    }
  }

  /** Winning trades as a percentage of the completed trades; the report
      only prints it when there is at least one trade. */
  function WinPercentage(ts: seq<Trade>): (r: real)
    requires |ts| > 0
    ensures r * |ts| as real == |Winners(Profits(ts))| as real * 100.0
    ensures 0.0 <= r <= 100.0
  {
    var wins := |Winners(Profits(ts))| as real;
    var total := |ts| as real;
    FractionBounds(wins, total);
    wins / total * 100.0
  }

  /** Losing trades as a percentage of the completed trades, printed beside
      the win percentage. */
  function LossPercentage(ts: seq<Trade>): (r: real)
    requires |ts| > 0
    ensures r * |ts| as real == |Losers(Profits(ts))| as real * 100.0
    ensures 0.0 <= r <= 100.0
  {
    var losses := |Losers(Profits(ts))| as real;
    var total := |ts| as real;
    FractionBounds(losses, total);
    losses / total * 100.0
  }

  lemma FractionBounds(part: real, whole: real)
    requires 0.0 <= part <= whole && whole > 0.0
    ensures 0.0 <= part / whole <= 1.0
  {
    assert part / whole * whole == part;
  }

  /** Completed trades per calendar day of the data period; a period of
      zero days (or a reversed one) reports 0. */
  function TradesPerDay(count: nat, totalDays: int): (r: real)
    ensures totalDays <= 0 ==> r == 0.0
    ensures totalDays > 0 ==> r * totalDays as real == count as real && r >= 0.0
  {
    if totalDays > 0 then count as real / totalDays as real else 0.0
  }

  /** Every trade a simulator completes has a positive profit. */
  lemma SimulatedProfitsPositive(s: Strategy, prices: PriceSeries, initialCash: real)
    ensures var ts := Run(s, prices, |prices|, initialCash).trades;
      forall i :: 0 <= i < |ts| ==> ts[i].profitLoss > 0.0
  {
    var ts := Run(s, prices, |prices|, initialCash).trades;
    RunInvariants.RunTradesOk(s, prices, |prices|, initialCash);
    forall i | 0 <= i < |ts|
      ensures ts[i].profitLoss > 0.0
    {
      assert ts[i] in ts;
    }
  }

  /** Trades that all made a profit are all winners: no loser, no flat
      trade, and win and loss rates of 100% and 0% when there is at least one. */
  lemma ProfitableTradesAllWin(ts: seq<Trade>)
    requires forall i :: 0 <= i < |ts| ==> ts[i].profitLoss > 0.0
    ensures Winners(Profits(ts)) == Profits(ts) && Losers(Profits(ts)) == [] && Flat(Profits(ts)) == []
    ensures |ts| > 0 ==> WinPercentage(ts) == 100.0 && LossPercentage(ts) == 0.0
  {
    var ps := Profits(ts);
    AllPositiveAllWin(ps);
    WinLossPartition(ps);
    if |ts| > 0 {
      var n := |ts| as real;
      assert WinPercentage(ts) * n == 100.0 * n;
      assert LossPercentage(ts) * n == 0.0 * n;
    }
  }

  /** A simulated strategy reports only winners. */
  lemma SimulatedTradesAllWin(s: Strategy, prices: PriceSeries, initialCash: real)
    requires initialCash != 0.0
    ensures var ts := Evaluate(s, prices, initialCash).value.completedTrades;
      Winners(Profits(ts)) == Profits(ts) && Losers(Profits(ts)) == [] && Flat(Profits(ts)) == [] &&
      (|ts| > 0 ==> WinPercentage(ts) == 100.0 && LossPercentage(ts) == 0.0)
  {
    ReportedTrades(s, prices, initialCash);
    SimulatedProfitsPositive(s, prices, initialCash);
    ProfitableTradesAllWin(Run(s, prices, |prices|, initialCash).trades);
  }

  /** The trades a result reports are the ones its run completed. */
  lemma ReportedTrades(s: Strategy, prices: PriceSeries, initialCash: real)
    requires initialCash != 0.0
    ensures Evaluate(s, prices, initialCash).value.completedTrades == Run(s, prices, |prices|, initialCash).trades
  {
  }
}
