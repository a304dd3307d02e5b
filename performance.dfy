/** The performance summary the quickstart MACD backtest prints from its
    positions report: win/loss counts, win rate, total/mean/best/worst PnL
    and, when there are both wins and losses, average win, average loss,
    profit factor and risk/reward. Values are exact reals. */
module Performance {
  import opened Wrappers
  import opened Money

  // ---------------------------------------------------- series reductions

  function Sum(p: seq<real>): real
  {
    if p == [] then 0.0 else p[0] + Sum(p[1..])
  }

  /** `.mean()` of a non-empty column. */
  function Mean(p: seq<real>): real
    requires p != []
  {
    Sum(p) / |p| as real
  }

  /** `.max()` of a non-empty column: an element no other element exceeds. */
  function Max(p: seq<real>): (m: real)
    requires p != []
    ensures m in p
    ensures forall i :: 0 <= i < |p| ==> p[i] <= m
  {
    if |p| == 1 then p[0]
    else
      var rest := Max(p[1..]);
      if p[0] >= rest then p[0] else rest
  }

  /** `.min()` of a non-empty column: an element below no other element. */
  function Min(p: seq<real>): (m: real)
    requires p != []
    ensures m in p
    ensures forall i :: 0 <= i < |p| ==> m <= p[i]
  {
    if |p| == 1 then p[0]
    else
      var rest := Min(p[1..]);
      if p[0] <= rest then p[0] else rest
  }

  /** `positions[pnl > 0]`: the winning entries, in order. */
  function Wins(p: seq<real>): (w: seq<real>)
    ensures |w| <= |p|
    ensures forall i :: 0 <= i < |w| ==> w[i] > 0.0
    ensures forall x :: x in w <==> x in p && x > 0.0
  {
    if p == [] then [] else (if p[0] > 0.0 then [p[0]] else []) + Wins(p[1..])
  }

  /** `positions[pnl < 0]`: the losing entries, in order. */
  function Losses(p: seq<real>): (l: seq<real>)
    ensures |l| <= |p|
    ensures forall i :: 0 <= i < |l| ==> l[i] < 0.0
    ensures forall x :: x in l <==> x in p && x < 0.0
  {
    if p == [] then [] else (if p[0] < 0.0 then [p[0]] else []) + Losses(p[1..])
  }

  /** The breakeven entries, counted neither as wins nor as losses. */
  function Breakeven(p: seq<real>): (z: seq<real>)
    ensures forall x :: x in z ==> x == 0.0
  {
    if p == [] then [] else (if p[0] == 0.0 then [p[0]] else []) + Breakeven(p[1..])
  }

  /** `backtests/01_quickstart_macd.py`, line 115: wins over positions, in percent, 0 for no positions. */
  function WinRate(wins: nat, positions: nat): real
  {
    if positions > 0 then wins as real / positions as real * 100.0 else 0.0
  }

  // ------------------------------------------------------------- summary

  datatype RiskMetrics = RiskMetrics(avgWin: real, avgLoss: real, profitFactor: real, riskReward: real)

  datatype Summary = Summary(
    positions: nat, wins: nat, losses: nat, winRate: real,
    totalPnl: real, avgPnl: real, bestTrade: real, worstTrade: real,
    risk: Option<RiskMetrics>)

  /** What the analysis prints: nothing but a notice when there are no
      positions; the summary otherwise. */
  datatype Report = NoPositions | ConversionFailed | Stats(summary: Summary)

  /** `backtests/01_quickstart_macd.py`, lines 133-143, only entered when there are wins and losses. */
  function Risk(p: seq<real>): RiskMetrics
    requires Wins(p) != [] && Losses(p) != []
  {
    RiskOf(Wins(p), Losses(p))
  }

  function RiskOf(w: seq<real>, l: seq<real>): (r: RiskMetrics)
    requires w != [] && l != []
    requires forall i :: 0 <= i < |w| ==> w[i] > 0.0
    requires forall i :: 0 <= i < |l| ==> l[i] < 0.0
    ensures RiskSound(r, |w|, |l|)
    ensures r.avgWin == Mean(w) && r.avgLoss == -Mean(l)
    ensures r.profitFactor == Sum(w) / -Sum(l) && r.riskReward == r.avgWin / r.avgLoss
  {
    SumPositive(w);
    SumNegative(l);
    var avgWin := Mean(w);
    var avgLoss := Abs(Mean(l));
    NegatedMean(Sum(l), |l| as real);
    RatioFacts(Sum(w), -Sum(l), |w| as real, |l| as real);
    RiskMetrics(avgWin, avgLoss, Sum(w) / Abs(Sum(l)), avgWin / avgLoss)
  }

  function Abs(x: real): real { if x < 0.0 then -x else x }

  /** `backtests/01_quickstart_macd.py`, lines 112-143 over the numeric PnL column of a non-empty report: the
      counts split the positions, the win rate is a percentage, the total is
      what the wins and the losses add up to, and the average trade lies
      between the worst and the best. */
  function Summarize(p: seq<real>): (r: Summary)
    requires p != []
    ensures r.positions == |p| && r.wins + r.losses <= r.positions
    ensures 0.0 <= r.winRate <= 100.0
    ensures r.totalPnl == Sum(Wins(p)) + Sum(Losses(p))
    ensures r.worstTrade <= r.avgPnl <= r.bestTrade
  {
    var w, l := Wins(p), Losses(p);
    Partition(p);
    WinRateBounds(|w|, |p|);
    TotalSplits(p);
    MeanBetween(p);
    Summary(|p|, |w|, |l|, WinRate(|w|, |p|),
            Sum(p), Mean(p), Max(p), Min(p), RiskBlock(p))
  }

  /** `backtests/01_quickstart_macd.py`, lines 133-143 are skipped unless there is at least one win and one
      loss. */
  function RiskBlock(p: seq<real>): Option<RiskMetrics>
  {
    if |Wins(p)| > 0 && |Losses(p)| > 0 then Some(Risk(p)) else None
  }

  /** The `pnl_numeric` column: every cell converted, or None when one
      conversion raises (which ends the script). */
  function PnlNumeric(xs: seq<Realized>): (r: Option<seq<real>>)
    ensures r.Some? ==> |r.value| == |xs|
    ensures r.Some? ==> forall i :: 0 <= i < |xs| ==> ParsePnl(xs[i]) == Some(r.value[i])
    ensures r.None? ==> exists i :: 0 <= i < |xs| && ParsePnl(xs[i]).None?
  {
    if xs == [] then Some([])
    else
      var head, rest := ParsePnl(xs[0]), PnlNumeric(xs[1..]);
      if head.None? then None
      else if rest.None? then
        var i :| 0 <= i < |xs[1..]| && ParsePnl(xs[1..][i]).None?;
        assert ParsePnl(xs[i + 1]).None?;
        None
      else Some([head.value] + rest.value)
  }

  /** `backtests/01_quickstart_macd.py`, lines 104-146: the analysis of a positions report's `realized_pnl`
      column. */
  function Analyze(xs: seq<Realized>): (r: Report)
    ensures r == NoPositions <==> xs == []
    ensures r == ConversionFailed <==> xs != [] && exists i :: 0 <= i < |xs| && ParsePnl(xs[i]).None?
    ensures r.Stats? ==> r.summary.positions == |xs|
  {
    if |xs| == 0 then NoPositions
    else match PnlNumeric(xs)
      case None => ConversionFailed
      case Some(p) => Stats(Summarize(p))
  }

  // -------------------------------------------------------------- lemmas

  lemma {:induction false} SumPositive(w: seq<real>)
    requires w != []
    requires forall i :: 0 <= i < |w| ==> w[i] > 0.0
    ensures Sum(w) > 0.0
  {
    if |w| > 1 { SumPositive(w[1..]); }
  }

  lemma {:induction false} SumNegative(l: seq<real>)
    requires l != []
    requires forall i :: 0 <= i < |l| ==> l[i] < 0.0
    ensures Sum(l) < 0.0
  {
    if |l| > 1 { SumNegative(l[1..]); }
  }

  /** Every entry is exactly one of win, loss or breakeven: the three
      filters split the column as a multiset. */
  lemma {:induction false} Partition(p: seq<real>)
    ensures multiset(Wins(p)) + multiset(Losses(p)) + multiset(Breakeven(p)) == multiset(p)
    ensures |Wins(p)| + |Losses(p)| + |Breakeven(p)| == |p|
  {
    if p != [] {
      Partition(p[1..]);
      assert p == [p[0]] + p[1..];
    }
  }

  /** Breakeven entries contribute nothing, so the total is the sum of the
      wins plus the sum of the losses. */
  lemma {:induction false} TotalSplits(p: seq<real>)
    ensures Sum(p) == Sum(Wins(p)) + Sum(Losses(p))
  {
    if p != [] {
      TotalSplits(p[1..]);
      var w0 := if p[0] > 0.0 then [p[0]] else [];
      var l0 := if p[0] < 0.0 then [p[0]] else [];
      SumConcat(w0, Wins(p[1..]));
      SumConcat(l0, Losses(p[1..]));
    }
  }

  lemma {:induction false} SumConcat(a: seq<real>, b: seq<real>)
    ensures Sum(a + b) == Sum(a) + Sum(b)
  {
    if a != [] {
      assert (a + b)[1..] == a[1..] + b;
      SumConcat(a[1..], b);
    } else {
      assert a + b == b;
    }
  }

  lemma {:induction false} SumBounds(p: seq<real>, lo: real, hi: real)
    requires forall i :: 0 <= i < |p| ==> lo <= p[i] <= hi
    ensures |p| as real * lo <= Sum(p) <= |p| as real * hi
  {
    if p != [] {
      SumBounds(p[1..], lo, hi);
    }
  }

  /** The average trade lies between the worst and the best trade. */
  lemma MeanBetween(p: seq<real>)
    requires p != []
    ensures Min(p) <= Mean(p) <= Max(p)
  {
    var lo, hi := Min(p), Max(p);
    assert forall i :: 0 <= i < |p| ==> lo <= p[i] <= hi;
    SumBounds(p, lo, hi);
    MeanWithin(p, lo, hi);
  }

  lemma MeanWithin(p: seq<real>, lo: real, hi: real)
    requires p != []
    requires |p| as real * lo <= Sum(p) <= |p| as real * hi
    ensures lo <= Mean(p) <= hi
  {
    var n, s := |p| as real, Sum(p);
    var m := s / n;
    assert m * n == s;
    if m < lo {
      assert m * n < lo * n;
    }
    if m > hi {
      assert m * n > hi * n;
    }
  }

  /** The win rate is a percentage: between 0 and 100, 0 for no positions,
      100 exactly when every position won. */
  lemma WinRateBounds(wins: nat, positions: nat)
    requires wins <= positions
    ensures 0.0 <= WinRate(wins, positions) <= 100.0
    ensures positions == 0 ==> WinRate(wins, positions) == 0.0
    ensures positions > 0 ==> (WinRate(wins, positions) == 100.0 <==> wins == positions)
  {
    if positions > 0 {
      var f := wins as real / positions as real;
      assert f <= 1.0;
    }
  }

  /** Nothing is summarized without positions. */
  lemma AnalyzeEmpty()
    ensures Analyze([]) == NoPositions
  {
  }

  /** A non-empty report whose every cell converts gives the summary of its
      numbers: the counts are those of the positive and the negative entries,
      the win rate their percentage, the total and the average those of the
      whole column, the best and worst trade its extremes. */
  lemma AnalyzeSummary(xs: seq<Realized>, p: seq<real>)
    requires xs != []
    requires PnlNumeric(xs) == Some(p)
    ensures Analyze(xs).Stats? && Analyze(xs).summary == Summarize(p)
    ensures Analyze(xs).summary.wins == |Wins(p)| && Analyze(xs).summary.losses == |Losses(p)|
    ensures Analyze(xs).summary.winRate == WinRate(|Wins(p)|, |xs|)
    ensures Analyze(xs).summary.totalPnl == Sum(p) && Analyze(xs).summary.avgPnl == Mean(p)
    ensures Analyze(xs).summary.bestTrade == Max(p) && Analyze(xs).summary.worstTrade == Min(p)
  {
  }

  /** Every risk figure is positive, and risk/reward equals the profit
      factor scaled by the number of losses over the number of wins. */
  predicate RiskSound(r: RiskMetrics, wins: nat, losses: nat)
  {
    r.avgWin > 0.0 && r.avgLoss > 0.0 && r.profitFactor > 0.0 && r.riskReward > 0.0
    && wins > 0 && r.riskReward == r.profitFactor * losses as real / wins as real
  }

  /** The risk block is present exactly when there are both wins and losses,
      so none of its divisions is by zero, and its figures are then sound. */
  lemma RiskMetricsPositive(p: seq<real>)
    requires p != []
    ensures Summarize(p).risk.Some? <==> Wins(p) != [] && Losses(p) != []
    ensures Summarize(p).risk.Some? ==> RiskSound(Summarize(p).risk.value, |Wins(p)|, |Losses(p)|)
    ensures Summarize(p).risk.Some? ==>
      var r := Summarize(p).risk.value;
      r.avgWin == Mean(Wins(p)) && r.avgLoss == -Mean(Losses(p))
      && r.profitFactor == Sum(Wins(p)) / -Sum(Losses(p)) && r.riskReward == r.avgWin / r.avgLoss
  {
    assert Summarize(p).risk == RiskBlock(p);
    RiskBlockFigures(p);
  }

  lemma RiskBlockFigures(p: seq<real>)
    ensures RiskBlock(p).Some? <==> Wins(p) != [] && Losses(p) != []
    ensures RiskBlock(p).Some? ==> RiskSound(RiskBlock(p).value, |Wins(p)|, |Losses(p)|)
    ensures RiskBlock(p).Some? ==>
      var r := RiskBlock(p).value;
      r.avgWin == Mean(Wins(p)) && r.avgLoss == -Mean(Losses(p))
      && r.profitFactor == Sum(Wins(p)) / -Sum(Losses(p)) && r.riskReward == r.avgWin / r.avgLoss
  {
  }

  lemma NegatedMean(s: real, n: real)
    requires s < 0.0 && n > 0.0
    ensures Abs(s / n) == -s / n
  {
    assert s / n < 0.0;
  }

  lemma RatioFacts(sw: real, sl: real, nw: real, nl: real)
    requires sw > 0.0 && sl > 0.0 && nw > 0.0 && nl > 0.0
    ensures sw / nw > 0.0 && sl / nl > 0.0 && sw / sl > 0.0
    ensures (sw / nw) / (sl / nl) > 0.0
    ensures (sw / nw) / (sl / nl) == (sw / sl) * nl / nw
  {
    var aw, al := sw / nw, sl / nl;
    assert aw * nw == sw && al * nl == sl;
    assert aw / al * al == aw;
    assert (sw / sl) * sl == sw;
  }

  /** Two winning trades and no loss: win rate 100, total 150, and no risk
      block because there is no loss to divide by. */
  lemma NoLossExample()
    ensures Analyze([Num(100.0), Num(50.0)]).Stats?
    ensures Analyze([Num(100.0), Num(50.0)]).summary.winRate == 100.0
    ensures Analyze([Num(100.0), Num(50.0)]).summary.totalPnl == 150.0
    ensures Analyze([Num(100.0), Num(50.0)]).summary.risk == None
  {
    var xs := [Num(100.0), Num(50.0)];
    assert xs[1..] == [Num(50.0)];
    assert xs[1..][1..] == [];
    var r := PnlNumeric(xs);
    assert r.Some? && |r.value| == 2;
    assert ParsePnl(xs[0]) == Some(r.value[0]);
    assert ParsePnl(xs[1]) == Some(r.value[1]);
    assert r.value == [100.0, 50.0];
    var p := [100.0, 50.0];
    assert p[1..] == [50.0];
    assert Wins(p) == [100.0, 50.0];
    assert Losses(p) == [];
  }
}
