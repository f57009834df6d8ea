/** The drawdown of a run: two algorithms, one number, and how far down a run can go. */
module Metrics {
  import opened Common
  import opened Sorting
  import opened Market
  import opened Simulation
  import opened BracketLaws
  import opened Replay
  import opened ReplayLaws

  // ----- drawdown

  lemma SumSlice(xs: seq<real>, i: nat, j: nat)
    requires i <= j <= |xs|
    ensures Sum(xs[i..j]) == Sum(xs[..j]) - Sum(xs[..i])
  {
    assert xs[..j] == xs[..i] + xs[i..j];
    SumConcat(xs[..i], xs[i..j]);
  }

  /** The equity curve: running totals of the returns. */
  ghost predicate IsEquity(rs: seq<real>, equity: seq<real>) {
    |equity| == |rs| && forall k :: 0 <= k < |equity| ==> equity[k] == Sum(rs[..k + 1])
  }

  method Equity(rs: seq<real>) returns (equity: seq<real>)
    ensures IsEquity(rs, equity)
  {
    equity := [];
    var running := 0.0;
    for i := 0 to |rs|
      invariant |equity| == i && running == Sum(rs[..i])
      invariant forall k :: 0 <= k < i ==> equity[k] == Sum(rs[..k + 1])
    {
      SumPrefix(rs, i);
      running := running + rs[i];
      equity := equity + [running];
    }
  }

  /** `low` is the least sum of a contiguous stretch of returns, the empty stretch included. */
  ghost predicate WorstStretch(rs: seq<real>, low: real) {
    && (forall i, j :: 0 <= i <= j <= |rs| ==> low <= Sum(rs[i..j]))
    && exists i, j :: 0 <= i <= j <= |rs| && low == Sum(rs[i..j])
  }

  lemma WorstStretchIsUnique(rs: seq<real>, a: real, b: real)
    requires WorstStretch(rs, a) && WorstStretch(rs, b)
    ensures a == b
  {
  }

  /** `peak` is the highest equity among the first `n` values, counting the flat start. */
  ghost predicate IsPeak(rs: seq<real>, n: nat, peak: real)
    requires n <= |rs|
  {
    && (forall i :: 0 <= i <= n ==> Sum(rs[..i]) <= peak)
    && exists i :: 0 <= i <= n && Sum(rs[..i]) == peak
  }

  /** The highest equity among the first `n` values, counting the flat start. */
  function Peak(rs: seq<real>, n: nat): real
    requires n <= |rs|
  {
    if n == 0 then 0.0 else Max(Peak(rs, n - 1), Sum(rs[..n]))
  }

  lemma {:induction false} PeakIsPeak(rs: seq<real>, n: nat)
    requires n <= |rs|
    ensures IsPeak(rs, n, Peak(rs, n))
  {
    if n == 0 {
      assert Sum(rs[..0]) == 0.0;
    } else {
      PeakIsPeak(rs, n - 1);
    }
  }

  method DrawdownSeries(rs: seq<real>, equity: seq<real>) returns (series: seq<real>)
    requires IsEquity(rs, equity)
    ensures |series| == |equity|
    ensures forall k :: 0 <= k < |series| ==> series[k] == equity[k] - Peak(rs, k + 1)
  {
    var peak := 0.0;
    series := [];
    for i := 0 to |equity|
      invariant |series| == i && peak == Peak(rs, i)
      invariant forall k :: 0 <= k < i ==> series[k] == equity[k] - Peak(rs, k + 1)
    {
      peak := Max(peak, equity[i]);
      series := series + [equity[i] - peak];
    }
  }

  /** The single pass of the label backtest. */
  method MaxDrawdown(rs: seq<real>, equity: seq<real>) returns (low: real)
    requires IsEquity(rs, equity)
    ensures WorstStretch(rs, low)
  {
    var peak := 0.0;
    low := 0.0;
    NothingLost(rs);
    for i := 0 to |equity|
      invariant peak == Peak(rs, i) && WorstStretch(rs[..i], low)
    {
      peak := Max(peak, equity[i]);
      PeakIsPeak(rs, i + 1);
      StretchGrows(rs, i, peak, low);
      low := Min(low, equity[i] - peak);
    }
    assert rs[..|equity|] == rs;
  }

  lemma NothingLost(rs: seq<real>)
    ensures WorstStretch(rs[..0], 0.0)
  {
    assert rs[..0] == [];
    assert Sum(rs[..0][0..0]) == 0.0;
  }

  /** The worst stretch ending at `n` runs down from the peak. */
  lemma StretchGrows(rs: seq<real>, n: nat, peak: real, low: real)
    requires n < |rs| && WorstStretch(rs[..n], low) && IsPeak(rs, n + 1, peak)
    ensures WorstStretch(rs[..n + 1], Min(low, Sum(rs[..n + 1]) - peak))
  {
    hide Sum;
    var low' := Min(low, Sum(rs[..n + 1]) - peak);
    var now := rs[..n + 1];
    forall i, j | 0 <= i <= j <= n + 1
      ensures low' <= Sum(now[i..j])
      ensures now[i..j] == rs[i..j]
    {
      if j <= n {
        assert now[i..j] == rs[..n][i..j];
      } else {
        assert now[i..j] == rs[i..j];
        SumSlice(rs, i, n + 1);
        assert Sum(rs[..i]) <= peak;
      }
    }
    if low' == low {
      var i, j :| 0 <= i <= j <= n && low == Sum(rs[..n][i..j]);
      assert now[i..j] == rs[..n][i..j];
    } else {
      var i :| 0 <= i <= n + 1 && Sum(rs[..i]) == peak;
      SumSlice(rs, i, n + 1);
      assert now[i..n + 1] == rs[i..n + 1];
    }
  }

  /** The minimum of the drawdown series is the worst stretch: so both engines report one number. */
  lemma SeriesMinimumIsWorstStretch(rs: seq<real>, equity: seq<real>, series: seq<real>)
    requires IsEquity(rs, equity) && rs != [] && |series| == |equity|
    requires forall k :: 0 <= k < |series| ==> series[k] == equity[k] - Peak(rs, k + 1)
    ensures WorstStretch(rs, Lowest(series))
  {
    var low := Lowest(series);
    LowestIsBelow(series);
    forall i, j | 0 <= i <= j <= |rs|
      ensures low <= Sum(rs[i..j])
    {
      // the empty stretch at the start is no better than the first point, measured from its own peak
      var k := if j == 0 then 0 else j - 1;
      SumSlice(rs, i, j);
      PeakIsPeak(rs, k + 1);
      assert series[k] in series;
      assert Sum(rs[..0]) == 0.0;
      assert Sum(rs[..i]) <= Peak(rs, k + 1) && Sum(rs[..k + 1]) <= Peak(rs, k + 1);
    }
    var k :| 0 <= k < |series| && series[k] == low;
    PeakIsPeak(rs, k + 1);
    var i :| 0 <= i <= k + 1 && Sum(rs[..i]) == Peak(rs, k + 1);
    SumSlice(rs, i, k + 1);
  }

  /** `max_drawdown_r` as the replay engine computes it. */
  method MaxDrawdownR(rs: seq<real>) returns (low: real)
    ensures WorstStretch(rs, low)
  {
    var equity := Equity(rs);
    var series := DrawdownSeries(rs, equity);
    if series == [] {
      low := 0.0;
      NothingLost(rs);
      assert rs[..0] == rs;
    } else {
      low := Lowest(series);
      SeriesMinimumIsWorstStretch(rs, equity, series);
    }
  }

  lemma {:induction false} SumAtLowest(xs: seq<real>)
    requires forall x :: x in xs ==> x >= -1.0
    ensures Sum(xs) >= -(|xs| as real)
  {
    if xs != [] {
      assert xs[0] in xs && forall x :: x in xs[1..] ==> x in xs;
      SumAtLowest(xs[1..]);
    }
  }

  function Returns(rows: seq<Row>): seq<real> {
    Map(Filter(rows, IsTaken()), RealizedR())
  }

  function IsTaken(): Row -> bool {
    (r: Row) => r.outcome.Taken?
  }

  function RealizedR(): Row -> real {
    (r: Row) => if r.outcome.Taken? then r.outcome.fill.realizedR else 0.0
  }

  lemma {:induction false} EveryReturnAboveMinusOne(cs: seq<Candidate>, tape: Tape, cfg: ReplayConfig)
    requires (forall bar :: bar in tape.bars ==> WellFormed(bar)) && CostRate(cfg) == 0.0
    requires cfg.commissionPerShare == 0.0 && cfg.minimumRewardRisk >= 0.0
    ensures forall r :: r in RunRows(cs, tape, cfg) ==> RealizedR()(r) >= -1.0
  {
    hide NextRow, CostRate;
    forall r | r in RunRows(cs, tape, cfg)
      ensures RealizedR()(r) >= -1.0
    {
      var i :| 0 <= i < |cs| && RunRows(cs, tape, cfg)[i] == r;
      RowFromHistory(cs, tape, cfg, i);
      NextReturn(RunRows(cs, tape, cfg)[..i], cs[i], tape, cfg);
    }
  }

  lemma NextReturn(hist: seq<Row>, c: Candidate, tape: Tape, cfg: ReplayConfig)
    requires (forall bar :: bar in tape.bars ==> WellFormed(bar)) && CostRate(cfg) == 0.0
    requires cfg.commissionPerShare == 0.0 && cfg.minimumRewardRisk >= 0.0
    ensures RealizedR()(NextRow(hist, c, tape, cfg)) >= -1.0
  {
    var series := SeriesBars(tape.bars, (c.symbol, c.interval));
    var f := FeatureAt(tape.features, c);
    SameMembers(series, Filter(tape.bars, OfSeries((c.symbol, c.interval))));
    hide Simulate, CostRate, Preflight, SeriesBars, FeatureAt, Filter;
    TradeBracket(c, series, f, cfg);
  }

  /** A whole run without costs never draws down by more than one R per trade taken. */
  lemma DrawdownBound(cs: seq<Candidate>, tape: Tape, cfg: ReplayConfig, low: real)
    requires (forall bar :: bar in tape.bars ==> WellFormed(bar)) && CostRate(cfg) == 0.0
    requires cfg.commissionPerShare == 0.0 && cfg.minimumRewardRisk >= 0.0
    requires WorstStretch(Returns(RunRows(cs, tape, cfg)), low)
    ensures low >= -(|Filter(RunRows(cs, tape, cfg), IsTaken())| as real)
  {
    hide CostRate, RunRows;
    EveryReturnAboveMinusOne(cs, tape, cfg);
    var rs := Returns(RunRows(cs, tape, cfg));
    var i, j :| 0 <= i <= j <= |rs| && low == Sum(rs[i..j]);
    SumAtLowest(rs[i..j]);
  }
}
