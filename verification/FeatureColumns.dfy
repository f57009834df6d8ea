/** Every column of a feature row, written out against the bars of its session: for the bar at position
    `n` of session `s`, by index and in numbers. */
module FeatureColumns {
  import opened Common
  import opened FeatureRows

  /** The row of bar `n` of a session. */
  function RowAt(p: Settings, s: seq<NBar>, n: nat, previous: Option<DayStats>, sameTime: seq<int>, duplicate: bool,
                 unsorted: bool): FeatureRow
    requires n < |s|
  {
    Derive(p, Observe(p, s[..n + 1]), s[n], previous, sameTime, duplicate, unsorted)
  }

  // ----- numbers

  /** A quotient, missing when the divisor is as good as zero. */
  ghost predicate Ratio(a: real, b: real, r: Option<real>) {
    if -0.000000000001 < b < 0.000000000001 then r == None else r.Some? && r.value * b == a
  }

  ghost predicate Change(before: real, now: real, r: Option<real>) {
    Ratio(now - before, before, r)
  }

  ghost predicate Average(xs: seq<real>, v: real) {
    xs != [] && v * |xs| as real == Sum(xs)
  }

  /** `a` relative to the average of `xs`, missing without any. */
  ghost predicate AgainstAverage(a: real, xs: seq<real>, r: Option<real>) {
    if xs == [] then r == None else exists v :: Average(xs, v) && Ratio(a, v, r)
  }

  lemma DivIsRatio(a: real, b: real)
    ensures Ratio(a, b, SafeDiv(a, b))
  {
  }

  lemma DivIsChange(before: real, now: real)
    ensures Change(before, now, SafeDiv(now - before, before))
    ensures before == 0.0 ==> SafeDiv(now - before, before) == None
  {
  }

  lemma MeanIsAverage(xs: seq<real>)
    requires xs != []
    ensures Average(xs, Mean(xs))
  {
    assert |xs| as real > 0.0;
    hide Sum;
    TimesBack(Sum(xs), |xs| as real);
  }

  lemma TimesBack(a: real, b: real)
    requires b != 0.0
    ensures a / b * b == a
  {
  }

  lemma PerMeanIs(a: real, xs: seq<real>)
    ensures AgainstAverage(a, xs, PerMean(a, xs))
  {
    if xs != [] {
      MeanIsAverage(xs);
      DivIsRatio(a, Mean(xs));
      hide Average, Ratio, Mean, SafeDiv;
      assert Average(xs, Mean(xs)) && Ratio(a, Mean(xs), PerMean(a, xs));
    }
  }

  // ----- windows

  /** How many of the `n` earlier bars a window of width `w` remembers. */
  ghost function Back(n: nat, w: nat): nat {
    if n < w then n else w
  }

  lemma WindowIs<T>(s: seq<NBar>, n: nat, f: NBar -> T, w: nat)
    requires n <= |s|
    ensures var m := Back(n, w);
            LastN(Map(s[..n], f), w) == seq(m, j requires 0 <= j < m => f(s[n - m + j]))
  {
  }

  // ----- closes and returns

  ghost predicate ReturnsAt(p: Settings, s: seq<NBar>, n: nat, r: FeatureRow)
    requires n < |s|
  {
    var close, known := s[n].close, Back(n, p.window);
    && r.close == close
    && r.previousClose == (if n == 0 then None else Some(s[n - 1].close))
    && (if n == 0 then r.return1 == None else Change(s[n - 1].close, close, r.return1))
    && (if known < 5 then r.return5 == None else Change(s[n - 5].close, close, r.return5))
    && (if known < 20 then r.return20 == None else Change(s[n - 20].close, close, r.return20))
    && (if n == 0 then r.sessionReturn == 0.0
        else exists x :: Change(s[0].close, close, x) && r.sessionReturn == x.GetOr(0.0))
  }

  lemma ClosesAre(p: Settings, s: seq<NBar>, n: nat)
    requires n < |s|
    ensures var a := Observe(p, s[..n + 1]);
            && a.index == n && a.firstClose == s[0].close && |a.closes| == Back(n, p.window)
            && (n > 0 ==> a.closes != [] && Last(a.closes) == s[n - 1].close)
            && (|a.closes| >= 5 ==> a.closes[|a.closes| - 5] == s[n - 5].close)
            && (|a.closes| >= 20 ==> a.closes[|a.closes| - 20] == s[n - 20].close)
  {
    hide Sum, Highest, Lowest, Filter, TrueRanges, VolumeChanges, Ema, HighestOf, LowestOf, LastN;
    assert s[..n + 1][..n] == s[..n];
    WindowIs(s, n, Close(), p.window);
  }

  lemma RollingReturnIs(close: real, closes: seq<real>, lookback: Positive)
    ensures var r := RollingReturn(close, closes, lookback);
            if |closes| < lookback then r == None else Change(closes[|closes| - lookback], close, r)
  {
  }

  lemma ReturnsFrom(p: Settings, s: seq<NBar>, n: nat, a: Accumulated, previous: Option<DayStats>, sameTime: seq<int>,
                    duplicate: bool, unsorted: bool)
    requires n < |s|
    requires a.index == n && a.firstClose == s[0].close && |a.closes| == Back(n, p.window)
    requires n > 0 ==> a.closes != [] && Last(a.closes) == s[n - 1].close
    requires |a.closes| >= 5 ==> a.closes[|a.closes| - 5] == s[n - 5].close
    requires |a.closes| >= 20 ==> a.closes[|a.closes| - 20] == s[n - 20].close
    ensures ReturnsAt(p, s, n, Derive(p, a, s[n], previous, sameTime, duplicate, unsorted))
  {
    hide RowFlags, GapFill, Slope, AbsReturns, Vwap, TrueRange, PerMean, Mean, OpeningComplete, Highest, Lowest,
      RollingReturn, SafeDiv, Change, Ratio;
    RollingReturnIs(s[n].close, a.closes, 5);
    RollingReturnIs(s[n].close, a.closes, 20);
    DivIsChange(s[0].close, s[n].close);
    if n > 0 {
      DivIsChange(s[n - 1].close, s[n].close);
    }
  }

  lemma ReturnsHold(p: Settings, s: seq<NBar>, n: nat, previous: Option<DayStats>, sameTime: seq<int>,
                    duplicate: bool, unsorted: bool)
    requires n < |s|
    ensures ReturnsAt(p, s, n, RowAt(p, s, n, previous, sameTime, duplicate, unsorted))
  {
    hide Derive, Observe, ReturnsAt;
    ClosesAre(p, s, n);
    ReturnsFrom(p, s, n, Observe(p, s[..n + 1]), previous, sameTime, duplicate, unsorted);
  }

  // ----- extremes

  /** The highest high of the bars `lo` to `hi` that are kept, missing without any. */
  ghost predicate Top(s: seq<NBar>, lo: nat, hi: nat, keep: NBar -> bool, v: Option<real>)
    requires hi < |s|
  {
    && (v == None <==> forall k :: lo <= k <= hi ==> !keep(s[k]))
    && (v != None ==> && (forall k :: lo <= k <= hi && keep(s[k]) ==> s[k].high <= v.value)
                      && exists k :: lo <= k <= hi && keep(s[k]) && s[k].high == v.value)
  }

  /** The lowest low. */
  ghost predicate Bottom(s: seq<NBar>, lo: nat, hi: nat, keep: NBar -> bool, v: Option<real>)
    requires hi < |s|
  {
    && (v == None <==> forall k :: lo <= k <= hi ==> !keep(s[k]))
    && (v != None ==> && (forall k :: lo <= k <= hi && keep(s[k]) ==> s[k].low >= v.value)
                      && exists k :: lo <= k <= hi && keep(s[k]) && s[k].low == v.value)
  }

  ghost function Any(): NBar -> bool { (b: NBar) => true }

  ghost function Premarket(): NBar -> bool { (b: NBar) => b.session == "premarket" }

  /** From the open at 9:30 on, for the configured minutes. */
  ghost function Opening(p: Settings): NBar -> bool { (b: NBar) => 570 <= b.minuteEt < 570 + p.openingMinutes }

  lemma TopIs(s: seq<NBar>, n: nat, keep: NBar -> bool)
    requires n < |s|
    ensures Top(s, 0, n, keep, HighestOf(Filter(s[..n + 1], keep)))
  {
    var seen := s[..n + 1];
    var kept := Filter(seen, keep);
    hide Filter, Highest;
    assert forall k :: 0 <= k <= n ==> s[k] == seen[k];
    if kept != [] {
      var highs := Map(kept, High());
      HighestIsAbove(highs);
      forall k | 0 <= k <= n && keep(s[k])
        ensures s[k].high <= Highest(highs)
      {
        assert seen[k] in kept;
        var m :| 0 <= m < |kept| && kept[m] == s[k];
        assert highs[m] in highs;
      }
      var m :| 0 <= m < |highs| && highs[m] == Highest(highs);
      assert kept[m] in kept;
      var k :| 0 <= k < |seen| && seen[k] == kept[m];
      assert s[k].high == Highest(highs) && keep(s[k]);
    } else {
      assert forall k :: 0 <= k <= n ==> seen[k] in seen;
    }
  }

  lemma BottomIs(s: seq<NBar>, n: nat, keep: NBar -> bool)
    requires n < |s|
    ensures Bottom(s, 0, n, keep, LowestOf(Filter(s[..n + 1], keep)))
  {
    var seen := s[..n + 1];
    var kept := Filter(seen, keep);
    hide Filter, Lowest;
    assert forall k :: 0 <= k <= n ==> s[k] == seen[k];
    if kept != [] {
      var lows := Map(kept, Low());
      LowestIsBelow(lows);
      forall k | 0 <= k <= n && keep(s[k])
        ensures s[k].low >= Lowest(lows)
      {
        assert seen[k] in kept;
        var m :| 0 <= m < |kept| && kept[m] == s[k];
        assert lows[m] in lows;
      }
      var m :| 0 <= m < |lows| && lows[m] == Lowest(lows);
      assert kept[m] in kept;
      var k :| 0 <= k < |seen| && seen[k] == kept[m];
      assert s[k].low == Lowest(lows) && keep(s[k]);
    } else {
      assert forall k :: 0 <= k <= n ==> seen[k] in seen;
    }
  }

  lemma RollingExtremes(s: seq<NBar>, n: nat, w: nat)
    requires n < |s|
    ensures Top(s, n - Back(n, w), n, Any(), Some(Highest([s[n].high] + LastN(Map(s[..n], High()), w))))
    ensures Bottom(s, n - Back(n, w), n, Any(), Some(Lowest([s[n].low] + LastN(Map(s[..n], Low()), w))))
  {
    var m := Back(n, w);
    WindowIs(s, n, High(), w);
    WindowIs(s, n, Low(), w);
    hide LastN, Map, Highest, Lowest, Top, Bottom;
    RollingTop(s, n, m, [s[n].high] + LastN(Map(s[..n], High()), w));
    RollingBottom(s, n, m, [s[n].low] + LastN(Map(s[..n], Low()), w));
  }

  lemma RollingTop(s: seq<NBar>, n: nat, m: nat, highs: seq<real>)
    requires m <= n < |s|
    requires highs == [s[n].high] + seq(m, j requires 0 <= j < m => s[n - m + j].high)
    ensures Top(s, n - m, n, Any(), Some(Highest(highs)))
  {
    HighestIsAbove(highs);
    hide Highest;
    forall k | n - m <= k <= n
      ensures s[k].high <= Highest(highs)
    {
      var j := if k == n then 0 else k - (n - m) + 1;
      assert s[k].high == highs[j] && highs[j] in highs;
    }
    var j :| 0 <= j < |highs| && highs[j] == Highest(highs);
    var at := if j == 0 then n else n - m + j - 1;
    assert Any()(s[at]) && s[at].high == Highest(highs);
  }

  lemma RollingBottom(s: seq<NBar>, n: nat, m: nat, lows: seq<real>)
    requires m <= n < |s|
    requires lows == [s[n].low] + seq(m, j requires 0 <= j < m => s[n - m + j].low)
    ensures Bottom(s, n - m, n, Any(), Some(Lowest(lows)))
  {
    LowestIsBelow(lows);
    hide Lowest;
    forall k | n - m <= k <= n
      ensures s[k].low >= Lowest(lows)
    {
      var j := if k == n then 0 else k - (n - m) + 1;
      assert s[k].low == lows[j] && lows[j] in lows;
    }
    var j :| 0 <= j < |lows| && lows[j] == Lowest(lows);
    var at := if j == 0 then n else n - m + j - 1;
    assert Any()(s[at]) && s[at].low == Lowest(lows);
  }

  lemma DayExtremes(s: seq<NBar>, n: nat)
    requires n < |s|
    ensures Top(s, 0, n, Any(), Some(Highest(Map(s[..n + 1], High()))))
    ensures Bottom(s, 0, n, Any(), Some(Lowest(Map(s[..n + 1], Low()))))
  {
    TopIs(s, n, Any());
    BottomIs(s, n, Any());
    FilterAll(s[..n + 1], Any());
    hide Highest, Lowest, Filter, Top, Bottom;
  }

  /** The opening range is over, and some bar fell into it. */
  ghost predicate OpeningOver(p: Settings, s: seq<NBar>, n: nat)
    requires n < |s|
  {
    s[n].minuteEt >= 570 + p.openingMinutes && exists k :: 0 <= k <= n && Opening(p)(s[k])
  }

  ghost predicate LevelsAt(p: Settings, s: seq<NBar>, n: nat, r: FeatureRow)
    requires n < |s|
  {
    && Top(s, n - Back(n, p.window), n, Any(), Some(r.rollingHigh))
    && Bottom(s, n - Back(n, p.window), n, Any(), Some(r.rollingLow))
    && Top(s, 0, n, Any(), Some(r.dayHigh)) && Bottom(s, 0, n, Any(), Some(r.dayLow))
    && Top(s, 0, n, Premarket(), r.premarketHigh) && Bottom(s, 0, n, Premarket(), r.premarketLow)
    && (if OpeningOver(p, s, n)
        then Top(s, 0, n, Opening(p), r.openingHigh) && Bottom(s, 0, n, Opening(p), r.openingLow)
        else r.openingHigh == None && r.openingLow == None)
  }

  /** What the accumulated levels are. */
  ghost predicate LevelsSeen(p: Settings, s: seq<NBar>, n: nat, a: Accumulated)
    requires n < |s|
  {
    && Top(s, n - Back(n, p.window), n, Any(), Some(Highest([s[n].high] + a.highs)))
    && Bottom(s, n - Back(n, p.window), n, Any(), Some(Lowest([s[n].low] + a.lows)))
    && Top(s, 0, n, Any(), Some(a.dayHigh)) && Bottom(s, 0, n, Any(), Some(a.dayLow))
    && Top(s, 0, n, Premarket(), a.premarketHigh) && Bottom(s, 0, n, Premarket(), a.premarketLow)
    && Top(s, 0, n, Opening(p), a.openingHigh) && Bottom(s, 0, n, Opening(p), a.openingLow)
  }

  lemma PartExtremes(p: Settings, s: seq<NBar>, n: nat)
    requires n < |s|
    ensures Top(s, 0, n, Premarket(), HighestOf(Filter(s[..n + 1], InSession("premarket"))))
    ensures Bottom(s, 0, n, Premarket(), LowestOf(Filter(s[..n + 1], InSession("premarket"))))
    ensures Top(s, 0, n, Opening(p), HighestOf(Filter(s[..n + 1], InOpeningRange(p))))
    ensures Bottom(s, 0, n, Opening(p), LowestOf(Filter(s[..n + 1], InOpeningRange(p))))
  {
    FilterCongruence(s[..n + 1], Premarket(), InSession("premarket"));
    FilterCongruence(s[..n + 1], Opening(p), InOpeningRange(p));
    hide Filter, HighestOf, LowestOf, Top, Bottom;
    TopIs(s, n, Premarket());
    BottomIs(s, n, Premarket());
    TopIs(s, n, Opening(p));
    BottomIs(s, n, Opening(p));
  }

  lemma LevelsAre(p: Settings, s: seq<NBar>, n: nat)
    requires n < |s|
    ensures LevelsSeen(p, s, n, Observe(p, s[..n + 1]))
  {
    hide Sum, Highest, Lowest, Filter, TrueRanges, VolumeChanges, Ema, HighestOf, LowestOf, LastN, Top, Bottom;
    assert s[..n + 1][..n] == s[..n];
    RollingExtremes(s, n, p.window);
    DayExtremes(s, n);
    PartExtremes(p, s, n);
  }

  lemma LevelsFrom(p: Settings, s: seq<NBar>, n: nat, a: Accumulated, previous: Option<DayStats>, sameTime: seq<int>,
                   duplicate: bool, unsorted: bool)
    requires n < |s| && LevelsSeen(p, s, n, a)
    ensures LevelsAt(p, s, n, Derive(p, a, s[n], previous, sameTime, duplicate, unsorted))
    ensures OpeningOver(p, s, n) <==> OpeningComplete(p, a, s[n])
  {
    hide RowFlags, GapFill, Slope, AbsReturns, Vwap, TrueRange, PerMean, Mean, Highest, Lowest, RollingReturn, SafeDiv,
      Bottom;
    assert OpeningOver(p, s, n) <==> OpeningComplete(p, a, s[n]);
    hide Top, OpeningComplete, OpeningOver;
  }

  lemma LevelsHold(p: Settings, s: seq<NBar>, n: nat, previous: Option<DayStats>, sameTime: seq<int>,
                   duplicate: bool, unsorted: bool)
    requires n < |s|
    ensures LevelsAt(p, s, n, RowAt(p, s, n, previous, sameTime, duplicate, unsorted))
  {
    hide Derive, Observe, LevelsAt, LevelsSeen;
    LevelsAre(p, s, n);
    LevelsFrom(p, s, n, Observe(p, s[..n + 1]), previous, sameTime, duplicate, unsorted);
  }

  // ----- volume-weighted price

  /** Shares traded on a bar; a negative count counts for nothing. */
  ghost function Shares(b: NBar): real { if b.volume > 0 then b.volume as real else 0.0 }

  /** Shares and their value at the typical price, bar by bar. */
  ghost function SharesOf(s: seq<NBar>, n: nat): seq<real>
    requires n < |s|
  {
    seq(n + 1, k requires 0 <= k <= n => Shares(s[k]))
  }

  ghost function ValuesOf(s: seq<NBar>, n: nat): seq<real>
    requires n < |s|
  {
    seq(n + 1, k requires 0 <= k <= n => (s[k].high + s[k].low + s[k].close) / 3.0 * Shares(s[k]))
  }

  /** The average price per share of the session so far; the close when nothing was traded or the
      average is zero. */
  ghost predicate VwapAt(s: seq<NBar>, n: nat, vwap: real)
    requires n < |s|
  {
    var shares, value := Sum(SharesOf(s, n)), Sum(ValuesOf(s, n));
    if shares == 0.0 || value == 0.0 then vwap == s[n].close else vwap * shares == value
  }

  /** Share counts are whole, so no divisor lies strictly between zero and one. */
  lemma {:induction false} SharesAreWhole(s: seq<NBar>, n: nat) returns (total: nat)
    requires n < |s|
    ensures Sum(SharesOf(s, n)) == total as real
  {
    if n == 0 {
      assert SharesOf(s, 0) == [Shares(s[0])];
      total := if s[0].volume > 0 then s[0].volume else 0;
    } else {
      var before := SharesAreWhole(s, n - 1);
      assert SharesOf(s, n) == SharesOf(s, n - 1) + [Shares(s[n])];
      SumSnoc(SharesOf(s, n - 1), Shares(s[n]));
      total := before + if s[n].volume > 0 then s[n].volume else 0;
    }
  }

  lemma SumsAre(s: seq<NBar>, n: nat)
    requires n < |s|
    ensures Map(s[..n + 1], Traded()) == SharesOf(s, n)
    ensures Map(s[..n + 1], TypicalTimesVolume()) == ValuesOf(s, n)
  {
    var values := Map(s[..n + 1], TypicalTimesVolume());
    forall k | 0 <= k <= n
      ensures values[k] == ValuesOf(s, n)[k]
    {
      assert IntMax(s[k].volume, 0) as real == Shares(s[k]);
    }
  }

  lemma VwapFrom(s: seq<NBar>, n: nat, a: Accumulated, total: nat)
    requires n < |s| && a.pv == Sum(ValuesOf(s, n)) && a.traded == Sum(SharesOf(s, n)) == total as real
    ensures VwapAt(s, n, Vwap(a, s[n]))
  {
    hide Sum, SharesOf, ValuesOf;
    assert a.traded == 0.0 || a.traded >= 1.0;
    if a.traded != 0.0 {
      TimesBack(a.pv, a.traded);
      NoneOfZero(a.pv / a.traded, a.traded);
    }
  }

  lemma NoneOfZero(x: real, y: real)
    requires y != 0.0
    ensures x * y == 0.0 <==> x == 0.0
  {
  }

  lemma DerivedVwap(p: Settings, a: Accumulated, bar: NBar, previous: Option<DayStats>, sameTime: seq<int>,
                    duplicate: bool, unsorted: bool)
    ensures Derive(p, a, bar, previous, sameTime, duplicate, unsorted).vwap == Vwap(a, bar)
  {
    hide RowFlags, GapFill, Slope, AbsReturns, Vwap, TrueRange, PerMean, Mean, Highest, Lowest, RollingReturn, SafeDiv;
  }

  lemma VwapHolds(p: Settings, s: seq<NBar>, n: nat, previous: Option<DayStats>, sameTime: seq<int>,
                  duplicate: bool, unsorted: bool)
    requires n < |s|
    ensures VwapAt(s, n, RowAt(p, s, n, previous, sameTime, duplicate, unsorted).vwap)
  {
    hide Sum, Highest, Lowest, Filter, TrueRanges, VolumeChanges, Ema, HighestOf, LowestOf, LastN, Derive, VwapAt,
      SharesOf, ValuesOf;
    SumsAre(s, n);
    var total := SharesAreWhole(s, n);
    DerivedVwap(p, Observe(p, s[..n + 1]), s[n], previous, sameTime, duplicate, unsorted);
    VwapFrom(s, n, Observe(p, s[..n + 1]), total);
  }

  // ----- true ranges

  /** The true range of bar `k`: its own range, stretched to the close before it in the session. */
  ghost predicate RangeIs(s: seq<NBar>, k: nat, v: real)
    requires k < |s|
  {
    var high, low := s[k].high, s[k].low;
    if k == 0 then v >= high - low && v >= 0.0 && (v == high - low || v == 0.0)
    else
      var c := s[k - 1].close;
      && v >= high - low && v >= high - c && v >= c - high && v >= low - c && v >= c - low
      && (v == high - low || v == high - c || v == c - high || v == low - c || v == c - low)
  }

  /** Range, and average range over the configured period, known from its end on. */
  ghost predicate RangesAt(p: Settings, s: seq<NBar>, n: nat, r: FeatureRow, ranges: seq<real>)
    requires n < |s|
  {
    var m := Back(n + 1, p.atrPeriod);
    && |ranges| == n + 1 && (forall k :: 0 <= k <= n ==> RangeIs(s, k, ranges[k]))
    && r.trueRange == ranges[n]
    && Average(ranges[n + 1 - m..], r.atrProxy)
    && r.atr == if n + 1 < p.atrPeriod then None else Some(r.atrProxy)
  }

  lemma RangesAre(s: seq<NBar>, n: nat)
    requires n < |s|
    ensures var ranges := TrueRanges(s[..n + 1]);
            && |ranges| == n + 1 && (forall k :: 0 <= k <= n ==> RangeIs(s, k, ranges[k]))
            && ranges[n] == TrueRange(s[n], if n == 0 then None else Some(s[n - 1].close))
  {
    var ranges := TrueRanges(s[..n + 1]);
    forall k | 0 <= k <= n
      ensures RangeIs(s, k, ranges[k])
    {
      assert ranges[k] == TrueRange(s[k], if k == 0 then None else Some(s[k - 1].close));
    }
  }

  lemma RangesFrom(p: Settings, s: seq<NBar>, n: nat, a: Accumulated, previous: Option<DayStats>, sameTime: seq<int>,
                   duplicate: bool, unsorted: bool, ranges: seq<real>)
    requires n < |s| && |ranges| == n + 1 && (forall k :: 0 <= k <= n ==> RangeIs(s, k, ranges[k]))
    requires ranges[n] == TrueRange(s[n], if n == 0 then None else Some(s[n - 1].close))
    requires a.trueRanges == LastN(ranges, p.atrPeriod)
    requires if n == 0 then a.closes == [] else a.closes != [] && Last(a.closes) == s[n - 1].close
    ensures RangesAt(p, s, n, Derive(p, a, s[n], previous, sameTime, duplicate, unsorted), ranges)
  {
    hide RowFlags, GapFill, Slope, AbsReturns, Vwap, TrueRange, PerMean, Mean, Highest, Lowest, RollingReturn, SafeDiv,
      OpeningComplete, RangeIs, Average;
    MeanIsAverage(a.trueRanges);
  }

  lemma RangesHold(p: Settings, s: seq<NBar>, n: nat, previous: Option<DayStats>, sameTime: seq<int>,
                   duplicate: bool, unsorted: bool)
    returns (ranges: seq<real>)
    requires n < |s|
    ensures RangesAt(p, s, n, RowAt(p, s, n, previous, sameTime, duplicate, unsorted), ranges)
  {
    ranges := TrueRanges(s[..n + 1]);
    hide Sum, Highest, Lowest, Filter, TrueRanges, VolumeChanges, Ema, HighestOf, LowestOf, LastN, RangesAt, Derive,
      TrueRange, RangeIs;
    RangesAre(s, n);
    ClosesAre(p, s, n);
    RangesFrom(p, s, n, Observe(p, s[..n + 1]), previous, sameTime, duplicate, unsorted, ranges);
  }

  // ----- volumes

  /** Volumes of the bars from `lo` up to, not including, `hi`. */
  ghost function Volumes(s: seq<NBar>, lo: nat, hi: nat): seq<real>
    requires lo <= hi <= |s|
  {
    seq(hi - lo, j requires 0 <= j < hi - lo => s[lo + j].volume as real)
  }

  /** Changes of volume into the bars from `lo` up to, not including, `hi`. */
  ghost function Steps(s: seq<NBar>, lo: nat, hi: nat): seq<real>
    requires 0 < lo <= hi <= |s|
  {
    seq(hi - lo, j requires 0 <= j < hi - lo => s[lo + j].volume as real - s[lo + j - 1].volume as real)
  }

  ghost function AsReals(xs: seq<int>): seq<real> {
    seq(|xs|, j requires 0 <= j < |xs| => xs[j] as real)
  }

  /** Volume against the session's window and against `sameTime`. */
  ghost predicate VolumesAt(p: Settings, s: seq<NBar>, n: nat, sameTime: seq<int>, r: FeatureRow)
    requires n < |s|
  {
    && AgainstAverage(s[n].volume as real, Volumes(s, n - Back(n, p.window), n), r.relativeVolume)
    && AgainstAverage(s[n].volume as real, AsReals(sameTime), r.sameTimeVolume)
  }

  /** The change of volume, and the change against the average of the last five changes. */
  ghost predicate ChangesAt(s: seq<NBar>, n: nat, r: FeatureRow)
    requires n < |s|
  {
    if n == 0 then r.volumeChange == None && r.volumeAcceleration == None
    else
      var change, changes := s[n].volume as real - s[n - 1].volume as real, Steps(s, n + 1 - Back(n, 5), n + 1);
      && r.volumeChange == Some(change)
      && if n == 1 then r.volumeAcceleration == None
         else exists v :: Average(changes, v) && r.volumeAcceleration == Some(change - v)
  }

  ghost predicate VolumesSeen(p: Settings, s: seq<NBar>, n: nat, a: Accumulated)
    requires n < |s|
  {
    && Map(a.volumes, AsReal()) == Volumes(s, n - Back(n, p.window), n)
    && (if n == 0 then a.volumes == [] else a.volumes != [] && Last(a.volumes) == s[n - 1].volume)
    && a.volumeChanges == if n == 0 then [] else Steps(s, n + 1 - Back(n, 5), n + 1)
  }

  lemma LastNIs<T>(xs: seq<T>, w: nat)
    ensures var m := Back(|xs|, w);
            |LastN(xs, w)| == m && forall j :: 0 <= j < m ==> LastN(xs, w)[j] == xs[|xs| - m + j]
  {
  }

  lemma StepsAre(s: seq<NBar>, n: nat)
    requires 0 < n < |s|
    ensures VolumeChanges(s[..n + 1]) == Steps(s, 1, n + 1)
  {
    var seen := s[..n + 1];
    assert forall i :: 0 <= i <= n ==> seen[i] == s[i];
  }

  lemma LastFiveSteps(s: seq<NBar>, n: nat)
    requires 0 < n < |s|
    ensures LastN(Steps(s, 1, n + 1), 5) == Steps(s, n + 1 - Back(n, 5), n + 1)
  {
    LastNIs(Steps(s, 1, n + 1), 5);
    hide LastN;
  }

  lemma ChangesAre(s: seq<NBar>, n: nat)
    requires n < |s|
    ensures LastN(VolumeChanges(s[..n + 1]), 5) == if n == 0 then [] else Steps(s, n + 1 - Back(n, 5), n + 1)
  {
    if n > 0 {
      hide LastN, Steps, VolumeChanges;
      StepsAre(s, n);
      LastFiveSteps(s, n);
    }
  }

  lemma VolumeWindow(s: seq<NBar>, n: nat, w: Positive)
    requires n < |s|
    ensures var window := LastN(Map(s[..n], Volume()), w);
            && Map(window, AsReal()) == Volumes(s, n - Back(n, w), n)
            && if n == 0 then window == [] else window != [] && Last(window) == s[n - 1].volume
  {
    WindowIs(s, n, Volume(), w);
    hide LastN;
    assert Map(LastN(Map(s[..n], Volume()), w), AsReal()) == Volumes(s, n - Back(n, w), n);
  }

  lemma VolumesAre(p: Settings, s: seq<NBar>, n: nat)
    requires n < |s|
    ensures VolumesSeen(p, s, n, Observe(p, s[..n + 1]))
  {
    hide Sum, Highest, Lowest, Filter, TrueRanges, VolumeChanges, Ema, HighestOf, LowestOf, LastN, Steps, Volumes, Back;
    assert s[..n + 1][..n] == s[..n];
    VolumeWindow(s, n, p.window);
    ChangesAre(s, n);
  }

  lemma VolumesFrom(p: Settings, s: seq<NBar>, n: nat, a: Accumulated, previous: Option<DayStats>, sameTime: seq<int>,
                    duplicate: bool, unsorted: bool)
    requires n < |s| && VolumesSeen(p, s, n, a)
    ensures VolumesAt(p, s, n, sameTime, Derive(p, a, s[n], previous, sameTime, duplicate, unsorted))
  {
    assert Map(sameTime, AsReal()) == AsReals(sameTime);
    hide RowFlags, GapFill, Slope, AbsReturns, Vwap, TrueRange, PerMean, Mean, Highest, Lowest, RollingReturn, SafeDiv,
      OpeningComplete, Average, Volumes, AsReals, AgainstAverage, Map, Steps;
    PerMeanIs(s[n].volume as real, Map(a.volumes, AsReal()));
    PerMeanIs(s[n].volume as real, Map(sameTime, AsReal()));
  }

  lemma ChangesFrom(p: Settings, s: seq<NBar>, n: nat, a: Accumulated, previous: Option<DayStats>, sameTime: seq<int>,
                    duplicate: bool, unsorted: bool)
    requires n < |s| && VolumesSeen(p, s, n, a)
    ensures ChangesAt(s, n, Derive(p, a, s[n], previous, sameTime, duplicate, unsorted))
  {
    hide RowFlags, GapFill, Slope, AbsReturns, Vwap, TrueRange, PerMean, Mean, Highest, Lowest, RollingReturn, SafeDiv,
      OpeningComplete, Average, Volumes, Map;
    if n > 0 {
      MeanIsAverage(a.volumeChanges);
    }
  }

  lemma VolumesHold(p: Settings, s: seq<NBar>, n: nat, previous: Option<DayStats>, sameTime: seq<int>,
                    duplicate: bool, unsorted: bool)
    requires n < |s|
    ensures VolumesAt(p, s, n, sameTime, RowAt(p, s, n, previous, sameTime, duplicate, unsorted))
    ensures ChangesAt(s, n, RowAt(p, s, n, previous, sameTime, duplicate, unsorted))
  {
    hide Derive, Observe, VolumesAt, VolumesSeen, ChangesAt;
    VolumesAre(p, s, n);
    VolumesFrom(p, s, n, Observe(p, s[..n + 1]), previous, sameTime, duplicate, unsorted);
    ChangesFrom(p, s, n, Observe(p, s[..n + 1]), previous, sameTime, duplicate, unsorted);
  }

  // ----- trend

  /** The nine-period average: a fifth of the close and four fifths of the average before. */
  ghost function EmaAt(s: seq<NBar>, n: nat): real
    requires n < |s|
  {
    if n == 0 then s[0].close else s[n].close / 5.0 + EmaAt(s, n - 1) * 4.0 / 5.0
  }

  lemma {:induction false} EmaIs(s: seq<NBar>, n: nat)
    requires n < |s|
    ensures Ema(s[..n + 1]) == EmaAt(s, n)
  {
    if n > 0 {
      EmaIs(s, n - 1);
      assert s[..n + 1][..n] == s[..n];
    }
  }

  /** Closes of the bars from `lo` up to and including `n`. */
  ghost function Closes(s: seq<NBar>, lo: nat, n: nat): seq<real>
    requires lo <= n < |s|
  {
    seq(n + 1 - lo, j requires 0 <= j < n + 1 - lo => s[lo + j].close)
  }

  /** Absolute one-bar returns into the bars from `lo` up to, not including, `n`; zero when unknown. */
  ghost predicate Moves(s: seq<NBar>, lo: nat, n: nat, moves: seq<real>)
    requires 0 < lo <= n < |s|
  {
    && |moves| == n - lo
    && forall j :: 0 <= j < n - lo ==> Move(s[lo + j - 1].close, s[lo + j].close, moves[j])
  }

  ghost predicate Move(before: real, now: real, move: real) {
    exists x :: Change(before, now, x) && move == Size(x.GetOr(0.0))
  }

  ghost function Size(x: real): real { if x >= 0.0 then x else -x }

  /** Average and its slope, the regression slope over the last twenty closes known, and the size of the
      five-bar return against the average move of the bars before. */
  ghost predicate TrendAt(p: Settings, s: seq<NBar>, n: nat, r: FeatureRow)
    requires n < |s|
  {
    && r.ema == EmaAt(s, n)
    && (if n == 0 then r.emaSlope == None else Change(EmaAt(s, n - 1), EmaAt(s, n), r.emaSlope))
    && r.slope20 == Slope(Closes(s, n - IntMin(Back(n, p.window), 19), n))
  }

  ghost predicate QualityAt(p: Settings, s: seq<NBar>, n: nat, r: FeatureRow)
    requires n < |s|
  {
    var known := Back(n, p.window);
    if known < 2 then r.trendQuality == None
    else exists moves :: Moves(s, n - known + 1, n, moves)
                         && AgainstAverage(Size(r.return5.GetOr(0.0)), moves, r.trendQuality)
  }

  ghost predicate TrendSeen(p: Settings, s: seq<NBar>, n: nat, a: Accumulated)
    requires n < |s|
  {
    && a.ema == EmaAt(s, n) && a.emaBefore == (if n == 0 then None else Some(EmaAt(s, n - 1)))
    && a.closes == Closes(s, n - Back(n, p.window), n)[..Back(n, p.window)]
  }

  lemma TrendIs(p: Settings, s: seq<NBar>, n: nat)
    requires n < |s|
    ensures TrendSeen(p, s, n, Observe(p, s[..n + 1]))
  {
    hide Sum, Highest, Lowest, Filter, TrueRanges, VolumeChanges, Ema, HighestOf, LowestOf, LastN, EmaAt;
    assert s[..n + 1][..n] == s[..n];
    WindowIs(s, n, Close(), p.window);
    EmaIs(s, n);
    if n > 0 {
      EmaIs(s, n - 1);
    }
  }

  /** The closes a regression sees: those remembered and the bar's own, at most twenty. */
  lemma LastTwenty(s: seq<NBar>, n: nat, m: nat, closes: seq<real>)
    requires m <= n < |s| && closes == Closes(s, n - m, n)[..m]
    ensures LastN(closes + [s[n].close], 20) == Closes(s, n - IntMin(m, 19), n)
  {
    var all := Closes(s, n - m, n);
    assert all[m] == s[n].close;
    assert closes + [s[n].close] == all;
    LastNIs(all, 20);
    hide LastN;
  }

  lemma TrendFrom(p: Settings, s: seq<NBar>, n: nat, a: Accumulated, previous: Option<DayStats>, sameTime: seq<int>,
                  duplicate: bool, unsorted: bool)
    requires n < |s| && TrendSeen(p, s, n, a)
    ensures TrendAt(p, s, n, Derive(p, a, s[n], previous, sameTime, duplicate, unsorted))
  {
    hide Derive, Closes, Slope, LastN, EmaAt, Change, SafeDiv, IntMin, PerMean, AbsReturns, Size;
    LastTwenty(s, n, Back(n, p.window), a.closes);
    DerivedTrend(p, a, s[n], previous, sameTime, duplicate, unsorted);
    hide Back;
    if n > 0 {
      DivIsChange(EmaAt(s, n - 1), EmaAt(s, n));
    }
  }

  lemma DerivedTrend(p: Settings, a: Accumulated, bar: NBar, previous: Option<DayStats>, sameTime: seq<int>,
                     duplicate: bool, unsorted: bool)
    ensures var r := Derive(p, a, bar, previous, sameTime, duplicate, unsorted);
            && r.ema == a.ema && r.slope20 == Slope(LastN(a.closes + [bar.close], 20))
            && r.emaSlope == (if a.emaBefore.None? then None
                              else SafeDiv(a.ema - a.emaBefore.value, a.emaBefore.value))
            && r.trendQuality == PerMean(Size(r.return5.GetOr(0.0)), AbsReturns(a.closes))
  {
    hide RowFlags, GapFill, Slope, AbsReturns, Vwap, TrueRange, PerMean, Mean, Highest, Lowest, RollingReturn, SafeDiv,
      OpeningComplete, LastN;
  }

  lemma MovesAre(s: seq<NBar>, lo: nat, n: nat, closes: seq<real>)
    requires lo + 2 <= n < |s| && |closes| == n - lo && forall j :: 0 <= j < n - lo ==> closes[j] == s[lo + j].close
    ensures Moves(s, lo + 1, n, AbsReturns(closes)) && AbsReturns(closes) != []
  {
    hide Change, SafeDiv;
    var moves := AbsReturns(closes);
    forall j | 0 <= j < n - (lo + 1)
      ensures Move(s[lo + 1 + j - 1].close, s[lo + 1 + j].close, moves[j])
    {
      var before, now := s[lo + j].close, s[lo + j + 1].close;
      assert closes[j] == before && closes[j + 1] == now;
      DivIsChange(before, now);
      assert Change(before, now, SafeDiv(now - before, before));
    }
  }

  lemma QualityFrom(p: Settings, s: seq<NBar>, n: nat, a: Accumulated, previous: Option<DayStats>, sameTime: seq<int>,
                    duplicate: bool, unsorted: bool)
    requires n < |s| && TrendSeen(p, s, n, a)
    ensures QualityAt(p, s, n, Derive(p, a, s[n], previous, sameTime, duplicate, unsorted))
  {
    var m := Back(n, p.window);
    assert |a.closes| == m && forall j :: 0 <= j < m ==> a.closes[j] == s[n - m + j].close;
    if m >= 2 {
      MovesAre(s, n - m, n, a.closes);
    } else {
      NoMoves(a.closes);
    }
    hide Derive, TrendSeen, Moves, AgainstAverage, AbsReturns, PerMean, Back;
    DerivedTrend(p, a, s[n], previous, sameTime, duplicate, unsorted);
    PerMeanIs(Size(Derive(p, a, s[n], previous, sameTime, duplicate, unsorted).return5.GetOr(0.0)),
              AbsReturns(a.closes));
    hide Size;
  }

  lemma NoMoves(closes: seq<real>)
    requires |closes| < 2
    ensures forall x :: PerMean(x, AbsReturns(closes)) == None
  {
  }

  lemma TrendHolds(p: Settings, s: seq<NBar>, n: nat, previous: Option<DayStats>, sameTime: seq<int>,
                   duplicate: bool, unsorted: bool)
    requires n < |s|
    ensures TrendAt(p, s, n, RowAt(p, s, n, previous, sameTime, duplicate, unsorted))
    ensures QualityAt(p, s, n, RowAt(p, s, n, previous, sameTime, duplicate, unsorted))
  {
    hide Derive, Observe, TrendAt, TrendSeen, QualityAt;
    TrendIs(p, s, n);
    TrendFrom(p, s, n, Observe(p, s[..n + 1]), previous, sameTime, duplicate, unsorted);
    QualityFrom(p, s, n, Observe(p, s[..n + 1]), previous, sameTime, duplicate, unsorted);
  }

  // ----- the opening gap

  /** The open of the first bar of the regular session so far. */
  ghost predicate RegularOpen(s: seq<NBar>, n: nat, open: Option<real>)
    requires n < |s|
  {
    if forall k :: 0 <= k <= n ==> s[k].session != "rth" then open == None
    else exists k :: 0 <= k <= n && s[k].session == "rth" && open == Some(s[k].open)
                     && forall m :: 0 <= m < k ==> s[m].session != "rth"
  }

  /** How far a gap from `from` to `open` has been filled when the price came back to `low`: not at all,
      fully, or in proportion. */
  ghost predicate Filled(open: real, before: real, back: real, fill: real) {
    if open <= back then fill == 0.0
    else if back <= before then fill == 1.0
    else fill * (open - before) == open - back
  }

  /** Gap against the previous session's close; a gap of more than a tenth of a percent fills as the price
      comes back and holds while it stays short of that close. */
  ghost predicate GapAt(s: seq<NBar>, n: nat, previous: Option<DayStats>, r: FeatureRow, open: Option<real>)
    requires n < |s|
  {
    if previous == None then r.gap == None && r.gapFill == None && r.gapHold == None
    else
      var before := previous.value.close;
      && Change(before, if open == None || open == Some(0.0) then s[n].open else open.value, r.gap)
      && if open == None || r.gap == None then r.gapFill == None && r.gapHold == None
         else if r.gap.value > 1.0 / 1000.0 then
           if open.value <= before then r.gapFill == None && r.gapHold == None
           else r.gapHold == Some(s[n].low > before) && r.gapFill.Some?
                && Filled(open.value, before, s[n].low, r.gapFill.value)
         else if r.gap.value < -1.0 / 1000.0 then
           if open.value >= before then r.gapFill == None && r.gapHold == None
           else r.gapHold == Some(s[n].high < before) && r.gapFill.Some?
                && Filled(-open.value, -before, -s[n].high, r.gapFill.value)
         else r.gapFill == Some(1.0) && r.gapHold == Some(true)
  }

  lemma RegularOpenIs(s: seq<NBar>, n: nat)
    requires n < |s|
    ensures var rth := Filter(s[..n + 1], InSession("rth"));
            RegularOpen(s, n, if rth == [] then None else Some(rth[0].open))
  {
    var seen := s[..n + 1];
    var rth := Filter(seen, InSession("rth"));
    assert forall k :: 0 <= k <= n ==> seen[k] == s[k] && seen[k] in seen;
    if rth != [] {
      var k := FirstKept(seen, InSession("rth"));
      assert s[k] == rth[0];
    }
    hide Filter;
  }

  lemma {:induction false} FirstKept<T>(xs: seq<T>, keep: T -> bool) returns (k: nat)
    requires Filter(xs, keep) != []
    ensures k < |xs| && xs[k] == Filter(xs, keep)[0] && keep(xs[k]) && forall m :: 0 <= m < k ==> !keep(xs[m])
  {
    if keep(xs[0]) {
      k := 0;
    } else {
      var j := FirstKept(xs[1..], keep);
      k := j + 1;
      forall m | 0 <= m < k
        ensures !keep(xs[m])
      {
        assert m > 0 ==> xs[m] == xs[1..][m - 1];
      }
    }
  }

  lemma ProductSign(x: real, y: real)
    requires x >= 0.0 && y >= 0.0
    ensures x * y >= 0.0
  {
  }

  lemma FilledIs(open: real, before: real, back: real)
    requires open > before
    ensures Filled(open, before, back, Min(Max((open - back) / (open - before), 0.0), 1.0))
  {
    var q, d := (open - back) / (open - before), open - before;
    TimesBack(open - back, d);
    if q < 0.0 {
      assert q * d < 0.0;
    } else if q > 1.0 {
      assert (q - 1.0) * d > 0.0;
      assert (q - 1.0) * d == q * d - d;
    } else {
      ProductSign(q, d);
      ProductSign(1.0 - q, d);
      assert (1.0 - q) * d == d - q * d;
      NoneOfZero(q, d);
      NoneOfZero(1.0 - q, d);
    }
  }

  lemma GapFrom(p: Settings, s: seq<NBar>, n: nat, a: Accumulated, previous: Option<DayStats>, sameTime: seq<int>,
                duplicate: bool, unsorted: bool)
    requires n < |s|
    ensures GapAt(s, n, previous, Derive(p, a, s[n], previous, sameTime, duplicate, unsorted), a.rthOpen)
  {
    hide RowFlags, Slope, AbsReturns, Vwap, TrueRange, PerMean, Mean, Highest, Lowest, RollingReturn, SafeDiv,
      OpeningComplete, Filled, Change;
    if previous.Some? {
      var before := previous.value.close;
      DivIsChange(before, Or(a.rthOpen, Some(s[n].open)).value);
      if a.rthOpen.Some? && a.rthOpen.value > before {
        FilledIs(a.rthOpen.value, before, s[n].low);
      } else if a.rthOpen.Some? && a.rthOpen.value < before {
        FilledIs(-a.rthOpen.value, -before, -s[n].high);
        assert -a.rthOpen.value - (-s[n].high) == s[n].high - a.rthOpen.value;
        assert -a.rthOpen.value - (-before) == before - a.rthOpen.value;
      }
    }
  }

  lemma GapHolds(p: Settings, s: seq<NBar>, n: nat, previous: Option<DayStats>, sameTime: seq<int>,
                 duplicate: bool, unsorted: bool)
    returns (open: Option<real>)
    requires n < |s|
    ensures RegularOpen(s, n, open)
    ensures GapAt(s, n, previous, RowAt(p, s, n, previous, sameTime, duplicate, unsorted), open)
  {
    hide Derive, Observe, GapAt, RegularOpen;
    open := Observe(p, s[..n + 1]).rthOpen;
    ObservedOpen(p, s, n);
    GapFrom(p, s, n, Observe(p, s[..n + 1]), previous, sameTime, duplicate, unsorted);
  }

  lemma ObservedOpen(p: Settings, s: seq<NBar>, n: nat)
    requires n < |s|
    ensures RegularOpen(s, n, Observe(p, s[..n + 1]).rthOpen)
  {
    RegularOpenIs(s, n);
    hide Sum, Highest, Lowest, Filter, TrueRanges, VolumeChanges, Ema, HighestOf, LowestOf, LastN, RegularOpen;
  }

  // ----- flags

  /** A row carries its bar's flags and, by name, what is wrong with its input or could not be known. */
  ghost predicate Flagged(p: Settings, s: seq<NBar>, n: nat, r: FeatureRow, duplicate: bool, unsorted: bool,
                          flag: string)
    requires n < |s|
  {
    || flag in s[n].flags
    || (flag == "input_not_sorted_by_symbol_interval_timestamp" && unsorted)
    || (flag == "duplicate_timestamp" && duplicate)
    || (flag == "atr_insufficient_history" && n + 1 < p.atrPeriod)
    || (flag == "atr_session_reset" && n == 0)
    || (flag == "rolling_relative_volume_insufficient_history" && r.relativeVolume == None)
    || (flag == "same_time_rvol_insufficient_history" && r.sameTimeVolume == None)
    || (flag == "previous_day_levels_unavailable" && r.previousDay == None)
    || (flag == "premarket_levels_unavailable" && r.premarketHigh == None)
    || (flag == "opening_range_incomplete" && !OpeningOver(p, s, n))
  }

  ghost predicate FlagsAt(p: Settings, s: seq<NBar>, n: nat, r: FeatureRow, duplicate: bool, unsorted: bool)
    requires n < |s|
  {
    forall flag :: flag in r.flags <==> Flagged(p, s, n, r, duplicate, unsorted, flag)
  }

  lemma FlagsFrom(p: Settings, s: seq<NBar>, n: nat, a: Accumulated, previous: Option<DayStats>, sameTime: seq<int>,
                  duplicate: bool, unsorted: bool)
    requires n < |s| && |a.trueRanges| == Back(n + 1, p.atrPeriod) && (a.closes == [] <==> n == 0)
    requires OpeningOver(p, s, n) <==> OpeningComplete(p, a, s[n])
    ensures FlagsAt(p, s, n, Derive(p, a, s[n], previous, sameTime, duplicate, unsorted), duplicate, unsorted)
  {
    hide GapFill, Slope, AbsReturns, Vwap, TrueRange, PerMean, Mean, Highest, Lowest, RollingReturn, SafeDiv,
      OpeningComplete, OpeningOver, RowFlags;
    var r := Derive(p, a, s[n], previous, sameTime, duplicate, unsorted);
    RowFlagsAre(p, a, s[n], previous, r.relativeVolume, r.sameTimeVolume, duplicate, unsorted);
    HistoryFlagsAre(p, a, r.relativeVolume, duplicate);
    LevelFlagsAre(p, a, s[n], previous, r.sameTimeVolume);
    hide HistoryFlags, LevelFlags;
  }

  lemma HistoryFlagsAre(p: Settings, a: Accumulated, relative: Option<real>, duplicate: bool)
    ensures forall flag ::
              flag in HistoryFlags(p, a, relative, duplicate) <==>
                || (flag == "duplicate_timestamp" && duplicate)
                || (flag == "atr_insufficient_history" && |a.trueRanges| < p.atrPeriod)
                || (flag == "atr_session_reset" && a.closes == [])
                || (flag == "rolling_relative_volume_insufficient_history" && relative == None)
  {
  }

  lemma LevelFlagsAre(p: Settings, a: Accumulated, bar: NBar, previous: Option<DayStats>, sameTime: Option<real>)
    ensures forall flag ::
              flag in LevelFlags(p, a, bar, previous, sameTime) <==>
                || (flag == "same_time_rvol_insufficient_history" && sameTime == None)
                || (flag == "previous_day_levels_unavailable" && previous == None)
                || (flag == "premarket_levels_unavailable" && a.premarketHigh == None)
                || (flag == "opening_range_incomplete" && !OpeningComplete(p, a, bar))
  {
    hide OpeningComplete;
  }

  lemma RowFlagsAre(p: Settings, a: Accumulated, bar: NBar, previous: Option<DayStats>, relative: Option<real>,
                    sameTime: Option<real>, duplicate: bool, unsorted: bool)
    ensures forall flag ::
              flag in RowFlags(p, a, bar, previous, relative, sameTime, duplicate, unsorted) <==>
                || flag in bar.flags
                || (flag == "input_not_sorted_by_symbol_interval_timestamp" && unsorted)
                || flag in HistoryFlags(p, a, relative, duplicate)
                || flag in LevelFlags(p, a, bar, previous, sameTime)
  {
    hide HistoryFlags, LevelFlags;
  }

  lemma FlagsHold(p: Settings, s: seq<NBar>, n: nat, previous: Option<DayStats>, sameTime: seq<int>,
                  duplicate: bool, unsorted: bool)
    requires n < |s|
    ensures FlagsAt(p, s, n, RowAt(p, s, n, previous, sameTime, duplicate, unsorted), duplicate, unsorted)
  {
    var a := Observe(p, s[..n + 1]);
    assert |a.trueRanges| == Back(n + 1, p.atrPeriod) by {
      LastNIs(TrueRanges(s[..n + 1]), p.atrPeriod);
      hide LastN, Filter, Sum, Highest, Lowest, Ema, VolumeChanges, HighestOf, LowestOf;
    }
    hide Observe, Derive, FlagsAt, LevelsAt, LevelsSeen;
    ClosesAre(p, s, n);
    LevelsAre(p, s, n);
    LevelsFrom(p, s, n, a, previous, sameTime, duplicate, unsorted);
    FlagsFrom(p, s, n, a, previous, sameTime, duplicate, unsorted);
  }

  // ----- the whole row

  /** Which bar a row is of. */
  lemma RowIdentity(p: Settings, s: seq<NBar>, n: nat, previous: Option<DayStats>, sameTime: seq<int>,
                    duplicate: bool, unsorted: bool)
    requires n < |s|
    ensures var r := RowAt(p, s, n, previous, sameTime, duplicate, unsorted);
            && r.symbol == s[n].symbol && r.interval == s[n].interval && r.ts == s[n].ts && r.date == s[n].date
            && r.index == n && r.previousDay == previous
  {
    ClosesAre(p, s, n);
    hide Observe, RowFlags, GapFill, Slope, AbsReturns, Vwap, TrueRange, PerMean, Mean, Highest, Lowest, RollingReturn,
      SafeDiv, OpeningComplete;
  }

  /** Every column but the benchmarks, the flags and the levels of the previous session. */
  ghost predicate Columns(p: Settings, s: seq<NBar>, n: nat, sameTime: seq<int>, r: FeatureRow)
    requires n < |s|
  {
    && r.ts == s[n].ts && r.index == n
    && ReturnsAt(p, s, n, r) && LevelsAt(p, s, n, r) && VwapAt(s, n, r.vwap)
    && (exists ranges :: RangesAt(p, s, n, r, ranges))
    && VolumesAt(p, s, n, sameTime, r) && ChangesAt(s, n, r)
    && TrendAt(p, s, n, r) && QualityAt(p, s, n, r)
    && exists open :: RegularOpen(s, n, open) && GapAt(s, n, r.previousDay, r, open)
  }

  lemma ColumnsHold(p: Settings, s: seq<NBar>, n: nat, previous: Option<DayStats>, sameTime: seq<int>,
                    duplicate: bool, unsorted: bool)
    requires n < |s|
    ensures Columns(p, s, n, sameTime, RowAt(p, s, n, previous, sameTime, duplicate, unsorted))
  {
    hide RowAt, ReturnsAt, LevelsAt, VwapAt, RangesAt, VolumesAt, ChangesAt, TrendAt, QualityAt, RegularOpen, GapAt;
    RowIdentity(p, s, n, previous, sameTime, duplicate, unsorted);
    ReturnsHold(p, s, n, previous, sameTime, duplicate, unsorted);
    LevelsHold(p, s, n, previous, sameTime, duplicate, unsorted);
    VwapHolds(p, s, n, previous, sameTime, duplicate, unsorted);
    var ranges := RangesHold(p, s, n, previous, sameTime, duplicate, unsorted);
    VolumesHold(p, s, n, previous, sameTime, duplicate, unsorted);
    TrendHolds(p, s, n, previous, sameTime, duplicate, unsorted);
    var open := GapHolds(p, s, n, previous, sameTime, duplicate, unsorted);
  }

  ghost predicate SameColumns(r: FeatureRow, r': FeatureRow) {
    r' == r.(flags := r'.flags, benchmarks := r'.benchmarks)
  }

  lemma LevelsIgnore(p: Settings, s: seq<NBar>, n: nat, r: FeatureRow, r': FeatureRow)
    requires n < |s| && SameColumns(r, r')
    ensures ReturnsAt(p, s, n, r) ==> ReturnsAt(p, s, n, r')
    ensures LevelsAt(p, s, n, r) ==> LevelsAt(p, s, n, r')
    ensures forall ranges :: RangesAt(p, s, n, r, ranges) ==> RangesAt(p, s, n, r', ranges)
  {
    hide Change, Average, Top, Bottom, OpeningOver, RangeIs;
  }

  lemma TrendsIgnore(p: Settings, s: seq<NBar>, n: nat, sameTime: seq<int>, r: FeatureRow, r': FeatureRow)
    requires n < |s| && SameColumns(r, r')
    ensures VolumesAt(p, s, n, sameTime, r) ==> VolumesAt(p, s, n, sameTime, r')
    ensures ChangesAt(s, n, r) ==> ChangesAt(s, n, r')
    ensures TrendAt(p, s, n, r) ==> TrendAt(p, s, n, r')
    ensures QualityAt(p, s, n, r) ==> QualityAt(p, s, n, r')
    ensures forall open :: GapAt(s, n, r.previousDay, r, open) ==> GapAt(s, n, r'.previousDay, r', open)
  {
    hide Change, Average, AgainstAverage, Filled, Moves, Slope, EmaAt, Steps, Volumes, Closes;
  }

  /** No column reads flags or benchmarks. */
  lemma ColumnsIgnore(p: Settings, s: seq<NBar>, n: nat, sameTime: seq<int>, r: FeatureRow, r': FeatureRow)
    requires n < |s| && Columns(p, s, n, sameTime, r) && SameColumns(r, r')
    ensures Columns(p, s, n, sameTime, r')
  {
    LevelsIgnore(p, s, n, r, r');
    TrendsIgnore(p, s, n, sameTime, r, r');
    hide ReturnsAt, LevelsAt, VwapAt, RangesAt, VolumesAt, ChangesAt, TrendAt, QualityAt, RegularOpen, GapAt;
  }
}
