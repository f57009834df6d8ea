/** What the columns of a row mean: averages stay among what they average, ranges and slopes agree
    with their textbook definitions. */
module FeatureBounds {
  import opened Common
  import opened FeatureRows

  // ----- averages stay among what they average

  /** At every bar the exponential average lies between the lowest and the highest close so far. */
  lemma {:induction false} EmaStaysWithinCloses(prefix: seq<NBar>)
    requires prefix != []
    ensures Lowest(Map(prefix, Close())) <= Ema(prefix) <= Highest(Map(prefix, Close()))
  {
    if |prefix| > 1 {
      var before := prefix[..|prefix| - 1];
      assert prefix == before + [Last(prefix)];
      MapSnoc(before, Last(prefix), Close());
      EmaStaysWithinCloses(before);
      BetweenSmooths(Ema(before), Last(prefix).close);
      assert Map(prefix, Close())[..|prefix| - 1] == Map(before, Close());
    }
  }

  lemma BetweenSmooths(average: real, close: real)
    ensures Min(average, close) <= Smooth(average, close) <= Max(average, close)
  {
  }

  predicate BarWithin(b: NBar, lo: real, hi: real) { lo <= b.low <= b.close <= b.high <= hi }

  lemma {:induction false} TradedValueWithin(bars: seq<NBar>, lo: real, hi: real)
    requires forall b :: b in bars ==> BarWithin(b, lo, hi)
    ensures 0.0 <= Sum(Map(bars, Traded()))
    ensures lo * Sum(Map(bars, Traded())) <= Sum(Map(bars, TypicalTimesVolume())) <= hi * Sum(Map(bars, Traded()))
  {
    if bars != [] {
      var b, rest := bars[0], bars[1..];
      TradedValueWithin(rest, lo, hi);
      SumHead(bars, Traded());
      SumHead(bars, TypicalTimesVolume());
      assert BarWithin(b, lo, hi);
      TypicalWithin(b, lo, hi);
      hide *;
      Distribute(lo, Traded()(b), Sum(Map(rest, Traded())));
      Distribute(hi, Traded()(b), Sum(Map(rest, Traded())));
    }
  }

  lemma SumHead(bars: seq<NBar>, f: NBar -> real)
    requires bars != []
    ensures Sum(Map(bars, f)) == f(bars[0]) + Sum(Map(bars[1..], f))
  {
    assert Map(bars, f)[1..] == Map(bars[1..], f);
  }

  lemma TypicalWithin(b: NBar, lo: real, hi: real)
    requires BarWithin(b, lo, hi)
    ensures 0.0 <= Traded()(b)
    ensures lo * Traded()(b) <= TypicalTimesVolume()(b) <= hi * Traded()(b)
  {
    var weight := IntMax(b.volume, 0) as real;
    ScaleUp(lo, (b.high + b.low + b.close) / 3.0, weight);
    ScaleUp((b.high + b.low + b.close) / 3.0, hi, weight);
  }

  lemma ScaleUp(x: real, y: real, weight: real)
    requires x <= y && 0.0 <= weight
    ensures x * weight <= y * weight
  {
  }

  lemma Distribute(x: real, y: real, z: real)
    ensures x * (y + z) == x * y + x * z
  {
  }

  lemma QuotientAbove(n: real, d: real, lo: real)
    requires 0.0 < d
    ensures lo * d <= n ==> lo <= n / d
    ensures n <= lo * d ==> n / d <= lo
  {
    var q := n / d;
    assert q * d == n;
    assert (lo - q) * d == lo * d - n;
  }

  lemma WithinDay(prefix: seq<NBar>, b: NBar)
    requires b in prefix && b.low <= b.close <= b.high
    ensures BarWithin(b, Lowest(Map(prefix, Low())), Highest(Map(prefix, High())))
  {
    HighestIsAbove(Map(prefix, High()));
    LowestIsBelow(Map(prefix, Low()));
    hide Highest, Lowest;
    var i :| 0 <= i < |prefix| && prefix[i] == b;
    assert Map(prefix, High())[i] in Map(prefix, High());
    assert Map(prefix, Low())[i] in Map(prefix, Low());
  }

  /** For well-formed bars the volume-weighted average of a session lies between the session's low
      and high at every bar, with or without volume. */
  lemma VwapStaysWithinDay(p: Settings, prefix: seq<NBar>)
    requires prefix != []
    requires forall b :: b in prefix ==> b.low <= b.close <= b.high
    ensures Observe(p, prefix).dayLow <= Vwap(Observe(p, prefix), Last(prefix)) <= Observe(p, prefix).dayHigh
  {
    hide Highest, Lowest, Sum, Filter, TrueRanges, VolumeChanges, Ema, HighestOf, LowestOf, LastN, BarWithin;
    var lo, hi := Lowest(Map(prefix, Low())), Highest(Map(prefix, High()));
    forall b | b in prefix
      ensures BarWithin(b, lo, hi)
    {
      WithinDay(prefix, b);
    }
    TradedValueWithin(prefix, lo, hi);
    WithinDay(prefix, Last(prefix));
    VwapBetween(Sum(Map(prefix, TypicalTimesVolume())), Sum(Map(prefix, Traded())), Last(prefix), lo, hi);
  }

  lemma VwapBetween(pv: real, traded: real, bar: NBar, lo: real, hi: real)
    requires 0.0 <= traded && lo * traded <= pv <= hi * traded && BarWithin(bar, lo, hi)
    ensures lo <= Or(SafeDiv(pv, traded), Some(bar.close)).value <= hi
  {
    if traded > 0.0 {
      QuotientAbove(pv, traded, lo);
      QuotientAbove(pv, traded, hi);
    }
  }

  // ----- levels

  /** The range of a bar stretched to its previous close. */
  lemma TrueRangeSpansTheGap(bar: NBar, close: real)
    requires bar.low <= bar.high
    ensures TrueRange(bar, Some(close)) == Max(bar.high, close) - Min(bar.low, close)
  {
  }

  /** The fill is a fraction, and beyond the flat band a gap holds exactly until it is all filled. */
  lemma GapHoldsUntilFilled(bar: NBar, open: Option<real>, previous: Option<DayStats>, gap: Option<real>)
    ensures var (fill, hold) := GapFill(bar, open, previous, gap);
            && (fill.Some? <==> hold.Some?)
            && (fill.Some? ==> 0.0 <= fill.value <= 1.0)
            && (fill.Some? && Abs(gap.value) > 0.001 ==> (hold.value <==> fill.value < 1.0))
  {
    if open.Some? && previous.Some? && gap.Some? {
      var o, c := open.value, previous.value.close;
      if gap.value > 0.001 && o - c > 0.0 {
        QuotientAbove(o - bar.low, o - c, 1.0);
      } else if gap.value < -0.001 && c - o > 0.0 {
        QuotientAbove(bar.high - o, c - o, 1.0);
      }
    }
  }

  lemma LastNMembers<T>(xs: seq<T>, n: nat)
    ensures forall x :: x in LastN(xs, n) ==> x in xs
  {
  }

  /** The rolling levels of a row lie inside the session's levels. */
  lemma RollingLevelsNest(p: Settings, prefix: seq<NBar>, previous: Option<DayStats>, volumes: seq<int>,
                          duplicate: bool, unsorted: bool)
    requires prefix != []
    ensures var r := Derive(p, Observe(p, prefix), Last(prefix), previous, volumes, duplicate, unsorted);
            r.dayLow <= r.rollingLow && r.rollingHigh <= r.dayHigh
  {
    hide RowFlags, GapFill, Slope, AbsReturns, Vwap, TrueRange, Ema, TrueRanges, VolumeChanges, RollingReturn, Filter,
      Sum;
    hide Highest, Lowest, LastN, PerMean, SafeDiv, HighestOf, LowestOf;
    RollingHighIsSeen(prefix, p.window);
    RollingLowIsSeen(prefix, p.window);
  }

  lemma RollingHighIsSeen(prefix: seq<NBar>, n: nat)
    requires prefix != []
    ensures Highest([Last(prefix).high] + LastN(Map(prefix[..|prefix| - 1], High()), n)) <= Highest(Map(prefix, High()))
  {
    var before := Map(prefix[..|prefix| - 1], High());
    var window := [Last(prefix).high] + LastN(before, n);
    hide Highest, LastN, Map;
    LastNMembers(before, n);
    assert prefix == prefix[..|prefix| - 1] + [Last(prefix)];
    MapSnoc(prefix[..|prefix| - 1], Last(prefix), High());
    HighestIsAbove(window);
    HighestIsAbove(Map(prefix, High()));
    assert Highest(window) in before + [Last(prefix).high];
  }

  lemma RollingLowIsSeen(prefix: seq<NBar>, n: nat)
    requires prefix != []
    ensures Lowest(Map(prefix, Low())) <= Lowest([Last(prefix).low] + LastN(Map(prefix[..|prefix| - 1], Low()), n))
  {
    var before := Map(prefix[..|prefix| - 1], Low());
    var window := [Last(prefix).low] + LastN(before, n);
    hide Lowest, LastN, Map;
    LastNMembers(before, n);
    assert prefix == prefix[..|prefix| - 1] + [Last(prefix)];
    MapSnoc(prefix[..|prefix| - 1], Last(prefix), Low());
    LowestIsBelow(window);
    LowestIsBelow(Map(prefix, Low()));
    assert Lowest(window) in before + [Last(prefix).low];
  }

  // ----- slope

  lemma {:induction false} SumNonNegative(xs: seq<real>)
    requires forall i :: 0 <= i < |xs| ==> xs[i] >= 0.0
    ensures Sum(xs) >= 0.0
  {
    if xs != [] {
      SumNonNegative(xs[1..]);
    }
  }

  function Squares(n: nat, mid: real): seq<real> {
    seq(n, i requires 0 <= i < n => (i as real - mid) * (i as real - mid))
  }

  lemma SquaresSpread(n: nat, mid: real)
    requires n >= 2 && mid == (n - 1) as real / 2.0
    ensures Sum(Squares(n, mid)) >= 0.25
  {
    var xs := Squares(n, mid);
    forall i | 0 <= i < n
      ensures xs[i] >= 0.0
    {
      SquareIsNonNegative(i as real - mid);
    }
    SumNonNegative(xs[1..]);
    HalfSquared(mid);
  }

  lemma SquareIsNonNegative(x: real)
    ensures x * x >= 0.0
  {
  }

  lemma HalfSquared(x: real)
    requires x >= 0.5
    ensures (0.0 - x) * (0.0 - x) >= 0.25
  {
  }

  function Products(ys: seq<real>, mid: real, mean: real): seq<real> {
    seq(|ys|, i requires 0 <= i < |ys| => (i as real - mid) * (ys[i] - mean))
  }

  lemma SlopeIs(ys: seq<real>, mid: real)
    requires |ys| >= 2 && mid == (|ys| - 1) as real / 2.0
    ensures Slope(ys) == SafeDiv(Sum(Products(ys, mid, Mean(ys))), Sum(Squares(|ys|, mid)))
  {
    hide Sum, Mean, SafeDiv;
    assert Products(ys, mid, Mean(ys)) == seq(|ys|, i requires 0 <= i < |ys| => (i as real - mid) * (ys[i] - Mean(ys)));
    assert Squares(|ys|, mid) == seq(|ys|, i requires 0 <= i < |ys| => (i as real - mid) * (i as real - mid));
  }

  function Middle(n: nat): real { (n - 1) as real / 2.0 }

  function Square(x: real): real { x * x }

  /** Squared miss at point `i` of the line with height `h` at `mid` and slope `b`. */
  function Miss(ys: seq<real>, mid: real, h: real, b: real, i: nat): real
    requires i < |ys|
  {
    Square(ys[i] - (h + b * (i as real - mid)))
  }

  /** Sum of squared misses over the first `n` points. */
  function Misfit(ys: seq<real>, mid: real, h: real, b: real, n: nat): real
    requires n <= |ys|
  {
    if n == 0 then 0.0 else Misfit(ys, mid, h, b, n - 1) + Miss(ys, mid, h, b, n - 1)
  }

  /** Partial sums over the first `n` points: deviations of the position and of the value, their
      product and the square of the first. */
  function Offsets(mid: real, n: nat): real {
    if n == 0 then 0.0 else Offsets(mid, n - 1) + ((n - 1) as real - mid)
  }

  function Deviations(ys: seq<real>, mean: real, n: nat): real
    requires n <= |ys|
  {
    if n == 0 then 0.0 else Deviations(ys, mean, n - 1) + (ys[n - 1] - mean)
  }

  function Cross(ys: seq<real>, mid: real, mean: real, i: nat): real
    requires i < |ys|
  {
    (i as real - mid) * (ys[i] - mean)
  }

  function Crossed(ys: seq<real>, mid: real, mean: real, n: nat): real
    requires n <= |ys|
  {
    if n == 0 then 0.0 else Crossed(ys, mid, mean, n - 1) + Cross(ys, mid, mean, n - 1)
  }

  function Spread(mid: real, n: nat): real {
    if n == 0 then 0.0 else Spread(mid, n - 1) + Square((n - 1) as real - mid)
  }

  /** A misfit difference as a combination of those sums, `k` the difference in height at `mid`. */
  function Combined(k: real, s: real, b: real, n: real, spread: real, crossed: real, deviations: real,
                    offsets: real): real {
    n * Square(k) + (Square(b) - Square(s)) * spread + 2.0 * (s - b) * crossed
    + 2.0 * k * deviations - 2.0 * k * b * offsets
  }

  lemma CombinedAdds(k: real, s: real, b: real, n: real, spread: real, crossed: real, deviations: real, offsets: real,
                     d2: real, de: real, e: real, d: real)
    ensures Combined(k, s, b, n + 1.0, spread + d2, crossed + de, deviations + e, offsets + d)
         == Combined(k, s, b, n, spread, crossed, deviations, offsets) + Combined(k, s, b, 1.0, d2, de, e, d)
  {
    hide Square;
    Distribute(Square(k), n, 1.0);
    Distribute(Square(b) - Square(s), spread, d2);
    Distribute(2.0 * (s - b), crossed, de);
    Distribute(2.0 * k, deviations, e);
    Distribute(2.0 * k * b, offsets, d);
  }

  lemma MissExcess(ys: seq<real>, mid: real, mean: real, s: real, h: real, b: real, i: nat)
    requires i < |ys|
    ensures Miss(ys, mid, h, b, i) - Miss(ys, mid, mean, s, i)
         == Combined(mean - h, s, b, 1.0, Square(i as real - mid), Cross(ys, mid, mean, i), ys[i] - mean,
                     i as real - mid)
  {
    var d, e := i as real - mid, ys[i] - mean;
    MissDifference(d, e, mean - h, s, b);
    hide Square;
    assert ys[i] - (h + b * d) == e + (mean - h) - b * d;
    assert ys[i] - (mean + s * d) == e - s * d;
  }

  /** How much a line misses by more than the line through the mean with slope `s`. */
  lemma {:induction false} MisfitDifference(ys: seq<real>, mid: real, mean: real, s: real, h: real, b: real, n: nat)
    requires n <= |ys|
    ensures Misfit(ys, mid, h, b, n) - Misfit(ys, mid, mean, s, n)
         == Combined(mean - h, s, b, n as real, Spread(mid, n), Crossed(ys, mid, mean, n), Deviations(ys, mean, n),
                     Offsets(mid, n))
  {
    if n > 0 {
      MisfitDifference(ys, mid, mean, s, h, b, n - 1);
      MissExcess(ys, mid, mean, s, h, b, n - 1);
      var d, e := (n - 1) as real - mid, ys[n - 1] - mean;
      hide Combined, Miss, Square, Cross;
      CombinedAdds(mean - h, s, b, (n - 1) as real, Spread(mid, n - 1), Crossed(ys, mid, mean, n - 1),
                   Deviations(ys, mean, n - 1), Offsets(mid, n - 1), Square(d), Cross(ys, mid, mean, n - 1), e, d);
    }
  }

  lemma MissDifference(d: real, e: real, k: real, s: real, b: real)
    ensures Square(e + k - b * d) - Square(e - s * d)
         == Square(k) + (Square(b) - Square(s)) * Square(d) + 2.0 * (s - b) * (d * e) + 2.0 * k * e - 2.0 * k * b * d
  {
  }

  lemma {:induction false} OffsetsCancel(mid: real, n: nat)
    ensures Offsets(mid, n) == n as real * ((n as real - 1.0) / 2.0 - mid)
  {
    if n > 0 {
      OffsetsCancel(mid, n - 1);
    }
  }

  lemma {:induction false} DeviationsSum(ys: seq<real>, mean: real, n: nat)
    requires n <= |ys|
    ensures Deviations(ys, mean, n) == Sum(ys[..n]) - n as real * mean
  {
    if n > 0 {
      DeviationsSum(ys, mean, n - 1);
      SumPrefix(ys, n - 1);
    }
  }

  lemma ProductIs(ys: seq<real>, mid: real, mean: real, i: nat)
    requires i < |ys|
    ensures Products(ys, mid, mean)[i] == Cross(ys, mid, mean, i)
  {
  }

  lemma {:induction false} CrossedSum(ys: seq<real>, mid: real, mean: real, n: nat)
    requires n <= |ys|
    ensures Crossed(ys, mid, mean, n) == Sum(Products(ys, mid, mean)[..n])
  {
    assert |Products(ys, mid, mean)| == |ys|;
    hide Products, Cross;
    if n > 0 {
      CrossedSum(ys, mid, mean, n - 1);
      ProductIs(ys, mid, mean, n - 1);
      SumPrefix(Products(ys, mid, mean), n - 1);
    }
  }

  lemma {:induction false} SpreadSum(mid: real, m: nat, n: nat)
    requires n <= m
    ensures Spread(mid, n) == Sum(Squares(m, mid)[..n])
  {
    if n > 0 {
      SpreadSum(mid, m, n - 1);
      SumPrefix(Squares(m, mid), n - 1);
    }
  }

  /** Misfit of a line over the whole series. */
  function LineMisfit(ys: seq<real>, h: real, b: real): real {
    Misfit(ys, Middle(|ys|), h, b, |ys|)
  }

  lemma OffsetsAreZero(n: nat)
    ensures Offsets(Middle(n), n) == 0.0
  {
    OffsetsCancel(Middle(n), n);
  }

  lemma DeviationsAreZero(ys: seq<real>)
    requires ys != []
    ensures Deviations(ys, Mean(ys), |ys|) == 0.0
  {
    DeviationsSum(ys, Mean(ys), |ys|);
    assert ys[..|ys|] == ys;
    hide Sum, Deviations;
    assert |ys| as real * (Sum(ys) / |ys| as real) == Sum(ys);
  }

  lemma WholeSums(ys: seq<real>, mid: real, mean: real)
    ensures Crossed(ys, mid, mean, |ys|) == Sum(Products(ys, mid, mean))
    ensures Spread(mid, |ys|) == Sum(Squares(|ys|, mid))
  {
    var n, xs, zs := |ys|, Products(ys, mid, mean), Squares(|ys|, mid);
    CrossedSum(ys, mid, mean, n);
    SpreadSum(mid, n, n);
    assert |xs| == n && |zs| == n;
    hide *;
    assert xs[..n] == xs && zs[..n] == zs;
  }

  /** The normal equation of the slope. */
  lemma SlopeBalances(ys: seq<real>)
    requires |ys| >= 2
    ensures Sum(Squares(|ys|, Middle(|ys|))) >= 0.25 && Slope(ys).Some?
    ensures Sum(Products(ys, Middle(|ys|), Mean(ys))) == Slope(ys).value * Sum(Squares(|ys|, Middle(|ys|)))
  {
    var mid := Middle(|ys|);
    SlopeIs(ys, mid);
    SquaresSpread(|ys|, mid);
    hide Sum, Mean, Slope, Products, Squares;
    Quotient(Sum(Products(ys, mid, Mean(ys))), Sum(Squares(|ys|, mid)));
  }

  lemma Quotient(n: real, d: real)
    requires d >= 0.25
    ensures SafeDiv(n, d) == Some(n / d) && n / d * d == n
  {
  }

  /** With the slope that makes spread times slope the crossed sum, what remains is two squares. */
  lemma TwoSquares(k: real, s: real, b: real, n: real, spread: real, crossed: real)
    requires crossed == s * spread
    ensures Combined(k, s, b, n, spread, crossed, 0.0, 0.0) == n * Square(k) + spread * Square(s - b)
  {
    var x := 2.0 * (s - b);
    assert x * (s * spread) == (x * s) * spread;
    assert Square(b) - Square(s) + x * s == Square(s - b);
    Distribute(spread, Square(b) - Square(s), x * s);
  }

  /** The regression slope is defined for two or more values, and the line with that slope through the
      mean fits the series best: every other line has a strictly larger sum of squared misses. */
  lemma SlopeFitsBest(ys: seq<real>, h: real, b: real)
    requires |ys| >= 2
    ensures Slope(ys).Some?
    ensures LineMisfit(ys, Mean(ys), Slope(ys).value) <= LineMisfit(ys, h, b)
    ensures LineMisfit(ys, Mean(ys), Slope(ys).value) == LineMisfit(ys, h, b) ==> h == Mean(ys) && b == Slope(ys).value
  {
    hide *;
    var mid := Middle(|ys|);
    OffsetsAreZero(|ys|);
    DeviationsAreZero(ys);
    WholeSums(ys, mid, Mean(ys));
    SlopeBalances(ys);
    BestLine(ys, mid, Mean(ys), Slope(ys).value, h, b, Sum(Squares(|ys|, mid)), Sum(Products(ys, mid, Mean(ys))));
  }

  lemma BestLine(ys: seq<real>, mid: real, mean: real, s: real, h: real, b: real, spread: real, crossed: real)
    requires |ys| >= 2 && mid == Middle(|ys|) && crossed == s * spread && spread >= 0.25
    requires Offsets(mid, |ys|) == 0.0 && Deviations(ys, mean, |ys|) == 0.0
    requires Crossed(ys, mid, mean, |ys|) == crossed && Spread(mid, |ys|) == spread
    ensures LineMisfit(ys, mean, s) <= LineMisfit(ys, h, b)
    ensures LineMisfit(ys, mean, s) == LineMisfit(ys, h, b) ==> h == mean && b == s
  {
    hide Misfit, Combined, Crossed, Spread, Offsets, Deviations, Square, Middle;
    MisfitDifference(ys, mid, mean, s, h, b, |ys|);
    TwoSquares(mean - h, s, b, |ys| as real, spread, crossed);
    WeightedSquare(|ys| as real, mean - h);
    WeightedSquare(spread, s - b);
  }

  lemma WeightedSquare(w: real, x: real)
    requires w > 0.0
    ensures w * Square(x) >= 0.0 && (w * Square(x) == 0.0 ==> x == 0.0)
  {
    OnlyZeroSquaresToZero(x);
    hide Square;
    if Square(x) > 0.0 {
      PositiveProduct(w, Square(x));
    } else {
      assert w * 0.0 == 0.0;
    }
  }

  lemma OnlyZeroSquaresToZero(x: real)
    ensures Square(x) >= 0.0 && (Square(x) == 0.0 ==> x == 0.0)
  {
    SquareIsNonNegative(x);
    if x != 0.0 && Square(x) == 0.0 {
      DivideBack(x, x);
    }
  }

  lemma DivideBack(x: real, y: real)
    requires x != 0.0
    ensures x * y / x == y
  {
  }

  lemma PositiveProduct(x: real, y: real)
    requires x > 0.0 && y > 0.0
    ensures x * y > 0.0
  {
  }

  function Point(a: real, b: real, i: nat): real { a + b * i as real }

  function Line(a: real, b: real, n: nat): seq<real> {
    seq(n, i requires 0 <= i < n => Point(a, b, i))
  }

  lemma {:induction false} LineMissesNothing(a: real, b: real, m: nat, mid: real, n: nat)
    requires n <= m
    ensures Misfit(Line(a, b, m), mid, a + b * mid, b, n) == 0.0
  {
    if n > 0 {
      LineMissesNothing(a, b, m, mid, n - 1);
      OnTheLine(a, b, (n - 1) as real, mid);
      assert Line(a, b, m)[n - 1] == a + b * (n - 1) as real;
      assert Square(0.0) == 0.0;
    }
  }

  lemma OnTheLine(a: real, b: real, x: real, mid: real)
    ensures (a + b * x) - ((a + b * mid) + b * (x - mid)) == 0.0
  {
    Distribute(b, x, -mid);
  }

  lemma {:induction false} MisfitIsNonNegative(ys: seq<real>, mid: real, h: real, b: real, n: nat)
    requires n <= |ys|
    ensures Misfit(ys, mid, h, b, n) >= 0.0
  {
    if n > 0 {
      MisfitIsNonNegative(ys, mid, h, b, n - 1);
      SquareIsNonNegative(ys[n - 1] - (h + b * ((n - 1) as real - mid)));
      assert Miss(ys, mid, h, b, n - 1) >= 0.0;
    }
  }

  /** So on a line the regression slope is the slope of the line. */
  lemma SlopeOfALine(a: real, b: real, n: nat)
    requires n >= 2
    ensures Slope(Line(a, b, n)) == Some(b)
  {
    var ys, mid := Line(a, b, n), Middle(n);
    LineMissesNothing(a, b, n, mid, n);
    hide Misfit, Slope, Mean, Line;
    SlopeFitsBest(ys, a + b * mid, b);
    MisfitIsNonNegative(ys, mid, Mean(ys), Slope(ys).value, n);
  }
}
