/** Feature rows, stated over the bars seen so far: every accumulator as a direct function of the
    session prefix, and every row as a function of the series up to its bar. */
module FeatureRows {
  import opened Common
  import opened Sorting

  datatype NBar = NBar(symbol: string, interval: string, ts: Time, minuteEt: int, date: int, session: string,
                       open: real, high: real, low: real, close: real, volume: int, flags: set<string>)

  type Positive = n: nat | n > 0 witness 1

  datatype Settings = Settings(atrPeriod: Positive, window: Positive, openingMinutes: nat, lookback: Positive)

  datatype DayStats = DayStats(high: real, low: real, close: real)

  // ----- small functions

  function SafeDiv(n: real, d: real): Option<real> {
    if Abs(d) < 0.000000000001 then None else Some(n / d)
  }

  function PerMean(n: real, xs: seq<real>): Option<real> {
    if xs == [] then None else SafeDiv(n, Mean(xs))
  }

  function TrueRange(bar: NBar, previousClose: Option<real>): real {
    match previousClose
    case None => Max(bar.high - bar.low, 0.0)
    case Some(c) => Max(Max(bar.high - bar.low, Abs(bar.high - c)), Abs(bar.low - c))
  }

  function RollingReturn(close: real, closes: seq<real>, lookback: Positive): Option<real> {
    if |closes| < lookback then None
    else SafeDiv(close - closes[|closes| - lookback], closes[|closes| - lookback])
  }

  function HighestOf(bars: seq<NBar>): Option<real> {
    if bars == [] then None else Some(Highest(Map(bars, High())))
  }

  function LowestOf(bars: seq<NBar>): Option<real> {
    if bars == [] then None else Some(Lowest(Map(bars, Low())))
  }

  function High(): NBar -> real { (b: NBar) => b.high }

  function Low(): NBar -> real { (b: NBar) => b.low }

  function Close(): NBar -> real { (b: NBar) => b.close }

  function Volume(): NBar -> int { (b: NBar) => b.volume }

  function AsReal(): int -> real { (v: int) => v as real }

  function Traded(): NBar -> real { (b: NBar) => IntMax(b.volume, 0) as real }

  function TypicalTimesVolume(): NBar -> real {
    (b: NBar) => (b.high + b.low + b.close) / 3.0 * (IntMax(b.volume, 0) as real)
  }

  function InSession(name: string): NBar -> bool { (b: NBar) => b.session == name }

  function InOpeningRange(p: Settings): NBar -> bool {
    (b: NBar) => RTH_START_MINUTE <= b.minuteEt < RTH_START_MINUTE + p.openingMinutes
  }

  function TrueRanges(bars: seq<NBar>): seq<real> {
    seq(|bars|, i requires 0 <= i < |bars| => TrueRange(bars[i], if i == 0 then None else Some(bars[i - 1].close)))
  }

  function VolumeChange(before: NBar, bar: NBar): real {
    (bar.volume - before.volume) as real
  }

  function VolumeChanges(bars: seq<NBar>): seq<real> {
    if |bars| <= 1 then [] else seq(|bars| - 1, i requires 0 <= i < |bars| - 1 => VolumeChange(bars[i], bars[i + 1]))
  }

  /** Nine-period exponential average of the closes, seeded with the first. */
  function Ema(bars: seq<NBar>): real
    requires bars != []
  {
    if |bars| == 1 then bars[0].close else Smooth(Ema(bars[..|bars| - 1]), Last(bars).close)
  }

  function Smooth(average: real, close: real): real {
    var alpha := 2.0 / (9.0 + 1.0);
    alpha * close + (1.0 - alpha) * average
  }

  // ----- what the loop has accumulated when it writes the row of a bar

  datatype Accumulated = Accumulated(
    closes: seq<real>, highs: seq<real>, lows: seq<real>, volumes: seq<int>,
    trueRanges: seq<real>, volumeChanges: seq<real>, pv: real, traded: real, dayHigh: real, dayLow: real,
    premarketHigh: Option<real>, premarketLow: Option<real>, openingHigh: Option<real>, openingLow: Option<real>,
    rthOpen: Option<real>, ema: real, emaBefore: Option<real>, firstClose: real, index: nat)

  /** The direct recomputation from a non-empty session prefix: windows are last elements, sums are
      sums, extremes are extremes. */
  function Observe(p: Settings, prefix: seq<NBar>): Accumulated
    requires prefix != []
  {
    var before := prefix[..|prefix| - 1];
    var rth := Filter(prefix, InSession("rth"));
    Accumulated(
      LastN(Map(before, Close()), p.window), LastN(Map(before, High()), p.window),
      LastN(Map(before, Low()), p.window), LastN(Map(before, Volume()), p.window),
      LastN(TrueRanges(prefix), p.atrPeriod), LastN(VolumeChanges(prefix), 5),
      Sum(Map(prefix, TypicalTimesVolume())), Sum(Map(prefix, Traded())),
      Highest(Map(prefix, High())), Lowest(Map(prefix, Low())),
      HighestOf(Filter(prefix, InSession("premarket"))), LowestOf(Filter(prefix, InSession("premarket"))),
      HighestOf(Filter(prefix, InOpeningRange(p))), LowestOf(Filter(prefix, InOpeningRange(p))),
      if rth == [] then None else Some(rth[0].open),
      Ema(prefix), if before == [] then None else Some(Ema(before)), prefix[0].close, |before|)
  }

  // ----- rows

  datatype Benchmarks =
    | Unattached
    | Benchmarks(spy: Option<real>, qqq: Option<real>, vsSpy: Option<real>, vsQqq: Option<real>,
                 leadership: Option<real>)

  datatype FeatureRow = FeatureRow(
    symbol: string, interval: string, ts: Time, date: int, index: nat, flags: set<string>,
    close: real, previousClose: Option<real>, return1: Option<real>, return5: Option<real>, return20: Option<real>,
    rollingHigh: real, rollingLow: real, vwap: real, trueRange: real, atr: Option<real>, atrProxy: real,
    dayHigh: real, dayLow: real, previousDay: Option<DayStats>,
    premarketHigh: Option<real>, premarketLow: Option<real>, openingHigh: Option<real>, openingLow: Option<real>,
    gap: Option<real>, gapFill: Option<real>, gapHold: Option<bool>,
    relativeVolume: Option<real>, sameTimeVolume: Option<real>,
    volumeChange: Option<real>, volumeAcceleration: Option<real>,
    ema: real, emaSlope: Option<real>, slope20: Option<real>, trendQuality: Option<real>,
    sessionReturn: real, benchmarks: Benchmarks)

  function Vwap(a: Accumulated, bar: NBar): real {
    Or(SafeDiv(a.pv, a.traded), Some(bar.close)).value
  }

  /** Least-squares slope over equally spaced values. */
  function Slope(ys: seq<real>): Option<real> {
    if |ys| < 2 then None
    else
      var mid := (|ys| - 1) as real / 2.0;
      SafeDiv(Sum(seq(|ys|, i requires 0 <= i < |ys| => (i as real - mid) * (ys[i] - Mean(ys)))),
              Sum(seq(|ys|, i requires 0 <= i < |ys| => (i as real - mid) * (i as real - mid))))
  }

  function AbsReturns(closes: seq<real>): seq<real> {
    if |closes| < 2 then []
    else seq(|closes| - 1,
             i requires 0 <= i < |closes| - 1 => Abs(SafeDiv(closes[i + 1] - closes[i], closes[i]).GetOr(0.0)))
  }

  /** How far the bar has filled the opening gap, and whether the gap holds. */
  function GapFill(bar: NBar, rthOpen: Option<real>, previous: Option<DayStats>, gap: Option<real>)
    : (Option<real>, Option<bool>)
  {
    if rthOpen.None? || previous.None? || gap.None? then (None, None)
    else
      var open, close := rthOpen.value, previous.value.close;
      if gap.value > 0.001 then
        if open - close <= 0.0 then (None, None)
        else (Some(Min(Max((open - bar.low) / (open - close), 0.0), 1.0)), Some(bar.low > close))
      else if gap.value < -0.001 then
        if close - open <= 0.0 then (None, None)
        else (Some(Min(Max((bar.high - open) / (close - open), 0.0), 1.0)), Some(bar.high < close))
      else (Some(1.0), Some(true))
  }

  const UNSORTED := "input_not_sorted_by_symbol_interval_timestamp"

  /** Flags about the session's own history. */
  function HistoryFlags(p: Settings, a: Accumulated, relative: Option<real>, duplicate: bool): set<string> {
    (if duplicate then {"duplicate_timestamp"} else {})
    + (if |a.trueRanges| < p.atrPeriod then {"atr_insufficient_history"} else {})
    + (if a.closes == [] then {"atr_session_reset"} else {})
    + (if relative.None? then {"rolling_relative_volume_insufficient_history"} else {})
  }

  /** Flags about levels and volumes of other sessions or session parts. */
  function LevelFlags(p: Settings, a: Accumulated, bar: NBar, previous: Option<DayStats>,
                      sameTime: Option<real>): set<string> {
    (if sameTime.None? then {"same_time_rvol_insufficient_history"} else {})
    + (if previous.None? then {"previous_day_levels_unavailable"} else {})
    + (if a.premarketHigh.None? then {"premarket_levels_unavailable"} else {})
    + (if OpeningComplete(p, a, bar) then {} else {"opening_range_incomplete"})
  }

  /** Flags the row earns by itself. */
  function OwnFlags(p: Settings, a: Accumulated, bar: NBar, previous: Option<DayStats>, relative: Option<real>,
                    sameTime: Option<real>, duplicate: bool): set<string> {
    HistoryFlags(p, a, relative, duplicate) + LevelFlags(p, a, bar, previous, sameTime)
  }

  function RowFlags(p: Settings, a: Accumulated, bar: NBar, previous: Option<DayStats>, relative: Option<real>,
                    sameTime: Option<real>, duplicate: bool, unsorted: bool): set<string> {
    bar.flags + (if unsorted then {UNSORTED} else {}) + OwnFlags(p, a, bar, previous, relative, sameTime, duplicate)
  }

  predicate OpeningComplete(p: Settings, a: Accumulated, bar: NBar) {
    bar.minuteEt >= RTH_START_MINUTE + p.openingMinutes && a.openingHigh.Some?
  }

  /** The row of a bar from what has been accumulated, the previous session and the volumes traded at
      the same minute of earlier sessions. */
  function Derive(p: Settings, a: Accumulated, bar: NBar, previous: Option<DayStats>, sameTimeVolumes: seq<int>,
                  duplicate: bool, unsorted: bool): FeatureRow {
    var previousClose := if a.closes == [] then None else Some(Last(a.closes));
    var relative := PerMean(bar.volume as real, Map(a.volumes, AsReal()));
    var sameTime := PerMean(bar.volume as real, Map(sameTimeVolumes, AsReal()));
    var volumeChange := if a.volumes == [] then None else Some((bar.volume - Last(a.volumes)) as real);
    var complete := OpeningComplete(p, a, bar);
    var gap := if previous.None? then None
               else SafeDiv(Or(a.rthOpen, Some(bar.open)).value - previous.value.close, previous.value.close);
    var fill := GapFill(bar, a.rthOpen, previous, gap);
    var return5 := RollingReturn(bar.close, a.closes, 5);
    var regression := LastN(a.closes + [bar.close], 20);
    FeatureRow(
      bar.symbol, bar.interval, bar.ts, bar.date, a.index,
      RowFlags(p, a, bar, previous, relative, sameTime, duplicate, unsorted),
      bar.close, previousClose,
      if previousClose.None? || previousClose.value == 0.0 then None
      else SafeDiv(bar.close - previousClose.value, previousClose.value),
      return5, RollingReturn(bar.close, a.closes, 20),
      Highest([bar.high] + a.highs), Lowest([bar.low] + a.lows), Vwap(a, bar),
      TrueRange(bar, previousClose),
      if |a.trueRanges| < p.atrPeriod || a.trueRanges == [] then None else Some(Mean(a.trueRanges)),
      if a.trueRanges == [] then 0.0 else Mean(a.trueRanges),
      a.dayHigh, a.dayLow, previous, a.premarketHigh, a.premarketLow,
      if complete then a.openingHigh else None, if complete then a.openingLow else None,
      gap, fill.0, fill.1, relative, sameTime, volumeChange,
      if volumeChange.Some? && |a.volumeChanges| > 1 then Some(volumeChange.value - Mean(a.volumeChanges)) else None,
      a.ema, if a.emaBefore.None? then None else SafeDiv(a.ema - a.emaBefore.value, a.emaBefore.value),
      Slope(regression), PerMean(Abs(return5.GetOr(0.0)), AbsReturns(a.closes)),
      if a.index == 0 then 0.0 else SafeDiv(bar.close - a.firstClose, a.firstClose).GetOr(0.0),
      Unattached)
  }

  // ----- a series up to a bar

  type Series = (string, string)

  function SeriesOf(b: NBar): Series { (b.symbol, b.interval) }

  function InSeries(s: Series): NBar -> bool { (b: NBar) => SeriesOf(b) == s }

  function OnDate(date: int): NBar -> bool { (b: NBar) => b.date == date }

  function OffDate(date: int): NBar -> bool { (b: NBar) => b.date != date }

  function AtMinute(minute: int): NBar -> bool { (b: NBar) => b.minuteEt == minute }

  function StatsOf(bars: seq<NBar>): DayStats
    requires bars != []
  {
    DayStats(Highest(Map(bars, High())), Lowest(Map(bars, Low())), Last(bars).close)
  }

  /** Levels of the latest session among earlier bars of a series. */
  function PreviousDay(earlier: seq<NBar>): Option<DayStats> {
    if earlier == [] then None
    else
      assert Last(earlier) in Filter(earlier, OnDate(Last(earlier).date));
      Some(StatsOf(Filter(earlier, OnDate(Last(earlier).date))))
  }

  /** The last volumes traded at one minute of the day in earlier sessions. */
  function SameTimeVolumes(p: Settings, earlier: seq<NBar>, minute: int): seq<int> {
    LastN(Map(Filter(earlier, AtMinute(minute)), Volume()), p.lookback)
  }

  /** The row of the last bar of a series history. */
  function RowOf(p: Settings, history: seq<NBar>, duplicate: bool, unsorted: bool): FeatureRow
    requires history != []
  {
    var bar := Last(history);
    var earlier := Filter(history, OffDate(bar.date));
    assert bar in Filter(history, OnDate(bar.date));
    Derive(p, Observe(p, Filter(history, OnDate(bar.date))), bar, PreviousDay(earlier),
           SameTimeVolumes(p, earlier, bar.minuteEt), duplicate, unsorted)
  }

  // ----- the whole input

  datatype BarKey = BarKey(symbol: string, interval: string, at: int)

  predicate KeyLe(a: BarKey, b: BarKey) {
    if a.symbol != b.symbol then StringLe(a.symbol, b.symbol)
    else if a.interval != b.interval then StringLe(a.interval, b.interval)
    else a.at <= b.at
  }

  function KeyOrder(): (BarKey, BarKey) -> bool { (a, b) => KeyLe(a, b) }

  lemma KeyOrderTotal()
    ensures TotalOrder(KeyOrder())
  {
    forall a: BarKey, b: BarKey, c: BarKey
      ensures KeyLe(a, b) || KeyLe(b, a)
      ensures KeyLe(a, b) && KeyLe(b, a) ==> a == b
      ensures KeyLe(a, b) && KeyLe(b, c) ==> KeyLe(a, c)
    {
      StringLeLaws(a.symbol, b.symbol, c.symbol);
      StringLeLaws(a.interval, b.interval, c.interval);
    }
  }

  function TimeKey(): NBar -> BarKey { (b: NBar) => BarKey(b.symbol, b.interval, b.ts) }

  function SessionKey(): NBar -> BarKey { (b: NBar) => BarKey(b.symbol, b.interval, b.date) }

  function RowKey(): FeatureRow -> BarKey { (r: FeatureRow) => BarKey(r.symbol, r.interval, r.ts) }

  function InOrder(bars: seq<NBar>): seq<NBar> { SortBy(bars, TimeKey(), KeyOrder()) }

  /** The order in which sessions, and bars inside them, are processed. */
  function Processed(bars: seq<NBar>): seq<NBar> { SortBy(InOrder(bars), SessionKey(), KeyOrder()) }

  function Stamped(key: BarKey): NBar -> bool { (b: NBar) => TimeKey()(b) == key }

  predicate Duplicated(bars: seq<NBar>, key: BarKey) { |Filter(bars, Stamped(key))| > 1 }

  predicate Unsorted(bars: seq<NBar>) { Map(bars, TimeKey()) != Map(InOrder(bars), TimeKey()) }

  /** Rows in processing order: each from its own series up to its own bar. */
  function RawRows(p: Settings, done: seq<NBar>, all: seq<NBar>, unsorted: bool): (rows: seq<FeatureRow>)
    ensures |rows| == |done|
  {
    if done == [] then []
    else
      var bar := Last(done);
      assert bar in Filter(done, InSeries(SeriesOf(bar)));
      RawRows(p, done[..|done| - 1], all, unsorted)
      + [RowOf(p, Filter(done, InSeries(SeriesOf(bar))), Duplicated(all, TimeKey()(bar)), unsorted)]
  }

  lemma RawRowsSnoc(p: Settings, done: seq<NBar>, bar: NBar, all: seq<NBar>, unsorted: bool)
    ensures Filter(done + [bar], InSeries(SeriesOf(bar))) != []
    ensures RawRows(p, done + [bar], all, unsorted)
         == RawRows(p, done, all, unsorted)
            + [RowOf(p, Filter(done + [bar], InSeries(SeriesOf(bar))), Duplicated(all, TimeKey()(bar)), unsorted)]
  {
    hide Filter, RowOf, Duplicated;
    var upTo := done + [bar];
    assert upTo[..|upTo| - 1] == done && Last(upTo) == bar;
    assert bar in upTo && InSeries(SeriesOf(bar))(bar);
    assert bar in Filter(upTo, InSeries(SeriesOf(bar)));
  }

  // ----- relative strength

  datatype Moment = Moment(interval: string, date: int, ts: Time)

  function MomentOf(r: FeatureRow): Moment { Moment(r.interval, r.date, r.ts) }

  function AtMoment(m: Moment): FeatureRow -> bool { (r: FeatureRow) => MomentOf(r) == m }

  /** A dictionary from symbol to return, with its insertion order. */
  datatype Board = Board(symbols: seq<string>, values: map<string, real>)

  function Post(board: Board, symbol: string, value: real): Board {
    Board(if symbol in board.values then board.symbols else board.symbols + [symbol], board.values[symbol := value])
  }

  function BoardOf(rows: seq<FeatureRow>): Board {
    if rows == [] then Board([], map[])
    else Post(BoardOf(rows[..|rows| - 1]), Last(rows).symbol, Last(rows).sessionReturn)
  }

  function Quote(board: Board, symbol: string): Option<real> {
    if symbol in board.values then Some(board.values[symbol]) else None
  }

  function Other(symbol: string): string -> bool { s => s != symbol }

  function ValueIn(board: Board): string -> real { s => if s in board.values then board.values[s] else 0.0 }

  function RealLe(): (real, real) -> bool { (a, b) => a <= b }

  function Same(): real -> real { x => x }

  function UpperMedian(board: Board, symbol: string): Option<real> {
    var proxies := SortBy(Map(Filter(board.symbols, Other(symbol)), ValueIn(board)), Same(), RealLe());
    if proxies == [] then None else Some(proxies[|proxies| / 2])
  }

  function Benchmark(board: Board, symbol: string, index: string): Option<real> {
    if symbol != index then Quote(board, index)
    else if Quote(board, "IWM").Some? then Quote(board, "IWM") else UpperMedian(board, symbol)
  }

  function Minus(a: real, b: Option<real>): Option<real> {
    if b.None? then None else Some(a - b.value)
  }

  function MeanOfKnown(a: Option<real>, b: Option<real>): Option<real> {
    if a.Some? && b.Some? then Some((a.value + b.value) / 2.0) else if a.Some? then a else b
  }

  function Attach(r: FeatureRow, board: Board): FeatureRow {
    var spy, qqq := Benchmark(board, r.symbol, "SPY"), Benchmark(board, r.symbol, "QQQ");
    var vsSpy, vsQqq := Minus(r.sessionReturn, spy), Minus(r.sessionReturn, qqq);
    r.(benchmarks := Benchmarks(spy, qqq, vsSpy, vsQqq, MeanOfKnown(vsSpy, vsQqq)),
       flags := r.flags + (if spy.None? then {"relative_strength_spy_unavailable"} else {})
                        + (if qqq.None? then {"relative_strength_qqq_unavailable"} else {}))
  }

  function AttachIn(rows: seq<FeatureRow>): FeatureRow -> FeatureRow {
    (r: FeatureRow) => Attach(r, BoardOf(Filter(rows, AtMoment(MomentOf(r)))))
  }

  function Attached(rows: seq<FeatureRow>): seq<FeatureRow> { Map(rows, AttachIn(rows)) }

  /** The feature table of an input. */
  function Build(p: Settings, bars: seq<NBar>): seq<FeatureRow> {
    Attached(SortBy(RawRows(p, Processed(bars), bars, Unsorted(bars)), RowKey(), KeyOrder()))
  }
}
