/** Bars, candidate signals and the replay configuration. */
module Market {
  import opened Common

  datatype Side = LONG | SHORT | OTHER(name: string)

  /** An interval name with the minute count read off it. */
  datatype Interval = Interval(name: string, minutes: nat)

  /** `minuteEt` is the minute of the New York day of the bar's own Eastern timestamp. */
  datatype Bar = Bar(symbol: string, interval: Interval, ts: Time, minuteEt: int,
                     open: real, high: real, low: real, close: real)

  predicate WellFormed(bar: Bar) {
    bar.low <= bar.open <= bar.high && bar.low <= bar.close <= bar.high
  }

  datatype Feature = Feature(symbol: string, interval: Interval, ts: Time,
                             marketRegime: Option<string>, timeBucket: Option<string>,
                             atr14: Option<real>, atr14Proxy: Option<real>, insufficientFlags: nat)

  /** The candidate's fields that replay reads; the last eight are its two context dictionaries. */
  datatype Candidate = Candidate(
    id: string, symbol: string, interval: Interval, ts: Time, minuteEt: int, side: Side, setup: string,
    confidenceScore: Option<real>, signalScore: Option<real>, expectedR: Option<real>,
    stopPrice: Option<real>, target1: Option<real>, target2: Option<real>, target3: Option<real>,
    marketRegime: Option<string>, timeBucket: Option<string>,
    openingRangeLow: Option<real>, premarketLow: Option<real>, previousDayLow: Option<real>,
    openingRangeHigh: Option<real>, premarketHigh: Option<real>, previousDayHigh: Option<real>,
    vwap: Option<real>, contextAtr14: Option<real>)

  datatype Purpose = Portfolio | Counterfactual

  datatype ReplayConfig = ReplayConfig(
    purpose: Purpose,
    symbols: set<string>, intervals: set<Interval>, setups: set<string>, sides: set<Side>,
    start: Option<Time>, end: Option<Time>, session: string,
    maxHoldMinutes: int, stopMode: string, targetMode: string,
    target1R: real, target2R: real, target3R: real,
    sameBarPolicy: string, intrabarPolicy: string,
    slippageBps: real, spreadBps: real, commissionPerShare: real,
    minimumRewardRisk: real, minimumConfidence: Option<real>,
    allowOverlapping: bool, enforcePortfolio: bool, enforceOverlap: bool,
    maxOpenPerSymbol: int, maxOpenPortfolio: int,
    cooldownAfterLoss: int, cooldownAfterTrade: int,
    oneTradePerSetup: bool, noTradeOnInsufficientContext: bool,
    regimeFilter: set<string>, bucketFilter: set<string>, closeAtSessionEnd: bool)

  datatype SkipReason =
    | MissingEntryBar | OutsideSession | InvalidRiskPlan | InsufficientRewardRisk
    | OverlappingTrade | PortfolioTradeLimit | CooldownActive | InsufficientContext
    | RegimeFilterBlock | DuplicateCandidate | NoFutureBars | DataQualityBlock

  function BarTime(): Bar -> Time {
    (bar: Bar) => bar.ts
  }

  predicate InTimeOrder(bars: seq<Bar>) {
    forall i, j :: 0 <= i < j < |bars| ==> bars[i].ts <= bars[j].ts
  }
}
