/** Candidate market replay: candidates in priority order, admission control over open trades,
    and the bookkeeping the engine prunes and overwrites as it goes. */
module Replay {
  import opened Common
  import opened Sorting
  import opened Market
  import opened Simulation
  import opened ExitRules

  // ----- selection and order

  function Confidence(c: Candidate): Option<real> {
    Or(c.confidenceScore, c.signalScore)
  }

  function Selectable(cfg: ReplayConfig): Candidate -> bool {
    (c: Candidate) =>
      && (cfg.symbols == {} || c.symbol in cfg.symbols)
      && (cfg.intervals == {} || c.interval in cfg.intervals)
      && (cfg.setups == {} || c.setup in cfg.setups)
      && (cfg.sides == {} || c.side in cfg.sides)
      && (cfg.start.Some? ==> cfg.start.value <= c.ts)
      && (cfg.end.Some? ==> c.ts <= cfg.end.value)
  }

  /** The sort key: earliest first, then the most confident, the best expected R, symbol and setup. */
  datatype Priority = Priority(ts: Time, lessConfidence: real, lessExpected: real, symbol: string, setup: string)

  function PriorityOf(): Candidate -> Priority {
    (c: Candidate) => Priority(c.ts, -Confidence(c).GetOr(0.0), -c.expectedR.GetOr(0.0), c.symbol, c.setup)
  }

  predicate PriorityLe(a: Priority, b: Priority) {
    if a.ts != b.ts then a.ts < b.ts
    else if a.lessConfidence != b.lessConfidence then a.lessConfidence < b.lessConfidence
    else if a.lessExpected != b.lessExpected then a.lessExpected < b.lessExpected
    else if a.symbol != b.symbol then StringLe(a.symbol, b.symbol)
    else StringLe(a.setup, b.setup)
  }

  function PriorityOrder(): (Priority, Priority) -> bool {
    (a, b) => PriorityLe(a, b)
  }

  function Selected(candidates: seq<Candidate>, cfg: ReplayConfig): seq<Candidate> {
    SortBy(Filter(candidates, Selectable(cfg)), PriorityOf(), PriorityOrder())
  }

  predicate InSignalOrder(cs: seq<Candidate>) {
    forall i, j :: 0 <= i < j < |cs| ==> cs[i].ts <= cs[j].ts
  }

  // ----- market data as the engine looks it up

  type SeriesKey = (string, Interval)

  datatype Tape = Tape(bars: seq<Bar>, features: seq<Feature>)

  function OfSeries(key: SeriesKey): Bar -> bool {
    (bar: Bar) => (bar.symbol, bar.interval) == key
  }

  function SeriesBars(bars: seq<Bar>, key: SeriesKey): seq<Bar> {
    SortBy(Filter(bars, OfSeries(key)), BarTime(), IntLe())
  }

  /** The last feature row filed under the candidate's symbol, interval and timestamp. */
  function FeatureAt(features: seq<Feature>, c: Candidate): Option<Feature> {
    if features == [] then None
    else if Last(features).symbol == c.symbol && Last(features).interval == c.interval && Last(features).ts == c.ts
    then Some(Last(features))
    else FeatureAt(features[..|features| - 1], c)
  }

  function FirstText(a: Option<string>, b: Option<string>): string {
    if a.Some? && a.value != "" then a.value else if b.Some? && b.value != "" then b.value else "unknown"
  }

  function RegimeOf(c: Candidate, f: Option<Feature>): string {
    FirstText(c.marketRegime, if f.Some? then f.value.marketRegime else None)
  }

  function BucketOf(c: Candidate, f: Option<Feature>): string {
    FirstText(c.timeBucket, if f.Some? then f.value.timeBucket else None)
  }

  // ----- rows

  /** One row per selected candidate; `blocked` is the portfolio-blocked flag of its metadata. */
  datatype Row = Row(c: Candidate, outcome: Outcome, regime: string, bucket: string, blocked: Option<bool>)

  datatype Decision = Decision(candidateId: string, taken: bool, skipReason: Option<SkipReason>, entry: Option<Time>)

  function DecisionOf(): Row -> Decision {
    (r: Row) =>
      match r.outcome
      case Skipped(reason) => Decision(r.c.id, false, Some(reason), None)
      case Taken(fill) => Decision(r.c.id, true, None, Some(fill.entryTs))
  }

  type DuplicateKey = (string, Interval, Time, Side, string)

  function KeyOf(c: Candidate): DuplicateKey {
    (c.symbol, c.interval, c.ts, c.side, c.setup)
  }

  // ----- admission, stated over the whole history of earlier rows

  /** Blocks that look at the candidate alone. */
  function StaticBlock(c: Candidate, cfg: ReplayConfig, regime: string, bucket: string): Option<SkipReason> {
    if c.side != LONG && c.side != SHORT then Some(DataQualityBlock)
    else if cfg.session == "rth" && !(RTH_START_MINUTE <= c.minuteEt < RTH_END_MINUTE) then Some(OutsideSession)
    else if cfg.regimeFilter != {} && regime !in cfg.regimeFilter then Some(RegimeFilterBlock)
    else if cfg.bucketFilter != {} && bucket !in cfg.bucketFilter then Some(RegimeFilterBlock)
    else if cfg.minimumConfidence.Some? && Confidence(c).Some? && Confidence(c).value < cfg.minimumConfidence.value
    then Some(DataQualityBlock)
    else None
  }

  /** `scope` is one symbol, or the whole portfolio. */
  predicate InScope(c: Candidate, scope: Option<string>) {
    scope.None? || c.symbol == scope.value
  }

  function StillOpen(scope: Option<string>, t: Time): Row -> bool {
    (r: Row) => r.outcome.Taken? && InScope(r.c, scope) && r.outcome.fill.exitTs > t
  }

  function OpenCount(hist: seq<Row>, scope: Option<string>, t: Time): nat {
    |Filter(hist, StillOpen(scope, t))|
  }

  predicate SetupBusy(hist: seq<Row>, symbol: string, setup: string, t: Time) {
    exists r :: r in hist && r.outcome.Taken? && r.c.symbol == symbol && r.c.setup == setup
      && t <= r.outcome.fill.exitTs
  }

  function CooldownBars(fill: Fill, cfg: ReplayConfig): int {
    if fill.realizedR < 0.0 then cfg.cooldownAfterLoss else cfg.cooldownAfterTrade
  }

  function CooldownEnd(c: Candidate, fill: Fill, cfg: ReplayConfig): Time {
    fill.exitTs + c.interval.minutes * CooldownBars(fill, cfg) * MINUTE
  }

  predicate CoolingDown(hist: seq<Row>, symbol: string, t: Time, cfg: ReplayConfig) {
    exists r :: r in hist && r.outcome.Taken? && r.c.symbol == symbol
             && CooldownBars(r.outcome.fill, cfg) > 0 && t <= CooldownEnd(r.c, r.outcome.fill, cfg)
  }

  predicate SetupRule(cfg: ReplayConfig) {
    cfg.enforceOverlap && cfg.oneTradePerSetup
  }

  /** The earlier rows that occupy the portfolio: none when outcomes are only observed. */
  function Occupying(hist: seq<Row>, cfg: ReplayConfig): seq<Row> {
    if cfg.purpose == Counterfactual then [] else hist
  }

  function PortfolioBlock(c: Candidate, cfg: ReplayConfig, held: seq<Row>): Option<SkipReason> {
    if cfg.enforcePortfolio && CoolingDown(held, c.symbol, c.ts, cfg) then Some(CooldownActive)
    else if cfg.enforceOverlap && !cfg.allowOverlapping && OpenCount(held, Some(c.symbol), c.ts) >= cfg.maxOpenPerSymbol
    then Some(OverlappingTrade)
    else if cfg.enforcePortfolio && OpenCount(held, None, c.ts) >= cfg.maxOpenPortfolio then Some(PortfolioTradeLimit)
    else if SetupRule(cfg) && SetupBusy(held, c.symbol, c.setup, c.ts) then Some(OverlappingTrade)
    else None
  }

  function Preflight(c: Candidate, cfg: ReplayConfig, regime: string, bucket: string,
                     held: seq<Row>): Option<SkipReason> {
    if StaticBlock(c, cfg, regime, bucket).Some? then StaticBlock(c, cfg, regime, bucket)
    else PortfolioBlock(c, cfg, held)
  }

  predicate PortfolioReason(reason: SkipReason) {
    reason.OverlappingTrade? || reason.PortfolioTradeLimit? || reason.CooldownActive?
  }

  predicate Seen(rows: seq<Row>, k: DuplicateKey) {
    exists r :: r in rows && KeyOf(r.c) == k
  }

  /** The row of a candidate given all earlier rows. */
  function NextRow(hist: seq<Row>, c: Candidate, tape: Tape, cfg: ReplayConfig): Row {
    var f := FeatureAt(tape.features, c);
    var regime, bucket := RegimeOf(c, f), BucketOf(c, f);
    if Seen(hist, KeyOf(c)) then Row(c, Skipped(DuplicateCandidate), regime, bucket, Some(true))
    else
      match Preflight(c, cfg, regime, bucket, Occupying(hist, cfg))
      case Some(reason) => Row(c, Skipped(reason), regime, bucket, Some(PortfolioReason(reason)))
      case None => Row(c, Simulate(c, SeriesBars(tape.bars, (c.symbol, c.interval)), f, cfg), regime, bucket, None)
  }

  function RunRows(cs: seq<Candidate>, tape: Tape, cfg: ReplayConfig): (rows: seq<Row>)
    ensures |rows| == |cs|
    ensures forall i :: 0 <= i < |cs| ==> rows[i].c == cs[i]
  {
    if cs == [] then []
    else
      var hist := RunRows(cs[..|cs| - 1], tape, cfg);
      hist + [NextRow(hist, Last(cs), tape, cfg)]
  }

  // ----- the bookkeeping

  function After(t: Time): Time -> bool {
    (e: Time) => e > t
  }

  /** Exit times remaining after `t`. */
  function Remaining(exits: seq<Time>, t: Time): nat {
    |Filter(exits, After(t))|
  }

  lemma PruningIsInvisible(exits: seq<Time>, now: Time, t: Time)
    requires now <= t
    ensures Remaining(Filter(exits, After(now)), t) == Remaining(exits, t)
  {
    FilterTwice(exits, After(now), After(t));
  }

  lemma RemainingSnoc(exits: seq<Time>, e: Time, t: Time)
    ensures Remaining(exits + [e], t) == Remaining(exits, t) + if e > t then 1 else 0
  {
    FilterSnoc(exits, e, After(t));
  }

  lemma OpenCountSnoc(hist: seq<Row>, r: Row, scope: Option<string>, t: Time)
    ensures OpenCount(hist + [r], scope, t) == OpenCount(hist, scope, t) + if StillOpen(scope, t)(r) then 1 else 0
  {
    FilterSnoc(hist, r, StillOpen(scope, t));
  }

  /** The four mutable collections the engine threads through its loop. */
  class Book {
    var openBySymbol: map<string, seq<Time>>
    var openAll: seq<Time>
    var setupExit: map<(string, string), Time>
    var coolUntil: map<string, Time>

    ghost predicate OpenTracked(held: seq<Row>, now: Time)
      reads this
    {
      && (forall s, t :: now <= t ==> Remaining(OnSymbol(s), t) == OpenCount(held, Some(s), t))
      && (forall t :: now <= t ==> Remaining(openAll, t) == OpenCount(held, None, t))
    }

    ghost predicate SetupTracked(held: seq<Row>, cfg: ReplayConfig, now: Time)
      reads this
    {
      SetupRule(cfg) ==> forall s, u, t :: now <= t ==>
        (((s, u) in setupExit && t <= setupExit[(s, u)]) <==> SetupBusy(held, s, u, t))
    }

    ghost predicate CooldownTracked(held: seq<Row>, cfg: ReplayConfig, now: Time)
      reads this
    {
      cfg.enforcePortfolio ==> forall s, t :: now <= t ==>
        ((s in coolUntil && t <= coolUntil[s]) <==> CoolingDown(held, s, t, cfg))
    }

    /** From `now` on, the collections answer every question about the full history `held`. */
    ghost predicate Tracks(held: seq<Row>, cfg: ReplayConfig, now: Time)
      reads this
    {
      OpenTracked(held, now) && SetupTracked(held, cfg, now) && CooldownTracked(held, cfg, now)
    }

    function OnSymbol(s: string): seq<Time>
      reads this
    {
      if s in openBySymbol then openBySymbol[s] else []
    }

    constructor (cfg: ReplayConfig, ghost now: Time)
      ensures Tracks([], cfg, now)
    {
      openBySymbol, openAll, setupExit, coolUntil := map[], [], map[], map[];
    }

    /** The admission test; it prunes both open lists to the entries later than the signal. */
    method PreflightSkip(c: Candidate, cfg: ReplayConfig, regime: string, bucket: string, ghost held: seq<Row>,
                         ghost now: Time)
      returns (skip: Option<SkipReason>)
      requires Tracks(held, cfg, now) && now <= c.ts
      modifies this
      ensures skip == Preflight(c, cfg, regime, bucket, held)
      ensures Tracks(held, cfg, c.ts)
      ensures setupExit == old(setupExit) && coolUntil == old(coolUntil)
    {
      hide StaticBlock, OpenCount, CoolingDown, SetupBusy, Filter;
      skip := StaticBlock(c, cfg, regime, bucket);
      if skip.Some? {
        return;
      }
      if cfg.enforcePortfolio && c.symbol in coolUntil && c.ts <= coolUntil[c.symbol] {
        return Some(CooldownActive);
      }
      assert !(cfg.enforcePortfolio && CoolingDown(held, c.symbol, c.ts, cfg));
      forall t | c.ts <= t
        ensures Remaining(Filter(OnSymbol(c.symbol), After(c.ts)), t) == Remaining(OnSymbol(c.symbol), t)
        ensures Remaining(Filter(openAll, After(c.ts)), t) == Remaining(openAll, t)
      {
        PruningIsInvisible(OnSymbol(c.symbol), c.ts, t);
        PruningIsInvisible(openAll, c.ts, t);
      }
      var activeSymbol := Filter(OnSymbol(c.symbol), After(c.ts));
      openBySymbol := openBySymbol[c.symbol := activeSymbol];
      var activeAll := Filter(openAll, After(c.ts));
      openAll := activeAll;
      assert |activeSymbol| == OpenCount(held, Some(c.symbol), c.ts);
      assert |activeAll| == OpenCount(held, None, c.ts);
      if cfg.enforceOverlap && !cfg.allowOverlapping && |activeSymbol| >= cfg.maxOpenPerSymbol {
        return Some(OverlappingTrade);
      }
      if cfg.enforcePortfolio && |activeAll| >= cfg.maxOpenPortfolio {
        return Some(PortfolioTradeLimit);
      }
      if cfg.enforceOverlap && cfg.oneTradePerSetup && (c.symbol, c.setup) in setupExit
         && c.ts <= setupExit[(c.symbol, c.setup)] {
        return Some(OverlappingTrade);
      }
      return None;
    }

    method FileOpen(r: Row, ghost held: seq<Row>)
      requires OpenTracked(held, r.c.ts) && r.outcome.Taken?
      modifies this`openBySymbol, this`openAll
      ensures OpenTracked(held + [r], r.c.ts)
    {
      var exitTs := r.outcome.fill.exitTs;
      var own, all := OnSymbol(r.c.symbol), openAll;
      openBySymbol := openBySymbol[r.c.symbol := own + [exitTs]];
      openAll := all + [exitTs];
      hide OpenCount, Remaining;
      forall s, t | r.c.ts <= t
        ensures Remaining(OnSymbol(s), t) == OpenCount(held + [r], Some(s), t)
      {
        OpenCountSnoc(held, r, Some(s), t);
        RemainingSnoc(own, exitTs, t);
        assert old(Remaining(OnSymbol(s), t)) == OpenCount(held, Some(s), t);
      }
      forall t | r.c.ts <= t
        ensures Remaining(openAll, t) == OpenCount(held + [r], None, t)
      {
        OpenCountSnoc(held, r, None, t);
        RemainingSnoc(all, exitTs, t);
        assert old(Remaining(openAll, t)) == OpenCount(held, None, t);
      }
    }

    method FileSetup(r: Row, cfg: ReplayConfig, ghost held: seq<Row>)
      requires SetupTracked(held, cfg, r.c.ts) && r.outcome.Taken? && r.c.ts <= r.outcome.fill.exitTs
      requires PortfolioBlock(r.c, cfg, held).None?
      modifies this`setupExit
      ensures SetupTracked(held + [r], cfg, r.c.ts)
    {
      SetupGrows(held, r, cfg);
      setupExit := setupExit[(r.c.symbol, r.c.setup) := r.outcome.fill.exitTs];
    }

    method FileCooldown(r: Row, cfg: ReplayConfig, ghost held: seq<Row>)
      requires CooldownTracked(held, cfg, r.c.ts) && r.outcome.Taken? && r.c.ts <= r.outcome.fill.exitTs
      requires PortfolioBlock(r.c, cfg, held).None?
      modifies this`coolUntil
      ensures CooldownTracked(held + [r], cfg, r.c.ts)
    {
      CooldownGrows(held, r, cfg);
      var bars := CooldownBars(r.outcome.fill, cfg);
      if bars > 0 {
        coolUntil := coolUntil[r.c.symbol := r.outcome.fill.exitTs + r.c.interval.minutes * bars * MINUTE];
      }
    }

    /** Files an admitted trade: two appends, two overwrites. */
    method Record(r: Row, cfg: ReplayConfig, ghost held: seq<Row>)
      requires Tracks(held, cfg, r.c.ts) && r.outcome.Taken? && r.c.ts <= r.outcome.fill.exitTs
      requires PortfolioBlock(r.c, cfg, held).None?
      modifies this
      ensures Tracks(held + [r], cfg, r.c.ts)
    {
      FileOpen(r, held);
      FileSetup(r, cfg, held);
      FileCooldown(r, cfg, held);
    }

    /** Skipped rows occupy nothing. */
    lemma SkippedRowsDoNotCount(held: seq<Row>, r: Row, cfg: ReplayConfig, now: Time)
      requires Tracks(held, cfg, now) && r.outcome.Skipped?
      ensures Tracks(held + [r], cfg, now)
    {
      forall scope, t
        ensures OpenCount(held + [r], scope, t) == OpenCount(held, scope, t)
      {
        OpenCountSnoc(held, r, scope, t);
      }
      hide OpenCount, Remaining;
      assert forall q :: q in held + [r] <==> q in held || q == r;
      assert forall s, u, t :: SetupBusy(held + [r], s, u, t) <==> SetupBusy(held, s, u, t);
      assert forall s, t :: CoolingDown(held + [r], s, t, cfg) <==> CoolingDown(held, s, t, cfg);
    }

    /** One turn of the loop: the row of `c`, and the collections brought up to date. */
    method Turn(c: Candidate, repeated: bool, series: seq<Bar>, tape: Tape, cfg: ReplayConfig, ghost hist: seq<Row>,
                ghost now: Time)
      returns (row: Row)
      requires Tracks(Occupying(hist, cfg), cfg, now) && now <= c.ts
      requires repeated <==> Seen(hist, KeyOf(c))
      requires series == SeriesBars(tape.bars, (c.symbol, c.interval))
      modifies this
      ensures row == NextRow(hist, c, tape, cfg)
      ensures Tracks(Occupying(hist + [row], cfg), cfg, c.ts)
    {
      hide OpenTracked, SetupTracked, CooldownTracked, Simulate, StaticBlock, PortfolioBlock, SeriesBars, FeatureAt;
      TracksLater(Occupying(hist, cfg), cfg, now, c.ts);
      var f := FeatureAt(tape.features, c);
      var regime, bucket := RegimeOf(c, f), BucketOf(c, f);
      if repeated {
        row := Row(c, Skipped(DuplicateCandidate), regime, bucket, Some(true));
      } else {
        var skip := PreflightSkip(c, cfg, regime, bucket, Occupying(hist, cfg), now);
        if skip.Some? {
          row := Row(c, Skipped(skip.value), regime, bucket, Some(PortfolioReason(skip.value)));
        } else {
          var outcome := SimulateCandidate(c, series, f, cfg);
          row := Row(c, outcome, regime, bucket, None);
          TakenExitsAfterSignal(c, tape, f, cfg);
          if outcome.Taken? && cfg.purpose != Counterfactual {
            Record(row, cfg, hist);
          }
        }
      }
      if row.outcome.Skipped? && cfg.purpose != Counterfactual {
        SkippedRowsDoNotCount(hist, row, cfg, c.ts);
      }
    }

    lemma TracksLater(held: seq<Row>, cfg: ReplayConfig, now: Time, later: Time)
      requires Tracks(held, cfg, now) && now <= later
      ensures Tracks(held, cfg, later)
    {
    }
  }

  /** Overwriting the last setup exit loses nothing: the new exit is the latest. */
  lemma SetupGrows(held: seq<Row>, r: Row, cfg: ReplayConfig)
    requires r.outcome.Taken? && r.c.ts <= r.outcome.fill.exitTs
    requires PortfolioBlock(r.c, cfg, held).None?
    ensures SetupRule(cfg) ==> forall s, u, t :: r.c.ts <= t ==>
              (SetupBusy(held + [r], s, u, t) <==>
                 if s == r.c.symbol && u == r.c.setup then t <= r.outcome.fill.exitTs else SetupBusy(held, s, u, t))
  {
    if SetupRule(cfg) {
      assert !SetupBusy(held, r.c.symbol, r.c.setup, r.c.ts);
      forall s, u, t | r.c.ts <= t
        ensures SetupBusy(held + [r], s, u, t) <==>
                  if s == r.c.symbol && u == r.c.setup then t <= r.outcome.fill.exitTs else SetupBusy(held, s, u, t)
      {
        assert r in held + [r];
        assert forall q :: q in held ==> q in held + [r];
      }
    }
  }

  /** The same for the cooldown: whatever it overwrites has already run out. */
  lemma CooldownGrows(held: seq<Row>, r: Row, cfg: ReplayConfig)
    requires r.outcome.Taken? && r.c.ts <= r.outcome.fill.exitTs
    requires PortfolioBlock(r.c, cfg, held).None?
    ensures cfg.enforcePortfolio ==> forall s, t :: r.c.ts <= t ==>
              (CoolingDown(held + [r], s, t, cfg) <==>
                 if s == r.c.symbol && CooldownBars(r.outcome.fill, cfg) > 0
                 then t <= CooldownEnd(r.c, r.outcome.fill, cfg)
                 else CoolingDown(held, s, t, cfg))
  {
    if cfg.enforcePortfolio {
      assert !CoolingDown(held, r.c.symbol, r.c.ts, cfg);
      forall s, t | r.c.ts <= t
        ensures CoolingDown(held + [r], s, t, cfg) <==>
                  if s == r.c.symbol && CooldownBars(r.outcome.fill, cfg) > 0
                  then t <= CooldownEnd(r.c, r.outcome.fill, cfg)
                  else CoolingDown(held, s, t, cfg)
      {
        hide CooldownBars, CooldownEnd;
        assert r in held + [r];
        assert forall q :: q in held ==> q in held + [r];
      }
    }
  }

  // ----- the run

  lemma PriorityTotal()
    ensures TotalOrder(PriorityOrder())
  {
    forall a: Priority, b: Priority, c: Priority
      ensures PriorityLe(a, b) || PriorityLe(b, a)
      ensures PriorityLe(a, b) && PriorityLe(b, a) ==> a == b
      ensures PriorityLe(a, b) && PriorityLe(b, c) ==> PriorityLe(a, c)
    {
      StringLeLaws(a.symbol, b.symbol, c.symbol);
      StringLeLaws(a.setup, b.setup, c.setup);
    }
  }

  /** Candidates are walked in time order. */
  lemma SelectedInOrder(candidates: seq<Candidate>, cfg: ReplayConfig)
    ensures InSignalOrder(Selected(candidates, cfg))
  {
    PriorityTotal();
    var kept := Filter(candidates, Selectable(cfg));
    SortSorted(kept, PriorityOf(), PriorityOrder());
    var cs := Selected(candidates, cfg);
    forall i, j | 0 <= i < j < |cs|
      ensures cs[i].ts <= cs[j].ts
    {
      assert PriorityOrder()(PriorityOf()(cs[i]), PriorityOf()(cs[j]));
    }
  }

  lemma SeriesInOrder(bars: seq<Bar>, key: SeriesKey)
    ensures InTimeOrder(SeriesBars(bars, key))
  {
    IntOrder();
    SortSorted(Filter(bars, OfSeries(key)), BarTime(), IntLe());
    var s := SeriesBars(bars, key);
    forall i, j | 0 <= i < j < |s|
      ensures s[i].ts <= s[j].ts
    {
      assert IntLe()(BarTime()(s[i]), BarTime()(s[j]));
    }
  }

  method FilterCandidates(candidates: seq<Candidate>, cfg: ReplayConfig) returns (selected: seq<Candidate>)
    ensures selected == Filter(candidates, Selectable(cfg))
  {
    selected := [];
    assert Filter(candidates[..0], Selectable(cfg)) == [];
    hide Filter, Selectable;
    for i := 0 to |candidates|
      invariant selected == Filter(candidates[..i], Selectable(cfg))
    {
      assert candidates[..i + 1] == candidates[..i] + [candidates[i]];
      FilterSnoc(candidates[..i], candidates[i], Selectable(cfg));
      if Selectable(cfg)(candidates[i]) {
        selected := selected + [candidates[i]];
      }
    }
    assert candidates[..|candidates|] == candidates;
  }

  lemma SeriesSnoc(bars: seq<Bar>, n: nat, key: SeriesKey)
    requires n < |bars|
    ensures Filter(bars[..n + 1], OfSeries(key))
         == Filter(bars[..n], OfSeries(key)) + if key == (bars[n].symbol, bars[n].interval) then [bars[n]] else []
  {
    assert bars[..n + 1] == bars[..n] + [bars[n]];
    FilterSnoc(bars[..n], bars[n], OfSeries(key));
  }

  /** What a dictionary of lists holds under a key, with the empty list as its default. */
  function Group(groups: map<SeriesKey, seq<Bar>>, key: SeriesKey): seq<Bar> {
    if key in groups then groups[key] else []
  }

  /** Groups bars by symbol and interval, then sorts every group by time. */
  method BarsByKey(bars: seq<Bar>) returns (grouped: map<SeriesKey, seq<Bar>>)
    ensures forall key :: Group(grouped, key) == SeriesBars(bars, key)
  {
    var groups: map<SeriesKey, seq<Bar>> := map[];
    for i := 0 to |bars|
      invariant forall key :: Group(groups, key) == Filter(bars[..i], OfSeries(key))
    {
      hide Filter;
      ghost var before := groups;
      var own := (bars[i].symbol, bars[i].interval);
      groups := groups[own := Group(groups, own) + [bars[i]]];
      forall key
        ensures Group(groups, key) == Filter(bars[..i + 1], OfSeries(key))
      {
        SeriesSnoc(bars, i, key);
        assert Group(before, key) == Filter(bars[..i], OfSeries(key));
      }
    }
    assert bars[..|bars|] == bars;
    grouped := map key | key in groups :: SortBy(groups[key], BarTime(), IntLe());
    forall key
      ensures Group(grouped, key) == SeriesBars(bars, key)
    {
      assert Group(groups, key) == Filter(bars, OfSeries(key));
    }
  }

  lemma TakenExitsAfterSignal(c: Candidate, tape: Tape, f: Option<Feature>, cfg: ReplayConfig)
    ensures var o := Simulate(c, SeriesBars(tape.bars, (c.symbol, c.interval)), f, cfg);
            o.Taken? ==> c.ts <= o.fill.exitTs
  {
    var series := SeriesBars(tape.bars, (c.symbol, c.interval));
    SeriesInOrder(tape.bars, (c.symbol, c.interval));
    if Simulate(c, series, f, cfg).Taken? {
      hide Simulate;
      TimesInOrder(c, series, f, cfg);
    }
  }

  lemma SeenSnoc(rows: seq<Row>, r: Row, k: DuplicateKey)
    ensures Seen(rows + [r], k) <==> Seen(rows, k) || k == KeyOf(r.c)
  {
    assert forall q :: q in rows + [r] <==> q in rows || q == r;
  }

  ghost predicate SeenSet(seen: set<DuplicateKey>, rows: seq<Row>) {
    forall k :: k in seen <==> Seen(rows, k)
  }

  lemma SeenGrows(seen: set<DuplicateKey>, rows: seq<Row>, r: Row)
    requires SeenSet(seen, rows)
    ensures SeenSet(seen + {KeyOf(r.c)}, rows + [r])
  {
    forall k
      ensures k in seen + {KeyOf(r.c)} <==> Seen(rows + [r], k)
    {
      SeenSnoc(rows, r, k);
    }
  }

  /** The loop over the ordered candidates. */
  method Walk(cs: seq<Candidate>, tape: Tape, barsByKey: map<SeriesKey, seq<Bar>>, cfg: ReplayConfig)
    returns (rows: seq<Row>, decisions: seq<Decision>)
    requires InSignalOrder(cs)
    requires forall key :: Group(barsByKey, key) == SeriesBars(tape.bars, key)
    ensures rows == RunRows(cs, tape, cfg)
    ensures decisions == Map(rows, DecisionOf())
  {
    hide Simulate, NextRow, SeriesBars, Book.Tracks, Occupying, RunRows, KeyOf, DecisionOf, Group;
    rows, decisions := [], [];
    assert RunRows(cs[..0], tape, cfg) == [] && Occupying([], cfg) == [] by { NoRowsYet(cs, tape, cfg); }
    var seen: set<DuplicateKey> := {};
    ghost var now := if cs == [] then 0 else cs[0].ts;
    var book := new Book(cfg, now);
    for i := 0 to |cs|
      invariant rows == RunRows(cs[..i], tape, cfg)
      invariant decisions == Map(rows, DecisionOf())
      invariant SeenSet(seen, rows)
      invariant book.Tracks(Occupying(rows, cfg), cfg, now)
      invariant i < |cs| ==> now <= cs[i].ts
      invariant fresh(book)
    {
      var c := cs[i];
      var row := book.Turn(c, KeyOf(c) in seen, Group(barsByKey, (c.symbol, c.interval)), tape, cfg, rows, now);
      now := c.ts;
      NextRowKeepsCandidate(rows, c, tape, cfg);
      SeenGrows(seen, rows, row);
      seen := seen + {KeyOf(c)};
      RunRowsSnoc(cs, i, tape, cfg);
      MapSnoc(rows, row, DecisionOf());
      rows := rows + [row];
      decisions := decisions + [DecisionOf()(row)];
    }
    assert cs[..|cs|] == cs;
  }

  lemma NoRowsYet(cs: seq<Candidate>, tape: Tape, cfg: ReplayConfig)
    ensures RunRows(cs[..0], tape, cfg) == [] && Occupying([], cfg) == []
  {
  }

  lemma RunRowsSnoc(cs: seq<Candidate>, n: nat, tape: Tape, cfg: ReplayConfig)
    requires n < |cs|
    ensures RunRows(cs[..n + 1], tape, cfg)
         == RunRows(cs[..n], tape, cfg) + [NextRow(RunRows(cs[..n], tape, cfg), cs[n], tape, cfg)]
  {
    hide NextRow;
    assert cs[..n + 1][..n] == cs[..n] && Last(cs[..n + 1]) == cs[n];
  }

  lemma NextRowKeepsCandidate(hist: seq<Row>, c: Candidate, tape: Tape, cfg: ReplayConfig)
    ensures NextRow(hist, c, tape, cfg).c == c
  {
    hide Simulate, SeriesBars, FeatureAt, Preflight;
  }

  /** The engine's run. Its rows are those of the specification that scans the whole history. */
  method Replay(tape: Tape, candidates: seq<Candidate>, cfg: ReplayConfig)
    returns (rows: seq<Row>, decisions: seq<Decision>)
    ensures rows == RunRows(Selected(candidates, cfg), tape, cfg)
    ensures decisions == Map(rows, DecisionOf())
  {
    var filtered := FilterCandidates(candidates, cfg);
    var cs := SortBy(filtered, PriorityOf(), PriorityOrder());
    SelectedInOrder(candidates, cfg);
    var barsByKey := BarsByKey(tape.bars);
    rows, decisions := Walk(cs, tape, barsByKey, cfg);
  }
}
