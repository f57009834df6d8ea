/** Who is walked, in which order, and why a candidate is turned away: every reason, exactly, in terms
    of the candidate, the configuration and the earlier rows. */
module AdmissionLaws {
  import opened Common
  import opened Sorting
  import opened Market
  import opened Simulation
  import opened Replay
  import opened ReplayLaws

  // ----- which candidates, in which order

  /** The candidate's own score: its confidence unless that is missing or zero, else its signal score. */
  ghost predicate Scores(c: Candidate, score: real) {
    || (c.confidenceScore == Some(score) && score != 0.0)
    || ((c.confidenceScore == None || c.confidenceScore == Some(0.0)) && c.signalScore == Some(score))
  }

  /** For ordering, a missing number counts as zero. */
  ghost predicate Ranks(c: Candidate, score: real, expected: real) {
    && (Scores(c, score) || (score == 0.0 && forall s :: !Scores(c, s)))
    && (c.expectedR == Some(expected) || (c.expectedR == None && expected == 0.0))
  }

  lemma RankOf(c: Candidate, s: real, e: real)
    requires Ranks(c, s, e)
    ensures PriorityOf()(c) == Priority(c.ts, -s, -e, c.symbol, c.setup)
  {
    assert Confidence(c).Some? ==> Scores(c, Confidence(c).value);
  }

  /** Every candidate has a rank. */
  lemma RankExists(c: Candidate) returns (s: real, e: real)
    ensures Ranks(c, s, e)
  {
    s, e := Confidence(c).GetOr(0.0), c.expectedR.GetOr(0.0);
    assert Confidence(c).None? ==> forall x :: !Scores(c, x);
  }

  /** Candidates are walked by time; at one time the higher score first, then the higher expected R, then
      by symbol and setup. */
  lemma WalkedByPriority(candidates: seq<Candidate>, cfg: ReplayConfig, i: nat, j: nat, s: real, e: real, s': real,
                         e': real)
    requires i < j < |Selected(candidates, cfg)|
    requires Ranks(Selected(candidates, cfg)[i], s, e) && Ranks(Selected(candidates, cfg)[j], s', e')
    ensures var a, b := Selected(candidates, cfg)[i], Selected(candidates, cfg)[j];
            && a.ts <= b.ts
            && (a.ts == b.ts ==> s >= s')
            && (a.ts == b.ts && s == s' ==> e >= e')
            && (a.ts == b.ts && s == s' && e == e' ==> Alphabetic(a.symbol, b.symbol))
            && (a.ts == b.ts && s == s' && e == e' && a.symbol == b.symbol ==> Alphabetic(a.setup, b.setup))
  {
    hide StringLe, Ranks, Alphabetic;
    PriorityTotal();
    SortSorted(Filter(candidates, Selectable(cfg)), PriorityOf(), PriorityOrder());
    var cs := Selected(candidates, cfg);
    hide Selected;
    RankOf(cs[i], s, e);
    RankOf(cs[j], s', e');
    assert PriorityOrder()(PriorityOf()(cs[i]), PriorityOf()(cs[j]));
    StringLeLaws(cs[i].symbol, cs[j].symbol, cs[j].symbol);
    StringLeIsAlphabetic(cs[i].symbol, cs[j].symbol);
    StringLeIsAlphabetic(cs[i].setup, cs[j].setup);
  }

  /** The configured filters; an empty set admits everything. */
  ghost predicate Wanted(c: Candidate, cfg: ReplayConfig) {
    && (c.symbol in cfg.symbols || |cfg.symbols| == 0)
    && (c.interval in cfg.intervals || |cfg.intervals| == 0)
    && (c.setup in cfg.setups || |cfg.setups| == 0)
    && (c.side in cfg.sides || |cfg.sides| == 0)
    && !(cfg.start.Some? && c.ts < cfg.start.value)
    && !(cfg.end.Some? && c.ts > cfg.end.value)
  }

  /** Selected are the wanted candidates, each as often as it was given. */
  lemma SelectedExactly(candidates: seq<Candidate>, cfg: ReplayConfig, c: Candidate)
    ensures multiset(Selected(candidates, cfg))[c] == if Wanted(c, cfg) then multiset(candidates)[c] else 0
  {
    hide SortBy, PriorityOf;
    FilterMultiset(candidates, Selectable(cfg));
    assert Selectable(cfg)(c) <==> Wanted(c, cfg);
  }

  // ----- what a row is filed under

  ghost predicate Files(f: Feature, c: Candidate) {
    f.symbol == c.symbol && f.interval == c.interval && f.ts == c.ts
  }

  /** The feature of a candidate is the last one filed under its symbol, interval and time. */
  lemma {:induction false} FeatureIsLastFiled(features: seq<Feature>, c: Candidate)
    ensures var f := FeatureAt(features, c);
            if f.None? then forall k :: 0 <= k < |features| ==> !Files(features[k], c)
            else exists k :: 0 <= k < |features| && features[k] == f.value && Files(f.value, c)
                             && forall m :: k < m < |features| ==> !Files(features[m], c)
  {
    if features != [] {
      FeatureIsLastFiled(features[..|features| - 1], c);
    }
  }

  ghost predicate Says(text: Option<string>, value: string) {
    text == Some(value) && value != ""
  }

  /** Regime and time bucket of a row: the candidate's own text if it has one, else the feature's, else
      `unknown`. */
  ghost predicate LabelIs(own: Option<string>, features: Option<string>, name: string) {
    if exists v :: Says(own, v) then Says(own, name)
    else if exists v :: Says(features, v) then Says(features, name)
    else name == "unknown"
  }

  lemma FirstTextIsLabel(own: Option<string>, features: Option<string>)
    ensures LabelIs(own, features, FirstText(own, features))
  {
    assert own.Some? && own.value != "" ==> Says(own, own.value);
    assert features.Some? && features.value != "" ==> Says(features, features.value);
  }

  lemma RowLabels(cs: seq<Candidate>, tape: Tape, cfg: ReplayConfig, i: nat)
    requires i < |cs|
    ensures var r, f := RunRows(cs, tape, cfg)[i], FeatureAt(tape.features, cs[i]);
            && LabelIs(cs[i].marketRegime, if f.Some? then f.value.marketRegime else None, r.regime)
            && LabelIs(cs[i].timeBucket, if f.Some? then f.value.timeBucket else None, r.bucket)
  {
    RowFromHistory(cs, tape, cfg, i);
    hide Preflight, Simulate, Seen, SeriesBars, FeatureAt, RunRows, FirstText, LabelIs;
    var c, f := cs[i], FeatureAt(tape.features, cs[i]);
    FirstTextIsLabel(c.marketRegime, if f.Some? then f.value.marketRegime else None);
    FirstTextIsLabel(c.timeBucket, if f.Some? then f.value.timeBucket else None);
  }

  // ----- why a row is skipped

  /** An earlier candidate with the same symbol, interval, time, side and setup. */
  ghost predicate Repeats(cs: seq<Candidate>, i: nat)
    requires i < |cs|
  {
    exists k :: 0 <= k < i && SameSignal(cs[k], cs[i])
  }

  ghost predicate SameSignal(a: Candidate, b: Candidate) {
    a.symbol == b.symbol && a.interval == b.interval && a.ts == b.ts && a.side == b.side && a.setup == b.setup
  }

  ghost predicate Tradable(c: Candidate) {
    c.side == LONG || c.side == SHORT
  }

  /** Regular hours run from 9:30 to 16:00 New York time, the end excluded. */
  ghost predicate InHours(c: Candidate, cfg: ReplayConfig) {
    cfg.session == "rth" ==> 570 <= c.minuteEt < 960
  }

  ghost predicate InFilters(r: Row, cfg: ReplayConfig) {
    && (r.regime in cfg.regimeFilter || |cfg.regimeFilter| == 0)
    && (r.bucket in cfg.bucketFilter || |cfg.bucketFilter| == 0)
  }

  ghost predicate TooWeak(c: Candidate, cfg: ReplayConfig) {
    cfg.minimumConfidence.Some? && exists s :: Scores(c, s) && s < cfg.minimumConfidence.value
  }

  /** Nothing about the candidate itself stands in its way. */
  ghost predicate Eligible(cs: seq<Candidate>, r: Row, cfg: ReplayConfig, i: nat)
    requires i < |cs|
  {
    !Repeats(cs, i) && Tradable(cs[i]) && InHours(cs[i], cfg) && InFilters(r, cfg) && !TooWeak(cs[i], cfg)
  }

  lemma SeenExactly(cs: seq<Candidate>, tape: Tape, cfg: ReplayConfig, i: nat)
    requires i < |cs|
    ensures Seen(RunRows(cs, tape, cfg)[..i], KeyOf(cs[i])) <==> Repeats(cs, i)
  {
    var rows := RunRows(cs, tape, cfg);
    hide RunRows;
    var hist := rows[..i];
    assert forall k :: 0 <= k < i ==> hist[k].c == cs[k] && hist[k] in hist;
    if Seen(hist, KeyOf(cs[i])) {
      var k :| 0 <= k < |hist| && KeyOf(hist[k].c) == KeyOf(cs[i]);
      assert SameSignal(cs[k], cs[i]);
    }
    if Repeats(cs, i) {
      var k :| 0 <= k < i && SameSignal(cs[k], cs[i]);
      assert KeyOf(hist[k].c) == KeyOf(cs[i]);
    }
  }

  lemma ScoreExactly(c: Candidate, cfg: ReplayConfig)
    ensures TooWeak(c, cfg) <==>
              cfg.minimumConfidence.Some? && Confidence(c).Some? && Confidence(c).value < cfg.minimumConfidence.value
  {
    assert Confidence(c).Some? ==> Scores(c, Confidence(c).value);
  }

  /** Reasons a simulation gives. */
  ghost predicate OwnReason(reason: SkipReason) {
    || reason == InsufficientContext || reason == MissingEntryBar || reason == NoFutureBars
    || reason == InvalidRiskPlan || reason == InsufficientRewardRisk
  }

  /** Reasons that lie in other candidates. */
  ghost predicate BlockedReason(reason: SkipReason) {
    || reason == DuplicateCandidate || reason == OverlappingTrade || reason == PortfolioTradeLimit
    || reason == CooldownActive
  }

  lemma ReasonsApart(reason: SkipReason)
    ensures OwnReason(reason) ==> !BlockedReason(reason)
    ensures BlockedReason(reason) <==> reason == DuplicateCandidate || PortfolioReason(reason)
  {
  }

  lemma SimulationReasons(c: Candidate, bars: seq<Bar>, f: Option<Feature>, cfg: ReplayConfig)
    ensures Simulate(c, bars, f, cfg).Skipped? ==> OwnReason(Simulate(c, bars, f, cfg).reason)
  {
    hide PlanRisk, RunToExit, IndexAt, Window;
  }

  /** What the candidate's own data say of it. */
  lemma StaticExactly(c: Candidate, r: Row, cfg: ReplayConfig)
    ensures var block := StaticBlock(c, cfg, r.regime, r.bucket);
            && (block == Some(OutsideSession) <==> Tradable(c) && !InHours(c, cfg))
            && (block == Some(RegimeFilterBlock) <==> Tradable(c) && InHours(c, cfg) && !InFilters(r, cfg))
            && (block == Some(DataQualityBlock) <==>
                  !Tradable(c) || (InHours(c, cfg) && InFilters(r, cfg) && TooWeak(c, cfg)))
            && (block == None <==> Tradable(c) && InHours(c, cfg) && InFilters(r, cfg) && !TooWeak(c, cfg))
  {
    ScoreExactly(c, cfg);
    hide TooWeak, Confidence;
  }

  /** The three kinds of reason are apart. */
  lemma StaticReasons(c: Candidate, regime: string, bucket: string, cfg: ReplayConfig)
    ensures var block := StaticBlock(c, cfg, regime, bucket);
            block.Some? ==> !OwnReason(block.value) && !BlockedReason(block.value)
  {
    hide Confidence;
  }

  /** A row's outcome, test by test. */
  lemma OutcomeIs(cs: seq<Candidate>, tape: Tape, cfg: ReplayConfig, i: nat)
    requires i < |cs|
    ensures var rows, c := RunRows(cs, tape, cfg), cs[i];
            var own := StaticBlock(c, cfg, rows[i].regime, rows[i].bucket);
            var other := PortfolioBlock(c, cfg, Held(rows, cfg, i));
            && rows[i].outcome ==
                 (if Repeats(cs, i) then Skipped(DuplicateCandidate)
                  else if own.Some? then Skipped(own.value)
                  else if other.Some? then Skipped(other.value)
                  else Simulate(c, SeriesBars(tape.bars, (c.symbol, c.interval)), FeatureAt(tape.features, c), cfg))
            && rows[i].blocked ==
                 (if Repeats(cs, i) then Some(true)
                  else if own.Some? then Some(PortfolioReason(own.value))
                  else if other.Some? then Some(PortfolioReason(other.value))
                  else None)
  {
    RowFromHistory(cs, tape, cfg, i);
    SeenExactly(cs, tape, cfg, i);
    hide Simulate, Seen, SeriesBars, FeatureAt, RunRows, Repeats, StaticBlock, PortfolioBlock, PortfolioReason,
      RegimeOf, BucketOf, Occupying;
  }

  lemma OthersReasons(c: Candidate, cfg: ReplayConfig, held: seq<Row>)
    ensures var block := PortfolioBlock(c, cfg, held);
            block.Some? ==> PortfolioReason(block.value) && block.value != DuplicateCandidate
  {
    hide OpenCount, CoolingDown, SetupBusy;
  }

  /** The reasons that need no other trade, each exactly. */
  lemma SkippedForItself(cs: seq<Candidate>, tape: Tape, cfg: ReplayConfig, i: nat)
    requires i < |cs|
    ensures var r, c := RunRows(cs, tape, cfg)[i], cs[i];
            var first := !Repeats(cs, i);
            && (r.outcome == Skipped(DuplicateCandidate) <==> !first)
            && (r.outcome == Skipped(OutsideSession) <==> first && Tradable(c) && !InHours(c, cfg))
            && (r.outcome == Skipped(RegimeFilterBlock) <==>
                  first && Tradable(c) && InHours(c, cfg) && !InFilters(r, cfg))
            && (r.outcome == Skipped(DataQualityBlock) <==>
                  first && (!Tradable(c) || (InHours(c, cfg) && InFilters(r, cfg) && TooWeak(c, cfg))))
            && (r.outcome.Taken? ==> Eligible(cs, r, cfg, i))
  {
    var rows, c := RunRows(cs, tape, cfg), cs[i];
    var own := StaticBlock(c, cfg, rows[i].regime, rows[i].bucket);
    OutcomeIs(cs, tape, cfg, i);
    hide Simulate, SeriesBars, FeatureAt, RunRows, Repeats, StaticBlock, PortfolioBlock, TooWeak, Tradable, InHours,
      InFilters, Held, BlockedReason;
    StaticExactly(c, rows[i], cfg);
    if Repeats(cs, i) {
    } else if own.Some? {
      StaticReasons(c, rows[i].regime, rows[i].bucket, cfg);
      ReasonsApart(own.value);
    } else {
      OthersReasons(c, cfg, Held(rows, cfg, i));
      SimulationReasons(c, SeriesBars(tape.bars, (c.symbol, c.interval)), FeatureAt(tape.features, c), cfg);
    }
  }

  // ----- why a row is skipped for the sake of others

  /** Earlier rows count only in runs that trade. */
  ghost predicate Holds(rows: seq<Row>, i: nat, cfg: ReplayConfig, k: nat)
    requires i <= |rows|
  {
    k < i && rows[k].outcome.Taken? && cfg.purpose == Portfolio
  }

  /** Row `k` of the run is a trade on the symbol whose cooldown covers `t`. */
  ghost predicate Cools(rows: seq<Row>, i: nat, cfg: ReplayConfig, k: nat, symbol: string, t: Time)
    requires i <= |rows|
  {
    Holds(rows, i, cfg, k) && rows[k].c.symbol == symbol &&
    var fill := rows[k].outcome.fill;
    var bars := if fill.realizedR < 0.0 then cfg.cooldownAfterLoss else cfg.cooldownAfterTrade;
    bars > 0 && t <= fill.exitTs + rows[k].c.interval.minutes * bars * 60_000_000
  }

  /** Row `k` is a trade still open at `t`, on the symbol if one is given. */
  ghost predicate IsOpen(rows: seq<Row>, i: nat, cfg: ReplayConfig, k: nat, symbol: Option<string>, t: Time)
    requires i <= |rows|
  {
    && Holds(rows, i, cfg, k) && rows[k].outcome.fill.exitTs > t
    && (symbol == None || symbol == Some(rows[k].c.symbol))
  }

  /** Number of trades open at `t` among the first `i` rows. */
  ghost function OpenTrades(rows: seq<Row>, i: nat, cfg: ReplayConfig, symbol: Option<string>, t: Time): nat
    requires i <= |rows|
  {
    |set k: nat | k < i && IsOpen(rows, i, cfg, k, symbol, t)|
  }

  /** Row `k` is a trade of the symbol and setup not over before `t`, its exit instant included. */
  ghost predicate Occupies(rows: seq<Row>, i: nat, cfg: ReplayConfig, k: nat, symbol: string, setup: string, t: Time)
    requires i <= |rows|
  {
    && Holds(rows, i, cfg, k) && rows[k].c.symbol == symbol && rows[k].c.setup == setup
    && t <= rows[k].outcome.fill.exitTs
  }

  ghost predicate CoolingAt(rows: seq<Row>, c: Candidate, cfg: ReplayConfig, i: nat)
    requires i <= |rows|
  {
    cfg.enforcePortfolio && exists k: nat :: Cools(rows, i, cfg, k, c.symbol, c.ts)
  }

  ghost predicate SymbolFull(rows: seq<Row>, c: Candidate, cfg: ReplayConfig, i: nat)
    requires i <= |rows|
  {
    cfg.enforceOverlap && !cfg.allowOverlapping
      && OpenTrades(rows, i, cfg, Some(c.symbol), c.ts) >= cfg.maxOpenPerSymbol
  }

  ghost predicate PortfolioFull(rows: seq<Row>, c: Candidate, cfg: ReplayConfig, i: nat)
    requires i <= |rows|
  {
    cfg.enforcePortfolio && OpenTrades(rows, i, cfg, None, c.ts) >= cfg.maxOpenPortfolio
  }

  ghost predicate SetupTaken(rows: seq<Row>, c: Candidate, cfg: ReplayConfig, i: nat)
    requires i <= |rows|
  {
    cfg.enforceOverlap && cfg.oneTradePerSetup && exists k: nat :: Occupies(rows, i, cfg, k, c.symbol, c.setup, c.ts)
  }

  function Held(rows: seq<Row>, cfg: ReplayConfig, i: nat): seq<Row>
    requires i <= |rows|
  {
    Occupying(rows[..i], cfg)
  }

  lemma HeldRow(rows: seq<Row>, cfg: ReplayConfig, i: nat, r: Row) returns (k: nat)
    requires i <= |rows| && r in Held(rows, cfg, i) && r.outcome.Taken?
    ensures Holds(rows, i, cfg, k) && rows[k] == r
  {
    k :| 0 <= k < i && rows[k] == r;
  }

  lemma HoldsHeld(rows: seq<Row>, cfg: ReplayConfig, i: nat, k: nat)
    requires i <= |rows| && Holds(rows, i, cfg, k)
    ensures rows[k] in Held(rows, cfg, i)
  {
    assert rows[..i][k] == rows[k];
  }

  lemma CoolingExactly(rows: seq<Row>, c: Candidate, cfg: ReplayConfig, i: nat)
    requires i <= |rows|
    ensures CoolingDown(Held(rows, cfg, i), c.symbol, c.ts, cfg)
       <==> exists k: nat :: Cools(rows, i, cfg, k, c.symbol, c.ts)
  {
    var held := Held(rows, cfg, i);
    hide Held, Holds;
    if CoolingDown(held, c.symbol, c.ts, cfg) {
      var r :| r in held && r.outcome.Taken? && r.c.symbol == c.symbol
               && CooldownBars(r.outcome.fill, cfg) > 0 && c.ts <= CooldownEnd(r.c, r.outcome.fill, cfg);
      var k := HeldRow(rows, cfg, i, r);
      assert Cools(rows, i, cfg, k, c.symbol, c.ts);
    }
    if k: nat :| Cools(rows, i, cfg, k, c.symbol, c.ts) {
      HoldsHeld(rows, cfg, i, k);
    }
  }

  lemma SetupExactly(rows: seq<Row>, c: Candidate, cfg: ReplayConfig, i: nat)
    requires i <= |rows|
    ensures SetupBusy(Held(rows, cfg, i), c.symbol, c.setup, c.ts)
       <==> exists k: nat :: Occupies(rows, i, cfg, k, c.symbol, c.setup, c.ts)
  {
    var held := Held(rows, cfg, i);
    hide Held, Holds;
    if SetupBusy(held, c.symbol, c.setup, c.ts) {
      var r :| r in held && r.outcome.Taken? && r.c.symbol == c.symbol && r.c.setup == c.setup
        && c.ts <= r.outcome.fill.exitTs;
      var k := HeldRow(rows, cfg, i, r);
      assert Occupies(rows, i, cfg, k, c.symbol, c.setup, c.ts);
    }
    if k: nat :| Occupies(rows, i, cfg, k, c.symbol, c.setup, c.ts) {
      HoldsHeld(rows, cfg, i, k);
    }
  }

  lemma OneMoreOpen(rows: seq<Row>, cfg: ReplayConfig, n: nat, scope: Option<string>, t: Time)
    requires n < |rows|
    ensures OpenTrades(rows, n + 1, cfg, scope, t)
         == OpenTrades(rows, n, cfg, scope, t) + if IsOpen(rows, n + 1, cfg, n, scope, t) then 1 else 0
  {
    var m := n + 1;
    assert forall k: nat :: k < n ==> (IsOpen(rows, n, cfg, k, scope, t) <==> IsOpen(rows, m, cfg, k, scope, t));
    hide IsOpen;
    var before := set k: nat | k < n && IsOpen(rows, n, cfg, k, scope, t);
    var now := set k: nat | k < m && IsOpen(rows, m, cfg, k, scope, t);
    assert now == if IsOpen(rows, m, cfg, n, scope, t) then before + {n} else before;
  }

  lemma {:induction false} OpenExactly(rows: seq<Row>, cfg: ReplayConfig, i: nat, scope: Option<string>, t: Time)
    requires i <= |rows|
    ensures OpenCount(Held(rows, cfg, i), scope, t) == OpenTrades(rows, i, cfg, scope, t)
  {
    hide OpenCount;
    if cfg.purpose == Counterfactual || i == 0 {
      assert Held(rows, cfg, i) == [] && OpenCount([], scope, t) == 0 by { NothingOpen(scope, t); }
      assert (set k: nat | k < i && IsOpen(rows, i, cfg, k, scope, t)) == {};
    } else {
      var n := i - 1;
      OpenExactly(rows, cfg, n, scope, t);
      OneMoreOpen(rows, cfg, n, scope, t);
      hide OpenTrades;
      assert rows[..i] == rows[..n] + [rows[n]];
      OpenCountSnoc(rows[..n], rows[n], scope, t);
    }
  }

  lemma NothingOpen(scope: Option<string>, t: Time)
    ensures OpenCount([], scope, t) == 0
  {
  }

  /** What the earlier trades say of a candidate. */
  lemma PortfolioExactly(rows: seq<Row>, c: Candidate, cfg: ReplayConfig, i: nat)
    requires i <= |rows|
    ensures var block := PortfolioBlock(c, cfg, Held(rows, cfg, i));
            var cooling, symbolFull := CoolingAt(rows, c, cfg, i), SymbolFull(rows, c, cfg, i);
            var portfolioFull, setupTaken := PortfolioFull(rows, c, cfg, i), SetupTaken(rows, c, cfg, i);
            && (block == Some(CooldownActive) <==> cooling)
            && (block == Some(PortfolioTradeLimit) <==> !cooling && !symbolFull && portfolioFull)
            && (block == Some(OverlappingTrade) <==> !cooling && (symbolFull || (!portfolioFull && setupTaken)))
            && (block == None <==> !cooling && !symbolFull && !portfolioFull && !setupTaken)
  {
    CoolingExactly(rows, c, cfg, i);
    SetupExactly(rows, c, cfg, i);
    OpenExactly(rows, cfg, i, Some(c.symbol), c.ts);
    OpenExactly(rows, cfg, i, None, c.ts);
    hide Held, OpenTrades, OpenCount, CoolingDown, SetupBusy, Cools, Occupies;
  }

  /** The reasons that lie in other trades, each exactly; what is left is simulated on its own. */
  lemma SkippedForOthers(cs: seq<Candidate>, tape: Tape, cfg: ReplayConfig, i: nat)
    requires i < |cs|
    ensures var rows, c := RunRows(cs, tape, cfg), cs[i];
            var r, able := rows[i], Eligible(cs, rows[i], cfg, i);
            var cooling, symbolFull := CoolingAt(rows, c, cfg, i), SymbolFull(rows, c, cfg, i);
            var portfolioFull, setupTaken := PortfolioFull(rows, c, cfg, i), SetupTaken(rows, c, cfg, i);
            && (r.outcome == Skipped(CooldownActive) <==> able && cooling)
            && (r.outcome == Skipped(PortfolioTradeLimit) <==> able && !cooling && !symbolFull && portfolioFull)
            && (r.outcome == Skipped(OverlappingTrade) <==>
                  able && !cooling && (symbolFull || (!portfolioFull && setupTaken)))
            && (able && !cooling && !symbolFull && !portfolioFull && !setupTaken ==>
                  r.outcome
                    == Simulate(c, SeriesBars(tape.bars, (c.symbol, c.interval)), FeatureAt(tape.features, c), cfg))
            && (r.outcome.Taken? ==> able && !cooling && !symbolFull && !portfolioFull && !setupTaken)
  {
    var rows, c := RunRows(cs, tape, cfg), cs[i];
    OutcomeIs(cs, tape, cfg, i);
    StaticExactly(c, rows[i], cfg);
    PortfolioExactly(rows, c, cfg, i);
    SimulationReasons(c, SeriesBars(tape.bars, (c.symbol, c.interval)), FeatureAt(tape.features, c), cfg);
    hide Simulate, SeriesBars, FeatureAt, RunRows, Repeats, StaticBlock, PortfolioBlock, TooWeak, Tradable, InHours,
      InFilters, Held, CoolingAt, SymbolFull, PortfolioFull, SetupTaken;
  }

  /** A blocked flag is set exactly for repeats and for what other trades block, and absent exactly where
      the candidate was simulated. */
  lemma BlockedExactly(cs: seq<Candidate>, tape: Tape, cfg: ReplayConfig, i: nat)
    requires i < |cs|
    ensures var r := RunRows(cs, tape, cfg)[i];
            && (r.blocked == Some(true) <==> r.outcome.Skipped? && BlockedReason(r.outcome.reason))
            && (r.blocked == None <==> r.outcome.Taken? || OwnReason(r.outcome.reason))
  {
    var rows, c := RunRows(cs, tape, cfg), cs[i];
    var own, other := StaticBlock(c, cfg, rows[i].regime, rows[i].bucket), PortfolioBlock(c, cfg, Held(rows, cfg, i));
    OutcomeIs(cs, tape, cfg, i);
    hide *;
    if Repeats(cs, i) {
      ReasonsApart(DuplicateCandidate);
    } else if own.Some? {
      StaticReasons(c, rows[i].regime, rows[i].bucket, cfg);
      ReasonsApart(own.value);
    } else if other.Some? {
      OthersReasons(c, cfg, Held(rows, cfg, i));
      ReasonsApart(other.value);
    } else {
      SimulationReasons(c, SeriesBars(tape.bars, (c.symbol, c.interval)), FeatureAt(tape.features, c), cfg);
      if rows[i].outcome.Skipped? {
        ReasonsApart(rows[i].outcome.reason);
      }
    }
  }
}
