/** What holds of every whole replay run: open-trade limits, separation, the relation between
    portfolio and counterfactual runs, and independence of the input order. */
module ReplayLaws {
  import opened Common
  import opened Sorting
  import opened Market
  import opened Simulation
  import opened Replay

  // ----- a run row by row

  lemma {:induction false} RowsSoFar(cs: seq<Candidate>, tape: Tape, cfg: ReplayConfig, i: nat)
    requires i <= |cs|
    ensures RunRows(cs, tape, cfg)[..i] == RunRows(cs[..i], tape, cfg)
  {
    hide NextRow;
    if i < |cs| {
      var n := |cs| - 1;
      RowsSoFar(cs[..n], tape, cfg, i);
      assert cs[..n][..i] == cs[..i];
      assert RunRows(cs, tape, cfg)[..n] == RunRows(cs[..n], tape, cfg);
      assert RunRows(cs, tape, cfg)[..i] == RunRows(cs, tape, cfg)[..n][..i];
    } else {
      assert cs[..i] == cs;
    }
  }

  /** Every row is the next row of the rows before it. */
  lemma RowFromHistory(cs: seq<Candidate>, tape: Tape, cfg: ReplayConfig, i: nat)
    requires i < |cs|
    ensures RunRows(cs, tape, cfg)[i] == NextRow(RunRows(cs, tape, cfg)[..i], cs[i], tape, cfg)
  {
    hide NextRow;
    RowsSoFar(cs, tape, cfg, i);
    RowsSoFar(cs, tape, cfg, i + 1);
    RunRowsSnoc(cs, i, tape, cfg);
    assert RunRows(cs, tape, cfg)[i] == RunRows(cs, tape, cfg)[..i + 1][i];
  }

  /** What a taken row passed. */
  lemma TakenPassed(hist: seq<Row>, c: Candidate, tape: Tape, cfg: ReplayConfig)
    ensures NextRow(hist, c, tape, cfg).outcome.Taken?
         ==> PortfolioBlock(c, cfg, Occupying(hist, cfg)).None? && !Seen(hist, KeyOf(c))
  {
    hide Simulate, SeriesBars, FeatureAt, PortfolioBlock, StaticBlock, Seen;
  }

  // ----- never too many open trades

  /** Open at instant `t`: signalled at or before it, not yet exited. */
  function OpenAt(scope: Option<string>, t: Time): Row -> bool {
    (r: Row) => r.outcome.Taken? && InScope(r.c, scope) && r.c.ts <= t < r.outcome.fill.exitTs
  }

  function LimitFor(scope: Option<string>, cfg: ReplayConfig): nat {
    IntMax(0, if scope.None? then cfg.maxOpenPortfolio else cfg.maxOpenPerSymbol)
  }

  ghost predicate LimitEnforced(scope: Option<string>, cfg: ReplayConfig) {
    && cfg.purpose == Portfolio
    && if scope.None? then cfg.enforcePortfolio else cfg.enforceOverlap && !cfg.allowOverlapping
  }

  lemma AdmittedBelowLimit(held: seq<Row>, c: Candidate, scope: Option<string>, cfg: ReplayConfig)
    requires LimitEnforced(scope, cfg) && InScope(c, scope) && PortfolioBlock(c, cfg, held).None?
    ensures OpenCount(held, scope, c.ts) < LimitFor(scope, cfg)
  {
    hide OpenCount, CoolingDown, SetupBusy;
    assert scope.Some? ==> scope == Some(c.symbol);
  }

  /** At every instant, and not only at signals, the open trades of a symbol (or of the portfolio)
      stay within the configured limit. */
  lemma {:induction false} NeverOverTheLimit(cs: seq<Candidate>, tape: Tape, cfg: ReplayConfig, scope: Option<string>,
                                             t: Time)
    requires LimitEnforced(scope, cfg)
    ensures |Filter(RunRows(cs, tape, cfg), OpenAt(scope, t))| <= LimitFor(scope, cfg)
  {
    hide NextRow, PortfolioBlock;
    if cs != [] {
      var n := |cs| - 1;
      var hist := RunRows(cs[..n], tape, cfg);
      var r := NextRow(hist, cs[n], tape, cfg);
      NeverOverTheLimit(cs[..n], tape, cfg, scope, t);
      FilterSnoc(hist, r, OpenAt(scope, t));
      if OpenAt(scope, t)(r) {
        NextRowKeepsCandidate(hist, cs[n], tape, cfg);
        TakenPassed(hist, cs[n], tape, cfg);
        AdmittedBelowLimit(hist, cs[n], scope, cfg);
        FilterCountMonotone(hist, OpenAt(scope, t), StillOpen(scope, cs[n].ts));
      }
    }
  }

  // ----- separation

  lemma SetupFree(hist: seq<Row>, q: Row, c: Candidate, cfg: ReplayConfig)
    requires PortfolioBlock(c, cfg, hist).None? && SetupRule(cfg)
    requires q in hist && q.outcome.Taken? && q.c.symbol == c.symbol && q.c.setup == c.setup
    ensures q.outcome.fill.exitTs < c.ts
  {
    hide OpenCount, CoolingDown;
    assert !SetupBusy(hist, c.symbol, c.setup, c.ts);
  }

  lemma CooldownOver(hist: seq<Row>, q: Row, c: Candidate, cfg: ReplayConfig)
    requires PortfolioBlock(c, cfg, hist).None? && cfg.enforcePortfolio
    requires q in hist && q.outcome.Taken? && q.c.symbol == c.symbol && CooldownBars(q.outcome.fill, cfg) > 0
    ensures CooldownEnd(q.c, q.outcome.fill, cfg) < c.ts
  {
    hide OpenCount, SetupBusy, CooldownEnd, CooldownBars;
    assert !CoolingDown(hist, c.symbol, c.ts, cfg);
  }

  /** Any two taken trades of one symbol and setup: the later signal comes strictly after the
      earlier exit. And on one symbol every later signal outlasts every earlier cooldown. */
  lemma {:induction false} TakenTradesAreSeparated(cs: seq<Candidate>, tape: Tape, cfg: ReplayConfig, i: nat, j: nat)
    requires cfg.purpose == Portfolio && i < j < |cs|
    requires RunRows(cs, tape, cfg)[i].outcome.Taken? && RunRows(cs, tape, cfg)[j].outcome.Taken?
    requires cs[i].symbol == cs[j].symbol
    ensures var fill := RunRows(cs, tape, cfg)[i].outcome.fill;
            && (SetupRule(cfg) && cs[i].setup == cs[j].setup ==> fill.exitTs < cs[j].ts)
            && (cfg.enforcePortfolio && CooldownBars(fill, cfg) > 0 ==> CooldownEnd(cs[i], fill, cfg) < cs[j].ts)
  {
    hide NextRow, PortfolioBlock, CooldownBars, CooldownEnd;
    var rows := RunRows(cs, tape, cfg);
    var hist := rows[..j];
    RowFromHistory(cs, tape, cfg, j);
    TakenPassed(hist, cs[j], tape, cfg);
    assert rows[i] == hist[i];
    if SetupRule(cfg) && cs[i].setup == cs[j].setup {
      SetupFree(hist, rows[i], cs[j], cfg);
    }
    if cfg.enforcePortfolio && CooldownBars(rows[i].outcome.fill, cfg) > 0 {
      CooldownOver(hist, rows[i], cs[j], cfg);
    }
  }

  // ----- portfolio against counterfactual

  /** Configurations that differ at most in purpose, the two enforcement flags and the overlap
      permission. */
  ghost predicate SameMarketRules(p: ReplayConfig, q: ReplayConfig) {
    q == p.(purpose := q.purpose, enforcePortfolio := q.enforcePortfolio, enforceOverlap := q.enforceOverlap,
            allowOverlapping := q.allowOverlapping)
  }

  ghost predicate ObservesOnly(q: ReplayConfig) {
    q.purpose == Counterfactual && !q.enforcePortfolio && !q.enforceOverlap
  }

  lemma {:induction false} SameOffsets(w: seq<Bar>, lv: Levels, entryTs: Time, p: ReplayConfig, q: ReplayConfig)
    requires SameMarketRules(p, q)
    ensures ExitOffset(w, lv, entryTs, q) == ExitOffset(w, lv, entryTs, p)
  {
    if w != [] {
      SameOffsets(w[1..], lv, entryTs, p, q);
    }
  }

  lemma SameNet(lv: Levels, price: real, p: ReplayConfig, q: ReplayConfig)
    requires SameMarketRules(p, q)
    ensures NetR(lv, price, q) == NetR(lv, price, p)
  {
  }

  lemma SameRuns(w: seq<Bar>, lv: Levels, entryTs: Time, p: ReplayConfig, q: ReplayConfig)
    requires SameMarketRules(p, q) && w != []
    ensures RunToExit(w, lv, entryTs, q) == RunToExit(w, lv, entryTs, p)
  {
    hide RMultiple, BestR, WorstR, TimeExitPrice, NetR;
    SameOffsets(w, lv, entryTs, p, q);
    forall price
      ensures TimeExitPrice(price, lv.long, q) == TimeExitPrice(price, lv.long, p)
      ensures NetR(lv, price, q) == NetR(lv, price, p)
    {
      SamePrices(price, lv.long, p, q);
      SameNet(lv, price, p, q);
    }
  }

  lemma SamePrices(price: real, long: bool, p: ReplayConfig, q: ReplayConfig)
    requires SameMarketRules(p, q)
    ensures EntryPrice(price, long, q) == EntryPrice(price, long, p)
    ensures TimeExitPrice(price, long, q) == TimeExitPrice(price, long, p)
  {
    assert CostRate(q) == CostRate(p);
    hide CostRate;
  }

  lemma SamePlanFrom(c: Candidate, entry: real, stop: Option<real>, p: ReplayConfig, q: ReplayConfig)
    requires SameMarketRules(p, q)
    ensures PlanFrom(c, entry, stop, q) == PlanFrom(c, entry, stop, p)
  {
    hide RMultiple, LevelsFor;
    if stop.Some? {
      var risk := if c.side == LONG then entry - stop.value else stop.value - entry;
      if risk > 0.0 {
        SameLevels(c, entry, stop.value, risk, p, q);
      }
    }
  }

  lemma SameLevels(c: Candidate, entry: real, stop: real, risk: Risk, p: ReplayConfig, q: ReplayConfig)
    requires SameMarketRules(p, q)
    ensures LevelsFor(c, entry, stop, risk, q) == LevelsFor(c, entry, stop, risk, p)
  {
  }

  lemma SameRiskPlans(c: Candidate, past: seq<Bar>, f: Option<Feature>, p: ReplayConfig, q: ReplayConfig)
    requires SameMarketRules(p, q) && past != []
    ensures PlanRisk(c, past, f, q) == PlanRisk(c, past, f, p)
  {
    hide EntryPrice, StopLevels, NearestBelow, NearestAbove, PlanFrom;
    var entry := EntryPrice(Last(past).open, c.side == LONG, p);
    SamePrices(Last(past).open, c.side == LONG, p, q);
    assert StopPrice(c, f, past, entry, q) == StopPrice(c, f, past, entry, p);
    SamePlanFrom(c, entry, StopPrice(c, f, past, entry, p), p, q);
  }

  /** Portfolio rules have no say in how a trade unfolds. */
  lemma SameTrades(c: Candidate, bars: seq<Bar>, f: Option<Feature>, p: ReplayConfig, q: ReplayConfig)
    requires SameMarketRules(p, q)
    ensures Simulate(c, bars, f, q) == Simulate(c, bars, f, p)
  {
    hide PlanRisk, RunToExit, IndexAt, Filter;
    var at := IndexAt(bars, c.ts) + 1;
    if at < |bars| {
      SameRiskPlans(c, bars[..at + 1], f, p, q);
      var w := Window(bars, at, p);
      assert w == Window(bars, at, q);
      if w != [] && PlanRisk(c, bars[..at + 1], f, p).Accepted? {
        SameRuns(w, PlanRisk(c, bars[..at + 1], f, p).levels, bars[at].ts, p, q);
      }
    }
  }

  lemma SameSelection(candidates: seq<Candidate>, p: ReplayConfig, q: ReplayConfig)
    requires SameMarketRules(p, q)
    ensures Selected(candidates, q) == Selected(candidates, p)
  {
    FilterCongruence(candidates, Selectable(p), Selectable(q));
  }

  lemma NothingBlocksObservation(c: Candidate, q: ReplayConfig)
    requires ObservesOnly(q)
    ensures PortfolioBlock(c, q, []).None?
  {
  }

  lemma SeenSame(rows: seq<Row>, rows': seq<Row>, k: DuplicateKey)
    requires |rows| == |rows'| && forall i :: 0 <= i < |rows| ==> rows[i].c == rows'[i].c
    ensures Seen(rows, k) <==> Seen(rows', k)
  {
    if Seen(rows, k) {
      var i :| 0 <= i < |rows| && KeyOf(rows[i].c) == k;
      assert rows'[i] in rows';
    }
    if Seen(rows', k) {
      var i :| 0 <= i < |rows'| && KeyOf(rows'[i].c) == k;
      assert rows[i] in rows;
    }
  }

  /** Blocks that look at the candidate alone are the same, and every other one is a portfolio rule. */
  lemma SameBlocks(c: Candidate, regime: string, bucket: string, held: seq<Row>, p: ReplayConfig, q: ReplayConfig)
    requires SameMarketRules(p, q) && ObservesOnly(q)
    ensures var mine, theirs := Preflight(c, p, regime, bucket, held), Preflight(c, q, regime, bucket, []);
            mine == theirs || (mine.Some? && PortfolioReason(mine.value))
  {
    hide OpenCount, CoolingDown, SetupBusy, Confidence;
    NothingBlocksObservation(c, q);
    assert StaticBlock(c, q, regime, bucket) == StaticBlock(c, p, regime, bucket);
  }

  /** One step of the two runs side by side. */
  lemma StepRefines(hist: seq<Row>, hist': seq<Row>, c: Candidate, tape: Tape, p: ReplayConfig, q: ReplayConfig)
    requires SameMarketRules(p, q) && ObservesOnly(q)
    requires |hist| == |hist'| && forall i :: 0 <= i < |hist| ==> hist[i].c == hist'[i].c
    ensures var mine, theirs := NextRow(hist, c, tape, p).outcome, NextRow(hist', c, tape, q).outcome;
            mine == theirs || (mine.Skipped? && PortfolioReason(mine.reason))
  {
    hide Simulate, SeriesBars, FeatureAt, Preflight, PortfolioReason, Seen, KeyOf, RegimeOf, BucketOf, SameMarketRules;
    var f := FeatureAt(tape.features, c);
    SeenSame(hist, hist', KeyOf(c));
    SameTrades(c, SeriesBars(tape.bars, (c.symbol, c.interval)), f, p, q);
    SameBlocks(c, RegimeOf(c, f), BucketOf(c, f), Occupying(hist, p), p, q);
  }

  /** The portfolio run refines the counterfactual one: the rows align, and a row differs only where
      a portfolio rule blocked it. So every trade the portfolio takes was observed, fill for fill. */
  lemma PortfolioRefinesCounterfactual(candidates: seq<Candidate>, tape: Tape, p: ReplayConfig, q: ReplayConfig, i: nat)
    requires SameMarketRules(p, q) && ObservesOnly(q) && i < |Selected(candidates, p)|
    ensures Selected(candidates, q) == Selected(candidates, p)
    ensures var mine := RunRows(Selected(candidates, p), tape, p)[i];
            var theirs := RunRows(Selected(candidates, q), tape, q)[i];
            && mine.c == theirs.c
            && (mine.outcome == theirs.outcome || (mine.outcome.Skipped? && PortfolioReason(mine.outcome.reason)))
            && (mine.outcome.Taken? ==> theirs.outcome == mine.outcome)
  {
    hide NextRow;
    SameSelection(candidates, p, q);
    var cs := Selected(candidates, p);
    RowFromHistory(cs, tape, p, i);
    RowFromHistory(cs, tape, q, i);
    StepRefines(RunRows(cs, tape, p)[..i], RunRows(cs, tape, q)[..i], cs[i], tape, p, q);
  }

  /** A counterfactual outcome is the outcome of replaying the candidate alone, unless it repeats. */
  lemma {:induction false} ObservedAsIfAlone(cs: seq<Candidate>, tape: Tape, q: ReplayConfig, i: nat)
    requires q.purpose == Counterfactual && i < |cs|
    ensures var rows := RunRows(cs, tape, q);
            if Seen(rows[..i], KeyOf(cs[i])) then rows[i].outcome == Skipped(DuplicateCandidate)
            else rows[i] == RunRows([cs[i]], tape, q)[0]
  {
    RowFromHistory(cs, tape, q, i);
    RowFromHistory([cs[i]], tape, q, 0);
    hide Simulate, SeriesBars, FeatureAt, StaticBlock, PortfolioBlock, RunRows;
    assert RunRows([cs[i]], tape, q)[..0] == [];
  }

  // ----- payload defaults

  /** The payload keys that decide purpose and enforcement; `rest` stands for all others. */
  datatype Payload = Payload(replayPurpose: Option<string>, purpose: Option<string>, simulationType: Option<string>,
                             enforcePortfolio: Option<bool>, enforceOverlap: Option<bool>,
                             allowOverlapping: Option<bool>, rest: ReplayConfig)

  const COUNTERFACTUAL := "model_training_counterfactual"

  function Text(a: Option<string>, default: string): string {
    if a.Some? && a.value != "" then a.value else default
  }

  function FromPayload(data: Payload): ReplayConfig {
    var asked := Text(data.replayPurpose, Text(data.purpose, "portfolio_execution"));
    var usual := if asked == COUNTERFACTUAL then COUNTERFACTUAL else "candidate_market_replay";
    var simulation := Text(data.simulationType, usual);
    var counterfactual := simulation == COUNTERFACTUAL || asked == COUNTERFACTUAL;
    data.rest.(purpose := if counterfactual then Counterfactual else Portfolio,
               enforcePortfolio := data.enforcePortfolio.GetOr(!counterfactual),
               enforceOverlap := data.enforceOverlap.GetOr(!counterfactual),
               allowOverlapping := data.allowOverlapping.GetOr(counterfactual))
  }

  ghost predicate Blank(a: Option<string>) {
    a == None || a == Some("")
  }

  /** A run is counterfactual when the first purpose given, or the simulation type, asks for it. */
  ghost predicate AsksForCounterfactual(data: Payload) {
    || data.replayPurpose == Some(COUNTERFACTUAL)
    || (Blank(data.replayPurpose) && data.purpose == Some(COUNTERFACTUAL))
    || data.simulationType == Some(COUNTERFACTUAL)
  }

  /** What a payload asks for, exactly; flags it leaves open are on for portfolio runs and off for
      counterfactual ones, the permission to overlap the other way round. */
  lemma PayloadExactly(data: Payload)
    ensures var cfg, asked := FromPayload(data), AsksForCounterfactual(data);
            && (cfg.purpose == Counterfactual <==> asked)
            && cfg.enforcePortfolio == (if data.enforcePortfolio == None then !asked else data.enforcePortfolio.value)
            && cfg.enforceOverlap == (if data.enforceOverlap == None then !asked else data.enforceOverlap.value)
            && cfg.allowOverlapping == (if data.allowOverlapping == None then asked else data.allowOverlapping.value)
            && data.rest == cfg.(purpose := data.rest.purpose, enforcePortfolio := data.rest.enforcePortfolio,
                                 enforceOverlap := data.rest.enforceOverlap,
                                 allowOverlapping := data.rest.allowOverlapping)
  {
  }

  /** Asking for a counterfactual run through any of the three keys, with the enforcement flags left
      alone, yields exactly the observing configuration of the same market rules. */
  lemma CounterfactualPayload(data: Payload, data': Payload)
    requires data'.rest == data.rest && data'.enforcePortfolio.None? && data'.enforceOverlap.None?
    requires || data'.replayPurpose == Some(COUNTERFACTUAL)
             || (Text(data'.replayPurpose, "") == "" && data'.purpose == Some(COUNTERFACTUAL))
             || data'.simulationType == Some(COUNTERFACTUAL)
    ensures SameMarketRules(FromPayload(data), FromPayload(data')) && ObservesOnly(FromPayload(data'))
  {
  }

  /** So runs asked for through payloads relate as the two purposes do: every row differs only where a
      portfolio rule blocked it, and what the portfolio takes was observed. */
  lemma PayloadRunsRefine(candidates: seq<Candidate>, tape: Tape, data: Payload, data': Payload, i: nat)
    requires data'.rest == data.rest && data'.enforcePortfolio.None? && data'.enforceOverlap.None?
    requires || data'.replayPurpose == Some(COUNTERFACTUAL)
             || (Text(data'.replayPurpose, "") == "" && data'.purpose == Some(COUNTERFACTUAL))
             || data'.simulationType == Some(COUNTERFACTUAL)
    requires i < |Selected(candidates, FromPayload(data))|
    ensures Selected(candidates, FromPayload(data')) == Selected(candidates, FromPayload(data))
    ensures var p, q := FromPayload(data), FromPayload(data');
            var mine := RunRows(Selected(candidates, p), tape, p)[i];
            var theirs := RunRows(Selected(candidates, q), tape, q)[i];
            && mine.c == theirs.c
            && (mine.outcome == theirs.outcome || (mine.outcome.Skipped? && PortfolioReason(mine.outcome.reason)))
            && (mine.outcome.Taken? ==> theirs.outcome == mine.outcome)
  {
    CounterfactualPayload(data, data');
    hide FromPayload, RunRows, Selected, SameMarketRules, ObservesOnly, PortfolioReason;
    PortfolioRefinesCounterfactual(candidates, tape, FromPayload(data), FromPayload(data'), i);
  }

  // ----- order independence

  lemma SeriesPermutation(bars: seq<Bar>, bars': seq<Bar>, key: SeriesKey)
    requires multiset(bars) == multiset(bars')
    requires DistinctKeys(Filter(bars, OfSeries(key)), BarTime())
    ensures SeriesBars(bars, key) == SeriesBars(bars', key)
  {
    IntOrder();
    FilterPermutation(bars, bars', OfSeries(key));
    SortPermutation(Filter(bars, OfSeries(key)), Filter(bars', OfSeries(key)), BarTime(), IntLe());
  }

  lemma {:induction false} SameSeriesSameRows(cs: seq<Candidate>, tape: Tape, tape': Tape, cfg: ReplayConfig)
    requires tape.features == tape'.features
    requires forall key :: SeriesBars(tape.bars, key) == SeriesBars(tape'.bars, key)
    ensures RunRows(cs, tape, cfg) == RunRows(cs, tape', cfg)
  {
    hide Simulate, SeriesBars, FeatureAt, Preflight, Seen;
    if cs != [] {
      SameSeriesSameRows(cs[..|cs| - 1], tape, tape', cfg);
    }
  }

  /** Reordering candidates with distinct priorities, or bars with distinct times in each series,
      changes no row of the run. */
  lemma OrderDoesNotMatter(candidates: seq<Candidate>, candidates': seq<Candidate>, tape: Tape, tape': Tape,
                           cfg: ReplayConfig)
    requires multiset(candidates) == multiset(candidates') && multiset(tape.bars) == multiset(tape'.bars)
    requires tape.features == tape'.features
    requires DistinctKeys(Filter(candidates, Selectable(cfg)), PriorityOf())
    requires forall key :: DistinctKeys(Filter(tape.bars, OfSeries(key)), BarTime())
    ensures RunRows(Selected(candidates, cfg), tape, cfg) == RunRows(Selected(candidates', cfg), tape', cfg)
  {
    hide RunRows, SeriesBars;
    PriorityTotal();
    FilterPermutation(candidates, candidates', Selectable(cfg));
    SortPermutation(Filter(candidates, Selectable(cfg)), Filter(candidates', Selectable(cfg)), PriorityOf(),
                    PriorityOrder());
    forall key
      ensures SeriesBars(tape.bars, key) == SeriesBars(tape'.bars, key)
    {
      SeriesPermutation(tape.bars, tape'.bars, key);
    }
    SameSeriesSameRows(Selected(candidates, cfg), tape, tape', cfg);
  }
}
