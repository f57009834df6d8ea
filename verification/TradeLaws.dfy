/** Every number of a simulated trade, written out against the candidate, its bars and the configuration. */
module TradeLaws {
  import opened Common
  import opened Market
  import opened Simulation
  import opened ExitRules

  // ----- entry

  /** The entry bar follows the first bar stamped at the signal. */
  ghost predicate EntersAt(c: Candidate, bars: seq<Bar>, at: nat) {
    && 0 < at < |bars| && bars[at - 1].ts == c.ts
    && forall j :: 0 <= j < at - 1 ==> bars[j].ts != c.ts
  }

  lemma EntersAtIndex(c: Candidate, bars: seq<Bar>, at: nat)
    ensures EntersAt(c, bars, at) ==> at < |bars|
    ensures EntersAt(c, bars, at) <==> at == IndexAt(bars, c.ts) + 1 < |bars|
  {
  }

  /** Entry price: the open plus (for a long) or less (for a short) slippage and half the spread. */
  ghost predicate EntryIs(c: Candidate, bar: Bar, cfg: ReplayConfig, entry: real) {
    var cost := bar.open * (cfg.slippageBps + cfg.spreadBps / 2.0) / 10000.0;
    entry == if c.side == LONG then bar.open + cost else bar.open - cost
  }

  lemma EntryIsPrice(c: Candidate, bar: Bar, cfg: ReplayConfig, entry: real)
    ensures EntryIs(c, bar, cfg, entry) <==> entry == EntryPrice(bar.open, c.side == LONG, cfg)
  {
    var bps := cfg.slippageBps + cfg.spreadBps / 2.0;
    assert bar.open * (bps / 10000.0) == bar.open * bps / 10000.0;
  }

  // ----- the stop

  /** The first alternative that is neither missing nor zero, and otherwise the last. */
  ghost predicate FirstNonZero(xs: seq<Option<real>>, v: real) {
    exists k :: 0 <= k < |xs| && xs[k] == Some(v) && (v != 0.0 || k == |xs| - 1)
      && forall m :: 0 <= m < k ==> xs[m] == None || xs[m] == Some(0.0)
  }

  function AtrSources(c: Candidate, feature: Option<Feature>, entry: real): seq<Option<real>> {
    [if feature.Some? then feature.value.atr14 else None, if feature.Some? then feature.value.atr14Proxy else None,
     c.contextAtr14, Some(entry / 500.0)]
  }

  /** The range: the feature row's, its proxy, the candidate's, or a fifth of a percent of the entry; at
      least a tenth of a percent. */
  ghost predicate RangeIs(c: Candidate, feature: Option<Feature>, entry: real, atr: real) {
    exists v :: FirstNonZero(AtrSources(c, feature, entry), v)
      && atr == if v >= entry / 1000.0 then v else entry / 1000.0
  }

  lemma FirstNonZeroIs(a: Option<real>, b: Option<real>, c: Option<real>, d: real)
    ensures forall v :: FirstNonZero([a, b, c, Some(d)], v) <==> v == Or(Or(a, b), Or(c, Some(d))).GetOr(0.0)
  {
    var xs, v := [a, b, c, Some(d)], Or(Or(a, b), Or(c, Some(d))).GetOr(0.0);
    var k := if a.Some? && a.value != 0.0 then 0 else if b.Some? && b.value != 0.0 then 1
             else if c.Some? && c.value != 0.0 then 2 else 3;
    assert xs[k] == Some(v) && forall m :: 0 <= m < k ==> xs[m] == None || xs[m] == Some(0.0);
  }

  lemma RangeIsAtr(c: Candidate, feature: Option<Feature>, entry: real, atr: real)
    ensures RangeIs(c, feature, entry, atr) <==> atr == Atr(c, feature, entry)
  {
    var xs := AtrSources(c, feature, entry);
    FirstNonZeroIs(xs[0], xs[1], xs[2], entry / 500.0);
    assert xs == [xs[0], xs[1], xs[2], Some(entry / 500.0)];
    hide FirstNonZero;
    var v := Or(Or(xs[0], xs[1]), Or(xs[2], Some(entry / 500.0))).GetOr(0.0);
    assert FirstNonZero(xs, v);
    assert Atr(c, feature, entry) == if v >= entry / 1000.0 then v else entry / 1000.0;
  }

  /** The least low of the last ten bars up to the entry bar. */
  ghost predicate RecentLow(bars: seq<Bar>, at: nat, v: real) {
    && (exists k :: 0 <= k < |bars| && at - 10 < k <= at && bars[k].low == v)
    && forall k :: 0 <= k < |bars| && at - 10 < k <= at ==> v <= bars[k].low
  }

  ghost predicate RecentHigh(bars: seq<Bar>, at: nat, v: real) {
    && (exists k :: 0 <= k < |bars| && at - 10 < k <= at && bars[k].high == v)
    && forall k :: 0 <= k < |bars| && at - 10 < k <= at ==> v >= bars[k].high
  }

  ghost predicate IsLeast(xs: seq<real>, v: real) {
    v in xs && forall x :: x in xs ==> v <= x
  }

  ghost predicate IsMost(xs: seq<real>, v: real) {
    v in xs && forall x :: x in xs ==> v >= x
  }

  lemma ExtremesAre(xs: seq<real>, v: real)
    requires xs != []
    ensures IsLeast(xs, v) <==> v == Lowest(xs)
    ensures IsMost(xs, v) <==> v == Highest(xs)
  {
    LowestIsBelow(xs);
    HighestIsAbove(xs);
  }

  /** The last ten bars up to the entry bar, by index. */
  lemma LastTen(bars: seq<Bar>, at: nat) returns (first: nat)
    requires at < |bars|
    ensures var recent := LastN(bars[..at + 1], 10);
            first <= at && first > at - 10 && (first == 0 || first == at - 9)
            && |recent| == at + 1 - first && forall k :: 0 <= k < |recent| ==> recent[k] == bars[first + k]
  {
    first := if at < 10 then 0 else at - 9;
  }

  lemma RecentLowIs(bars: seq<Bar>, at: nat, v: real)
    requires at < |bars|
    ensures RecentLow(bars, at, v) <==> v == Lowest(Map(LastN(bars[..at + 1], 10), LowOf()))
  {
    var lows := Map(LastN(bars[..at + 1], 10), LowOf());
    var first := LastTen(bars, at);
    ExtremesAre(lows, v);
    hide Lowest, Highest, LastN, Map, IsMost;
    if RecentLow(bars, at, v) {
      var k :| 0 <= k < |bars| && at - 10 < k <= at && bars[k].low == v;
      assert lows[k - first] == v;
      assert forall m :: 0 <= m < |lows| ==> lows[m] == bars[first + m].low;
    }
    if IsLeast(lows, v) {
      var m :| 0 <= m < |lows| && lows[m] == v;
      assert bars[first + m].low == v;
      forall k | 0 <= k < |bars| && at - 10 < k <= at
        ensures v <= bars[k].low
      {
        assert lows[k - first] in lows;
      }
    }
  }

  lemma RecentHighIs(bars: seq<Bar>, at: nat, v: real)
    requires at < |bars|
    ensures RecentHigh(bars, at, v) <==> v == Highest(Map(LastN(bars[..at + 1], 10), HighOf()))
  {
    var highs := Map(LastN(bars[..at + 1], 10), HighOf());
    var first := LastTen(bars, at);
    ExtremesAre(highs, v);
    hide Lowest, Highest, LastN, Map, IsLeast;
    if RecentHigh(bars, at, v) {
      var k :| 0 <= k < |bars| && at - 10 < k <= at && bars[k].high == v;
      assert highs[k - first] == v;
      assert forall m :: 0 <= m < |highs| ==> highs[m] == bars[first + m].high;
    }
    if IsMost(highs, v) {
      var m :| 0 <= m < |highs| && highs[m] == v;
      assert bars[first + m].high == v;
      forall k | 0 <= k < |bars| && at - 10 < k <= at
        ensures v >= bars[k].high
      {
        assert highs[k - first] in highs;
      }
    }
  }

  /** The levels a stop may rest on. */
  ghost predicate Known(c: Candidate, feature: Option<Feature>, bars: seq<Bar>, at: nat, entry: real, v: real) {
    if c.side == LONG then
      || Some(v) == c.openingRangeLow || Some(v) == c.premarketLow || Some(v) == c.previousDayLow || Some(v) == c.vwap
      || RangeIs(c, feature, entry, entry - v) || RecentLow(bars, at, v)
    else
      || Some(v) == c.openingRangeHigh || Some(v) == c.premarketHigh || Some(v) == c.previousDayHigh
      || Some(v) == c.vwap || RangeIs(c, feature, entry, v - entry) || RecentHigh(bars, at, v)
  }

  lemma KnownAreLevels(c: Candidate, feature: Option<Feature>, bars: seq<Bar>, at: nat, entry: real, v: real)
    requires at < |bars|
    ensures Known(c, feature, bars, at, entry, v) <==> Some(v) in StopLevels(c, feature, bars[..at + 1], entry)
  {
    var recent := LastN(bars[..at + 1], 10);
    RecentLowIs(bars, at, v);
    RecentHighIs(bars, at, v);
    RangeIsAtr(c, feature, entry, entry - v);
    RangeIsAtr(c, feature, entry, v - entry);
    hide RecentLow, RecentHigh, RangeIs, Atr, Lowest, Highest, LastN;
    var levels := StopLevels(c, feature, bars[..at + 1], entry);
    assert recent != [] by { LastNFull(bars[..at + 1]); }
    var extreme := if c.side == LONG then Lowest(Map(recent, LowOf())) else Highest(Map(recent, HighOf()));
    var atr := Atr(c, feature, entry);
    assert c.side == LONG ==> levels == [c.openingRangeLow, c.premarketLow, c.previousDayLow, c.vwap,
                                         Some(entry - atr), Some(extreme)];
    assert c.side != LONG ==> levels == [c.openingRangeHigh, c.premarketHigh, c.previousDayHigh, c.vwap,
                                         Some(entry + atr), Some(extreme)];
  }

  lemma LastNFull(past: seq<Bar>)
    requires past != []
    ensures LastN(past, 10) != []
  {
  }

  /** The nearest known level on the losing side of the entry, if there is one. */
  ghost predicate Nearest(c: Candidate, feature: Option<Feature>, bars: seq<Bar>, at: nat, entry: real,
                          stop: Option<real>) {
    if c.side == LONG then
      && (stop.Some? ==> stop.value < entry && Known(c, feature, bars, at, entry, stop.value))
      && forall v :: Known(c, feature, bars, at, entry, v) && v < entry ==> stop.Some? && v <= stop.value
    else
      && (stop.Some? ==> stop.value > entry && Known(c, feature, bars, at, entry, stop.value))
      && forall v :: Known(c, feature, bars, at, entry, v) && v > entry ==> stop.Some? && v >= stop.value
  }

  lemma NearestIs(c: Candidate, feature: Option<Feature>, bars: seq<Bar>, at: nat, entry: real, stop: Option<real>)
    requires at < |bars|
    ensures var levels := StopLevels(c, feature, bars[..at + 1], entry);
            Nearest(c, feature, bars, at, entry, stop) <==>
              stop == if c.side == LONG then NearestBelow(levels, entry) else NearestAbove(levels, entry)
  {
    var levels := StopLevels(c, feature, bars[..at + 1], entry);
    hide Known, StopLevels;
    forall v
      ensures Known(c, feature, bars, at, entry, v) <==> Some(v) in levels
    {
      KnownAreLevels(c, feature, bars, at, entry, v);
    }
    if c.side == LONG {
      NearestBelowIs(levels, entry, stop);
    } else {
      NearestAboveIs(levels, entry, stop);
    }
    hide NearestBelow, NearestAbove;
  }

  lemma NearestBelowIs(levels: seq<Option<real>>, entry: real, stop: Option<real>)
    ensures stop == NearestBelow(levels, entry) <==>
              && (stop.Some? ==> stop.value < entry && Some(stop.value) in levels)
              && forall v :: Some(v) in levels && v < entry ==> stop.Some? && v <= stop.value
  {
    NearestBelowIsNearest(levels, entry);
    hide NearestBelow;
  }

  lemma NearestAboveIs(levels: seq<Option<real>>, entry: real, stop: Option<real>)
    ensures stop == NearestAbove(levels, entry) <==>
              && (stop.Some? ==> stop.value > entry && Some(stop.value) in levels)
              && forall v :: Some(v) in levels && v > entry ==> stop.Some? && v >= stop.value
  {
    NearestAboveIsNearest(levels, entry);
    hide NearestAbove;
  }

  /** The stop: the candidate's own, half a percent away in the fixed mode, or the nearest known level. */
  ghost predicate StopIs(c: Candidate, feature: Option<Feature>, bars: seq<Bar>, at: nat, entry: real,
                         cfg: ReplayConfig, stop: Option<real>) {
    if c.stopPrice.Some? then stop == c.stopPrice
    else if cfg.stopMode == "fixed_risk" then
      stop == if c.side == LONG then Some(entry - entry / 200.0) else Some(entry + entry / 200.0)
    else Nearest(c, feature, bars, at, entry, stop)
  }

  lemma StopIsPrice(c: Candidate, feature: Option<Feature>, bars: seq<Bar>, at: nat, entry: real, cfg: ReplayConfig,
                    stop: Option<real>)
    requires at < |bars|
    ensures StopIs(c, feature, bars, at, entry, cfg, stop) <==>
              stop == StopPrice(c, feature, bars[..at + 1], entry, cfg)
  {
    NearestIs(c, feature, bars, at, entry, stop);
    hide Nearest, NearestAbove, NearestBelow, StopLevels;
  }

  // ----- risk and targets

  /** What a target is worth: the candidate's own price when all three are given and asked for, else the
      configured multiple of the risk, counted from the entry in the trade's direction. */
  ghost predicate TargetIs(c: Candidate, own: Option<real>, multiple: real, entry: real, risk: real,
                           cfg: ReplayConfig, target: real) {
    if cfg.targetMode == "candidate_targets" && c.target1 != None && c.target2 != None && c.target3 != None
    then own == Some(target)
    else target == if c.side == LONG then entry + multiple * risk else entry - multiple * risk
  }

  /** Entry, stop, risk and targets of an accepted plan. */
  ghost predicate PlanIs(c: Candidate, feature: Option<Feature>, bars: seq<Bar>, at: nat, cfg: ReplayConfig,
                         lv: Levels)
    requires at < |bars|
  {
    && (lv.long <==> c.side == LONG)
    && EntryIs(c, bars[at], cfg, lv.entry)
    && StopIs(c, feature, bars, at, lv.entry, cfg, Some(lv.stop))
    && lv.risk == (if c.side == LONG then lv.entry - lv.stop else lv.stop - lv.entry)
    && TargetIs(c, c.target1, cfg.target1R, lv.entry, lv.risk, cfg, lv.target1)
    && TargetIs(c, c.target2, cfg.target2R, lv.entry, lv.risk, cfg, lv.target2)
    && TargetIs(c, c.target3, cfg.target3R, lv.entry, lv.risk, cfg, lv.target3)
    && Reward(c, lv.entry, lv.target2) >= cfg.minimumRewardRisk * lv.risk
  }

  /** Distance from entry to target in the trade's direction. */
  ghost function Reward(c: Candidate, entry: real, target: real): real {
    if c.side == LONG then target - entry else entry - target
  }

  lemma LevelsAreTargets(c: Candidate, entry: real, stop: real, risk: Risk, cfg: ReplayConfig)
    ensures var lv := LevelsFor(c, entry, stop, risk, cfg);
            && lv.long == (c.side == LONG) && lv.entry == entry && lv.stop == stop && lv.risk == risk
            && TargetIs(c, c.target1, cfg.target1R, entry, risk, cfg, lv.target1)
            && TargetIs(c, c.target2, cfg.target2R, entry, risk, cfg, lv.target2)
            && TargetIs(c, c.target3, cfg.target3R, entry, risk, cfg, lv.target3)
  {
  }

  lemma RewardRatio(c: Candidate, lv: Levels, minimum: real)
    requires lv.long == (c.side == LONG)
    ensures RMultiple(lv, lv.target2) < minimum <==> Reward(c, lv.entry, lv.target2) < minimum * lv.risk
  {
    var r := RMultiple(lv, lv.target2);
    assert r * lv.risk == Reward(c, lv.entry, lv.target2);
    assert r < minimum ==> r * lv.risk < minimum * lv.risk;
    assert r > minimum ==> r * lv.risk > minimum * lv.risk;
  }

  /** A plan is accepted exactly when it risks something and aims far enough; the refusals say which. */
  lemma PlanFromExactly(c: Candidate, entry: real, stop: Option<real>, cfg: ReplayConfig, target: real)
    requires var risk := if stop.None? then 0.0 else if c.side == LONG then entry - stop.value else stop.value - entry;
             TargetIs(c, c.target2, cfg.target2R, entry, risk, cfg, target)
    ensures var plan := PlanFrom(c, entry, stop, cfg);
            var risk := if stop.None? then 0.0 else if c.side == LONG then entry - stop.value else stop.value - entry;
            && (plan == NoPlan(InvalidRiskPlan) <==> risk <= 0.0)
            && (plan == NoPlan(InsufficientRewardRisk) <==>
                  risk > 0.0 && Reward(c, entry, target) < cfg.minimumRewardRisk * risk)
            && (plan.Accepted? ==> plan.levels == LevelsFor(c, entry, stop.value, risk, cfg))
  {
    if stop.Some? {
      var risk := if c.side == LONG then entry - stop.value else stop.value - entry;
      if risk > 0.0 {
        LevelsAreTargets(c, entry, stop.value, risk, cfg);
        var lv := LevelsFor(c, entry, stop.value, risk, cfg);
        assert lv.target2 == target by { hide LevelsFor; }
        RewardRatio(c, lv, cfg.minimumRewardRisk);
        hide RMultiple, LevelsFor, TargetIs;
      }
    }
  }

  // ----- skips

  /** Too little context to trade on. */
  ghost predicate PoorContext(feature: Option<Feature>, cfg: ReplayConfig) {
    cfg.noTradeOnInsufficientContext && feature.Some? && feature.value.insufficientFlags >= 4
  }

  lemma WindowOpens(bars: seq<Bar>, at: nat, cfg: ReplayConfig)
    requires InTimeOrder(bars) && at < |bars|
    ensures Window(bars, at, cfg) == [] <==> cfg.maxHoldMinutes < 0
  {
    WindowShape(bars, at, cfg);
    hide Window, InTimeOrder;
    var w := Window(bars, at, cfg);
    assert w != [] ==> w[0] == bars[at];
  }

  /** No trade for want of context, of an entry bar or of time, each exactly. */
  lemma SkippedBeforePlanning(c: Candidate, bars: seq<Bar>, feature: Option<Feature>, cfg: ReplayConfig)
    requires InTimeOrder(bars)
    ensures var o := Simulate(c, bars, feature, cfg);
            var poor, enters := PoorContext(feature, cfg), exists at: nat :: EntersAt(c, bars, at);
            && (o == Skipped(InsufficientContext) <==> poor)
            && (o == Skipped(MissingEntryBar) <==> !poor && !enters)
            && (o == Skipped(NoFutureBars) <==> !poor && enters && cfg.maxHoldMinutes < 0)
  {
    EntersSomewhere(c, bars);
    hide EntersAt, IndexAt, Window, PlanRisk, RunToExit, InTimeOrder;
    if IndexAt(bars, c.ts) + 1 < |bars| {
      WindowOpens(bars, IndexAt(bars, c.ts) + 1, cfg);
    }
  }

  lemma EntersSomewhere(c: Candidate, bars: seq<Bar>)
    ensures (exists at: nat :: EntersAt(c, bars, at)) <==> IndexAt(bars, c.ts) + 1 < |bars|
  {
    hide EntersAt, IndexAt;
    forall at: nat
      ensures EntersAt(c, bars, at) <==> at == IndexAt(bars, c.ts) + 1 < |bars|
    {
      EntersAtIndex(c, bars, at);
    }
    assert IndexAt(bars, c.ts) + 1 < |bars| ==> EntersAt(c, bars, IndexAt(bars, c.ts) + 1);
  }

  /** No trade for want of a plan, each refusal exactly, given entry, stop and second target. */
  lemma SkippedByPlan(c: Candidate, bars: seq<Bar>, feature: Option<Feature>, cfg: ReplayConfig, at: nat, entry: real,
                      stop: Option<real>, target: real)
    requires InTimeOrder(bars) && EntersAt(c, bars, at) && !PoorContext(feature, cfg) && cfg.maxHoldMinutes >= 0
    requires EntryIs(c, bars[at], cfg, entry) && StopIs(c, feature, bars, at, entry, cfg, stop)
    requires var risk := if stop.None? then 0.0 else if c.side == LONG then entry - stop.value else stop.value - entry;
             TargetIs(c, c.target2, cfg.target2R, entry, risk, cfg, target)
    ensures var o := Simulate(c, bars, feature, cfg);
            var risk := if stop.None? then 0.0 else if c.side == LONG then entry - stop.value else stop.value - entry;
            && (o == Skipped(InvalidRiskPlan) <==> risk <= 0.0)
            && (o == Skipped(InsufficientRewardRisk) <==>
                  risk > 0.0 && Reward(c, entry, target) < cfg.minimumRewardRisk * risk)
            && (o.Taken? <==> risk > 0.0 && Reward(c, entry, target) >= cfg.minimumRewardRisk * risk)
  {
    PlanAt(c, bars, feature, cfg, at, entry, stop);
    PlanFromExactly(c, entry, stop, cfg, target);
    WindowOpens(bars, at, cfg);
    EntersAtIndex(c, bars, at);
    hide EntersAt, IndexAt, Window, PlanRisk, PlanFrom, LevelsFor, RunToExit, InTimeOrder, EntryIs, StopIs, TargetIs,
      Reward;
  }

  lemma PlanAt(c: Candidate, bars: seq<Bar>, feature: Option<Feature>, cfg: ReplayConfig, at: nat, entry: real,
               stop: Option<real>)
    requires at < |bars| && EntryIs(c, bars[at], cfg, entry) && StopIs(c, feature, bars, at, entry, cfg, stop)
    ensures PlanRisk(c, bars[..at + 1], feature, cfg) == PlanFrom(c, entry, stop, cfg)
  {
    EntryIsPrice(c, bars[at], cfg, entry);
    StopIsPrice(c, feature, bars, at, entry, cfg, stop);
    hide EntryIs, StopIs, EntryPrice, StopPrice, PlanFrom;
    assert Last(bars[..at + 1]) == bars[at];
  }

  // ----- the trade

  lemma TradeAt(c: Candidate, bars: seq<Bar>, feature: Option<Feature>, cfg: ReplayConfig) returns (at: nat)
    requires Simulate(c, bars, feature, cfg).Taken?
    ensures EntersAt(c, bars, at) && Window(bars, at, cfg) != []
    ensures PlanRisk(c, bars[..at + 1], feature, cfg).Accepted?
    ensures Simulate(c, bars, feature, cfg).fill
         == RunToExit(Window(bars, at, cfg), PlanRisk(c, bars[..at + 1], feature, cfg).levels, bars[at].ts, cfg)
  {
    at := IndexAt(bars, c.ts) + 1;
    EntersAtIndex(c, bars, at);
    hide EntersAt, PlanRisk, Window, RunToExit, IndexAt;
  }

  lemma AcceptedIs(c: Candidate, bars: seq<Bar>, feature: Option<Feature>, cfg: ReplayConfig, at: nat)
    requires at < |bars| && PlanRisk(c, bars[..at + 1], feature, cfg).Accepted?
    ensures PlanIs(c, feature, bars, at, cfg, PlanRisk(c, bars[..at + 1], feature, cfg).levels)
  {
    var past := bars[..at + 1];
    assert Last(past) == bars[at];
    var entry := EntryPrice(bars[at].open, c.side == LONG, cfg);
    var stop := StopPrice(c, feature, past, entry, cfg);
    assert PlanRisk(c, past, feature, cfg) == PlanFrom(c, entry, stop, cfg);
    EntryIsPrice(c, bars[at], cfg, entry);
    StopIsPrice(c, feature, bars, at, entry, cfg, stop);
    hide EntryIs, StopIs, EntryPrice, StopPrice, PlanRisk;
    var risk := if c.side == LONG then entry - stop.value else stop.value - entry;
    var lv := LevelsFor(c, entry, stop.value, risk, cfg);
    LevelsAreTargets(c, entry, stop.value, risk, cfg);
    hide TargetIs, LevelsFor;
    RewardRatio(c, lv, cfg.minimumRewardRisk);
    hide RMultiple, Reward;
  }

  /** The plan behind every trade. */
  lemma TradePlan(c: Candidate, bars: seq<Bar>, feature: Option<Feature>, cfg: ReplayConfig) returns (at: nat)
    requires Simulate(c, bars, feature, cfg).Taken?
    ensures EntersAt(c, bars, at) && Simulate(c, bars, feature, cfg).fill.entryTs == bars[at].ts
    ensures PlanIs(c, feature, bars, at, cfg, Simulate(c, bars, feature, cfg).fill.levels)
  {
    at := TradeAt(c, bars, feature, cfg);
    AcceptedIs(c, bars, feature, cfg, at);
    RunStaysInWindow(Window(bars, at, cfg), PlanRisk(c, bars[..at + 1], feature, cfg).levels, bars[at].ts, cfg);
    hide Simulate, RunToExit, Window, PlanIs, PlanRisk, EntersAt;
  }

  // ----- the exit

  ghost predicate TouchesStop(bar: Bar, lv: Levels) {
    (lv.long && bar.low <= lv.stop) || (!lv.long && bar.high >= lv.stop)
  }

  ghost predicate TouchesTarget(bar: Bar, lv: Levels) {
    (lv.long && bar.high >= lv.target2) || (!lv.long && bar.low <= lv.target2)
  }

  /** The last bar of the regular session, which ends at 16:00, or one later still. */
  ghost predicate LastBell(bar: Bar, cfg: ReplayConfig) {
    cfg.closeAtSessionEnd && cfg.session == "rth" && bar.minuteEt >= 960 - bar.interval.minutes
  }

  /** Nothing happens on a bar the trade outlives. */
  ghost predicate Quiet(bar: Bar, f: Fill, cfg: ReplayConfig) {
    && !TouchesStop(bar, f.levels) && !TouchesTarget(bar, f.levels) && !LastBell(bar, cfg)
    && bar.ts < f.entryTs + cfg.maxHoldMinutes * 60_000_000
  }

  /** Reason and price on the exit bar. */
  ghost predicate Ends(out: Bar, f: Fill, cfg: ReplayConfig) {
    var stop, target := TouchesStop(out, f.levels), TouchesTarget(out, f.levels);
    var stopFirst := cfg.sameBarPolicy == "conservative_stop_first";
    var cost := out.close * (cfg.slippageBps + cfg.spreadBps / 2.0) / 10000.0;
    var late := out.ts == f.entryTs + cfg.maxHoldMinutes * 60_000_000;
    && f.exitTs == out.ts
    && (f.ambiguous <==> stop && target)
    && (f.reason == StopExit <==> stop && (!target || stopFirst))
    && (f.reason == TargetExit <==> target && (!stop || !stopFirst))
    && (f.reason == SessionExit <==> !stop && !target && LastBell(out, cfg))
    && (f.reason == TimeExit <==> !stop && !target && !LastBell(out, cfg) && late)
    && (f.reason == EndOfData <==> !stop && !target && !LastBell(out, cfg) && !late)
    && f.exitPrice == match f.reason
                      case StopExit => f.levels.stop
                      case TargetExit => f.levels.target2
                      case _ => if f.levels.long then out.close - cost else out.close + cost
  }

  lemma ExitPriceIs(close: real, long: bool, cfg: ReplayConfig)
    ensures var cost := close * (cfg.slippageBps + cfg.spreadBps / 2.0) / 10000.0;
            TimeExitPrice(close, long, cfg) == if long then close - cost else close + cost
  {
    var bps := cfg.slippageBps + cfg.spreadBps / 2.0;
    assert close * (bps / 10000.0) == close * bps / 10000.0;
  }

  lemma RunEnds(w: seq<Bar>, lv: Levels, entryTs: Time, cfg: ReplayConfig)
    requires w != [] && forall j :: 0 <= j < |w| ==> w[j].ts <= entryTs + cfg.maxHoldMinutes * 60_000_000
    ensures var f := RunToExit(w, lv, entryTs, cfg);
            && 0 < f.barsHeld <= |w|
            && Ends(w[f.barsHeld - 1], f, cfg)
            && (forall j :: 0 <= j < f.barsHeld - 1 ==> Quiet(w[j], f, cfg))
            && (f.reason == EndOfData ==> f.barsHeld == |w|)
  {
    var f := RunToExit(w, lv, entryTs, cfg);
    RunFollowsExitRule(w, lv, entryTs, cfg);
    RunStaysInWindow(w, lv, entryTs, cfg);
    hide RunToExit;
    RuleEnds(f, w, cfg);
    hide Ends;
  }

  lemma RuleEnds(f: Fill, w: seq<Bar>, cfg: ReplayConfig)
    requires 0 < f.barsHeld <= |w| && FollowsExitRule(f, w, cfg)
    requires f.exitTs == w[f.barsHeld - 1].ts <= f.entryTs + cfg.maxHoldMinutes * 60_000_000
    ensures Ends(w[f.barsHeld - 1], f, cfg)
  {
    ExitPriceIs(w[f.barsHeld - 1].close, f.levels.long, cfg);
    hide TimeExitPrice;
  }

  /** The bars a trade may use: from the entry bar on, up to the deadline. */
  ghost predicate Opens(w: seq<Bar>, bars: seq<Bar>, at: nat, limit: Time) {
    && w != [] && at + |w| <= |bars|
    && (forall j :: 0 <= j < |w| ==> w[j] == bars[at + j] && w[j].ts <= limit)
    && (at + |w| == |bars| || bars[at + |w|].ts > limit)
  }

  lemma WindowIsOpen(bars: seq<Bar>, at: nat, cfg: ReplayConfig)
    requires InTimeOrder(bars) && at < |bars| && Window(bars, at, cfg) != []
    ensures Opens(Window(bars, at, cfg), bars, at, bars[at].ts + cfg.maxHoldMinutes * 60_000_000)
  {
    WindowShape(bars, at, cfg);
    hide Window, InTimeOrder;
  }

  lemma TradeRun(c: Candidate, bars: seq<Bar>, feature: Option<Feature>, cfg: ReplayConfig, at: nat)
    returns (w: seq<Bar>)
    requires InTimeOrder(bars) && Simulate(c, bars, feature, cfg).Taken? && EntersAt(c, bars, at)
    ensures var f := Simulate(c, bars, feature, cfg).fill;
            && f.entryTs == bars[at].ts
            && Opens(w, bars, at, f.entryTs + cfg.maxHoldMinutes * 60_000_000)
            && f == RunToExit(w, f.levels, f.entryTs, cfg)
  {
    hide *;
    var at' := TradeAt(c, bars, feature, cfg);
    EntersAtIndex(c, bars, at);
    EntersAtIndex(c, bars, at');
    w := Window(bars, at, cfg);
    WindowIsOpen(bars, at, cfg);
    RunStaysInWindow(w, PlanRisk(c, bars[..at + 1], feature, cfg).levels, bars[at].ts, cfg);
  }

  /** A trade closes on the first bar that is not quiet, for the reason and at the price that bar gives; if
      every bar up to the deadline is quiet, on the last of them. */
  lemma TradeExit(c: Candidate, bars: seq<Bar>, feature: Option<Feature>, cfg: ReplayConfig, at: nat)
    requires InTimeOrder(bars) && Simulate(c, bars, feature, cfg).Taken? && EntersAt(c, bars, at)
    ensures var f := Simulate(c, bars, feature, cfg).fill;
            var end := at + f.barsHeld;
            && at < end <= |bars|
            && (forall j :: at <= j < end - 1 ==> Quiet(bars[j], f, cfg))
            && Ends(bars[end - 1], f, cfg)
            && (f.reason == EndOfData ==>
                  end == |bars| || bars[end].ts > f.entryTs + cfg.maxHoldMinutes * 60_000_000)
  {
    var w := TradeRun(c, bars, feature, cfg, at);
    var f := Simulate(c, bars, feature, cfg).fill;
    hide Simulate, EntersAt, InTimeOrder, RunToExit;
    RunEnds(w, f.levels, f.entryTs, cfg);
    hide Ends, Quiet;
    forall j | at <= j < at + f.barsHeld - 1
      ensures Quiet(bars[j], f, cfg)
    {
      assert bars[j] == w[j - at];
    }
  }

  /** Realised R, excursions and commission, times the risk: the excursions bound every bar held and are
      reached on one of them, or are zero. */
  ghost predicate Worth(f: Fill, bars: seq<Bar>, at: nat, cfg: ReplayConfig)
    requires at + f.barsHeld <= |bars|
  {
    var lv, end := f.levels, at + f.barsHeld;
    && f.realizedR * lv.risk
         == (if lv.long then f.exitPrice - lv.entry else lv.entry - f.exitPrice) - 2.0 * cfg.commissionPerShare
    && f.commission == 2.0 * cfg.commissionPerShare
    && f.mfe >= 0.0 >= f.mae
    && (forall j :: at <= j < end ==> BestOn(bars[j], lv) <= f.mfe * lv.risk)
    && (forall j :: at <= j < end ==> f.mae * lv.risk <= WorstOn(bars[j], lv))
    && (f.mfe == 0.0 || exists j :: at <= j < end && BestOn(bars[j], lv) == f.mfe * lv.risk)
    && (f.mae == 0.0 || exists j :: at <= j < end && WorstOn(bars[j], lv) == f.mae * lv.risk)
  }

  lemma WorthMoves(f: Fill, w: seq<Bar>, bars: seq<Bar>, at: nat, cfg: ReplayConfig)
    requires f.barsHeld <= |w| && at + |w| <= |bars| && forall j :: 0 <= j < |w| ==> w[j] == bars[at + j]
    requires Worth(f, w, 0, cfg)
    ensures Worth(f, bars, at, cfg)
  {
    hide BestOn, WorstOn;
    assert forall j :: at <= j < at + f.barsHeld ==> bars[j] == w[j - at];
    var lv := f.levels;
    if f.mfe != 0.0 {
      var j :| 0 <= j < f.barsHeld && BestOn(w[j], lv) == f.mfe * lv.risk;
      assert w[j] == bars[at + j];
    }
    if f.mae != 0.0 {
      var j :| 0 <= j < f.barsHeld && WorstOn(w[j], lv) == f.mae * lv.risk;
      assert w[j] == bars[at + j];
    }
  }

  /** What a trade was worth, and how long it was held. */
  lemma TradeWorth(c: Candidate, bars: seq<Bar>, feature: Option<Feature>, cfg: ReplayConfig, at: nat)
    requires InTimeOrder(bars) && Simulate(c, bars, feature, cfg).Taken? && EntersAt(c, bars, at)
    ensures var f := Simulate(c, bars, feature, cfg).fill;
            f.timeHeld == f.exitTs - f.entryTs && at + f.barsHeld <= |bars| && Worth(f, bars, at, cfg)
  {
    var w := TradeRun(c, bars, feature, cfg, at);
    var f := Simulate(c, bars, feature, cfg).fill;
    TimesInOrder(c, bars, feature, cfg);
    hide Simulate, EntersAt, InTimeOrder;
    RunPriced(w, f.levels, f.entryTs, cfg);
    hide RunToExit;
    HeldWorth(f, w[..f.barsHeld], cfg);
    hide Worth, BestR, WorstR, NetR;
    WorthMoves(f, w[..f.barsHeld], bars, at, cfg);
  }

  /** Money gained per share at the best and at the worst price of a bar. */
  ghost function BestOn(bar: Bar, lv: Levels): real {
    if lv.long then bar.high - lv.entry else lv.entry - bar.low
  }

  ghost function WorstOn(bar: Bar, lv: Levels): real {
    if lv.long then bar.low - lv.entry else lv.entry - bar.high
  }

  lemma BarWorth(bar: Bar, lv: Levels)
    ensures Favourable(lv, bar) * lv.risk == BestOn(bar, lv)
    ensures Adverse(lv, bar) * lv.risk == WorstOn(bar, lv)
  {
  }

  lemma TimesRisk(a: real, b: real, r: Risk)
    requires a <= b
    ensures a * r <= b * r
  {
  }

  lemma WorthBounds(held: seq<Bar>, lv: Levels, j: nat)
    requires j < |held|
    ensures BestOn(held[j], lv) <= BestR(lv, held) * lv.risk
    ensures WorstR(lv, held) * lv.risk <= WorstOn(held[j], lv)
  {
    ExcursionsAreExact(lv, held);
    hide BestR, WorstR, Favourable, Adverse, BestOn, WorstOn;
    assert held[j] in held;
    BarWorth(held[j], lv);
    TimesRisk(Favourable(lv, held[j]), BestR(lv, held), lv.risk);
    TimesRisk(WorstR(lv, held), Adverse(lv, held[j]), lv.risk);
  }

  lemma WorthReached(held: seq<Bar>, lv: Levels)
    ensures WorstR(lv, held) <= 0.0 <= BestR(lv, held)
    ensures BestR(lv, held) == 0.0
         || exists j :: 0 <= j < |held| && BestOn(held[j], lv) == BestR(lv, held) * lv.risk
    ensures WorstR(lv, held) == 0.0
         || exists j :: 0 <= j < |held| && WorstOn(held[j], lv) == WorstR(lv, held) * lv.risk
  {
    ExcursionsAreExact(lv, held);
    hide BestR, WorstR, Favourable, Adverse, BestOn, WorstOn;
    if BestR(lv, held) != 0.0 {
      var j :| 0 <= j < |held| && BestR(lv, held) == Favourable(lv, held[j]);
      BarWorth(held[j], lv);
    }
    if WorstR(lv, held) != 0.0 {
      var j :| 0 <= j < |held| && WorstR(lv, held) == Adverse(lv, held[j]);
      BarWorth(held[j], lv);
    }
  }

  lemma HeldWorth(f: Fill, held: seq<Bar>, cfg: ReplayConfig)
    requires f.barsHeld == |held| && f.mfe == BestR(f.levels, held) && f.mae == WorstR(f.levels, held)
    requires f.realizedR == NetR(f.levels, f.exitPrice, cfg) && f.commission == cfg.commissionPerShare * 2.0
    ensures Worth(f, held, 0, cfg)
  {
    NetWorth(f.levels, f.exitPrice, cfg);
    hide BestR, WorstR, NetR, BestOn, WorstOn;
    WorthReached(held, f.levels);
    forall j | 0 <= j < |held|
      ensures BestOn(held[j], f.levels) <= f.mfe * f.levels.risk
      ensures f.mae * f.levels.risk <= WorstOn(held[j], f.levels)
    {
      WorthBounds(held, f.levels, j);
    }
  }

  lemma RunPriced(w: seq<Bar>, lv: Levels, entryTs: Time, cfg: ReplayConfig)
    requires w != []
    ensures var f := RunToExit(w, lv, entryTs, cfg);
            && 0 < f.barsHeld <= |w| && f.levels == lv
            && f.realizedR == NetR(lv, f.exitPrice, cfg) && f.commission == cfg.commissionPerShare * 2.0
            && f.mfe == BestR(lv, w[..f.barsHeld]) && f.mae == WorstR(lv, w[..f.barsHeld])
  {
    hide NetR, BestR, WorstR, Settle, TimeExitPrice;
    assert w[..|w|] == w;
  }

  lemma NetWorth(lv: Levels, price: real, cfg: ReplayConfig)
    ensures NetR(lv, price, cfg) * lv.risk
         == (if lv.long then price - lv.entry else lv.entry - price) - 2.0 * cfg.commissionPerShare
  {
    var gross, fee := RMultiple(lv, price), cfg.commissionPerShare * 2.0 / lv.risk;
    assert fee * lv.risk == 2.0 * cfg.commissionPerShare;
    assert (gross - fee) * lv.risk == gross * lv.risk - fee * lv.risk;
  }
}
