/** Raising slippage or spread: the exit stays put and R never improves. */
module CostLaws {
  import opened Common
  import opened Market
  import opened Simulation
  import opened ExitRules
  import opened Economics

  ghost predicate ExplicitPlan(c: Candidate, cfg: ReplayConfig) {
    c.stopPrice.Some? && ExplicitTargets(c, cfg)
  }

  /** Two accepted plans for one candidate at two cost levels. */
  ghost predicate Paired(lv: Levels, lv': Levels) {
    && lv'.long == lv.long && lv'.stop == lv.stop && lv'.target2 == lv.target2
    && lv.risk == (if lv.long then lv.entry - lv.stop else lv.stop - lv.entry)
    && lv'.risk == (if lv.long then lv'.entry - lv.stop else lv.stop - lv'.entry)
    && lv.risk <= lv'.risk
  }

  lemma PlansArePaired(c: Candidate, past: seq<Bar>, feature: Option<Feature>, low: ReplayConfig, high: ReplayConfig)
    requires past != [] && Costlier(low, high) && ExplicitPlan(c, low) && Last(past).open >= 0.0
    requires PlanRisk(c, past, feature, low).Accepted? && PlanRisk(c, past, feature, high).Accepted?
    ensures Paired(PlanRisk(c, past, feature, low).levels, PlanRisk(c, past, feature, high).levels)
  {
    hide PlanRisk, RMultiple, EntryPrice;
    AcceptedPlan(c, past, feature, low);
    AcceptedPlan(c, past, feature, high);
    RiskGrows(low, high, Last(past).open, c.stopPrice.value, c.side == LONG);
  }

  /** The candidate aims at or beyond its own stop on the winning side: whether costs can help is
      decided here, before any bar is read. */
  predicate AimsOnSide(c: Candidate)
    requires c.stopPrice.Some? && c.target2.Some?
  {
    if c.side == LONG then c.target2.value >= c.stopPrice.value else c.target2.value <= c.stopPrice.value
  }

  /** Cheaper trading refuses nothing that dearer trading accepts, once the risk is positive. */
  lemma AcceptedCheaply(c: Candidate, past: seq<Bar>, feature: Option<Feature>, low: ReplayConfig, high: ReplayConfig)
    requires past != [] && Costlier(low, high) && ExplicitPlan(c, low) && Last(past).open >= 0.0
    requires AimsOnSide(c)
    requires PlanRisk(c, past, feature, high).Accepted?
    requires PlanRisk(c, past, feature, low) != NoPlan(InvalidRiskPlan)
    ensures PlanRisk(c, past, feature, low).Accepted?
  {
    hide EntryPrice, RMultiple;
    AcceptedPlan(c, past, feature, high);
    var lv' := PlanRisk(c, past, feature, high).levels;
    var long := c.side == LONG;
    var entry, stop := EntryPrice(Last(past).open, long, low), c.stopPrice.value;
    RiskGrows(low, high, Last(past).open, stop, long);
    var lv := LevelsFor(c, entry, stop, if long then entry - stop else stop - entry, low);
    RewardRiskFalls(lv, lv');
  }

  function Requiring(cfg: ReplayConfig, minimum: real): ReplayConfig {
    cfg.(minimumRewardRisk := minimum)
  }

  /** The levels of an explicit plan with positive risk. */
  function ExplicitLevels(c: Candidate, open: real, cfg: ReplayConfig): Levels
    requires ExplicitPlan(c, cfg) && ExplicitRisk(c, open, cfg) > 0.0
  {
    LevelsFor(c, EntryPrice(open, c.side == LONG, cfg), c.stopPrice.value, ExplicitRisk(c, open, cfg), cfg)
  }

  function ExplicitRisk(c: Candidate, open: real, cfg: ReplayConfig): real
    requires ExplicitPlan(c, cfg)
  {
    var entry := EntryPrice(open, c.side == LONG, cfg);
    if c.side == LONG then entry - c.stopPrice.value else c.stopPrice.value - entry
  }

  lemma PlanAsRequired(c: Candidate, past: seq<Bar>, feature: Option<Feature>, cfg: ReplayConfig, minimum: real)
    requires past != [] && ExplicitPlan(c, cfg) && ExplicitRisk(c, Last(past).open, cfg) > 0.0
    ensures var lv := ExplicitLevels(c, Last(past).open, cfg);
            PlanRisk(c, past, feature, Requiring(cfg, minimum)).Accepted? <==> RMultiple(lv, lv.target2) >= minimum
  {
    hide RMultiple, EntryPrice;
    var open, long := Last(past).open, c.side == LONG;
    var entry := EntryPrice(open, long, cfg);
    SameEntry(cfg, minimum, open, long);
    assert StopPrice(c, feature, past, entry, Requiring(cfg, minimum)) == c.stopPrice;
    assert LevelsFor(c, entry, c.stopPrice.value, ExplicitRisk(c, open, cfg), Requiring(cfg, minimum))
        == ExplicitLevels(c, open, cfg);
  }

  lemma SameEntry(cfg: ReplayConfig, minimum: real, open: real, long: bool)
    ensures EntryPrice(open, long, Requiring(cfg, minimum)) == EntryPrice(open, long, cfg)
  {
  }

  /** And the condition is exact: cheaper trading accepts whatever dearer trading accepts, for every
      required reward-to-risk, if and only if the candidate aims on its own side or the risk is the same. */
  lemma AcceptedCheaplyExactly(c: Candidate, past: seq<Bar>, feature: Option<Feature>, low: ReplayConfig,
                               high: ReplayConfig)
    requires past != [] && Costlier(low, high) && ExplicitPlan(c, low) && Last(past).open >= 0.0
    requires ExplicitRisk(c, Last(past).open, low) > 0.0
    ensures (forall m :: PlanRisk(c, past, feature, Requiring(high, m)).Accepted? ==>
                           PlanRisk(c, past, feature, Requiring(low, m)).Accepted?)
       <==> AimsOnSide(c) || ExplicitRisk(c, Last(past).open, low) == ExplicitRisk(c, Last(past).open, high)
  {
    hide RMultiple, EntryPrice, PlanRisk, Requiring, TargetOnSide;
    var open := Last(past).open;
    RiskGrows(low, high, open, c.stopPrice.value, c.side == LONG);
    var lv, lv' := ExplicitLevels(c, open, low), ExplicitLevels(c, open, high);
    SidesAgree(c, lv);
    RewardRiskFalls(lv, lv');
    var reward, reward' := RMultiple(lv, lv.target2), RMultiple(lv', lv'.target2);
    forall m
      ensures PlanRisk(c, past, feature, Requiring(low, m)).Accepted? <==> reward >= m
      ensures PlanRisk(c, past, feature, Requiring(high, m)).Accepted? <==> reward' >= m
    {
      PlanAsRequired(c, past, feature, low, m);
      PlanAsRequired(c, past, feature, high, m);
    }
    assert PlanRisk(c, past, feature, Requiring(high, reward')).Accepted?;
  }

  lemma SidesAgree(c: Candidate, lv: Levels)
    requires c.stopPrice == Some(lv.stop) && c.target2 == Some(lv.target2) && lv.long == (c.side == LONG)
    ensures AimsOnSide(c) <==> TargetOnSide(lv)
  {
  }

  /** Asking for a reward-to-risk of at least -1 admits only candidates that aim on their own side. */
  lemma RequiredRewardAims(c: Candidate, bars: seq<Bar>, feature: Option<Feature>, cfg: ReplayConfig)
    requires ExplicitPlan(c, cfg) && cfg.minimumRewardRisk >= -1.0
    ensures Simulate(c, bars, feature, cfg).Taken? ==> AimsOnSide(c)
  {
    hide PlanRisk, RunToExit, RMultiple, IndexAt, Window;
    if Simulate(c, bars, feature, cfg).Taken? {
      var past := bars[..IndexAt(bars, c.ts) + 2];
      AcceptedPlan(c, past, feature, cfg);
      TargetBeyondStop(PlanRisk(c, past, feature, cfg).levels, cfg);
    }
  }

  lemma TargetBeyondStop(lv: Levels, cfg: ReplayConfig)
    requires RMultiple(lv, lv.target2) >= cfg.minimumRewardRisk >= -1.0
    requires lv.risk == if lv.long then lv.entry - lv.stop else lv.stop - lv.entry
    ensures TargetOnSide(lv)
  {
    RFromStop(lv, lv.target2);
    var d := if lv.long then lv.target2 - lv.stop else lv.stop - lv.target2;
    assert (d / lv.risk) * lv.risk == d;
    SignOfFactor(d / lv.risk, lv.risk);
  }

  lemma SettleIgnoresEntry(bar: Bar, lv: Levels, lv': Levels, low: ReplayConfig, high: ReplayConfig)
    requires Costlier(low, high) && Paired(lv, lv')
    ensures Settle(bar, lv', high).reason == Settle(bar, lv, low).reason
    ensures Settle(bar, lv', high).ambiguous == Settle(bar, lv, low).ambiguous
  {
  }

  lemma SameExit(w: seq<Bar>, lv: Levels, lv': Levels, entryTs: Time, low: ReplayConfig, high: ReplayConfig)
    requires w != [] && Costlier(low, high) && Paired(lv, lv')
    ensures var f, f' := RunToExit(w, lv, entryTs, low), RunToExit(w, lv', entryTs, high);
            f'.exitTs == f.exitTs && f'.reason == f.reason && f'.barsHeld == f.barsHeld && f'.ambiguous == f.ambiguous
  {
    hide ExitOffset, Settle, NetR, BestR, WorstR, TimeExitPrice;
    OffsetIgnoresEntry(w, lv, lv', entryTs, low, high);
    var k := ExitOffset(w, lv, entryTs, low);
    if k < |w| {
      SettleIgnoresEntry(w[k], lv, lv', low, high);
    }
  }

  /** A run that was not stopped out never touched the stop, least of all on its entry bar. */
  lemma StopUntouched(w: seq<Bar>, lv: Levels, entryTs: Time, cfg: ReplayConfig, j: nat)
    requires w != [] && j < RunToExit(w, lv, entryTs, cfg).barsHeld <= |w|
    requires !RunToExit(w, lv, entryTs, cfg).reason.StopExit? && !RunToExit(w, lv, entryTs, cfg).reason.TargetExit?
    ensures !StopHit(lv, w[j])
  {
    hide RMultiple, TimeExitPrice, NetR, BestR, WorstR;
    RunFollowsExitRule(w, lv, entryTs, cfg);
  }

  /** How far a price lies beyond the stop, on the trade's side. */
  function Beyond(lv: Levels, price: real): real {
    if lv.long then price - lv.stop else lv.stop - price
  }

  /** The two commissions of a round trip, per share. */
  function Fee(cfg: ReplayConfig): real {
    cfg.commissionPerShare * 2.0
  }

  /** Realised R at any price: stop distances beyond the stop after the fee, less one. */
  lemma NetFromStop(lv: Levels, price: real, cfg: ReplayConfig)
    requires lv.risk == if lv.long then lv.entry - lv.stop else lv.stop - lv.entry
    ensures NetR(lv, price, cfg) == (Beyond(lv, price) - Fee(cfg)) / lv.risk - 1.0
  {
    RFromStop(lv, price);
    DivideDifference(Beyond(lv, price), Fee(cfg), lv.risk);
  }

  /** At an exit price fixed beforehand, dearer trading is no better exactly when the risk is the same
      or the price lies at least the fee beyond the stop. */
  lemma FixedPriceCompares(lv: Levels, lv': Levels, price: real, low: ReplayConfig, high: ReplayConfig)
    requires Costlier(low, high) && Paired(lv, lv')
    ensures NetR(lv', price, high) <= NetR(lv, price, low) <==> lv.risk == lv'.risk || Beyond(lv, price) >= Fee(low)
  {
    hide NetR;
    NetFromStop(lv, price, low);
    NetFromStop(lv', price, high);
    LargerUnit(Beyond(lv, price) - Fee(low), lv.risk, lv'.risk);
  }

  /** Realised R of a close, written with the cost rate in the open. */
  lemma CloseR(lv: Levels, open: real, close: real, cfg: ReplayConfig)
    requires lv.risk == if lv.long then lv.entry - lv.stop else lv.stop - lv.entry
    requires lv.entry == EntryPrice(open, lv.long, cfg)
    ensures lv.risk == Beyond(lv, open) + open * CostRate(cfg)
    ensures NetR(lv, TimeExitPrice(close, lv.long, cfg), cfg)
         == NetRatio(Beyond(lv, close) - Fee(cfg), Beyond(lv, open), open, close, CostRate(cfg)) - 1.0
  {
    hide NetR, CostRate, EntryPrice, TimeExitPrice;
    PriceParts(open, close, lv.long, cfg);
    NetFromStop(lv, TimeExitPrice(close, lv.long, cfg), cfg);
  }

  lemma PriceParts(open: real, close: real, long: bool, cfg: ReplayConfig)
    ensures EntryPrice(open, long, cfg) == if long then open + open * CostRate(cfg) else open - open * CostRate(cfg)
    ensures TimeExitPrice(close, long, cfg)
         == if long then close - close * CostRate(cfg) else close + close * CostRate(cfg)
  {
  }

  /** At a close, dearer trading is no better exactly when the cost rate is the same or what the two
      prices stand to lose, the fee taken off, is not negative. */
  lemma CloseCompares(lv: Levels, lv': Levels, open: real, close: real, low: ReplayConfig, high: ReplayConfig)
    requires Costlier(low, high) && Paired(lv, lv') && CostRate(low) <= CostRate(high)
    requires lv.entry == EntryPrice(open, lv.long, low) && lv'.entry == EntryPrice(open, lv.long, high)
    ensures NetR(lv', TimeExitPrice(close, lv.long, high), high) <= NetR(lv, TimeExitPrice(close, lv.long, low), low)
       <==> CostRate(low) == CostRate(high)
            || (Beyond(lv, close) - Fee(low)) * open + Beyond(lv, open) * close >= 0.0
  {
    hide NetR, CostRate, TimeExitPrice, EntryPrice;
    assert Beyond(lv', open) == Beyond(lv, open) && Beyond(lv', close) == Beyond(lv, close);
    hide Beyond;
    CloseR(lv, open, close, low);
    CloseR(lv', open, close, high);
    assert Beyond(lv, open) + open * CostRate(low) > 0.0 && Beyond(lv, open) + open * CostRate(high) > 0.0;
    hide NetRatio;
    NetCloseCompares(Beyond(lv, close) - Fee(low), Beyond(lv, open), open, close, CostRate(low), CostRate(high));
  }

  /** When costs do not improve realised R, by the way the trade ends. */
  ghost predicate CostsBite(f: Fill, f': Fill, entryBar: Bar, exitBar: Bar, low: ReplayConfig, high: ReplayConfig) {
    var lv := f.levels;
    match f.reason
    case StopExit => lv.risk == f'.levels.risk || 0.0 >= Fee(low)
    case TargetExit => lv.risk == f'.levels.risk || Beyond(lv, lv.target2) >= Fee(low)
    case _ =>
      CostRate(low) == CostRate(high)
      || (Beyond(lv, exitBar.close) - Fee(low)) * entryBar.open + Beyond(lv, entryBar.open) * exitBar.close >= 0.0
  }

  /** Realised R of one window at two cost levels, for any commission. */
  lemma RunRCompares(w: seq<Bar>, lv: Levels, lv': Levels, entryTs: Time, low: ReplayConfig, high: ReplayConfig)
    requires w != [] && Costlier(low, high) && Paired(lv, lv') && w[0].open >= 0.0
    requires lv.entry == EntryPrice(w[0].open, lv.long, low) && lv'.entry == EntryPrice(w[0].open, lv.long, high)
    ensures var f, f' := RunToExit(w, lv, entryTs, low), RunToExit(w, lv', entryTs, high);
            && 0 < f.barsHeld <= |w|
            && (f'.realizedR <= f.realizedR <==> CostsBite(f, f', w[0], w[f.barsHeld - 1], low, high))
  {
    hide RMultiple, TimeExitPrice, NetR, BestR, WorstR, EntryPrice, RunToExit, CostRate, Fee;
    var f, f' := RunToExit(w, lv, entryTs, low), RunToExit(w, lv', entryTs, high);
    RunFollowsExitRule(w, lv, entryTs, low);
    RunFollowsExitRule(w, lv', entryTs, high);
    RunIsPriced(w, lv, entryTs, low);
    RunIsPriced(w, lv', entryTs, high);
    SameExit(w, lv, lv', entryTs, low, high);
    if f.reason.StopExit? {
      FixedPriceCompares(lv, lv', lv.stop, low, high);
    } else if f.reason.TargetExit? {
      FixedPriceCompares(lv, lv', lv.target2, low, high);
    } else {
      RiskGrows(low, high, w[0].open, lv.stop, lv.long);
      CloseCompares(lv, lv', w[0].open, w[f.barsHeld - 1].close, low, high);
    }
  }

  /** Without a positive commission costs bite unless a target beyond the stop on the losing side is hit:
      a trade closed at a bar's close never touched its stop. */
  lemma FreeTradesBite(w: seq<Bar>, lv: Levels, lv': Levels, entryTs: Time, low: ReplayConfig, high: ReplayConfig)
    requires w != [] && Costlier(low, high) && Paired(lv, lv') && SoundBars(w)
    requires low.commissionPerShare <= 0.0
    ensures var f, f' := RunToExit(w, lv, entryTs, low), RunToExit(w, lv', entryTs, high);
            && 0 < f.barsHeld <= |w|
            && (!f.reason.TargetExit? || TargetOnSide(lv) ==> CostsBite(f, f', w[0], w[f.barsHeld - 1], low, high))
  {
    hide RMultiple, TimeExitPrice, NetR, BestR, WorstR, EntryPrice, RunToExit, CostRate;
    var f := RunToExit(w, lv, entryTs, low);
    RunIsPriced(w, lv, entryTs, low);
    RunStaysInWindow(w, lv, entryTs, low);
    if !f.reason.StopExit? && !f.reason.TargetExit? {
      var out := w[f.barsHeld - 1];
      StopUntouched(w, lv, entryTs, low, 0);
      StopUntouched(w, lv, entryTs, low, f.barsHeld - 1);
      assert out in w && w[0] in w;
      assert Beyond(lv, out.close) - Fee(low) >= 0.0 && Beyond(lv, w[0].open) >= 0.0;
      NonNegativeProduct(Beyond(lv, out.close) - Fee(low), w[0].open);
      NonNegativeProduct(Beyond(lv, w[0].open), out.close);
    }
  }

  lemma NonNegativeProduct(x: real, y: real)
    requires x >= 0.0 && y >= 0.0
    ensures x * y >= 0.0
  {
  }

  lemma RunIsPriced(w: seq<Bar>, lv: Levels, entryTs: Time, cfg: ReplayConfig)
    requires w != []
    ensures var f := RunToExit(w, lv, entryTs, cfg); f.realizedR == NetR(lv, f.exitPrice, cfg) && f.levels == lv
  {
    hide RMultiple, TimeExitPrice, NetR;
  }

  /** A stop exit is exactly one risk lost, at any cost level. */
  lemma StopIsMinusOne(lv: Levels)
    requires lv.risk == if lv.long then lv.entry - lv.stop else lv.stop - lv.entry
    ensures RMultiple(lv, lv.stop) == -1.0
  {
    RFromStop(lv, lv.stop);
    assert 0.0 / lv.risk == 0.0;
  }

  /** The same trade bar for bar. */
  ghost predicate SameBars(f: Fill, f': Fill) {
    && f'.entryTs == f.entryTs && f'.exitTs == f.exitTs && f'.reason == f.reason
    && f'.barsHeld == f.barsHeld && f'.ambiguous == f.ambiguous
  }

  function RewardRisk(f: Fill): real {
    RMultiple(f.levels, f.levels.target2)
  }

  /** The same trade bar for bar, and no better in reward-to-risk or in realised R. */
  ghost predicate SameButNoBetter(f: Fill, f': Fill) {
    SameBars(f, f') && RewardRisk(f') <= RewardRisk(f) && f'.realizedR <= f.realizedR
  }

  /** The comparison of one trade at two cost levels, for any commission. */
  ghost predicate Compared(c: Candidate, f: Fill, f': Fill, entryBar: Bar, exitBar: Bar,
                           low: ReplayConfig, high: ReplayConfig)
    requires c.stopPrice.Some? && c.target2.Some?
  {
    var aimed := AimsOnSide(c) || f.levels.risk == f'.levels.risk;
    var bite := CostsBite(f, f', entryBar, exitBar, low, high);
    && SameBars(f, f') && f.levels.risk <= f'.levels.risk
    && (RewardRisk(f') <= RewardRisk(f) <==> aimed)
    && (f'.realizedR <= f.realizedR <==> bite)
    && (SameButNoBetter(f, f') <==> aimed && bite)
    && (low.commissionPerShare <= 0.0 && (AimsOnSide(c) || !f.reason.TargetExit?) ==> bite)
  }

  /** What dearer trading does to a trade taken at both cost levels, exactly: it keeps entry bar, exit
      bar, reason and ambiguity. It raises reward-to-risk exactly when the candidate aims beyond its
      stop on the losing side and the risk grows, and realised R exactly when costs do not bite. */
  lemma CostsExactly(c: Candidate, bars: seq<Bar>, feature: Option<Feature>, low: ReplayConfig, high: ReplayConfig)
    requires InTimeOrder(bars) && SoundBars(bars) && Costlier(low, high) && ExplicitPlan(c, low)
    ensures var cheap, dear := Simulate(c, bars, feature, low), Simulate(c, bars, feature, high);
            var w := WindowOf(c, bars, low);
            cheap.Taken? && dear.Taken? ==>
              && 0 < cheap.fill.barsHeld <= |w|
              && Compared(c, cheap.fill, dear.fill, w[0], w[cheap.fill.barsHeld - 1], low, high)
  {
    hide PlanRisk, RunToExit, RMultiple, EntryPrice, Window, TargetOnSide, CostsBite;
    if Simulate(c, bars, feature, low).Taken? && Simulate(c, bars, feature, high).Taken? {
      var at := IndexAt(bars, c.ts) + 1;
      var past := bars[..at + 1];
      assert Last(past) == bars[at] && bars[at] in bars;
      assert Window(bars, at, high) == Window(bars, at, low) by { SameWindows(bars, at, low, high); }
      var lv, lv' := PlanRisk(c, past, feature, low).levels, PlanRisk(c, past, feature, high).levels;
      var w := Window(bars, at, low);
      PlansArePaired(c, past, feature, low, high);
      AcceptedPlan(c, past, feature, low);
      AcceptedPlan(c, past, feature, high);
      SidesAgree(c, lv);
      RewardRiskFalls(lv, lv');
      SameExit(w, lv, lv', bars[at].ts, low, high);
      WindowSound(bars, at, low);
      RunRCompares(w, lv, lv', bars[at].ts, low, high);
      if low.commissionPerShare <= 0.0 {
        FreeTradesBite(w, lv, lv', bars[at].ts, low, high);
      }
      RunIsPriced(w, lv, bars[at].ts, low);
      RunIsPriced(w, lv', bars[at].ts, high);
      RunStaysInWindow(w, lv, bars[at].ts, low);
      RunStaysInWindow(w, lv', bars[at].ts, high);
    }
  }

  /** Without commission the condition is one on the candidate: a trade gains from costs exactly when its
      target lies beyond its stop on the losing side, the risk grows, and the target is hit. */
  lemma CostsWithoutCommission(c: Candidate, bars: seq<Bar>, feature: Option<Feature>, low: ReplayConfig,
                               high: ReplayConfig)
    requires InTimeOrder(bars) && SoundBars(bars) && Costlier(low, high) && ExplicitPlan(c, low)
    requires low.commissionPerShare == 0.0
    ensures var cheap, dear := Simulate(c, bars, feature, low), Simulate(c, bars, feature, high);
            cheap.Taken? && dear.Taken? ==> ComparedFree(c, cheap.fill, dear.fill)
  {
    hide PlanRisk, RunToExit, RMultiple, EntryPrice, Window, IndexAt;
    CostsExactly(c, bars, feature, low, high);
    var cheap := Simulate(c, bars, feature, low);
    if cheap.Taken? {
      var past := bars[..IndexAt(bars, c.ts) + 2];
      AcceptedPlan(c, past, feature, low);
      SidesAgree(c, PlanRisk(c, past, feature, low).levels);
      var at := IndexAt(bars, c.ts) + 1;
      RunIsPriced(Window(bars, at, low), PlanRisk(c, past, feature, low).levels, bars[at].ts, low);
    }
  }

  ghost predicate ComparedFree(c: Candidate, f: Fill, f': Fill)
    requires c.stopPrice.Some? && c.target2.Some?
  {
    var aimed := AimsOnSide(c) || f.levels.risk == f'.levels.risk;
    && (f'.realizedR <= f.realizedR <==> aimed || !f.reason.TargetExit?)
    && (SameButNoBetter(f, f') <==> aimed)
  }

  /** With a commission every trade stopped out at both cost levels gains from a risk that costs widened. */
  lemma CommissionSoftensStops(c: Candidate, bars: seq<Bar>, feature: Option<Feature>, low: ReplayConfig,
                               high: ReplayConfig)
    requires InTimeOrder(bars) && SoundBars(bars) && Costlier(low, high) && ExplicitPlan(c, low)
    requires low.commissionPerShare > 0.0
    ensures var cheap, dear := Simulate(c, bars, feature, low), Simulate(c, bars, feature, high);
            cheap.Taken? && dear.Taken? && cheap.fill.reason.StopExit?
            && cheap.fill.levels.risk < dear.fill.levels.risk ==>
              cheap.fill.realizedR < dear.fill.realizedR
  {
    hide Simulate, InTimeOrder, SoundBars, Costlier, SameBars, RewardRisk;
    CostsExactly(c, bars, feature, low, high);
  }

  lemma TakenCheaply(c: Candidate, bars: seq<Bar>, feature: Option<Feature>, low: ReplayConfig, high: ReplayConfig)
    requires SoundBars(bars) && Costlier(low, high) && ExplicitPlan(c, low) && AimsOnSide(c)
    ensures var cheap, dear := Simulate(c, bars, feature, low), Simulate(c, bars, feature, high);
            dear.Taken? && cheap != Skipped(InvalidRiskPlan) ==> cheap.Taken?
  {
    hide PlanRisk, RunToExit, RMultiple, EntryPrice, Window, AimsOnSide, ExplicitPlan;
    if Simulate(c, bars, feature, high).Taken? && Simulate(c, bars, feature, low) != Skipped(InvalidRiskPlan) {
      var at := IndexAt(bars, c.ts) + 1;
      assert Last(bars[..at + 1]) == bars[at] && bars[at] in bars;
      assert Window(bars, at, high) == Window(bars, at, low) by { SameWindows(bars, at, low, high); }
      hide IndexAt;
      AcceptedCheaply(c, bars[..at + 1], feature, low, high);
    }
  }

  /** For a candidate that aims on its own side and no positive commission, costs never help: what dearer
      trading takes, cheaper trading takes, with the same bars and no worse reward-to-risk or R. */
  lemma CostsNeverHelp(c: Candidate, bars: seq<Bar>, feature: Option<Feature>, low: ReplayConfig, high: ReplayConfig)
    requires InTimeOrder(bars) && SoundBars(bars) && Costlier(low, high) && ExplicitPlan(c, low)
    requires low.commissionPerShare <= 0.0 && AimsOnSide(c)
    ensures var cheap, dear := Simulate(c, bars, feature, low), Simulate(c, bars, feature, high);
            dear.Taken? && cheap != Skipped(InvalidRiskPlan) ==> cheap.Taken? && SameButNoBetter(cheap.fill, dear.fill)
  {
    hide Simulate, InTimeOrder, SoundBars, Costlier, SameBars, RewardRisk, CostsBite;
    CostsExactly(c, bars, feature, low, high);
    TakenCheaply(c, bars, feature, low, high);
  }

  lemma SameWindows(bars: seq<Bar>, at: nat, low: ReplayConfig, high: ReplayConfig)
    requires at < |bars| && Costlier(low, high)
    ensures Window(bars, at, high) == Window(bars, at, low)
  {
  }

  lemma WindowSound(bars: seq<Bar>, at: nat, cfg: ReplayConfig)
    requires InTimeOrder(bars) && SoundBars(bars) && at < |bars| && Window(bars, at, cfg) != []
    ensures SoundBars(Window(bars, at, cfg)) && Window(bars, at, cfg)[0] == bars[at]
  {
    WindowShape(bars, at, cfg);
    forall bar | bar in Window(bars, at, cfg)
      ensures bar in bars
    {
      assert bar in bars[at..];
    }
  }

  /** Buying and selling at one unchanged price costs two slippages and one full spread, in basis
      points of that price, whichever side was traded. */
  lemma RoundTripCost(price: real, long: bool, cfg: ReplayConfig)
    ensures var entry, exit := EntryPrice(price, long, cfg), TimeExitPrice(price, long, cfg);
            (if long then entry - exit else exit - entry) == price * (2.0 * cfg.slippageBps + cfg.spreadBps) / 10000.0
  {
    PriceParts(price, price, long, cfg);
  }

  // ----- costs that help

  const MINUTES := Interval("1min", 1)

  /** A long with entry near 100, stop 95 and one price for all three targets. */
  function LongTo(target: real): Candidate {
    Candidate(
      "c", "S", MINUTES, 0, 600, LONG, "setup", None, None, None,
      Some(95.0), Some(target), Some(target), Some(target), None, None,
      None, None, None, None, None, None, None, None)
  }

  /** A signal bar, and an entry bar that opens, closes and peaks at 100. */
  function DownTo(low: real): seq<Bar> {
    [Bar("S", MINUTES, 0, 600, 100.0, 100.0, 100.0, 100.0),
     Bar("S", MINUTES, MINUTE, 601, 100.0, 100.0, low, 100.0)]
  }

  /** An otherwise unremarkable configuration with a given required reward-to-risk, slippage and
      commission. */
  function Example(minimum: real, slippage: real, commission: real): ReplayConfig {
    ReplayConfig(
      Portfolio, {}, {}, {}, {}, None, None, "all", 60, "candidate", "candidate_targets", 1.0, 2.0, 3.0,
      "conservative_stop_first", "conservative", slippage, 0.0, commission, minimum, None,
      false, true, true, 1, 5, 0, 0, true, false, {}, {}, false)
  }

  function ExampleLevels(entry: real, target: real): Levels
    requires entry > 95.0
  {
    Levels(true, entry, 95.0, entry - 95.0, target, target, target)
  }

  lemma ExamplePlan(cfg: ReplayConfig, minimum: real, slippage: real, commission: real, entry: real, target: real,
                    low: real)
    requires cfg == Example(minimum, slippage, commission)
    requires entry == 100.0 * (1.0 + slippage / 10000.0) && entry > 95.0
    ensures PlanRisk(LongTo(target), DownTo(low), None, cfg)
         == if (target - entry) / (entry - 95.0) < minimum then NoPlan(InsufficientRewardRisk)
            else Accepted(ExampleLevels(entry, target))
  {
    assert slippage + 0.0 / 2.0 == slippage;
  }

  lemma ExampleTrade(cfg: ReplayConfig, minimum: real, slippage: real, commission: real, entry: real, target: real,
                     low: real)
    requires cfg == Example(minimum, slippage, commission)
    requires entry == 100.0 * (1.0 + slippage / 10000.0) && entry > 95.0
    ensures var outcome := Simulate(LongTo(target), DownTo(low), None, cfg);
            if (target - entry) / (entry - 95.0) < minimum then outcome == Skipped(InsufficientRewardRisk)
            else outcome == Taken(RunToExit(DownTo(low)[1..], ExampleLevels(entry, target), MINUTE, cfg))
  {
    hide PlanRisk, RunToExit;
    var bars := DownTo(low);
    ExamplePlan(cfg, minimum, slippage, commission, entry, target, low);
    assert IndexAt(bars, 0) == 0;
    assert bars[..2] == bars && bars[1..] == [bars[1]];
    assert Window(bars, 1, cfg) == [bars[1]];
  }

  /** Run over the one bar that stays above the stop and reaches a target of at most 100. */
  lemma TargetRun(cfg: ReplayConfig, entry: real, target: real, low: real)
    requires entry > 95.0 && low > 95.0 && target <= 100.0
    ensures RunToExit(DownTo(low)[1..], ExampleLevels(entry, target), MINUTE, cfg).realizedR
         == NetR(ExampleLevels(entry, target), target, cfg)
  {
    hide BestR, WorstR, NetR;
    var w, lv := DownTo(low)[1..], ExampleLevels(entry, target);
    assert w == [w[0]] && TargetHit(lv, w[0]) && !StopHit(lv, w[0]);
    assert ExitOffset(w, lv, MINUTE, cfg) == 0;
  }

  /** And over the bar that reaches the stop but not a target above 100. */
  lemma StopRun(cfg: ReplayConfig, entry: real, target: real, low: real)
    requires entry > 95.0 && low <= 95.0 && target > 100.0
    ensures RunToExit(DownTo(low)[1..], ExampleLevels(entry, target), MINUTE, cfg).realizedR
         == NetR(ExampleLevels(entry, target), 95.0, cfg)
  {
    hide BestR, WorstR, NetR;
    var w, lv := DownTo(low)[1..], ExampleLevels(entry, target);
    assert w == [w[0]] && !TargetHit(lv, w[0]) && StopHit(lv, w[0]);
    assert ExitOffset(w, lv, MINUTE, cfg) == 0;
  }

  /** Costs can help without commission: aiming at 90, at 100 basis points of slippage this trade loses
      11/6 R instead of 2 R, and with a required reward-to-risk between the two it is taken only at the
      higher cost. */
  lemma CostsCanHelp(minimum: real)
    ensures !AimsOnSide(LongTo(90.0)) && SoundBars(DownTo(96.0)) && InTimeOrder(DownTo(96.0))
    ensures Costlier(Example(minimum, 0.0, 0.0), Example(minimum, 100.0, 0.0))
    ensures var cheap := Simulate(LongTo(90.0), DownTo(96.0), None, Example(minimum, 0.0, 0.0));
            var dear := Simulate(LongTo(90.0), DownTo(96.0), None, Example(minimum, 100.0, 0.0));
            && (minimum <= -2.0 ==>
                  cheap.Taken? && dear.Taken? && cheap.fill.realizedR == -2.0 && dear.fill.realizedR == -11.0 / 6.0)
            && (-2.0 < minimum <= -11.0 / 6.0 ==> cheap == Skipped(InsufficientRewardRisk) && dear.Taken?)
  {
    hide Simulate, RunToExit;
    var low, high := Example(minimum, 0.0, 0.0), Example(minimum, 100.0, 0.0);
    ExampleTrade(low, minimum, 0.0, 0.0, 100.0, 90.0, 96.0);
    ExampleTrade(high, minimum, 100.0, 0.0, 101.0, 90.0, 96.0);
    TargetRun(low, 100.0, 90.0, 96.0);
    TargetRun(high, 101.0, 90.0, 96.0);
  }

  /** Costs can help under a commission even for a candidate that aims on its own side: aiming at 110 with
      half a unit of commission per share, this stopped-out trade loses 7/6 R instead of 6/5 R. */
  lemma CommissionCanHelp(minimum: real)
    requires minimum <= 1.5
    ensures AimsOnSide(LongTo(110.0)) && SoundBars(DownTo(94.0)) && InTimeOrder(DownTo(94.0))
    ensures Costlier(Example(minimum, 0.0, 0.5), Example(minimum, 100.0, 0.5))
    ensures var cheap := Simulate(LongTo(110.0), DownTo(94.0), None, Example(minimum, 0.0, 0.5));
            var dear := Simulate(LongTo(110.0), DownTo(94.0), None, Example(minimum, 100.0, 0.5));
            cheap.Taken? && dear.Taken? && cheap.fill.realizedR == -6.0 / 5.0 && dear.fill.realizedR == -7.0 / 6.0
  {
    hide Simulate, RunToExit;
    var low, high := Example(minimum, 0.0, 0.5), Example(minimum, 100.0, 0.5);
    ExampleTrade(low, minimum, 0.0, 0.5, 100.0, 110.0, 94.0);
    ExampleTrade(high, minimum, 100.0, 0.5, 101.0, 110.0, 94.0);
    StopRun(low, 100.0, 110.0, 94.0);
    StopRun(high, 101.0, 110.0, 94.0);
  }
}
