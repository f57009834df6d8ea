/** How far a trade's R can go: between one risk lost and the reward planned, and between its own
    excursions. */
module BracketLaws {
  import opened Common
  import opened Market
  import opened Simulation
  import opened ExitRules
  import opened Economics
  import opened CostLaws
  import opened MirrorLaws

  lemma OrderedR(lv: Levels, p: real, q: real)
    requires p <= q
    ensures lv.long ==> RMultiple(lv, p) <= RMultiple(lv, q)
    ensures !lv.long ==> RMultiple(lv, q) <= RMultiple(lv, p)
  {
    if lv.long {
      DivideMonotone(p - lv.entry, q - lv.entry, lv.risk);
    } else {
      DivideMonotone(lv.entry - q, lv.entry - p, lv.risk);
    }
  }

  /** A bar's own prices bracket whatever happens inside it. */
  lemma BarBracket(lv: Levels, bar: Bar)
    requires WellFormed(bar)
    ensures Adverse(lv, bar) <= RMultiple(lv, bar.close) <= Favourable(lv, bar)
    ensures StopHit(lv, bar) ==> Adverse(lv, bar) <= RMultiple(lv, lv.stop)
    ensures !StopHit(lv, bar) ==> RMultiple(lv, lv.stop) <= RMultiple(lv, bar.close)
    ensures TargetHit(lv, bar) ==> RMultiple(lv, lv.target2) <= Favourable(lv, bar)
    ensures !TargetHit(lv, bar) ==> RMultiple(lv, bar.close) <= RMultiple(lv, lv.target2)
  {
    hide RMultiple;
    OrderedR(lv, bar.low, bar.close);
    OrderedR(lv, bar.close, bar.high);
    if lv.long {
      OrderedR(lv, bar.low, if StopHit(lv, bar) then lv.stop else bar.close);
      if !StopHit(lv, bar) { OrderedR(lv, lv.stop, bar.close); }
      if TargetHit(lv, bar) { OrderedR(lv, lv.target2, bar.high); } else { OrderedR(lv, bar.close, lv.target2); }
    } else {
      OrderedR(lv, if StopHit(lv, bar) then lv.stop else bar.close, bar.high);
      if !StopHit(lv, bar) { OrderedR(lv, bar.close, lv.stop); }
      if TargetHit(lv, bar) { OrderedR(lv, bar.low, lv.target2); } else { OrderedR(lv, lv.target2, bar.close); }
    }
  }

  /** Gross R of a run lies in [-1, planned reward] and in [MAE, MFE]. */
  lemma RunBracket(w: seq<Bar>, lv: Levels, entryTs: Time, cfg: ReplayConfig)
    requires w != [] && CostRate(cfg) == 0.0 && (forall bar :: bar in w ==> WellFormed(bar))
    requires lv.risk == if lv.long then lv.entry - lv.stop else lv.stop - lv.entry
    requires RMultiple(lv, lv.target2) >= 0.0
    ensures var f := RunToExit(w, lv, entryTs, cfg);
            && -1.0 <= RMultiple(lv, f.exitPrice) <= RMultiple(lv, lv.target2)
            && f.mae <= RMultiple(lv, f.exitPrice) <= f.mfe && f.mae <= 0.0 <= f.mfe
  {
    hide RMultiple, RunToExit, Favourable, Adverse, BestR, WorstR, StopHit, TargetHit, CostRate, TimeExitPrice;
    var f := RunToExit(w, lv, entryTs, cfg);
    RunFollowsExitRule(w, lv, entryTs, cfg);
    var out := w[f.barsHeld - 1];
    RunExcursions(w, lv, entryTs, cfg);
    ExcursionsAreExact(lv, w[..f.barsHeld]);
    assert out == w[..f.barsHeld][f.barsHeld - 1] && out in w;
    StopIsMinusOne(lv);
    BarBracket(lv, out);
    FreeExit(out.close, lv.long, cfg);
  }

  lemma RunExcursions(w: seq<Bar>, lv: Levels, entryTs: Time, cfg: ReplayConfig)
    requires w != []
    ensures var f := RunToExit(w, lv, entryTs, cfg);
            && 0 < f.barsHeld <= |w|
            && f.mfe == BestR(lv, w[..f.barsHeld]) && f.mae == WorstR(lv, w[..f.barsHeld])
            && f.levels == lv && f.realizedR == NetR(lv, f.exitPrice, cfg)
  {
    hide RMultiple, BestR, WorstR, NetR, TimeExitPrice;
    assert w[..|w|] == w;
  }

  /** Before commission, R lies between losing the risk and the planned reward, and between the
      excursions; commission is taken off last. */
  ghost predicate Bracketed(f: Fill, cfg: ReplayConfig) {
    var gross := RMultiple(f.levels, f.exitPrice);
    && f.realizedR == gross - cfg.commissionPerShare * 2.0 / f.levels.risk
    && -1.0 <= gross <= RMultiple(f.levels, f.levels.target2)
    && f.mae <= gross <= f.mfe && f.mae <= 0.0 <= f.mfe
    && (cfg.commissionPerShare == 0.0 ==> f.realizedR >= -1.0)
  }

  /** Trade level: what the realised R is, and where it lies before commission. */
  lemma TradeBracket(c: Candidate, bars: seq<Bar>, feature: Option<Feature>, cfg: ReplayConfig)
    requires (forall bar :: bar in bars ==> WellFormed(bar)) && CostRate(cfg) == 0.0 && cfg.minimumRewardRisk >= 0.0
    ensures Simulate(c, bars, feature, cfg).Taken? ==> Bracketed(Simulate(c, bars, feature, cfg).fill, cfg)
  {
    hide PlanRisk, RunToExit, RMultiple, CostRate, IndexAt;
    if Simulate(c, bars, feature, cfg).Taken? {
      var plan := PlanTrade(c, bars, feature, cfg);
      AcceptedPlan(c, bars[..plan.at + 1], feature, cfg);
      var w := Window(bars, plan.at, cfg);
      forall bar | bar in w
        ensures WellFormed(bar)
      {
        assert bar in bars[plan.at..];
      }
      RunBracket(w, plan.levels, bars[plan.at].ts, cfg);
      RunExcursions(w, plan.levels, bars[plan.at].ts, cfg);
      assert 0.0 / plan.levels.risk == 0.0;
    }
  }
}
