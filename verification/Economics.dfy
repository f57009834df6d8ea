/** Laws of R arithmetic: what costs can and cannot do, the mirror image of a short, and the
    range a realised R stays in. */
module Economics {
  import opened Common
  import opened Market
  import opened Simulation

  // ----- R multiples do not depend on how they are written

  /** A long's R at price `p` is how many stop distances `p` lies above the stop, less one. */
  lemma RFromStop(lv: Levels, p: real)
    requires lv.risk == if lv.long then lv.entry - lv.stop else lv.stop - lv.entry
    ensures RMultiple(lv, p) == (if lv.long then p - lv.stop else lv.stop - p) / lv.risk - 1.0
  {
    var d := if lv.long then p - lv.stop else lv.stop - p;
    assert RMultiple(lv, p) == (d - lv.risk) / lv.risk;
    DivideDifference(d, lv.risk, lv.risk);
    assert lv.risk / lv.risk == 1.0;
  }

  lemma DivideDifference(a: real, b: real, r: Risk)
    ensures (a - b) / r == a / r - b / r
  {
  }

  lemma DivideMonotone(a: real, b: real, r: Risk)
    requires a <= b
    ensures a / r <= b / r
  {
    DivideDifference(b, a, r);
    assert (b - a) / r >= 0.0;
  }

  lemma SignOfFactor(p: real, r: Risk)
    ensures p * r >= 0.0 <==> p >= 0.0
  {
  }

  /** A non-negative distance counts for no more in a larger unit, a negative one for more. */
  lemma LargerUnit(a: real, r: Risk, s: Risk)
    requires r <= s
    ensures a >= 0.0 ==> a / s <= a / r
    ensures a < 0.0 && r < s ==> a / s > a / r
  {
    var x, y := a / r, a / s;
    SignOfFactor(y, s);
    assert (x - y) * r == y * (s - r);
    SignOfFactor(x - y, r);
    if a < 0.0 && r < s {
      SignOfFactor(y, s - r);
    }
  }

  lemma CompareRatios(d: real, r: Risk, d': real, r': Risk)
    ensures d' / r' <= d / r <==> d' * r <= d * r'
  {
    var x, y := d / r, d' / r';
    assert d' * r == y * (r * r') && d * r' == x * (r * r');
    assert (x - y) * (r * r') == d * r' - d' * r;
    SignOfFactor(x - y, r * r');
  }

  // ----- what realised R is worth

  /** Money per share gained at a price, before commission. */
  function Gain(lv: Levels, price: real): real {
    if lv.long then price - lv.entry else lv.entry - price
  }

  /** Realised R turned back into money: R times the risk is the gain less two commissions, so a trade
      shows a profit exactly when its gain covers them, and commission never flatters. */
  lemma NetRIsMoneyAtRisk(lv: Levels, price: real, cfg: ReplayConfig)
    ensures NetR(lv, price, cfg) * lv.risk == Gain(lv, price) - 2.0 * cfg.commissionPerShare
    ensures NetR(lv, price, cfg) >= 0.0 <==> Gain(lv, price) >= 2.0 * cfg.commissionPerShare
    ensures cfg.commissionPerShare >= 0.0 <==> NetR(lv, price, cfg) <= RMultiple(lv, price)
  {
    var gross, fee := RMultiple(lv, price), cfg.commissionPerShare * 2.0 / lv.risk;
    assert gross * lv.risk == Gain(lv, price);
    assert fee * lv.risk == 2.0 * cfg.commissionPerShare;
    SignOfFactor(gross - fee, lv.risk);
    SignOfFactor(fee, lv.risk);
    assert (gross - fee) * lv.risk == gross * lv.risk - fee * lv.risk;
  }

  // ----- what an accepted plan guarantees

  lemma AcceptedPlan(c: Candidate, past: seq<Bar>, feature: Option<Feature>, cfg: ReplayConfig)
    requires past != [] && PlanRisk(c, past, feature, cfg).Accepted?
    ensures var lv := PlanRisk(c, past, feature, cfg).levels;
            && lv.long == (c.side == LONG)
            && lv.entry == EntryPrice(Last(past).open, lv.long, cfg)
            && lv.risk == (if lv.long then lv.entry - lv.stop else lv.stop - lv.entry)
            && RMultiple(lv, lv.target2) >= cfg.minimumRewardRisk
            && (c.stopPrice.Some? ==> lv.stop == c.stopPrice.value)
            && (ExplicitTargets(c, cfg) ==> lv.target2 == c.target2.value)
  {
    hide EntryPrice, RMultiple;
  }

  // ----- costs

  predicate TargetsAre(lv: Levels, cfg: ReplayConfig) {
    && RMultiple(lv, lv.target1) == cfg.target1R
    && RMultiple(lv, lv.target2) == cfg.target2R
    && RMultiple(lv, lv.target3) == cfg.target3R
  }

  /** Targets the candidate does not name are the configured multiples of the risk, on either side:
      the reward-to-risk test then compares two configured numbers. */
  lemma DefaultTargetsAreMultiples(c: Candidate, entry: real, stop: real, cfg: ReplayConfig)
    requires !ExplicitTargets(c, cfg)
    requires if c.side == LONG then stop < entry else entry < stop
    ensures PlanFrom(c, entry, Some(stop), cfg).Accepted? <==> cfg.target2R >= cfg.minimumRewardRisk
    ensures PlanFrom(c, entry, Some(stop), cfg).Accepted?
         ==> TargetsAre(PlanFrom(c, entry, Some(stop), cfg).levels, cfg)
  {
    hide RMultiple, ExplicitTargets;
    var lv := LevelsFor(c, entry, stop, if c.side == LONG then entry - stop else stop - entry, cfg);
    MultipleAt(lv, lv.target1, cfg.target1R);
    MultipleAt(lv, lv.target2, cfg.target2R);
    MultipleAt(lv, lv.target3, cfg.target3R);
  }

  lemma MultipleAt(lv: Levels, price: real, m: real)
    requires price == if lv.long then lv.entry + lv.risk * m else lv.entry - lv.risk * m
    ensures RMultiple(lv, price) == m
  {
    MultipleOut(lv.risk, m);
  }

  lemma MultipleOut(risk: Risk, m: real)
    ensures risk * m / risk == m
  {
  }

  /** The same configuration at a higher price of trading. */
  ghost predicate Costlier(low: ReplayConfig, high: ReplayConfig) {
    && high == low.(slippageBps := high.slippageBps, spreadBps := high.spreadBps)
    && low.slippageBps <= high.slippageBps && low.spreadBps <= high.spreadBps
  }

  ghost predicate SoundBars(bars: seq<Bar>) {
    forall bar :: bar in bars ==> WellFormed(bar) && bar.low >= 0.0
  }

  /** Costs move the entry against the trade, so the risk only grows. */
  lemma RiskGrows(low: ReplayConfig, high: ReplayConfig, open: real, stop: real, long: bool)
    requires Costlier(low, high) && open >= 0.0
    ensures CostRate(low) <= CostRate(high)
    ensures long ==> EntryPrice(open, long, low) <= EntryPrice(open, long, high)
    ensures !long ==> EntryPrice(open, long, low) >= EntryPrice(open, long, high)
  {
    var a, b := CostRate(low), CostRate(high);
    assert open * (b - a) >= 0.0;
  }

  /** Exit bar and reason look at stop and second target only, never at the entry price. */
  lemma {:induction false} OffsetIgnoresEntry(w: seq<Bar>, lv: Levels, lv': Levels, entryTs: Time, cfg: ReplayConfig,
                                              cfg': ReplayConfig)
    requires lv'.long == lv.long && lv'.stop == lv.stop && lv'.target2 == lv.target2
    requires Costlier(cfg, cfg')
    ensures ExitOffset(w, lv', entryTs, cfg') == ExitOffset(w, lv, entryTs, cfg)
  {
    if w != [] {
      OffsetIgnoresEntry(w[1..], lv, lv', entryTs, cfg, cfg');
    }
  }

  /** The second target is not beyond the stop on the losing side. */
  predicate TargetOnSide(lv: Levels) {
    if lv.long then lv.target2 >= lv.stop else lv.target2 <= lv.stop
  }

  /** Reward-to-risk falls with a growing risk exactly when the target is not beyond the stop on
      the losing side. */
  lemma RewardRiskFalls(lv: Levels, lv': Levels)
    requires lv'.long == lv.long && lv'.stop == lv.stop && lv'.target2 == lv.target2
    requires lv.risk == if lv.long then lv.entry - lv.stop else lv.stop - lv.entry
    requires lv'.risk == if lv.long then lv'.entry - lv.stop else lv.stop - lv'.entry
    requires lv.risk <= lv'.risk
    ensures RMultiple(lv', lv.target2) <= RMultiple(lv, lv.target2)
       <==> lv.risk == lv'.risk || TargetOnSide(lv)
  {
    RFromStop(lv, lv.target2);
    RFromStop(lv', lv.target2);
    var d := if lv.long then lv.target2 - lv.stop else lv.stop - lv.target2;
    LargerUnit(d, lv.risk, lv'.risk);
  }

  /** Distance of the net close beyond the stop, in units of the risk, at cost rate `rate`. */
  function NetRatio(u: real, v: real, open: real, close: real, rate: real): real {
    if v + open * rate > 0.0 then (u - close * rate) / (v + open * rate) else 0.0
  }

  /** How the net close compares at cost rates `a <= b`, for a close `u` (commission already taken off)
      and an open `v` beyond the stop: it falls unless what both prices stand to lose is negative. */
  lemma NetCloseCompares(u: real, v: real, open: real, close: real, a: real, b: real)
    requires a <= b && v + open * a > 0.0 && v + open * b > 0.0
    ensures NetRatio(u, v, open, close, b) <= NetRatio(u, v, open, close, a) <==> a == b || u * open + v * close >= 0.0
  {
    var gain := u * open + v * close;
    var lhs, rhs := (u - close * b) * (v + open * a), (u - close * a) * (v + open * b);
    assert lhs == u * v + u * (open * a) - (close * b) * v - (close * b) * (open * a);
    assert rhs == u * v + u * (open * b) - (close * a) * v - (close * a) * (open * b);
    assert (close * b) * (open * a) == (close * a) * (open * b);
    assert u * (open * b) - u * (open * a) == (b - a) * (u * open);
    assert (close * b) * v - (close * a) * v == (b - a) * (v * close);
    assert rhs - lhs == (b - a) * gain;
    CompareRatios(u - close * a, v + open * a, u - close * b, v + open * b);
    if a < b {
      SignOfFactor(gain, b - a);
    }
  }
}
