/** One candidate simulated bar by bar to its exit. */
module Simulation {
  import opened Common
  import opened Market

  // ----- prices and levels

  type Risk = r: real | r > 0.0 witness 1.0

  /** A risk plan that passed the checks: `risk` is the distance from entry to stop. */
  datatype Levels = Levels(long: bool, entry: real, stop: real, risk: Risk,
                           target1: real, target2: real, target3: real)

  function CostRate(cfg: ReplayConfig): real {
    (cfg.slippageBps + cfg.spreadBps / 2.0) / 10000.0
  }

  function EntryPrice(open: real, long: bool, cfg: ReplayConfig): real {
    if long then open * (1.0 + CostRate(cfg)) else open * (1.0 - CostRate(cfg))
  }

  function TimeExitPrice(close: real, long: bool, cfg: ReplayConfig): real {
    if long then close * (1.0 - CostRate(cfg)) else close * (1.0 + CostRate(cfg))
  }

  /** A price expressed in multiples of the risk, counted from the entry in the trade's direction. */
  function RMultiple(lv: Levels, price: real): real {
    if lv.long then (price - lv.entry) / lv.risk else (lv.entry - price) / lv.risk
  }

  function LowOf(): Bar -> real {
    (bar: Bar) => bar.low
  }

  function HighOf(): Bar -> real {
    (bar: Bar) => bar.high
  }

  /** The highest known level strictly below the entry. */
  function NearestBelow(levels: seq<Option<real>>, entry: real): Option<real>
  {
    if levels == [] then None
    else
      var rest := NearestBelow(levels[1..], entry);
      if levels[0].Some? && levels[0].value < entry && (rest.None? || rest.value < levels[0].value)
      then levels[0] else rest
  }

  /** The lowest known level strictly above the entry. */
  function NearestAbove(levels: seq<Option<real>>, entry: real): Option<real>
  {
    if levels == [] then None
    else
      var rest := NearestAbove(levels[1..], entry);
      if levels[0].Some? && levels[0].value > entry && (rest.None? || rest.value > levels[0].value)
      then levels[0] else rest
  }

  function Atr(c: Candidate, feature: Option<Feature>, entry: real): real {
    var known := if feature.Some? then Or(feature.value.atr14, feature.value.atr14Proxy) else None;
    var first := Or(known, Or(c.contextAtr14, Some(entry * 0.002)));
    Max(first.GetOr(0.0), entry * 0.001)
  }

  function StopLevels(c: Candidate, feature: Option<Feature>, past: seq<Bar>, entry: real): (r: seq<Option<real>>) {
    var recent := LastN(past, 10);
    if c.side == LONG then
      [c.openingRangeLow, c.premarketLow, c.previousDayLow, c.vwap, Some(entry - Atr(c, feature, entry))]
      + if recent == [] then [] else [Some(Lowest(Map(recent, LowOf())))]
    else
      [c.openingRangeHigh, c.premarketHigh, c.previousDayHigh, c.vwap, Some(entry + Atr(c, feature, entry))]
      + if recent == [] then [] else [Some(Highest(Map(recent, HighOf())))]
  }

  function StopPrice(c: Candidate, feature: Option<Feature>, past: seq<Bar>, entry: real,
                     cfg: ReplayConfig): Option<real> {
    if c.stopPrice.Some? then c.stopPrice
    else if cfg.stopMode == "fixed_risk" then
      Some(if c.side == LONG then entry - entry * 0.005 else entry + entry * 0.005)
    else if c.side == LONG then NearestBelow(StopLevels(c, feature, past, entry), entry)
    else NearestAbove(StopLevels(c, feature, past, entry), entry)
  }

  predicate ExplicitTargets(c: Candidate, cfg: ReplayConfig) {
    cfg.targetMode == "candidate_targets" && c.target1.Some? && c.target2.Some? && c.target3.Some?
  }

  function LevelsFor(c: Candidate, entry: real, stop: real, risk: Risk, cfg: ReplayConfig): Levels {
    if ExplicitTargets(c, cfg) then
      Levels(c.side == LONG, entry, stop, risk, c.target1.value, c.target2.value, c.target3.value)
    else if c.side == LONG then
      Levels(true, entry, stop, risk, entry + risk * cfg.target1R, entry + risk * cfg.target2R,
             entry + risk * cfg.target3R)
    else
      Levels(false, entry, stop, risk, entry - risk * cfg.target1R, entry - risk * cfg.target2R,
             entry - risk * cfg.target3R)
  }

  // ----- what one bar does to an open trade

  function Favourable(lv: Levels, bar: Bar): real {
    RMultiple(lv, if lv.long then bar.high else bar.low)
  }

  function Adverse(lv: Levels, bar: Bar): real {
    RMultiple(lv, if lv.long then bar.low else bar.high)
  }

  predicate StopHit(lv: Levels, bar: Bar) {
    if lv.long then bar.low <= lv.stop else bar.high >= lv.stop
  }

  predicate TargetHit(lv: Levels, bar: Bar) {
    if lv.long then bar.high >= lv.target2 else bar.low <= lv.target2
  }

  predicate SessionEnds(bar: Bar, cfg: ReplayConfig) {
    cfg.closeAtSessionEnd && cfg.session == "rth" && bar.minuteEt >= RTH_END_MINUTE - bar.interval.minutes
  }

  function Deadline(entryTs: Time, cfg: ReplayConfig): Time {
    entryTs + cfg.maxHoldMinutes * MINUTE
  }

  predicate ExitsOn(bar: Bar, lv: Levels, entryTs: Time, cfg: ReplayConfig) {
    StopHit(lv, bar) || TargetHit(lv, bar) || SessionEnds(bar, cfg) || bar.ts >= Deadline(entryTs, cfg)
  }

  datatype ExitReason = StopExit | TargetExit | SessionExit | TimeExit | EndOfData

  datatype Settlement = Settlement(reason: ExitReason, price: real, ambiguous: bool)

  /** Priority on an exit bar: the same-bar policy, then stop, target, session end, time. */
  function Settle(bar: Bar, lv: Levels, cfg: ReplayConfig): Settlement {
    var ambiguous := StopHit(lv, bar) && TargetHit(lv, bar);
    if StopHit(lv, bar) && (!TargetHit(lv, bar) || cfg.sameBarPolicy == "conservative_stop_first") then
      Settlement(StopExit, lv.stop, ambiguous)
    else if TargetHit(lv, bar) then Settlement(TargetExit, lv.target2, ambiguous)
    else
      var reason := if SessionEnds(bar, cfg) then SessionExit else TimeExit;
      Settlement(reason, TimeExitPrice(bar.close, lv.long, cfg), false)
  }

  /** The first bar of the window on which the trade must exit, or the window's length. */
  function ExitOffset(future: seq<Bar>, lv: Levels, entryTs: Time, cfg: ReplayConfig): (k: nat)
    ensures k <= |future|
    ensures forall j :: 0 <= j < k ==> !ExitsOn(future[j], lv, entryTs, cfg)
    ensures k < |future| ==> ExitsOn(future[k], lv, entryTs, cfg)
  {
    if future == [] || ExitsOn(future[0], lv, entryTs, cfg) then 0
    else
      var k := ExitOffset(future[1..], lv, entryTs, cfg);
      assert forall j :: 0 < j < 1 + k ==> future[j] == future[1..][j - 1];
      1 + k
  }

  /** Best and worst excursion over the bars held, never on the wrong side of zero. */
  function BestR(lv: Levels, held: seq<Bar>): real {
    if held == [] then 0.0 else Max(BestR(lv, held[..|held| - 1]), Favourable(lv, Last(held)))
  }

  function WorstR(lv: Levels, held: seq<Bar>): real {
    if held == [] then 0.0 else Min(WorstR(lv, held[..|held| - 1]), Adverse(lv, Last(held)))
  }

  /** The excursions are exact: bounds over every bar held, attained on one of them or zero. */
  lemma {:induction false} ExcursionsAreExact(lv: Levels, held: seq<Bar>)
    ensures WorstR(lv, held) <= 0.0 <= BestR(lv, held)
    ensures forall bar :: bar in held ==> Favourable(lv, bar) <= BestR(lv, held) && WorstR(lv, held) <= Adverse(lv, bar)
    ensures BestR(lv, held) == 0.0 || exists bar :: bar in held && BestR(lv, held) == Favourable(lv, bar)
    ensures WorstR(lv, held) == 0.0 || exists bar :: bar in held && WorstR(lv, held) == Adverse(lv, bar)
  {
    if held != [] {
      ExcursionsAreExact(lv, held[..|held| - 1]);
      assert held == held[..|held| - 1] + [Last(held)];
      assert Last(held) in held;
    }
  }

  datatype Fill = Fill(entryTs: Time, exitTs: Time, levels: Levels,
                       exitPrice: real, reason: ExitReason, realizedR: real, mfe: real, mae: real,
                       barsHeld: nat, timeHeld: Time, ambiguous: bool, commission: real)

  datatype Outcome = Skipped(reason: SkipReason) | Taken(fill: Fill)

  function NetR(lv: Levels, price: real, cfg: ReplayConfig): real {
    RMultiple(lv, price) - cfg.commissionPerShare * 2.0 / lv.risk
  }

  function Close(held: seq<Bar>, lv: Levels, entryTs: Time, s: Settlement, cfg: ReplayConfig): Fill
    requires held != []
  {
    var exitTs := Last(held).ts;
    Fill(entryTs, exitTs, lv, s.price, s.reason, NetR(lv, s.price, cfg), BestR(lv, held), WorstR(lv, held),
         |held|, IntMax(exitTs - entryTs, 0), s.ambiguous, cfg.commissionPerShare * 2.0)
  }

  /** The declarative exit rule: close on the first exiting bar, else on the last bar of the window. */
  function RunToExit(future: seq<Bar>, lv: Levels, entryTs: Time, cfg: ReplayConfig): Fill
    requires future != []
  {
    var k := ExitOffset(future, lv, entryTs, cfg);
    if k < |future| then Close(future[..k + 1], lv, entryTs, Settle(future[k], lv, cfg), cfg)
    else Close(future, lv, entryTs, Settlement(EndOfData, TimeExitPrice(Last(future).close, lv.long, cfg), false), cfg)
  }

  // ----- from candidate to plan

  /** Index of the first bar stamped `ts`, or the length. */
  function IndexAt(bars: seq<Bar>, ts: Time): (i: nat)
    ensures i <= |bars|
    ensures forall j :: 0 <= j < i ==> bars[j].ts != ts
    ensures i < |bars| ==> bars[i].ts == ts
  {
    if bars == [] || bars[0].ts == ts then 0
    else
      var i := IndexAt(bars[1..], ts);
      assert forall j :: 0 < j < 1 + i ==> bars[j] == bars[1..][j - 1];
      1 + i
  }

  function NotAfter(t: Time): Bar -> bool {
    (bar: Bar) => bar.ts <= t
  }

  function Window(bars: seq<Bar>, at: nat, cfg: ReplayConfig): seq<Bar>
    requires at < |bars|
  {
    Filter(bars[at..], NotAfter(Deadline(bars[at].ts, cfg)))
  }

  datatype RiskPlan = NoPlan(reason: SkipReason) | Accepted(levels: Levels)

  /** Risk, targets and the reward-to-risk test for a given entry and stop. */
  function PlanFrom(c: Candidate, entry: real, stop: Option<real>, cfg: ReplayConfig): (p: RiskPlan)
    ensures p.NoPlan? ==> p.reason.InvalidRiskPlan? || p.reason.InsufficientRewardRisk?
  {
    if stop.None? then NoPlan(InvalidRiskPlan)
    else
      var risk := if c.side == LONG then entry - stop.value else stop.value - entry;
      if risk <= 0.0 then NoPlan(InvalidRiskPlan)
      else
        var lv := LevelsFor(c, entry, stop.value, risk, cfg);
        if RMultiple(lv, lv.target2) < cfg.minimumRewardRisk then NoPlan(InsufficientRewardRisk)
        else Accepted(lv)
  }

  /** The plan read off the bars up to and including the entry bar. */
  function PlanRisk(c: Candidate, past: seq<Bar>, feature: Option<Feature>, cfg: ReplayConfig): (p: RiskPlan)
    requires past != []
    ensures p.NoPlan? ==> p.reason.InvalidRiskPlan? || p.reason.InsufficientRewardRisk?
  {
    var entry := EntryPrice(Last(past).open, c.side == LONG, cfg);
    PlanFrom(c, entry, StopPrice(c, feature, past, entry, cfg), cfg)
  }

  /** `at` is the entry bar's index among the symbol's bars. */
  datatype Plan = Refused(reason: SkipReason) | Ready(at: nat, levels: Levels)

  function PlanTrade(c: Candidate, bars: seq<Bar>, feature: Option<Feature>, cfg: ReplayConfig): (p: Plan)
    ensures p.Ready? ==> p.at == IndexAt(bars, c.ts) + 1 < |bars| && Window(bars, p.at, cfg) != []
  {
    if cfg.noTradeOnInsufficientContext && feature.Some? && feature.value.insufficientFlags > 3
    then Refused(InsufficientContext)
    else
      var at := IndexAt(bars, c.ts) + 1;
      if at >= |bars| then Refused(MissingEntryBar)
      else if Window(bars, at, cfg) == [] then Refused(NoFutureBars)
      else
        match PlanRisk(c, bars[..at + 1], feature, cfg)
        case NoPlan(reason) => Refused(reason)
        case Accepted(lv) => Ready(at, lv)
  }

  function Simulate(c: Candidate, bars: seq<Bar>, feature: Option<Feature>, cfg: ReplayConfig): Outcome {
    match PlanTrade(c, bars, feature, cfg)
    case Refused(reason) => Skipped(reason)
    case Ready(at, lv) => Taken(RunToExit(Window(bars, at, cfg), lv, bars[at].ts, cfg))
  }

  /** What the exit variables must hold when the loop is left after `n` bars. */
  ghost predicate LoopResult(future: seq<Bar>, lv: Levels, entryTs: Time, cfg: ReplayConfig, n: nat, s: Settlement)
    requires future != []
  {
    if n <= |future| && n > 0 && ExitsOn(future[n - 1], lv, entryTs, cfg) then
      && (forall j :: 0 <= j < n - 1 ==> !ExitsOn(future[j], lv, entryTs, cfg))
      && s == Settle(future[n - 1], lv, cfg)
    else
      && n == |future|
      && (forall j :: 0 <= j < n ==> !ExitsOn(future[j], lv, entryTs, cfg))
      && s == Settlement(EndOfData, TimeExitPrice(Last(future).close, lv.long, cfg), false)
  }

  lemma LoopResultRuns(future: seq<Bar>, lv: Levels, entryTs: Time, cfg: ReplayConfig, n: nat, s: Settlement)
    requires future != [] && LoopResult(future, lv, entryTs, cfg, n, s)
    ensures 0 < n <= |future|
    ensures RunToExit(future, lv, entryTs, cfg) == Close(future[..n], lv, entryTs, s, cfg)
  {
    assert future[..|future|] == future;
  }

  /** The exit loop as the engine runs it: excursions and exit variables updated bar by bar. */
  method ExitLoop(future: seq<Bar>, lv: Levels, entryTs: Time, cfg: ReplayConfig) returns (fill: Fill)
    requires future != []
    ensures fill == RunToExit(future, lv, entryTs, cfg)
  {
    var mfe, mae := 0.0, 0.0;
    var exitBar := Last(future);
    var exitPrice := TimeExitPrice(exitBar.close, lv.long, cfg);
    var reason := EndOfData;
    var ambiguous := false;
    var barsHeld := |future|;
    var i := 0;
    while i < |future|
      invariant 0 <= i <= |future|
      invariant forall j :: 0 <= j < i ==> !ExitsOn(future[j], lv, entryTs, cfg)
      invariant mfe == BestR(lv, future[..i]) && mae == WorstR(lv, future[..i])
      invariant exitBar == Last(future) && barsHeld == |future|
      invariant Settlement(reason, exitPrice, ambiguous)
             == Settlement(EndOfData, TimeExitPrice(Last(future).close, lv.long, cfg), false)
    {
      var bar := future[i];
      i := i + 1;
      assert future[..i][..i - 1] == future[..i - 1] && Last(future[..i]) == bar;
      mfe := Max(mfe, Favourable(lv, bar));
      mae := Min(mae, Adverse(lv, bar));
      var stopHit := StopHit(lv, bar);
      var targetHit := TargetHit(lv, bar);
      if stopHit && targetHit {
        ambiguous := true;
        exitBar, barsHeld := bar, i;
        if cfg.sameBarPolicy == "conservative_stop_first" {
          exitPrice, reason := lv.stop, StopExit;
        } else {
          exitPrice, reason := lv.target2, TargetExit;
        }
        break;
      }
      if stopHit {
        exitBar, exitPrice, reason, barsHeld := bar, lv.stop, StopExit, i;
        break;
      }
      if targetHit {
        exitBar, exitPrice, reason, barsHeld := bar, lv.target2, TargetExit, i;
        break;
      }
      if SessionEnds(bar, cfg) {
        exitBar, exitPrice, reason, barsHeld := bar, TimeExitPrice(bar.close, lv.long, cfg), SessionExit, i;
        break;
      }
      if bar.ts >= Deadline(entryTs, cfg) {
        exitBar, exitPrice, reason, barsHeld := bar, TimeExitPrice(bar.close, lv.long, cfg), TimeExit, i;
        break;
      }
    }
    assert barsHeld == i && exitBar == future[i - 1] == Last(future[..i]);
    ghost var s := Settlement(reason, exitPrice, ambiguous);
    assert LoopResult(future, lv, entryTs, cfg, i, s);
    LoopResultRuns(future, lv, entryTs, cfg, i, s);
    var realizedR := Realize(lv, exitPrice, cfg);
    fill := Fill(entryTs, exitBar.ts, lv, exitPrice, reason, realizedR, mfe, mae,
                 barsHeld, IntMax(exitBar.ts - entryTs, 0), ambiguous, cfg.commissionPerShare * 2.0);
  }

  /** Realised R, less the commission when there is any. */
  method Realize(lv: Levels, price: real, cfg: ReplayConfig) returns (r: real)
    ensures r == NetR(lv, price, cfg)
  {
    var commission := cfg.commissionPerShare * 2.0;
    r := RMultiple(lv, price);
    if commission != 0.0 {
      r := r - commission / lv.risk;
    } else {
      assert 0.0 / lv.risk == 0.0;
    }
  }

  method SimulateCandidate(c: Candidate, bars: seq<Bar>, feature: Option<Feature>, cfg: ReplayConfig)
    returns (r: Outcome)
    ensures r == Simulate(c, bars, feature, cfg)
  {
    var plan := PlanTrade(c, bars, feature, cfg);
    match plan
    case Refused(reason) =>
      r := Skipped(reason);
    case Ready(at, lv) =>
      var fill := ExitLoop(Window(bars, at, cfg), lv, bars[at].ts, cfg);
      r := Taken(fill);
  }
}
