/** What a simulated trade owes its bars: the exit rule, its time bounds, and its independence
    from everything after the exit bar. */
module ExitRules {
  import opened Common
  import opened Market
  import opened Simulation

  // ----- the window is a prefix of the bars from entry on

  lemma RestInOrder(bars: seq<Bar>, t: Time)
    requires InTimeOrder(bars) && bars != []
    ensures InTimeOrder(bars[1..])
    ensures !NotAfter(t)(bars[0]) ==> Filter(bars, NotAfter(t)) == []
  {
    hide Filter;
    if !NotAfter(t)(bars[0]) {
      FilterNone(bars, NotAfter(t));
    }
  }

  lemma {:induction false} WindowIsPrefix(bars: seq<Bar>, t: Time)
    requires InTimeOrder(bars)
    ensures Filter(bars, NotAfter(t)) == bars[..|Filter(bars, NotAfter(t))|]
    ensures var n := |Filter(bars, NotAfter(t))|; n == |bars| || bars[n].ts > t
  {
    hide InTimeOrder;
    if bars != [] {
      RestInOrder(bars, t);
      if NotAfter(t)(bars[0]) {
        WindowIsPrefix(bars[1..], t);
      }
    }
  }

  /** Bar by bar: the window is the run of bars from entry on that the deadline admits, and stops
      only at the end of the bars or before one past the deadline. */
  lemma WindowShape(bars: seq<Bar>, at: nat, cfg: ReplayConfig)
    requires InTimeOrder(bars) && at < |bars|
    ensures var w := Window(bars, at, cfg);
            && (|w| == |bars| - at || (|w| < |bars| - at && bars[at + |w|].ts > Deadline(bars[at].ts, cfg)))
            && forall j :: 0 <= j < |w| ==> w[j] == bars[at + j] && bars[at].ts <= w[j].ts <= Deadline(bars[at].ts, cfg)
  {
    var limit := Deadline(bars[at].ts, cfg);
    var w := Window(bars, at, cfg);
    WindowIsPrefix(bars[at..], limit);
    forall j | 0 <= j < |w|
      ensures w[j] == bars[at + j] && bars[at].ts <= w[j].ts <= limit
    {
      assert w[j] in w;
    }
  }

  /** A window nobody can enter: only a negative maximum hold empties it. */
  lemma NoFutureBarsMeansNegativeHold(c: Candidate, bars: seq<Bar>, feature: Option<Feature>, cfg: ReplayConfig)
    requires InTimeOrder(bars)
    ensures Simulate(c, bars, feature, cfg) == Skipped(NoFutureBars) ==> cfg.maxHoldMinutes < 0
    ensures cfg.maxHoldMinutes < 0 ==> Simulate(c, bars, feature, cfg).Skipped?
  {
    hide PlanRisk, RunToExit;
    var at := IndexAt(bars, c.ts) + 1;
    if at < |bars| {
      var limit := Deadline(bars[at].ts, cfg);
      if cfg.maxHoldMinutes < 0 {
        FilterNone(bars[at..], NotAfter(limit));
      } else {
        assert bars[at..][0] == bars[at] && NotAfter(limit)(bars[at]);
      }
    }
  }

  /** The window bars of a trade, given back from its entry index. */
  function WindowOf(c: Candidate, bars: seq<Bar>, cfg: ReplayConfig): seq<Bar> {
    var at := IndexAt(bars, c.ts) + 1;
    if at < |bars| then Window(bars, at, cfg) else []
  }

  /** Whatever the levels, a run over a window closes on one of its bars. */
  lemma RunStaysInWindow(w: seq<Bar>, lv: Levels, entryTs: Time, cfg: ReplayConfig)
    requires w != []
    ensures var f := RunToExit(w, lv, entryTs, cfg);
            && 0 < f.barsHeld <= |w| && f.exitTs == w[f.barsHeld - 1].ts
            && f.entryTs == entryTs && f.levels == lv
            && f.timeHeld == IntMax(f.exitTs - entryTs, 0)
  {
  }

  /** Signal, entry and exit come in order, and the exit is no later than the maximum hold. */
  lemma TimesInOrder(c: Candidate, bars: seq<Bar>, feature: Option<Feature>, cfg: ReplayConfig)
    requires InTimeOrder(bars) && Simulate(c, bars, feature, cfg).Taken?
    ensures var f := Simulate(c, bars, feature, cfg).fill;
            && c.ts <= f.entryTs <= f.exitTs <= f.entryTs + cfg.maxHoldMinutes * MINUTE
            && f.timeHeld == f.exitTs - f.entryTs
            && 0 < f.barsHeld <= |WindowOf(c, bars, cfg)|
            && f.exitTs == WindowOf(c, bars, cfg)[f.barsHeld - 1].ts
  {
    hide PlanRisk, RunToExit;
    var plan := PlanTrade(c, bars, feature, cfg);
    RunStaysInWindow(Window(bars, plan.at, cfg), plan.levels, bars[plan.at].ts, cfg);
    WindowShape(bars, plan.at, cfg);
  }

  /** The exit rule, for one window: everything before the exit bar is quiet, and the reason follows
      the priority same-bar policy, stop, target, session end, time. */
  ghost predicate FollowsExitRule(f: Fill, w: seq<Bar>, cfg: ReplayConfig)
    requires 0 < f.barsHeld <= |w|
  {
    var n, lv := f.barsHeld, f.levels;
    var out := w[n - 1];
    var both := StopHit(lv, out) && TargetHit(lv, out);
    var stopFirst := cfg.sameBarPolicy == "conservative_stop_first";
    && (forall j :: 0 <= j < n - 1 ==>
          && !StopHit(lv, w[j]) && !TargetHit(lv, w[j])
          && !SessionEnds(w[j], cfg) && w[j].ts < Deadline(f.entryTs, cfg))
    && f.ambiguous == both
    && (f.reason.StopExit? <==> StopHit(lv, out) && (both ==> stopFirst))
    && (f.reason.TargetExit? <==> TargetHit(lv, out) && (both ==> !stopFirst))
    && (f.reason.SessionExit? <==> !StopHit(lv, out) && !TargetHit(lv, out) && SessionEnds(out, cfg))
    && (f.reason.TimeExit? ==> out.ts >= Deadline(f.entryTs, cfg))
    && (f.reason.EndOfData? ==> n == |w| && out.ts < Deadline(f.entryTs, cfg))
    && f.exitPrice == (if f.reason.StopExit? then lv.stop
                       else if f.reason.TargetExit? then lv.target2
                       else TimeExitPrice(out.close, lv.long, cfg))
  }

  lemma RunFollowsExitRule(w: seq<Bar>, lv: Levels, entryTs: Time, cfg: ReplayConfig)
    requires w != []
    ensures 0 < RunToExit(w, lv, entryTs, cfg).barsHeld <= |w|
    ensures FollowsExitRule(RunToExit(w, lv, entryTs, cfg), w, cfg)
  {
    hide RMultiple, TimeExitPrice, NetR, StopHit, TargetHit;
  }

  /** Every taken trade exits on the first bar of its window that meets an exit condition; a time
      exit needs a bar exactly at the deadline. */
  lemma ExitRule(c: Candidate, bars: seq<Bar>, feature: Option<Feature>, cfg: ReplayConfig)
    requires InTimeOrder(bars) && Simulate(c, bars, feature, cfg).Taken?
    ensures 0 < Simulate(c, bars, feature, cfg).fill.barsHeld <= |WindowOf(c, bars, cfg)|
    ensures FollowsExitRule(Simulate(c, bars, feature, cfg).fill, WindowOf(c, bars, cfg), cfg)
    ensures var f := Simulate(c, bars, feature, cfg).fill;
            f.reason.TimeExit? ==> f.exitTs == Deadline(f.entryTs, cfg)
  {
    hide PlanRisk, RunToExit, FollowsExitRule, Filter, IndexAt, InTimeOrder;
    var plan := PlanTrade(c, bars, feature, cfg);
    TimesInOrder(c, bars, feature, cfg);
    RunFollowsExitRule(Window(bars, plan.at, cfg), plan.levels, bars[plan.at].ts, cfg);
    TimeExitIsLate(RunToExit(Window(bars, plan.at, cfg), plan.levels, bars[plan.at].ts, cfg), WindowOf(c, bars, cfg),
                   cfg);
  }

  lemma TimeExitIsLate(f: Fill, w: seq<Bar>, cfg: ReplayConfig)
    requires 0 < f.barsHeld <= |w| && FollowsExitRule(f, w, cfg)
    ensures f.reason.TimeExit? ==> w[f.barsHeld - 1].ts >= Deadline(f.entryTs, cfg)
  {
  }

  // ----- bars after the exit

  lemma {:induction false} SameOffset(w: seq<Bar>, w': seq<Bar>, lv: Levels, entryTs: Time, cfg: ReplayConfig)
    requires ExitOffset(w, lv, entryTs, cfg) < |w|
    requires |w'| > ExitOffset(w, lv, entryTs, cfg)
    requires w'[..ExitOffset(w, lv, entryTs, cfg) + 1] == w[..ExitOffset(w, lv, entryTs, cfg) + 1]
    ensures ExitOffset(w', lv, entryTs, cfg) == ExitOffset(w, lv, entryTs, cfg)
  {
    var k := ExitOffset(w, lv, entryTs, cfg);
    forall j | 0 <= j <= k
      ensures w[j] == w'[j]
    {
      assert w[..k + 1][j] == w'[..k + 1][j];
    }
  }

  lemma SameIndex(bars: seq<Bar>, bars': seq<Bar>, ts: Time, n: nat)
    requires n <= |bars| && n <= |bars'| && bars[..n] == bars'[..n] && IndexAt(bars, ts) < n
    ensures IndexAt(bars', ts) == IndexAt(bars, ts)
  {
    var i := IndexAt(bars, ts);
    forall j | 0 <= j <= i
      ensures bars[j] == bars'[j]
    {
      assert bars[..n][j] == bars'[..n][j];
    }
  }

  /** The first `n` bars kept depend on the first `n` bars only. */
  lemma SameWindowStart(xs: seq<Bar>, ys: seq<Bar>, t: Time, n: nat)
    requires InTimeOrder(xs) && n <= |Filter(xs, NotAfter(t))|
    requires n <= |ys| && xs[..n] == ys[..n]
    ensures n <= |Filter(ys, NotAfter(t))|
    ensures Filter(ys, NotAfter(t))[..n] == Filter(xs, NotAfter(t))[..n]
  {
    hide Filter, NotAfter;
    WindowIsPrefix(xs, t);
    assert Filter(xs, NotAfter(t))[..n] == ys[..n];
    assert ys == ys[..n] + ys[n..];
    FilterConcat(ys[..n], ys[n..], NotAfter(t));
    forall bar | bar in ys[..n]
      ensures NotAfter(t)(bar)
    {
      assert bar in Filter(xs, NotAfter(t));
    }
    FilterAll(ys[..n], NotAfter(t));
  }

  lemma SameSlice(xs: seq<Bar>, ys: seq<Bar>, at: nat, n: nat)
    requires at < n <= |xs| && n <= |ys| && xs[..n] == ys[..n]
    ensures xs[at] == ys[at]
    ensures xs[..at + 1] == ys[..at + 1]
    ensures xs[at..][..n - at] == ys[at..][..n - at]
  {
    assert xs[at] == xs[..n][at] && ys[at] == ys[..n][at];
    assert xs[..at + 1] == xs[..n][..at + 1] && ys[..at + 1] == ys[..n][..at + 1];
    assert xs[at..][..n - at] == xs[..n][at..] && ys[at..][..n - at] == ys[..n][at..];
  }

  /** A plan depends on the bars up to the entry bar, given that a window opens at all. */
  lemma SamePlan(c: Candidate, bars: seq<Bar>, bars': seq<Bar>, feature: Option<Feature>, cfg: ReplayConfig, n: nat)
    requires PlanTrade(c, bars, feature, cfg).Ready?
    requires n <= |bars| && n <= |bars'| && bars[..n] == bars'[..n]
    requires var at := PlanTrade(c, bars, feature, cfg).at; at < n && Window(bars', at, cfg) != []
    ensures PlanTrade(c, bars', feature, cfg) == PlanTrade(c, bars, feature, cfg)
  {
    hide PlanRisk, Window, IndexAt;
    var at := PlanTrade(c, bars, feature, cfg).at;
    SameIndex(bars, bars', c.ts, n);
    SameSlice(bars, bars', at, n);
  }

  lemma SameRun(w: seq<Bar>, w': seq<Bar>, lv: Levels, entryTs: Time, cfg: ReplayConfig, n: nat)
    requires 0 < n <= |w| && n <= |w'| && w[..n] == w'[..n]
    requires RunToExit(w, lv, entryTs, cfg).barsHeld == n && !RunToExit(w, lv, entryTs, cfg).reason.EndOfData?
    ensures RunToExit(w', lv, entryTs, cfg) == RunToExit(w, lv, entryTs, cfg)
  {
    assert ExitOffset(w, lv, entryTs, cfg) == n - 1;
    SameOffset(w, w', lv, entryTs, cfg);
    assert w[n - 1] == w[..n][n - 1] && w'[n - 1] == w'[..n][n - 1];
  }

  lemma SameWindowRun(bars: seq<Bar>, bars': seq<Bar>, at: nat, lv: Levels, cfg: ReplayConfig, held: nat)
    requires InTimeOrder(bars) && 0 < held
    requires at + held <= |bars| && at + held <= |bars'| && bars[..at + held] == bars'[..at + held]
    requires held <= |Window(bars, at, cfg)|
    requires RunToExit(Window(bars, at, cfg), lv, bars[at].ts, cfg).barsHeld == held
    requires !RunToExit(Window(bars, at, cfg), lv, bars[at].ts, cfg).reason.EndOfData?
    ensures bars'[at] == bars[at] && Window(bars', at, cfg) != []
    ensures RunToExit(Window(bars', at, cfg), lv, bars[at].ts, cfg)
         == RunToExit(Window(bars, at, cfg), lv, bars[at].ts, cfg)
  {
    hide RunToExit, Filter;
    SameSlice(bars, bars', at, at + held);
    SameWindowStart(bars[at..], bars'[at..], Deadline(bars[at].ts, cfg), held);
    SameRun(Window(bars, at, cfg), Window(bars', at, cfg), lv, bars[at].ts, cfg, held);
  }

  /** Unless data ran out, no bar after the exit bar has any influence on the trade: with the exit
      bar at index `n - 1`, agreeing on the first `n` bars is enough. */
  lemma LaterBarsDoNotMatter(c: Candidate, bars: seq<Bar>, bars': seq<Bar>, feature: Option<Feature>, cfg: ReplayConfig,
                             n: nat)
    requires InTimeOrder(bars)
    requires Simulate(c, bars, feature, cfg).Taken?
    requires !Simulate(c, bars, feature, cfg).fill.reason.EndOfData?
    requires n == IndexAt(bars, c.ts) + 1 + Simulate(c, bars, feature, cfg).fill.barsHeld
    requires n <= |bars| && n <= |bars'| && bars[..n] == bars'[..n]
    ensures Simulate(c, bars', feature, cfg) == Simulate(c, bars, feature, cfg)
  {
    hide PlanRisk, RunToExit, Window, IndexAt, InTimeOrder;
    TimesInOrder(c, bars, feature, cfg);
    var plan := PlanTrade(c, bars, feature, cfg);
    var at := plan.at;
    var held := Simulate(c, bars, feature, cfg).fill.barsHeld;
    SameWindowRun(bars, bars', at, plan.levels, cfg, held);
    SamePlan(c, bars, bars', feature, cfg, n);
  }

  // ----- stops taken from context

  lemma {:induction false} NearestBelowIsNearest(levels: seq<Option<real>>, entry: real)
    ensures var r := NearestBelow(levels, entry);
            && (r.Some? ==> r in levels && r.value < entry)
            && forall v :: Some(v) in levels && v < entry ==> r.Some? && v <= r.value
  {
    if levels != [] {
      NearestBelowIsNearest(levels[1..], entry);
    }
  }

  lemma {:induction false} NearestAboveIsNearest(levels: seq<Option<real>>, entry: real)
    ensures var r := NearestAbove(levels, entry);
            && (r.Some? ==> r in levels && r.value > entry)
            && forall v :: Some(v) in levels && v > entry ==> r.Some? && v >= r.value
  {
    if levels != [] {
      NearestAboveIsNearest(levels[1..], entry);
    }
  }

  /** Without an explicit stop the chosen stop is the tightest known level on the losing side, so a
      positive entry price always yields a valid plan. */
  lemma ContextStopIsTightest(c: Candidate, feature: Option<Feature>, past: seq<Bar>, entry: real, cfg: ReplayConfig)
    requires entry > 0.0 && c.stopPrice.None?
    ensures var stop := StopPrice(c, feature, past, entry, cfg);
            && stop.Some?
            && (if c.side == LONG then stop.value < entry else stop.value > entry)
            && (cfg.stopMode != "fixed_risk" ==>
                  var levels := StopLevels(c, feature, past, entry);
                  && stop in levels
                  && forall v :: Some(v) in levels ==>
                       if c.side == LONG then v <= stop.value || v >= entry else v >= stop.value || v <= entry)
  {
    var levels := StopLevels(c, feature, past, entry);
    var atr := Atr(c, feature, entry);
    assert atr >= entry * 0.001 > 0.0;
    assert levels[4] == Some(if c.side == LONG then entry - atr else entry + atr);
    assert levels[4] in levels;
    NearestBelowIsNearest(levels, entry);
    NearestAboveIsNearest(levels, entry);
  }
}
