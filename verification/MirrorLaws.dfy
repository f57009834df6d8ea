/** A short is a long on bars reflected in a price level, and conversely. */
module MirrorLaws {
  import opened Common
  import opened Market
  import opened Simulation
  import opened Sorting

  /** Reflection in the price `k / 2`: highs and lows trade places. */
  function MirrorBar(k: real): Bar -> Bar {
    (bar: Bar) => bar.(open := k - bar.open, high := k - bar.low, low := k - bar.high, close := k - bar.close)
  }

  function MirrorSide(side: Side): Side {
    if side == LONG then SHORT else LONG
  }

  function MirrorPrice(k: real, p: Option<real>): Option<real> {
    if p.Some? then Some(k - p.value) else None
  }

  function MirrorCandidate(k: real, c: Candidate): Candidate {
    c.(side := MirrorSide(c.side), stopPrice := MirrorPrice(k, c.stopPrice), target1 := MirrorPrice(k, c.target1),
       target2 := MirrorPrice(k, c.target2), target3 := MirrorPrice(k, c.target3))
  }

  function MirrorLevels(k: real, lv: Levels): Levels {
    Levels(!lv.long, k - lv.entry, k - lv.stop, lv.risk, k - lv.target1, k - lv.target2, k - lv.target3)
  }

  /** Same times, exit reason, R, excursions, ambiguity and commission; prices reflected. */
  function MirrorFill(k: real, f: Fill): Fill {
    f.(levels := MirrorLevels(k, f.levels), exitPrice := k - f.exitPrice)
  }

  function MirrorOutcome(k: real, o: Outcome): Outcome {
    match o
    case Skipped(_) => o
    case Taken(f) => Taken(MirrorFill(k, f))
  }

  lemma MirrorR(k: real, lv: Levels, price: real)
    ensures RMultiple(MirrorLevels(k, lv), k - price) == RMultiple(lv, price)
  {
    assert (k - lv.entry) - (k - price) == price - lv.entry;
    assert (k - price) - (k - lv.entry) == lv.entry - price;
  }

  lemma MirrorMoment(k: real, lv: Levels, bar: Bar, entryTs: Time, cfg: ReplayConfig)
    ensures Favourable(MirrorLevels(k, lv), MirrorBar(k)(bar)) == Favourable(lv, bar)
    ensures Adverse(MirrorLevels(k, lv), MirrorBar(k)(bar)) == Adverse(lv, bar)
    ensures StopHit(MirrorLevels(k, lv), MirrorBar(k)(bar)) == StopHit(lv, bar)
    ensures TargetHit(MirrorLevels(k, lv), MirrorBar(k)(bar)) == TargetHit(lv, bar)
    ensures ExitsOn(MirrorBar(k)(bar), MirrorLevels(k, lv), entryTs, cfg) == ExitsOn(bar, lv, entryTs, cfg)
  {
    hide RMultiple;
    MirrorR(k, lv, bar.high);
    MirrorR(k, lv, bar.low);
  }

  lemma {:induction false} MirrorOffset(k: real, lv: Levels, w: seq<Bar>, entryTs: Time, cfg: ReplayConfig)
    ensures ExitOffset(Map(w, MirrorBar(k)), MirrorLevels(k, lv), entryTs, cfg) == ExitOffset(w, lv, entryTs, cfg)
  {
    hide ExitsOn, MirrorLevels;
    if w != [] {
      MirrorMoment(k, lv, w[0], entryTs, cfg);
      MirrorOffset(k, lv, w[1..], entryTs, cfg);
      assert Map(w, MirrorBar(k))[1..] == Map(w[1..], MirrorBar(k));
    }
  }

  lemma {:induction false} MirrorExcursions(k: real, lv: Levels, held: seq<Bar>, cfg: ReplayConfig)
    ensures BestR(MirrorLevels(k, lv), Map(held, MirrorBar(k))) == BestR(lv, held)
    ensures WorstR(MirrorLevels(k, lv), Map(held, MirrorBar(k))) == WorstR(lv, held)
  {
    hide Favourable, Adverse, MirrorLevels;
    if held != [] {
      var n := |held| - 1;
      MirrorMoment(k, lv, Last(held), 0, cfg);
      MirrorExcursions(k, lv, held[..n], cfg);
      assert Map(held, MirrorBar(k))[..n] == Map(held[..n], MirrorBar(k));
    }
  }

  lemma MirrorClose(k: real, lv: Levels, held: seq<Bar>, entryTs: Time, s: Settlement, cfg: ReplayConfig)
    requires held != []
    ensures Close(Map(held, MirrorBar(k)), MirrorLevels(k, lv), entryTs, s.(price := k - s.price), cfg)
         == MirrorFill(k, Close(held, lv, entryTs, s, cfg))
  {
    hide BestR, WorstR, RMultiple;
    MirrorExcursions(k, lv, held, cfg);
    MirrorR(k, lv, s.price);
  }

  lemma FreeExit(close: real, long: bool, cfg: ReplayConfig)
    requires CostRate(cfg) == 0.0
    ensures TimeExitPrice(close, long, cfg) == close && EntryPrice(close, long, cfg) == close
  {
  }

  lemma MirrorSettle(k: real, lv: Levels, bar: Bar, cfg: ReplayConfig)
    requires CostRate(cfg) == 0.0
    ensures var s := Settle(bar, lv, cfg);
            Settle(MirrorBar(k)(bar), MirrorLevels(k, lv), cfg) == s.(price := k - s.price)
  {
    hide TimeExitPrice, CostRate;
    FreeExit(bar.close, lv.long, cfg);
    FreeExit(k - bar.close, !lv.long, cfg);
  }

  lemma MirrorRun(k: real, lv: Levels, w: seq<Bar>, entryTs: Time, cfg: ReplayConfig)
    requires CostRate(cfg) == 0.0 && w != []
    ensures RunToExit(Map(w, MirrorBar(k)), MirrorLevels(k, lv), entryTs, cfg)
         == MirrorFill(k, RunToExit(w, lv, entryTs, cfg))
  {
    var n := ExitOffset(w, lv, entryTs, cfg);
    var w' := Map(w, MirrorBar(k));
    MirrorOffset(k, lv, w, entryTs, cfg);
    hide TimeExitPrice, CostRate, ExitOffset, Close, Settle, MirrorLevels, MirrorFill;
    if n < |w| {
      MirrorSettle(k, lv, w[n], cfg);
      assert w'[..n + 1] == Map(w[..n + 1], MirrorBar(k));
      MirrorClose(k, lv, w[..n + 1], entryTs, Settle(w[n], lv, cfg), cfg);
    } else {
      FreeExit(Last(w).close, lv.long, cfg);
      FreeExit(k - Last(w).close, !lv.long, cfg);
      assert MirrorLevels(k, lv).long == !lv.long by { MirrorFlips(k, lv); }
      MirrorClose(k, lv, w, entryTs, Settlement(EndOfData, TimeExitPrice(Last(w).close, lv.long, cfg), false), cfg);
    }
  }

  lemma MirrorFlips(k: real, lv: Levels)
    ensures MirrorLevels(k, lv).long == !lv.long
  {
  }

  lemma {:induction false} MirrorIndex(k: real, bars: seq<Bar>, ts: Time)
    ensures IndexAt(Map(bars, MirrorBar(k)), ts) == IndexAt(bars, ts)
  {
    if bars != [] {
      MirrorIndex(k, bars[1..], ts);
      assert Map(bars, MirrorBar(k))[1..] == Map(bars[1..], MirrorBar(k));
    }
  }

  lemma {:induction false} MirrorWindow(k: real, bars: seq<Bar>, t: Time)
    ensures Filter(Map(bars, MirrorBar(k)), NotAfter(t)) == Map(Filter(bars, NotAfter(t)), MirrorBar(k))
  {
    FilterMap(bars, MirrorBar(k), NotAfter(t), NotAfter(t));
  }

  lemma MirrorTargets(k: real, c: Candidate, entry: real, stop: real, risk: Risk, cfg: ReplayConfig)
    requires c.side == LONG || c.side == SHORT
    ensures LevelsFor(MirrorCandidate(k, c), k - entry, k - stop, risk, cfg)
         == MirrorLevels(k, LevelsFor(c, entry, stop, risk, cfg))
  {
  }

  lemma MirrorPlan(k: real, c: Candidate, past: seq<Bar>, feature: Option<Feature>, cfg: ReplayConfig)
    requires past != [] && CostRate(cfg) == 0.0 && c.stopPrice.Some? && (c.side == LONG || c.side == SHORT)
    ensures var p := PlanRisk(c, past, feature, cfg);
            var mirrored := PlanRisk(MirrorCandidate(k, c), Map(past, MirrorBar(k)), feature, cfg);
            mirrored == if p.Accepted? then Accepted(MirrorLevels(k, p.levels)) else p
  {
    hide EntryPrice, CostRate, RMultiple, LevelsFor;
    var long := c.side == LONG;
    FreeExit(Last(past).open, long, cfg);
    FreeExit(k - Last(past).open, !long, cfg);
    var entry, stop := Last(past).open, c.stopPrice.value;
    var risk := if long then entry - stop else stop - entry;
    if risk > 0.0 {
      MirrorTargets(k, c, entry, stop, risk, cfg);
      var lv := LevelsFor(c, entry, stop, risk, cfg);
      MirrorR(k, lv, lv.target2);
    }
  }

  /** At zero cost and with an explicit stop, trading the mirrored candidate on the mirrored bars
      gives the same decision and the mirrored trade: same bars, reason, R, excursions, ambiguity. */
  lemma MirrorTrade(k: real, c: Candidate, bars: seq<Bar>, feature: Option<Feature>, cfg: ReplayConfig)
    requires CostRate(cfg) == 0.0 && c.stopPrice.Some? && (c.side == LONG || c.side == SHORT)
    ensures Simulate(MirrorCandidate(k, c), Map(bars, MirrorBar(k)), feature, cfg)
         == MirrorOutcome(k, Simulate(c, bars, feature, cfg))
  {
    hide PlanRisk, RunToExit, CostRate, IndexAt, Filter;
    var mirrored := Map(bars, MirrorBar(k));
    MirrorIndex(k, bars, c.ts);
    var at := IndexAt(bars, c.ts) + 1;
    if at < |bars| {
      assert mirrored[at..] == Map(bars[at..], MirrorBar(k));
      assert mirrored[..at + 1] == Map(bars[..at + 1], MirrorBar(k));
      MirrorWindow(k, bars[at..], Deadline(bars[at].ts, cfg));
      MirrorPlan(k, c, bars[..at + 1], feature, cfg);
      var p := PlanRisk(c, bars[..at + 1], feature, cfg);
      if p.Accepted? && Window(bars, at, cfg) != [] {
        MirrorRun(k, p.levels, Window(bars, at, cfg), bars[at].ts, cfg);
      }
    }
  }
}
