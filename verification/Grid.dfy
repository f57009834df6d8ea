/** The planned scenarios of a sensitivity run: the product of four grids, in mixed-radix order. */
module Grid {
  import opened Common
  import opened Market

  datatype Coverage =
    | FullGrid | ChunkedFullGrid | TieredEssential | Sampled | PartialTimeout | OtherCoverage(name: string)

  datatype Group = LowCosts | HighCosts | Intrabar(policy: string) | SameBar(policy: string)
                 | Slippage(bps: real) | Spread(bps: real) | Everything

  datatype Thresholds = Thresholds(totalTrades: int, averageR: real, profitFactor: real, drawdownR: real,
                                   robustness: real)

  datatype SensitivityConfig = SensitivityConfig(
    slippages: seq<real>, spreads: seq<real>, intrabars: seq<string>, sameBars: seq<string>,
    thresholds: Thresholds, coverage: Coverage, maxScenarios: Option<nat>,
    maxPerInvocation: Option<nat>, maxRuntime: Option<real>, group: Option<Group>, fullDefaultRequired: bool)

  /** What the run id is hashed from: everything but cap, time limit and group. */
  function Identity(cfg: SensitivityConfig): SensitivityConfig {
    cfg.(maxPerInvocation := None, maxRuntime := None, group := None)
  }

  function Scenario4(base: ReplayConfig, slippage: real, spread: real, intrabar: string,
                     sameBar: string): ReplayConfig {
    base.(slippageBps := slippage, spreadBps := spread, intrabarPolicy := intrabar, sameBarPolicy := sameBar)
  }

  // ----- nested loops as nested flattening

  function FlatMap<T, U>(xs: seq<T>, f: T -> seq<U>): seq<U> {
    if xs == [] then [] else FlatMap(xs[..|xs| - 1], f) + f(Last(xs))
  }

  lemma FlatMapSnoc<T, U>(xs: seq<T>, n: nat, f: T -> seq<U>)
    requires n < |xs|
    ensures FlatMap(xs[..n + 1], f) == FlatMap(xs[..n], f) + f(xs[n])
  {
    assert xs[..n + 1][..n] == xs[..n] && Last(xs[..n + 1]) == xs[n];
  }

  lemma NoBlocks<T, U>(xs: seq<T>, f: T -> seq<U>)
    ensures FlatMap(xs[..0], f) == []
  {
  }

  function Times(m: nat, n: nat): nat {
    m * n
  }

  /** Element `j` of block `i`, for blocks of the given width. */
  function Slot(i: nat, width: nat, j: nat): nat {
    Times(i, width) + j
  }

  lemma TimesSucc(m: nat, n: nat)
    ensures Times(m + 1, n) == Times(m, n) + n
    ensures Times(0, n) == 0
  {
  }

  lemma {:induction false} TimesMonotone(m: nat, m': nat, n: nat)
    requires m <= m'
    ensures Times(m, n) <= Times(m', n)
  {
    hide Times;
    if m < m' {
      TimesMonotone(m, m' - 1, n);
      TimesSucc(m' - 1, n);
    }
  }

  lemma SlotBound(i: nat, n: nat, width: nat, j: nat)
    requires i < n && j < width
    ensures Slot(i, width, j) < Times(n, width)
  {
    hide Times;
    TimesSucc(i, width);
    TimesMonotone(i + 1, n, width);
  }

  lemma SlotUnique(i: nat, j: nat, i': nat, j': nat, width: nat)
    requires j < width && j' < width && Slot(i, width, j) == Slot(i', width, j')
    ensures i == i' && j == j'
  {
    hide Times;
    if i < i' {
      SlotBound(i, i', width, j);
    } else if i' < i {
      SlotBound(i', i, width, j');
    }
  }

  lemma {:induction false} SlotExists(k: nat, n: nat, width: nat) returns (i: nat, j: nat)
    requires k < Times(n, width)
    ensures i < n && j < width && Slot(i, width, j) == k
  {
    hide Times;
    TimesSucc(0, width);
    var m := n - 1;
    TimesSucc(m, width);
    if k < Times(m, width) {
      i, j := SlotExists(k, m, width);
    } else {
      i, j := m, k - Times(m, width);
    }
  }

  /** With blocks of equal width, the element in slot `(i, j)` is element `j` of block `i`. */
  lemma {:induction false} FlatMapSize<T, U>(xs: seq<T>, f: T -> seq<U>, width: nat)
    requires forall x :: x in xs ==> |f(x)| == width
    ensures |FlatMap(xs, f)| == Times(|xs|, width)
  {
    hide Times;
    TimesSucc(0, width);
    if xs != [] {
      var n := |xs| - 1;
      FlatMapSize(xs[..n], f, width);
      assert xs[n] in xs;
      TimesSucc(n, width);
    }
  }

  lemma {:induction false} FlatMapAt<T, U>(xs: seq<T>, f: T -> seq<U>, width: nat, i: nat, j: nat)
    requires forall x :: x in xs ==> |f(x)| == width
    requires i < |xs| && j < width
    ensures Slot(i, width, j) < |FlatMap(xs, f)| && FlatMap(xs, f)[Slot(i, width, j)] == f(xs[i])[j]
  {
    hide Times;
    var n := |xs| - 1;
    FlatMapSize(xs, f, width);
    FlatMapSize(xs[..n], f, width);
    SlotBound(i, |xs|, width, j);
    if i < n {
      FlatMapAt(xs[..n], f, width, i, j);
    } else {
      assert xs[n] in xs;
    }
  }

  function AtSameBar(base: ReplayConfig, slippage: real, spread: real, intrabar: string): string -> ReplayConfig {
    sameBar => Scenario4(base, slippage, spread, intrabar, sameBar)
  }

  function AtIntrabar(base: ReplayConfig, cfg: SensitivityConfig, slippage: real,
                      spread: real): string -> seq<ReplayConfig> {
    intrabar => Map(cfg.sameBars, AtSameBar(base, slippage, spread, intrabar))
  }

  function AtSpread(base: ReplayConfig, cfg: SensitivityConfig, slippage: real): real -> seq<ReplayConfig> {
    spread => FlatMap(cfg.intrabars, AtIntrabar(base, cfg, slippage, spread))
  }

  function AtSlippage(base: ReplayConfig, cfg: SensitivityConfig): real -> seq<ReplayConfig> {
    slippage => FlatMap(cfg.spreads, AtSpread(base, cfg, slippage))
  }

  function Planned(base: ReplayConfig, cfg: SensitivityConfig): seq<ReplayConfig> {
    FlatMap(cfg.slippages, AtSlippage(base, cfg))
  }

  function Size(cfg: SensitivityConfig): nat {
    Times(|cfg.slippages|, Times(|cfg.spreads|, Times(|cfg.intrabars|, |cfg.sameBars|)))
  }

  /** The mixed-radix position of a choice of four grid positions, the last grid turning fastest. */
  function Position(cfg: SensitivityConfig, a: nat, b: nat, c: nat, d: nat): nat {
    var D := |cfg.sameBars|;
    var CD := Times(|cfg.intrabars|, D);
    Slot(a, Times(|cfg.spreads|, CD), Slot(b, CD, Slot(c, D, d)))
  }

  ghost predicate OnGrid(cfg: SensitivityConfig, a: nat, b: nat, c: nat, d: nat) {
    a < |cfg.slippages| && b < |cfg.spreads| && c < |cfg.intrabars| && d < |cfg.sameBars|
  }

  lemma Blocks(base: ReplayConfig, cfg: SensitivityConfig, slippage: real, spread: real, intrabar: string)
    ensures AtSlippage(base, cfg)(slippage) == FlatMap(cfg.spreads, AtSpread(base, cfg, slippage))
    ensures AtSpread(base, cfg, slippage)(spread) == FlatMap(cfg.intrabars, AtIntrabar(base, cfg, slippage, spread))
    ensures AtIntrabar(base, cfg, slippage, spread)(intrabar)
         == Map(cfg.sameBars, AtSameBar(base, slippage, spread, intrabar))
  {
  }

  /** The four nested loops of the source. */
  method PlanScenarios(base: ReplayConfig, cfg: SensitivityConfig) returns (scenarios: seq<ReplayConfig>)
    ensures scenarios == Planned(base, cfg)
  {
    hide FlatMap, AtSlippage, AtSpread, AtIntrabar, Scenario4;
    scenarios := [];
    NoBlocks(cfg.slippages, AtSlippage(base, cfg));
    for a := 0 to |cfg.slippages|
      invariant scenarios == FlatMap(cfg.slippages[..a], AtSlippage(base, cfg))
    {
      var slippage := cfg.slippages[a];
      ghost var before := scenarios;
      NoBlocks(cfg.spreads, AtSpread(base, cfg, slippage));
      for b := 0 to |cfg.spreads|
        invariant scenarios == before + FlatMap(cfg.spreads[..b], AtSpread(base, cfg, slippage))
      {
        var spread := cfg.spreads[b];
        ghost var before' := scenarios;
        NoBlocks(cfg.intrabars, AtIntrabar(base, cfg, slippage, spread));
        for c := 0 to |cfg.intrabars|
          invariant scenarios == before' + FlatMap(cfg.intrabars[..c], AtIntrabar(base, cfg, slippage, spread))
        {
          var intrabar := cfg.intrabars[c];
          ghost var before'' := scenarios;
          for d := 0 to |cfg.sameBars|
            invariant scenarios == before'' + Map(cfg.sameBars[..d], AtSameBar(base, slippage, spread, intrabar))
          {
            scenarios := scenarios + [Scenario4(base, slippage, spread, intrabar, cfg.sameBars[d])];
            assert cfg.sameBars[..d + 1] == cfg.sameBars[..d] + [cfg.sameBars[d]];
            MapSnoc(cfg.sameBars[..d], cfg.sameBars[d], AtSameBar(base, slippage, spread, intrabar));
          }
          assert cfg.sameBars[..|cfg.sameBars|] == cfg.sameBars;
          FlatMapSnoc(cfg.intrabars, c, AtIntrabar(base, cfg, slippage, spread));
          Blocks(base, cfg, slippage, spread, intrabar);
        }
        assert cfg.intrabars[..|cfg.intrabars|] == cfg.intrabars;
        FlatMapSnoc(cfg.spreads, b, AtSpread(base, cfg, slippage));
        Blocks(base, cfg, slippage, spread, "");
      }
      assert cfg.spreads[..|cfg.spreads|] == cfg.spreads;
      FlatMapSnoc(cfg.slippages, a, AtSlippage(base, cfg));
      Blocks(base, cfg, slippage, 0.0, "");
    }
    assert cfg.slippages[..|cfg.slippages|] == cfg.slippages;
  }

  // ----- positions

  lemma SpreadBlock(base: ReplayConfig, cfg: SensitivityConfig, slippage: real, spread: real)
    ensures |AtSpread(base, cfg, slippage)(spread)| == Times(|cfg.intrabars|, |cfg.sameBars|)
  {
    hide Times, FlatMap;
    FlatMapSize(cfg.intrabars, AtIntrabar(base, cfg, slippage, spread), |cfg.sameBars|);
  }

  lemma SlippageBlock(base: ReplayConfig, cfg: SensitivityConfig, slippage: real)
    ensures |AtSlippage(base, cfg)(slippage)| == Times(|cfg.spreads|, Times(|cfg.intrabars|, |cfg.sameBars|))
  {
    forall p
      ensures |AtSpread(base, cfg, slippage)(p)| == Times(|cfg.intrabars|, |cfg.sameBars|)
    {
      SpreadBlock(base, cfg, slippage, p);
    }
    hide Times, FlatMap, AtSpread;
    FlatMapSize(cfg.spreads, AtSpread(base, cfg, slippage), Times(|cfg.intrabars|, |cfg.sameBars|));
  }

  /** The plan has as many scenarios as the product of the grids has elements. */
  lemma PlannedSize(base: ReplayConfig, cfg: SensitivityConfig)
    ensures |Planned(base, cfg)| == Size(cfg)
  {
    hide Times, FlatMap, AtSlippage;
    forall s
      ensures |AtSlippage(base, cfg)(s)| == Times(|cfg.spreads|, Times(|cfg.intrabars|, |cfg.sameBars|))
    {
      SlippageBlock(base, cfg, s);
    }
    FlatMapSize(cfg.slippages, AtSlippage(base, cfg), Times(|cfg.spreads|, Times(|cfg.intrabars|, |cfg.sameBars|)));
  }

  /** The scenario planned at a mixed-radix position is the one with those four settings. */
  lemma PlannedAt(base: ReplayConfig, cfg: SensitivityConfig, a: nat, b: nat, c: nat, d: nat)
    requires OnGrid(cfg, a, b, c, d)
    ensures Position(cfg, a, b, c, d) < Size(cfg) == |Planned(base, cfg)|
    ensures Planned(base, cfg)[Position(cfg, a, b, c, d)]
         == Scenario4(base, cfg.slippages[a], cfg.spreads[b], cfg.intrabars[c], cfg.sameBars[d])
  {
    var s, p, D := cfg.slippages[a], cfg.spreads[b], |cfg.sameBars|;
    var CD := Times(|cfg.intrabars|, D);
    var BCD := Times(|cfg.spreads|, CD);
    forall q
      ensures |AtSpread(base, cfg, s)(q)| == CD
      ensures |AtSlippage(base, cfg)(q)| == BCD
    {
      SpreadBlock(base, cfg, s, q);
      SlippageBlock(base, cfg, q);
    }
    hide Times, FlatMap, Slot;
    PlannedSize(base, cfg);
    FlatMapAt(cfg.intrabars, AtIntrabar(base, cfg, s, p), D, c, d);
    SlotBound(c, |cfg.intrabars|, D, d);
    FlatMapAt(cfg.spreads, AtSpread(base, cfg, s), CD, b, Slot(c, D, d));
    SlotBound(b, |cfg.spreads|, CD, Slot(c, D, d));
    FlatMapAt(cfg.slippages, AtSlippage(base, cfg), BCD, a, Slot(b, CD, Slot(c, D, d)));
  }

  /** That position and those settings, written out; everything else is the base configuration's. */
  lemma PlannedSettings(base: ReplayConfig, cfg: SensitivityConfig, a: nat, b: nat, c: nat, d: nat)
    requires OnGrid(cfg, a, b, c, d)
    ensures var B, C, D := |cfg.spreads|, |cfg.intrabars|, |cfg.sameBars|;
            var k := a * (B * (C * D)) + (b * (C * D) + (c * D + d));
            && |Planned(base, cfg)| == |cfg.slippages| * (B * (C * D)) && 0 <= k < |Planned(base, cfg)| &&
            var s := Planned(base, cfg)[k];
            && s.slippageBps == cfg.slippages[a] && s.spreadBps == cfg.spreads[b]
            && s.intrabarPolicy == cfg.intrabars[c] && s.sameBarPolicy == cfg.sameBars[d]
            && s.(slippageBps := base.slippageBps, spreadBps := base.spreadBps, intrabarPolicy := base.intrabarPolicy,
                  sameBarPolicy := base.sameBarPolicy) == base
  {
    PlannedAt(base, cfg, a, b, c, d);
    hide Planned;
  }

  /** Different choices have different positions. */
  lemma PositionsAreDistinct(cfg: SensitivityConfig, a: nat, b: nat, c: nat, d: nat, a': nat, b': nat, c': nat, d': nat)
    requires OnGrid(cfg, a, b, c, d) && OnGrid(cfg, a', b', c', d')
    requires Position(cfg, a, b, c, d) == Position(cfg, a', b', c', d')
    ensures a == a' && b == b' && c == c' && d == d'
  {
    hide Times, Slot;
    var D := |cfg.sameBars|;
    var CD := Times(|cfg.intrabars|, D);
    var BCD := Times(|cfg.spreads|, CD);
    var x, x' := Slot(c, D, d), Slot(c', D, d');
    SlotBound(c, |cfg.intrabars|, D, d);
    SlotBound(c', |cfg.intrabars|, D, d');
    var y, y' := Slot(b, CD, x), Slot(b', CD, x');
    SlotBound(b, |cfg.spreads|, CD, x);
    SlotBound(b', |cfg.spreads|, CD, x');
    SlotUnique(a, y, a', y', BCD);
    SlotUnique(b, x, b', x', CD);
    SlotUnique(c, d, c', d', D);
  }

  /** Every index of the plan is the position of some choice. */
  lemma PositionsCover(cfg: SensitivityConfig, k: nat) returns (a: nat, b: nat, c: nat, d: nat)
    requires k < Size(cfg)
    ensures OnGrid(cfg, a, b, c, d) && Position(cfg, a, b, c, d) == k
  {
    hide Times, Slot;
    var D := |cfg.sameBars|;
    var CD := Times(|cfg.intrabars|, D);
    var y: nat, x: nat;
    a, y := SlotExists(k, |cfg.slippages|, Times(|cfg.spreads|, CD));
    b, x := SlotExists(y, |cfg.spreads|, CD);
    c, d := SlotExists(x, |cfg.intrabars|, D);
  }
}
