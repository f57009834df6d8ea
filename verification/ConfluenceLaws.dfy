/** When resumed sensitivity runs agree, in terms of the grids a caller writes down. */
module ConfluenceLaws {
  import opened Common
  import opened Sorting
  import opened Market
  import opened Grid
  import opened Sensitivity
  import opened SensitivityLaws

  // ----- configurations and ids

  ghost predicate DistinctConfigs(rows: seq<PlannedRow>) {
    DistinctKeys(rows, RowConfig())
  }

  function RowConfig(): PlannedRow -> ReplayConfig { (r: PlannedRow) => r.config }

  /** The hash tells apart the configurations it is asked about. */
  ghost predicate CollisionFree(env: Env, rows: seq<PlannedRow>) {
    forall r, s :: r in rows && s in rows && env.digestOf(r.config) == env.digestOf(s.config) ==> r.config == s.config
  }

  ghost predicate IdsFromConfigs(env: Env, rows: seq<PlannedRow>) {
    forall r :: r in rows ==> r.id == ScenarioId(env, r.config)
  }

  lemma SelectionIds(env: Env, base: ReplayConfig, cfg: SensitivityConfig)
    ensures IdsFromConfigs(env, Selection(env, base, cfg))
  {
    hide Planned, ScenarioId;
    var rows := PlannedRows(env, Planned(base, cfg));
    SameMembers(SortBy(rows, RowHash(), StrLe()), rows);
    hide SortBy;
    forall r | r in Selection(env, base, cfg)
      ensures r.id == ScenarioId(env, r.config)
    {
      assert r in rows;
    }
  }

  /** Equal configurations share an id whatever the hash; the converse is the hash's part. */
  lemma DistinctIdsAreDistinctConfigs(env: Env, rows: seq<PlannedRow>)
    requires IdsFromConfigs(env, rows)
    ensures DistinctRowIds(rows) ==> DistinctConfigs(rows)
    ensures CollisionFree(env, rows) && DistinctConfigs(rows) ==> DistinctRowIds(rows)
  {
    forall i, j | 0 <= i < j < |rows|
      ensures rows[i].config == rows[j].config ==> rows[i].id == rows[j].id
      ensures CollisionFree(env, rows) && rows[i].id == rows[j].id ==> rows[i].config == rows[j].config
    {
      assert rows[i] in rows && rows[j] in rows;
      SameDigest(env, rows[i].config, rows[j].config);
    }
  }

  lemma SameDigest(env: Env, c: ReplayConfig, c': ReplayConfig)
    ensures ScenarioId(env, c) == ScenarioId(env, c') <==> env.digestOf(c) == env.digestOf(c')
  {
    var prefix := "scenario_";
    assert ScenarioId(env, c)[|prefix|..] == env.digestOf(c);
    assert ScenarioId(env, c')[|prefix|..] == env.digestOf(c');
  }

  /** Runs are confluent exactly when no configuration is selected twice: full, cut or sampled
      selections alike. Only the direction from right to left leans on the hash. */
  lemma ConfluentByConfigs(env: Env, base: ReplayConfig, cfg: SensitivityConfig)
    ensures Confluent(env, base, cfg) ==> DistinctConfigs(Selection(env, base, cfg))
    ensures CollisionFree(env, Selection(env, base, cfg)) && DistinctConfigs(Selection(env, base, cfg))
        ==> Confluent(env, base, cfg)
  {
    hide Confluent, Selection, DistinctConfigs, CollisionFree, IdsFromConfigs, DistinctRowIds;
    SelectionIds(env, base, cfg);
    DistinctIdsAreDistinctConfigs(env, Selection(env, base, cfg));
    ConfluentExactly(env, base, cfg);
  }

  // ----- the grids

  /** Something a caller can check before the first call: no grid lists a value twice, or one of them
      is empty and nothing is planned at all. */
  ghost predicate PlansOnce(cfg: SensitivityConfig) {
    Size(cfg) == 0
    || (NoRepeats(cfg.slippages) && NoRepeats(cfg.spreads) && NoRepeats(cfg.intrabars) && NoRepeats(cfg.sameBars))
  }

  lemma PlanHasNoRepeats(base: ReplayConfig, cfg: SensitivityConfig, i: nat, j: nat)
    requires PlansOnce(cfg) && i < j < Size(cfg) == |Planned(base, cfg)|
    ensures Planned(base, cfg)[i] != Planned(base, cfg)[j]
  {
    hide Planned, Size, Position;
    var a, b, c, d := PositionsCover(cfg, i);
    var a', b', c', d' := PositionsCover(cfg, j);
    PlannedAt(base, cfg, a, b, c, d);
    PlannedAt(base, cfg, a', b', c', d');
    assert (a, b, c, d) != (a', b', c', d');
  }

  /** Two different choices with the same four values would plan one scenario twice. */
  lemma TwoChoices(base: ReplayConfig, cfg: SensitivityConfig,
                   a: nat, b: nat, c: nat, d: nat, a': nat, b': nat, c': nat, d': nat)
    requires NoRepeats(Planned(base, cfg))
    requires OnGrid(cfg, a, b, c, d) && OnGrid(cfg, a', b', c', d') && (a, b, c, d) != (a', b', c', d')
    ensures Scenario4(base, cfg.slippages[a], cfg.spreads[b], cfg.intrabars[c], cfg.sameBars[d])
         != Scenario4(base, cfg.slippages[a'], cfg.spreads[b'], cfg.intrabars[c'], cfg.sameBars[d'])
  {
    hide Planned, Size, Position;
    PlannedAt(base, cfg, a, b, c, d);
    PlannedAt(base, cfg, a', b', c', d');
    var i, j := Position(cfg, a, b, c, d), Position(cfg, a', b', c', d');
    if i == j {
      PositionsAreDistinct(cfg, a, b, c, d, a', b', c', d');
    }
  }

  lemma PlannedOnceHasNoRepeats(base: ReplayConfig, cfg: SensitivityConfig)
    requires NoRepeats(Planned(base, cfg)) && Size(cfg) > 0
    ensures PlansOnce(cfg)
  {
    var a, b, c, d := PositionsCover(cfg, 0);
    forall x, y | 0 <= x < y < |cfg.slippages|
      ensures cfg.slippages[x] != cfg.slippages[y]
    {
      TwoChoices(base, cfg, x, b, c, d, y, b, c, d);
    }
    forall x, y | 0 <= x < y < |cfg.spreads|
      ensures cfg.spreads[x] != cfg.spreads[y]
    {
      TwoChoices(base, cfg, a, x, c, d, a, y, c, d);
    }
    forall x, y | 0 <= x < y < |cfg.intrabars|
      ensures cfg.intrabars[x] != cfg.intrabars[y]
    {
      TwoChoices(base, cfg, a, b, x, d, a, b, y, d);
    }
    forall x, y | 0 <= x < y < |cfg.sameBars|
      ensures cfg.sameBars[x] != cfg.sameBars[y]
    {
      TwoChoices(base, cfg, a, b, c, x, a, b, c, y);
    }
  }

  /** No configuration is planned twice exactly when no grid repeats a value. */
  lemma PlannedOnceExactly(base: ReplayConfig, cfg: SensitivityConfig)
    ensures NoRepeats(Planned(base, cfg)) <==> PlansOnce(cfg)
  {
    PlannedSize(base, cfg);
    hide Planned, Size;
    if PlansOnce(cfg) {
      forall i, j | 0 <= i < j < |Planned(base, cfg)|
        ensures Planned(base, cfg)[i] != Planned(base, cfg)[j]
      {
        PlanHasNoRepeats(base, cfg, i, j);
      }
    } else {
      if NoRepeats(Planned(base, cfg)) {
        PlannedOnceHasNoRepeats(base, cfg);
      }
    }
  }

  lemma PlannedConfigs(env: Env, base: ReplayConfig, cfg: SensitivityConfig)
    ensures DistinctConfigs(PlannedRows(env, Planned(base, cfg))) <==> NoRepeats(Planned(base, cfg))
    ensures IdsFromConfigs(env, PlannedRows(env, Planned(base, cfg)))
  {
    hide Planned, ScenarioId;
    var rows, plan := PlannedRows(env, Planned(base, cfg)), Planned(base, cfg);
    assert forall i :: 0 <= i < |plan| ==> rows[i].config == plan[i];
  }

  /** Planned ids are distinct exactly when no grid repeats a value, given a hash that tells the
      planned configurations apart; a repeated value spoils them with any hash. */
  lemma DistinctIdsExactly(env: Env, base: ReplayConfig, cfg: SensitivityConfig)
    ensures DistinctRowIds(PlannedRows(env, Planned(base, cfg))) ==> PlansOnce(cfg)
    ensures CollisionFree(env, PlannedRows(env, Planned(base, cfg))) && PlansOnce(cfg)
        ==> DistinctRowIds(PlannedRows(env, Planned(base, cfg)))
  {
    hide Planned, PlannedRows, DistinctConfigs, CollisionFree, IdsFromConfigs, DistinctRowIds, PlansOnce, NoRepeats;
    PlannedConfigs(env, base, cfg);
    PlannedOnceExactly(base, cfg);
    DistinctIdsAreDistinctConfigs(env, PlannedRows(env, Planned(base, cfg)));
  }

  // ----- confluence

  /** Every planned scenario is selected, in plan order. */
  predicate SelectsAll(cfg: SensitivityConfig) {
    !cfg.coverage.Sampled? && cfg.maxScenarios.None?
  }

  /** For a run of the whole grid: confluent exactly when no grid repeats a value. */
  lemma GridConfluentExactly(env: Env, base: ReplayConfig, cfg: SensitivityConfig)
    requires SelectsAll(cfg) && CollisionFree(env, PlannedRows(env, Planned(base, cfg)))
    ensures Confluent(env, base, cfg) <==> PlansOnce(cfg)
  {
    SelectionIsPlan(env, base, cfg);
    hide *;
    ConfluentExactly(env, base, cfg);
    DistinctIdsExactly(env, base, cfg);
  }

  lemma SelectionIsPlan(env: Env, base: ReplayConfig, cfg: SensitivityConfig)
    requires SelectsAll(cfg)
    ensures Selection(env, base, cfg) == PlannedRows(env, Planned(base, cfg))
  {
  }

  /** With any hash whatever, a value listed twice breaks the promise: here are calls of one run that
      finish with a list other than the single call's. */
  lemma RepeatedValueDisagrees(env: Env, base: ReplayConfig, cfg: SensitivityConfig) returns (calls: seq<Call>)
    requires SelectsAll(cfg) && !PlansOnce(cfg)
    ensures OneRun(cfg, calls) && Finished(env, base, cfg, Resume(env, base, calls))
    ensures Resume(env, base, calls) != SingleShot(env, base, cfg)
  {
    SelectionIsPlan(env, base, cfg);
    hide *;
    DistinctIdsExactly(env, base, cfg);
    calls := RepeatedIdsDisagree(env, base, cfg);
  }

  /** One such configuration: the same slippage written down twice, one value in each other grid. */
  function SlippageTwice(t: Thresholds): SensitivityConfig {
    SensitivityConfig([1.0, 1.0], [1.0], ["conservative"], ["conservative_stop_first"], t, FullGrid, None, None, None,
                      None, false)
  }

  lemma SlippageTwiceRepeats(t: Thresholds)
    ensures SelectsAll(SlippageTwice(t)) && !PlansOnce(SlippageTwice(t))
  {
    var cfg := SlippageTwice(t);
    assert Times(1, 1) == 1 && Times(2, 1) == 2;
    assert Size(cfg) == 2;
    assert cfg.slippages[0] == cfg.slippages[1];
  }

  lemma SlippageTwiceDisagrees(env: Env, base: ReplayConfig, t: Thresholds) returns (calls: seq<Call>)
    ensures OneRun(SlippageTwice(t), calls)
    ensures Finished(env, base, SlippageTwice(t), Resume(env, base, calls))
    ensures Resume(env, base, calls) != SingleShot(env, base, SlippageTwice(t))
  {
    hide *;
    SlippageTwiceRepeats(t);
    calls := RepeatedValueDisagrees(env, base, SlippageTwice(t));
  }

  // ----- such hashes exist

  function Unary(n: nat): string {
    seq(n, i requires 0 <= i < n => 'x')
  }

  function FirstIndex(configs: seq<ReplayConfig>, c: ReplayConfig): (k: nat)
    ensures k <= |configs|
    ensures c in configs ==> k < |configs| && configs[k] == c
  {
    if configs == [] || configs[0] == c then 0 else 1 + FirstIndex(configs[1..], c)
  }

  /** For any plan there is a hash without collisions on it: the position of a configuration. */
  lemma CollisionFreeExists(env: Env, base: ReplayConfig, cfg: SensitivityConfig)
    ensures var plan := Planned(base, cfg);
            var e := env.(digestOf := c => Unary(FirstIndex(plan, c)));
            CollisionFree(e, PlannedRows(e, plan))
  {
    hide Planned;
    var plan := Planned(base, cfg);
    var e := env.(digestOf := c => Unary(FirstIndex(plan, c)));
    var rows := PlannedRows(e, plan);
    forall r, s | r in rows && s in rows && e.digestOf(r.config) == e.digestOf(s.config)
      ensures r.config == s.config
    {
      assert r.config in plan && s.config in plan;
      assert |e.digestOf(r.config)| == FirstIndex(plan, r.config);
      assert |e.digestOf(s.config)| == FirstIndex(plan, s.config);
    }
  }
}
