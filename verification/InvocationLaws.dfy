/** What one call of a sensitivity run does, written out: which rows it selects, which of them it runs,
    what it reports of each, and how it judges the whole. */
module InvocationLaws {
  import opened Common
  import opened Sorting
  import opened Market
  import opened Grid
  import opened Sensitivity
  import opened SensitivityLaws

  // ----- selection

  /** Row `k` of the plan: numbered from one, named by the digest of its configuration. */
  ghost predicate IsRow(env: Env, plan: seq<ReplayConfig>, k: nat, r: PlannedRow)
    requires k < |plan|
  {
    && r.index == k + 1 && r.config == plan[k] && r.id == "scenario_" + env.digestOf(plan[k])
    && r.hash == env.hashOf(plan[k])
  }

  ghost predicate ByHash(rows: seq<PlannedRow>) {
    forall i, j :: 0 <= i < j < |rows| ==> Alphabetic(rows[i].hash, rows[j].hash)
  }

  /** All rows of a plan in the order they are offered: that of the plan, or of the hashes when sampling. */
  ghost predicate Offered(env: Env, base: ReplayConfig, cfg: SensitivityConfig, plan: seq<PlannedRow>,
                          rows: seq<PlannedRow>) {
    && |plan| == |Planned(base, cfg)| && (forall k :: 0 <= k < |plan| ==> IsRow(env, Planned(base, cfg), k, plan[k]))
    && if cfg.coverage == Sampled then multiset(rows) == multiset(plan) && ByHash(rows) else rows == plan
  }

  /** Selected are the first rows offered, at most as many as configured. */
  lemma SelectionExactly(env: Env, base: ReplayConfig, cfg: SensitivityConfig)
    returns (plan: seq<PlannedRow>, rows: seq<PlannedRow>)
    ensures Offered(env, base, cfg, plan, rows)
    ensures var n := |Selection(env, base, cfg)|;
            && n <= |rows| && Selection(env, base, cfg) == rows[..n]
            && n == match cfg.maxScenarios
                    case None => |rows|
                    case Some(cap) => if cap < |rows| then cap else |rows|
  {
    hide Planned, StringLe;
    plan := PlannedRows(env, Planned(base, cfg));
    rows := if cfg.coverage == Sampled then SortBy(plan, RowHash(), StrLe()) else plan;
    if cfg.coverage == Sampled {
      StringOrder();
      SortSorted(plan, RowHash(), StrLe());
      hide SortBy;
      forall i, j | 0 <= i < j < |rows|
        ensures Alphabetic(rows[i].hash, rows[j].hash)
      {
        assert StrLe()(RowHash()(rows[i]), RowHash()(rows[j]));
        StringLeIsAlphabetic(rows[i].hash, rows[j].hash);
      }
    }
    assert rows[..|rows|] == rows;
  }

  // ----- earlier results

  /** Entry `k` of the earlier results is kept: it has a selected, non-empty id, and no entry before it
      has the same. */
  ghost predicate Keeps(existing: seq<Scenario>, selected: seq<PlannedRow>, k: nat)
    requires k < |existing|
  {
    && existing[k].id != "" && (exists r :: r in selected && r.id == existing[k].id)
    && forall m :: 0 <= m < k ==> existing[m].id != existing[k].id
  }

  lemma {:induction false} KeptExactly(existing: seq<Scenario>, selected: seq<PlannedRow>)
    ensures forall s :: s in Dedupe(existing, selected) <==>
              exists k :: 0 <= k < |existing| && existing[k] == s && Keeps(existing, selected, k)
    ensures forall id :: HasId(Dedupe(existing, selected), id) <==>
              id != "" && HasRowId(selected, id) && HasId(existing, id)
  {
    if existing != [] {
      var n := |existing| - 1;
      var before, s := existing[..n], existing[n];
      var kept := Dedupe(before, selected);
      KeptExactly(before, selected);
      assert existing == before + [s];
      forall id
        ensures HasId(existing, id) <==> HasId(before, id) || s.id == id
        ensures HasId(kept + [s], id) <==> HasId(kept, id) || s.id == id
      {
        HasIdSnoc(before, s, id);
        HasIdSnoc(kept, s, id);
      }
      KeepsPrefix(existing, selected);
      KeepsLast(existing, selected);
      hide Keeps, HasRowId, HasId;
    }
  }

  lemma KeepsPrefix(existing: seq<Scenario>, selected: seq<PlannedRow>)
    requires existing != []
    ensures var n := |existing| - 1;
            forall k :: 0 <= k < n ==> existing[k] == existing[..n][k]
                                       && (Keeps(existing, selected, k) <==> Keeps(existing[..n], selected, k))
  {
  }

  lemma KeepsLast(existing: seq<Scenario>, selected: seq<PlannedRow>)
    requires existing != []
    ensures var n := |existing| - 1;
            var s := existing[n];
            Keeps(existing, selected, n) <==> s.id != "" && HasRowId(selected, s.id) && !HasId(existing[..n], s.id)
  {
    var n := |existing| - 1;
    var s := existing[n];
    assert forall m :: 0 <= m < n ==> existing[..n][m] == existing[m];
    assert HasRowId(selected, s.id) <==> exists r :: r in selected && r.id == s.id;
  }

  // ----- what runs

  /** The rows a group stands for; no group stands for all. */
  ghost predicate InGroup(config: ReplayConfig, group: Option<Group>) {
    match group
    case None => true
    case Some(LowCosts) => config.slippageBps <= 2.0 && config.spreadBps <= 2.0
    case Some(HighCosts) => !(config.slippageBps < 5.0 && config.spreadBps < 5.0)
    case Some(Intrabar(policy)) => policy == config.intrabarPolicy
    case Some(SameBar(policy)) => policy == config.sameBarPolicy
    case Some(Slippage(bps)) => bps == config.slippageBps
    case Some(Spread(bps)) => bps == config.spreadBps
    case Some(Everything) => true
  }

  /** Still to be run: no earlier result has the row's id, and the group wants it. */
  ghost function Waiting(existing: seq<Scenario>, selected: seq<PlannedRow>, group: Option<Group>): PlannedRow -> bool {
    (r: PlannedRow) =>
      InGroup(r.config, group) && !exists k :: 0 <= k < |existing| && existing[k].id == r.id && r.id != ""
                                               && r in selected
  }

  /** Of `n` rows allowed, `m` run: the clock is read before each row but the first. */
  ghost predicate Stops(n: nat, m: nat, cfg: SensitivityConfig, elapsed: nat -> real) {
    && m <= n
    && (forall k :: 0 < k < m ==> cfg.maxRuntime == None || elapsed(k) < cfg.maxRuntime.value)
    && (m < n ==> m > 0 && cfg.maxRuntime != None && elapsed(m) >= cfg.maxRuntime.value)
  }

  lemma {:induction false} CompletedStops(n: nat, k: nat, cfg: SensitivityConfig, elapsed: nat -> real)
    requires k <= n
    requires forall j :: 0 < j < k ==> cfg.maxRuntime == None || elapsed(j) < cfg.maxRuntime.value
    ensures Stops(n, Completed(n, k, cfg, elapsed), cfg, elapsed)
    decreases n - k
  {
    if k < n && (k == 0 || cfg.maxRuntime.None? || elapsed(k) < cfg.maxRuntime.value) {
      CompletedStops(n, k + 1, cfg, elapsed);
    }
  }

  /** The rows waiting, how many the cap allows, and how many of those run. */
  ghost predicate Runs(env: Env, base: ReplayConfig, cfg: SensitivityConfig, existing: seq<Scenario>,
                       elapsed: nat -> real, waiting: seq<PlannedRow>, allowed: nat, ran: nat) {
    var selected := Selection(env, base, cfg);
    && waiting == Filter(selected, Waiting(existing, selected, cfg.group))
    && allowed == (match cfg.maxPerInvocation
                   case None => |waiting|
                   case Some(cap) => if cap < |waiting| then cap else |waiting|)
    && Stops(allowed, ran, cfg, elapsed)
  }

  /** A scenario as a row's run reports it: the metrics of its configuration, passed when they meet the
      thresholds. */
  ghost predicate Reports(env: Env, t: Thresholds, r: PlannedRow, s: Scenario) {
    var m := env.evaluate(r.config);
    && s.id == r.id && s.index == r.index && s.config == r.config && s.metrics == m
    && (s.passed <==> !(m.totalTrades < t.totalTrades) && m.averageR > t.averageR
                      && !(m.profitFactor < t.profitFactor) && !(m.maxDrawdownR < t.drawdownR))
  }

  lemma EvaluateReports(env: Env, t: Thresholds, r: PlannedRow)
    ensures Reports(env, t, r, Evaluate(env, t)(r))
  {
  }

  lemma WaitingIsMissing(existing: seq<Scenario>, selected: seq<PlannedRow>, group: Option<Group>)
    ensures Filter(selected, Waiting(existing, selected, group))
         == Filter(selected, Missing(Dedupe(existing, selected), group))
  {
    var done := Dedupe(existing, selected);
    KeptExactly(existing, selected);
    hide Dedupe, Keeps, Filter;
    forall r | r in selected
      ensures Waiting(existing, selected, group)(r) == Missing(done, group)(r)
    {
      assert HasRowId(selected, r.id);
      assert HasId(existing, r.id) <==> exists k :: 0 <= k < |existing| && existing[k].id == r.id;
      assert InGroup(r.config, group) <==> Matches(r.config, group);
    }
    FilterCongruence(selected, Waiting(existing, selected, group), Missing(done, group));
  }

  /** The rows a call runs are the first ones waiting, as far as cap and clock allow, and each is reported
      as its run turned out. */
  lemma RunExactly(env: Env, base: ReplayConfig, cfg: SensitivityConfig, existing: seq<Scenario>, elapsed: nat -> real)
    returns (waiting: seq<PlannedRow>, allowed: nat, ran: nat)
    ensures Runs(env, base, cfg, existing, elapsed, waiting, allowed, ran) && ran <= |waiting|
    ensures var selected := Selection(env, base, cfg);
            var news := Computed(env, selected, Dedupe(existing, selected), cfg, elapsed);
            && |news| == ran && forall j :: 0 <= j < ran ==> Reports(env, cfg.thresholds, waiting[j], news[j])
    ensures var selected := Selection(env, base, cfg);
            var early := EarlyReason(selected, Dedupe(existing, selected), cfg, elapsed);
            && (early == Some(RuntimeExhausted) <==> ran < allowed)
            && (early == Some(InvocationCap) <==> ran == allowed < |waiting|)
            && (early == None <==> ran == allowed == |waiting|)
  {
    var selected := Selection(env, base, cfg);
    var done := Dedupe(existing, selected);
    WaitingIsMissing(existing, selected, cfg.group);
    waiting := Filter(selected, Missing(done, cfg.group));
    var rows := ToRun(selected, done, cfg);
    allowed, ran := |rows|, Completed(|rows|, 0, cfg, elapsed);
    CompletedStops(|rows|, 0, cfg, elapsed);
    hide Selection, Dedupe, Filter, Waiting, Missing, Completed, Stops, Reports, Evaluate;
    var news := Computed(env, selected, done, cfg, elapsed);
    forall j | 0 <= j < ran
      ensures Reports(env, cfg.thresholds, waiting[j], news[j])
    {
      EvaluateReports(env, cfg.thresholds, waiting[j]);
    }
  }

  // ----- the result

  /** What a call returns: every scenario is a kept earlier result or a report of a row that ran; and
      nothing kept and no row that ran is missing. */
  lemma ScenariosExactly(env: Env, base: ReplayConfig, cfg: SensitivityConfig, existing: seq<Scenario>,
                         elapsed: nat -> real, waiting: seq<PlannedRow>, allowed: nat, ran: nat)
    requires Runs(env, base, cfg, existing, elapsed, waiting, allowed, ran) && ran <= |waiting|
    ensures var selected, all := Selection(env, base, cfg), Invoke(env, base, cfg, existing, elapsed).scenarios;
            && (forall s :: s in all ==> Kept(existing, selected, s) || Ran(env, cfg.thresholds, waiting, ran, s))
            && (forall s :: Kept(existing, selected, s) ==> s in all)
            && (forall j :: 0 <= j < ran ==> HasId(all, waiting[j].id))
            && (forall i, j :: 0 <= i < j < |all| ==> all[i].index <= all[j].index && all[i].id != all[j].id)
  {
    var selected := Selection(env, base, cfg);
    var done := Dedupe(existing, selected);
    var waiting', allowed', ran' := RunExactly(env, base, cfg, existing, elapsed);
    StopsOnce(allowed, ran, ran', cfg, elapsed);
    var news := Computed(env, selected, done, cfg, elapsed);
    var all := Merge(done, news);
    KeptExactly(existing, selected);
    DedupeFacts(existing, selected);
    ComputedFacts(env, selected, done, cfg, elapsed);
    MergeFacts(done, news);
    SortKeepsIds(all);
    IntOrder();
    SortSorted(all, ScenarioIndex(), IntLe());
    hide Selection, Dedupe, Computed, Merge, Runs, HasId, Keeps, Reports, SortBy, Honest;
    ResultIsSorted(env, base, cfg, existing, elapsed);
    var result := Invoke(env, base, cfg, existing, elapsed).scenarios;
    hide Invoke;
    forall s | s in result
      ensures Kept(existing, selected, s) || Ran(env, cfg.thresholds, waiting, ran, s)
    {
      if s in news {
        var j :| 0 <= j < |news| && news[j] == s;
        assert Reports(env, cfg.thresholds, waiting[j], s);
      }
    }
    forall s | Kept(existing, selected, s)
      ensures s in result
    {
      assert s in done;
      MemberHasId(done, s);
    }
    forall j | 0 <= j < ran
      ensures HasId(result, waiting[j].id)
    {
      assert Reports(env, cfg.thresholds, waiting[j], news[j]);
      ReportedId(env, cfg.thresholds, waiting[j], news[j]);
      MemberHasId(news, news[j]);
    }
    InOrderOnce(result);
  }

  ghost predicate Kept(existing: seq<Scenario>, selected: seq<PlannedRow>, s: Scenario) {
    exists k :: 0 <= k < |existing| && existing[k] == s && Keeps(existing, selected, k)
  }

  ghost predicate Ran(env: Env, t: Thresholds, waiting: seq<PlannedRow>, ran: nat, s: Scenario) {
    exists j :: 0 <= j < ran && j < |waiting| && Reports(env, t, waiting[j], s)
  }

  lemma ReportedId(env: Env, t: Thresholds, r: PlannedRow, s: Scenario)
    requires Reports(env, t, r, s)
    ensures s.id == r.id
  {
  }

  lemma ResultIsSorted(env: Env, base: ReplayConfig, cfg: SensitivityConfig, existing: seq<Scenario>,
                       elapsed: nat -> real)
    ensures var selected := Selection(env, base, cfg);
            var done := Dedupe(existing, selected);
            Invoke(env, base, cfg, existing, elapsed).scenarios
              == SortBy(Merge(done, Computed(env, selected, done, cfg, elapsed)), ScenarioIndex(), IntLe())
  {
    hide Selection, Dedupe, Computed, Merge, SortBy;
  }

  lemma InOrderOnce(all: seq<Scenario>)
    requires Sorted(all, ScenarioIndex(), IntLe()) && DistinctIds(all)
    ensures forall i, j :: 0 <= i < j < |all| ==> all[i].index <= all[j].index && all[i].id != all[j].id
  {
    forall i, j | 0 <= i < j < |all|
      ensures all[i].index <= all[j].index && all[i].id != all[j].id
    {
      assert IntLe()(ScenarioIndex()(all[i]), ScenarioIndex()(all[j]));
      assert IdOf()(all[i]) != IdOf()(all[j]);
    }
  }

  /** Cap and clock leave one number of rows. */
  lemma StopsOnce(n: nat, m: nat, m': nat, cfg: SensitivityConfig, elapsed: nat -> real)
    requires Stops(n, m, cfg, elapsed) && Stops(n, m', cfg, elapsed)
    ensures m == m'
  {
  }

  // ----- the judgement

  /** The default grid: five slippages and spreads, three intrabar policies, one same-bar policy, uncapped. */
  ghost predicate DefaultSettings(cfg: SensitivityConfig) {
    && cfg.slippages == [0.0, 1.0, 2.0, 5.0, 10.0] && cfg.spreads == [0.0, 1.0, 2.0, 5.0, 10.0]
    && cfg.intrabars == ["conservative", "open_high_low_close", "open_low_high_close"]
    && cfg.sameBars == ["conservative_stop_first"] && cfg.maxScenarios == None
  }

  /** Completeness, status and reason of a call, each exactly. */
  ghost predicate Judged(result: Result, selected: seq<PlannedRow>, cfg: SensitivityConfig, waiting: nat, allowed: nat,
                         ran: nat) {
    var complete := |result.scenarios| == result.planned;
    var full := complete && DefaultSettings(cfg) && (cfg.coverage == FullGrid || cfg.coverage == ChunkedFullGrid);
    var late := ran < allowed;
    var capped := !late && allowed < waiting;
    var grouped := !late && !capped && cfg.group != None && result.remaining != [];
    var bounded := !late && !capped && !grouped && result.selected < result.planned;
    && result.selected == |selected|
    && (forall r :: r in result.remaining <==> r in selected && !HasId(result.scenarios, r.id))
    && (result.gridComplete <==> complete) && (result.fullDefault <==> full) && (result.activationGrade <==> full)
    && (result.reason == Some(RuntimeExhausted) <==> late)
    && (result.reason == Some(InvocationCap) <==> capped)
    && (result.reason == Some(GroupLimited) <==> grouped)
    && (result.reason == Some(SelectionLimited) <==> bounded)
    && (result.reason == Some(NotComplete) <==> !late && !capped && !grouped && !bounded && result.remaining != [])
    && (result.completion == Complete <==> full)
    && (result.completion == TimedOut <==> !full && (late || cfg.coverage == PartialTimeout))
    && (result.completion == Partial <==> !full && !late && cfg.coverage != PartialTimeout && !complete)
    && (result.completion == BoundedComplete <==> !full && !late && cfg.coverage != PartialTimeout && complete)
  }

  lemma DefaultSettingsAre(base: ReplayConfig, cfg: SensitivityConfig)
    ensures DefaultSettings(cfg) <==> DefaultGrid(cfg)
    ensures DefaultGrid(cfg) ==> |Planned(base, cfg)| == 75
  {
    if DefaultGrid(cfg) {
      PlannedSize(base, cfg);
      assert |COSTS| == 5 && |INTRABARS| == 3 && |SAME_BARS| == 1;
      assert Times(3, 1) == 3 && Times(5, 3) == 15 && Times(5, 15) == 75;
    }
  }

  lemma JudgedExactly(env: Env, base: ReplayConfig, cfg: SensitivityConfig, existing: seq<Scenario>,
                      elapsed: nat -> real, waiting: seq<PlannedRow>, allowed: nat, ran: nat)
    requires Runs(env, base, cfg, existing, elapsed, waiting, allowed, ran) && ran <= |waiting|
    ensures var result := Invoke(env, base, cfg, existing, elapsed);
            && result.planned == |Planned(base, cfg)|
            && Judged(result, Selection(env, base, cfg), cfg, |waiting|, allowed, ran)
  {
    var selected := Selection(env, base, cfg);
    var done := Dedupe(existing, selected);
    var waiting', allowed', ran' := RunExactly(env, base, cfg, existing, elapsed);
    StopsOnce(allowed, ran, ran', cfg, elapsed);
    DefaultSettingsAre(base, cfg);
    hide Runs, Selection, Dedupe, Computed, Merge, EarlyReason, Planned, Stops, Judged;
    JudgeExactly(Merge(done, Computed(env, selected, done, cfg, elapsed)), selected, |Planned(base, cfg)|, cfg,
                 EarlyReason(selected, done, cfg, elapsed), |waiting|, allowed, ran);
  }

  lemma JudgeExactly(all: seq<Scenario>, selected: seq<PlannedRow>, planned: nat, cfg: SensitivityConfig,
                     early: Option<PartialReason>, waiting: nat, allowed: nat, ran: nat)
    requires ran <= allowed <= waiting
    requires early == Some(RuntimeExhausted) <==> ran < allowed
    requires early == Some(InvocationCap) <==> ran == allowed < waiting
    requires early == None <==> ran == allowed == waiting
    requires DefaultSettings(cfg) <==> DefaultGrid(cfg)
    requires DefaultGrid(cfg) ==> planned == 75
    ensures Judged(Judge(all, selected, planned, cfg, early), selected, cfg, waiting, allowed, ran)
  {
    hide DefaultSettings, DefaultGrid, HasId, SortBy, Filter;
  }
}
