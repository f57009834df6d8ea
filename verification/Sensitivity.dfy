/** One resumable invocation of the sensitivity grid: select, run what is missing, merge, judge. */
module Sensitivity {
  import opened Common
  import opened Sorting
  import opened Market
  import opened Grid

  datatype Metrics = Metrics(totalTrades: int, averageR: real, profitFactor: real, maxDrawdownR: real)

  /** What stays abstract: the two hashes of a scenario under one run id, and the replay itself. */
  datatype Env = Env(digestOf: ReplayConfig -> string, hashOf: ReplayConfig -> string,
                     evaluate: ReplayConfig -> Metrics)

  function ScenarioId(env: Env, config: ReplayConfig): string {
    "scenario_" + env.digestOf(config)
  }

  datatype PlannedRow = PlannedRow(index: int, id: string, hash: string, config: ReplayConfig)

  /** A finished scenario, without its runtime. */
  datatype Scenario = Scenario(id: string, index: int, config: ReplayConfig, metrics: Metrics, passed: bool)

  function RowId(): PlannedRow -> string { (r: PlannedRow) => r.id }

  function RowHash(): PlannedRow -> string { (r: PlannedRow) => r.hash }

  function IdOf(): Scenario -> string { (s: Scenario) => s.id }

  function ScenarioIndex(): Scenario -> int { (s: Scenario) => s.index }

  // ----- planning and selection

  function PlannedRows(env: Env, scenarios: seq<ReplayConfig>): seq<PlannedRow> {
    seq(|scenarios|, i requires 0 <= i < |scenarios| =>
      PlannedRow(i + 1, ScenarioId(env, scenarios[i]), env.hashOf(scenarios[i]), scenarios[i]))
  }

  function SelectRows(rows: seq<PlannedRow>, cfg: SensitivityConfig): seq<PlannedRow> {
    var ordered := if cfg.coverage.Sampled? then SortBy(rows, RowHash(), StrLe()) else rows;
    if cfg.maxScenarios.Some? && cfg.maxScenarios.value < |ordered| then ordered[..cfg.maxScenarios.value] else ordered
  }

  function Selection(env: Env, base: ReplayConfig, cfg: SensitivityConfig): seq<PlannedRow> {
    SelectRows(PlannedRows(env, Planned(base, cfg)), cfg)
  }

  predicate Matches(config: ReplayConfig, group: Option<Group>) {
    group.None? ||
    match group.value
    case LowCosts => config.slippageBps <= 2.0 && config.spreadBps <= 2.0
    case HighCosts => config.slippageBps >= 5.0 || config.spreadBps >= 5.0
    case Intrabar(policy) => config.intrabarPolicy == policy
    case SameBar(policy) => config.sameBarPolicy == policy
    case Slippage(bps) => config.slippageBps == bps
    case Spread(bps) => config.spreadBps == bps
    case Everything => true
  }

  // ----- dictionaries of scenarios, in insertion order

  predicate HasId(xs: seq<Scenario>, id: string) {
    exists i :: 0 <= i < |xs| && xs[i].id == id
  }

  ghost predicate DistinctIds(xs: seq<Scenario>) {
    DistinctKeys(xs, IdOf())
  }

  /** Assignment to a dictionary: replace in place, or append. */
  function Upsert(xs: seq<Scenario>, s: Scenario): seq<Scenario> {
    if xs == [] then [s] else if xs[0].id == s.id then [s] + xs[1..] else [xs[0]] + Upsert(xs[1..], s)
  }

  function Merge(xs: seq<Scenario>, news: seq<Scenario>): seq<Scenario> {
    if news == [] then xs else Upsert(Merge(xs, news[..|news| - 1]), Last(news))
  }

  /** The first entry of every selected, non-empty id. */
  function Dedupe(existing: seq<Scenario>, selected: seq<PlannedRow>): seq<Scenario> {
    if existing == [] then []
    else
      var kept := Dedupe(existing[..|existing| - 1], selected);
      var s := Last(existing);
      if s.id != "" && HasRowId(selected, s.id) && !HasId(kept, s.id) then kept + [s] else kept
  }

  predicate HasRowId(rows: seq<PlannedRow>, id: string) {
    exists i :: 0 <= i < |rows| && rows[i].id == id
  }

  // ----- running

  function Gates(m: Metrics, t: Thresholds): bool {
    m.totalTrades >= t.totalTrades && m.averageR > t.averageR && m.profitFactor >= t.profitFactor
      && m.maxDrawdownR >= t.drawdownR
  }

  function Evaluate(env: Env, t: Thresholds): PlannedRow -> Scenario {
    (r: PlannedRow) => Scenario(r.id, r.index, r.config, env.evaluate(r.config), Gates(env.evaluate(r.config), t))
  }

  function Missing(done: seq<Scenario>, group: Option<Group>): PlannedRow -> bool {
    (r: PlannedRow) => !HasId(done, r.id) && Matches(r.config, group)
  }

  /** The rows this invocation intends to run. */
  function ToRun(selected: seq<PlannedRow>, done: seq<Scenario>, cfg: SensitivityConfig): seq<PlannedRow> {
    var rows := Filter(selected, Missing(done, cfg.group));
    if cfg.maxPerInvocation.Some? && cfg.maxPerInvocation.value < |rows| then rows[..cfg.maxPerInvocation.value]
    else rows
  }

  /** Rows run before the clock stops the loop; `elapsed(k)` is the time after `k` of them. The first
      row always runs. */
  function Completed(n: nat, k: nat, cfg: SensitivityConfig, elapsed: nat -> real): (r: nat)
    requires k <= n
    ensures k <= r <= n && (k == 0 && n > 0 ==> r > 0)
    ensures cfg.maxRuntime.None? ==> r == n
    decreases n - k
  {
    if k == n || (k > 0 && cfg.maxRuntime.Some? && elapsed(k) >= cfg.maxRuntime.value) then k
    else Completed(n, k + 1, cfg, elapsed)
  }

  datatype PartialReason = InvocationCap | RuntimeExhausted | GroupLimited | SelectionLimited | NotComplete

  datatype Completion = Complete | TimedOut | Partial | BoundedComplete

  datatype Result = Result(scenarios: seq<Scenario>, remaining: seq<PlannedRow>, planned: nat, selected: nat,
                           gridComplete: bool, fullDefault: bool, completion: Completion,
                           reason: Option<PartialReason>, activationGrade: bool)

  const COSTS := [0.0, 1.0, 2.0, 5.0, 10.0]
  const INTRABARS := ["conservative", "open_high_low_close", "open_low_high_close"]
  const SAME_BARS := ["conservative_stop_first"]
  const FULL_GRID_COUNT: nat := 75

  predicate DefaultGrid(cfg: SensitivityConfig) {
    && cfg.slippages == COSTS && cfg.spreads == COSTS && cfg.intrabars == INTRABARS && cfg.sameBars == SAME_BARS
    && cfg.maxScenarios.None?
  }

  predicate ActivationMode(cfg: SensitivityConfig) {
    cfg.coverage.FullGrid? || cfg.coverage.ChunkedFullGrid?
  }

  function Unfinished(done: seq<Scenario>): PlannedRow -> bool {
    (r: PlannedRow) => !HasId(done, r.id)
  }

  /** Judging a merged scenario list. */
  function Judge(all: seq<Scenario>, selected: seq<PlannedRow>, planned: nat, cfg: SensitivityConfig,
                 early: Option<PartialReason>): Result {
    var scenarios := SortBy(all, ScenarioIndex(), IntLe());
    var remaining := Filter(selected, Unfinished(scenarios));
    var reason := if early.Some? then early
                  else if cfg.group.Some? && remaining != [] then Some(GroupLimited)
                  else if |selected| < planned then Some(SelectionLimited)
                  else if remaining != [] then Some(NotComplete)
                  else None;
    var gridComplete := |scenarios| == planned;
    var fullDefault := gridComplete && DefaultGrid(cfg) && planned == FULL_GRID_COUNT && ActivationMode(cfg);
    var completion := if fullDefault then Complete
                      else if reason == Some(RuntimeExhausted) || cfg.coverage.PartialTimeout? then TimedOut
                      else if !gridComplete then Partial else BoundedComplete;
    Result(scenarios, remaining, planned, |selected|, gridComplete, fullDefault, completion, reason,
           fullDefault && completion == Complete)
  }

  function EarlyReason(selected: seq<PlannedRow>, done: seq<Scenario>, cfg: SensitivityConfig,
                       elapsed: nat -> real): Option<PartialReason> {
    var n := |ToRun(selected, done, cfg)|;
    if Completed(n, 0, cfg, elapsed) < n then Some(RuntimeExhausted)
    else if n < |Filter(selected, Missing(done, cfg.group))| then Some(InvocationCap)
    else None
  }

  /** The scenarios one invocation computes. */
  function Computed(env: Env, selected: seq<PlannedRow>, done: seq<Scenario>, cfg: SensitivityConfig,
                    elapsed: nat -> real): seq<Scenario> {
    var rows := ToRun(selected, done, cfg);
    Map(rows[..Completed(|rows|, 0, cfg, elapsed)], Evaluate(env, cfg.thresholds))
  }

  /** One invocation: results already there are kept, missing ones are computed and merged in. */
  function Invoke(env: Env, base: ReplayConfig, cfg: SensitivityConfig, existing: seq<Scenario>,
                  elapsed: nat -> real): Result {
    var selected := Selection(env, base, cfg);
    var done := Dedupe(existing, selected);
    var all := Merge(done, Computed(env, selected, done, cfg, elapsed));
    Judge(all, selected, |Planned(base, cfg)|, cfg, EarlyReason(selected, done, cfg, elapsed))
  }

  // ----- the engine's loops

  method DedupeExisting(existing: seq<Scenario>, selected: seq<PlannedRow>) returns (kept: seq<Scenario>)
    ensures kept == Dedupe(existing, selected)
  {
    kept := [];
    for i := 0 to |existing|
      invariant kept == Dedupe(existing[..i], selected)
    {
      assert existing[..i + 1][..i] == existing[..i] && Last(existing[..i + 1]) == existing[i];
      var s := existing[i];
      if s.id != "" && HasRowId(selected, s.id) && !HasId(kept, s.id) {
        kept := kept + [s];
      }
    }
    assert existing[..|existing|] == existing;
  }

  /** Runs rows until done or out of time. */
  method RunRows(env: Env, rows: seq<PlannedRow>, cfg: SensitivityConfig, elapsed: nat -> real)
    returns (computed: seq<Scenario>, timedOut: bool)
    ensures computed == Map(rows[..Completed(|rows|, 0, cfg, elapsed)], Evaluate(env, cfg.thresholds))
    ensures timedOut <==> Completed(|rows|, 0, cfg, elapsed) < |rows|
  {
    computed, timedOut := [], false;
    var k: nat := 0;
    while k < |rows|
      invariant 0 <= k <= |rows|
      invariant computed == Map(rows[..k], Evaluate(env, cfg.thresholds))
      invariant Completed(|rows|, 0, cfg, elapsed) == Completed(|rows|, k, cfg, elapsed)
      invariant !timedOut
    {
      if computed != [] && cfg.maxRuntime.Some? && elapsed(k) >= cfg.maxRuntime.value {
        timedOut := true;
        break;
      }
      assert rows[..k + 1] == rows[..k] + [rows[k]];
      MapSnoc(rows[..k], rows[k], Evaluate(env, cfg.thresholds));
      computed := computed + [Evaluate(env, cfg.thresholds)(rows[k])];
      k := k + 1;
    }
  }

  method MergeAll(done: seq<Scenario>, news: seq<Scenario>) returns (all: seq<Scenario>)
    ensures all == Merge(done, news)
  {
    all := done;
    for i := 0 to |news|
      invariant all == Merge(done, news[..i])
    {
      assert news[..i + 1][..i] == news[..i] && Last(news[..i + 1]) == news[i];
      all := Upsert(all, news[i]);
    }
    assert news[..|news|] == news;
  }

  method RunSensitivity(env: Env, base: ReplayConfig, cfg: SensitivityConfig, existing: seq<Scenario>,
                        elapsed: nat -> real)
    returns (result: Result)
    ensures result == Invoke(env, base, cfg, existing, elapsed)
  {
    hide Judge, SelectRows, Dedupe, Merge, Planned;
    var scenarios := PlanScenarios(base, cfg);
    var rows := PlannedRows(env, scenarios);
    var selected := SelectRows(rows, cfg);
    var done := DedupeExisting(existing, selected);
    var early: Option<PartialReason> := None;
    var runRows := Filter(selected, Missing(done, cfg.group));
    if cfg.maxPerInvocation.Some? && cfg.maxPerInvocation.value < |runRows| {
      runRows := runRows[..cfg.maxPerInvocation.value];
      early := Some(InvocationCap);
    }
    var computed, timedOut := RunRows(env, runRows, cfg, elapsed);
    if timedOut {
      early := Some(RuntimeExhausted);
    }
    var all := MergeAll(done, computed);
    result := Judge(all, selected, |scenarios|, cfg, early);
  }
}
