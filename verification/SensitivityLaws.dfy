/** Resuming a sensitivity run: nothing is recomputed, every call makes progress, and however the
    calls are cut the finished list is the single-shot one, exactly when scenario ids are distinct. */
module SensitivityLaws {
  import opened Common
  import opened Sorting
  import opened Market
  import opened Grid
  import opened Sensitivity

  // ----- dictionaries

  lemma {:induction false} UpsertIds(xs: seq<Scenario>, s: Scenario, id: string)
    ensures HasId(Upsert(xs, s), id) <==> HasId(xs, id) || s.id == id
  {
    HasIdSplit(xs, id);
    HasIdSplit(Upsert(xs, s), id);
    if xs != [] && xs[0].id != s.id {
      UpsertIds(xs[1..], s, id);
      assert Upsert(xs, s)[1..] == Upsert(xs[1..], s);
    } else if xs != [] {
      assert Upsert(xs, s)[1..] == xs[1..];
    } else {
      HasIdSplit([], id);
    }
  }

  lemma HasIdSplit(xs: seq<Scenario>, id: string)
    ensures HasId(xs, id) <==> xs != [] && (xs[0].id == id || HasId(xs[1..], id))
  {
    if HasId(xs, id) {
      var i :| 0 <= i < |xs| && xs[i].id == id;
      assert i > 0 ==> xs[1..][i - 1] == xs[i];
    }
    if xs != [] && HasId(xs[1..], id) {
      var i :| 0 <= i < |xs[1..]| && xs[1..][i].id == id;
      assert xs[i + 1].id == id;
    }
  }

  lemma {:induction false} UpsertKeepsDistinct(xs: seq<Scenario>, s: Scenario)
    requires DistinctIds(xs)
    ensures DistinctIds(Upsert(xs, s))
  {
    if xs != [] && xs[0].id != s.id {
      UpsertKeepsDistinct(xs[1..], s);
      var rest := Upsert(xs[1..], s);
      UpsertIds(xs[1..], s, xs[0].id);
      assert !HasId(xs[1..], xs[0].id);
      assert !HasId(rest, xs[0].id);
    }
  }

  lemma {:induction false} UpsertMembers(xs: seq<Scenario>, s: Scenario)
    ensures s in Upsert(xs, s)
    ensures forall x :: x in Upsert(xs, s) ==> x == s || x in xs
    ensures forall x :: x in xs && x.id != s.id ==> x in Upsert(xs, s)
  {
    if xs != [] && xs[0].id != s.id {
      UpsertMembers(xs[1..], s);
      assert xs == [xs[0]] + xs[1..];
    } else if xs != [] {
      assert xs == [xs[0]] + xs[1..];
    }
  }

  lemma {:induction false} MergeFacts(xs: seq<Scenario>, news: seq<Scenario>)
    requires DistinctIds(xs)
    ensures DistinctIds(Merge(xs, news))
    ensures forall id :: HasId(Merge(xs, news), id) <==> HasId(xs, id) || HasId(news, id)
    ensures forall x :: x in Merge(xs, news) ==> x in xs || x in news
    ensures forall x :: x in xs && !HasId(news, x.id) ==> x in Merge(xs, news)
  {
    if news == [] {
      assert forall id :: !HasId([], id);
    } else {
      var n := |news| - 1;
      var before, s := Merge(xs, news[..n]), news[n];
      MergeFacts(xs, news[..n]);
      UpsertKeepsDistinct(before, s);
      UpsertMembers(before, s);
      assert news == news[..n] + [s];
      forall id
        ensures HasId(Merge(xs, news), id) <==> HasId(xs, id) || HasId(news, id)
        ensures HasId(news, id) <==> HasId(news[..n], id) || s.id == id
      {
        UpsertIds(before, s, id);
        HasIdSnoc(news[..n], s, id);
      }
    }
  }

  lemma HasIdSnoc(xs: seq<Scenario>, s: Scenario, id: string)
    ensures HasId(xs + [s], id) <==> HasId(xs, id) || s.id == id
  {
    if HasId(xs, id) {
      var i :| 0 <= i < |xs| && xs[i].id == id;
      assert (xs + [s])[i].id == id;
    }
    if s.id == id {
      assert (xs + [s])[|xs|].id == id;
    }
  }

  /** The last of the new scenarios with a given id is the one that stays. */
  lemma {:induction false} LastOneStays(xs: seq<Scenario>, news: seq<Scenario>, k: nat)
    requires k < |news| && !HasId(news[k + 1..], news[k].id)
    ensures news[k] in Merge(xs, news)
  {
    var n := |news| - 1;
    UpsertMembers(Merge(xs, news[..n]), news[n]);
    if k < n {
      assert news[k + 1..][n - k - 1] == news[n];
      assert news[n].id != news[k].id;
      var tail := news[..n][k + 1..];
      forall i | 0 <= i < |tail|
        ensures tail[i].id != news[k].id
      {
        assert tail[i] == news[k + 1..][i];
      }
      LastOneStays(xs, news[..n], k);
    }
  }

  // ----- one invocation on honest results

  ghost predicate DistinctRowIds(rows: seq<PlannedRow>) {
    DistinctKeys(rows, RowId())
  }

  ghost predicate NamedRows(rows: seq<PlannedRow>) {
    forall r :: r in rows ==> r.id != ""
  }

  /** Scenario ids are never empty. */
  lemma SelectionIsNamed(env: Env, base: ReplayConfig, cfg: SensitivityConfig)
    ensures NamedRows(Selection(env, base, cfg))
  {
    hide Planned;
    var rows := PlannedRows(env, Planned(base, cfg));
    SameMembers(SortBy(rows, RowHash(), StrLe()), rows);
    hide SortBy;
    forall r | r in Selection(env, base, cfg)
      ensures r.id != ""
    {
      assert r in rows;
      assert |r.id| >= |"scenario_"|;
    }
  }

  /** Results as earlier calls of the same run leave them: one per id, each computed from its row. */
  ghost predicate Honest(env: Env, t: Thresholds, selected: seq<PlannedRow>, xs: seq<Scenario>) {
    && DistinctIds(xs)
    && forall x :: x in xs ==> exists r :: r in selected && x == Evaluate(env, t)(r)
  }

  lemma {:induction false} DedupeKeepsHonest(env: Env, t: Thresholds, selected: seq<PlannedRow>, xs: seq<Scenario>)
    requires NamedRows(selected) && Honest(env, t, selected, xs)
    ensures Dedupe(xs, selected) == xs
  {
    if xs != [] {
      var n := |xs| - 1;
      HonestLast(env, t, selected, xs);
      hide Honest, NamedRows, HasId, HasRowId;
      DedupeKeepsHonest(env, t, selected, xs[..n]);
      assert xs == xs[..n] + [xs[n]];
    }
  }

  /** The last honest result is new, named and planned, and those before it are honest. */
  lemma HonestLast(env: Env, t: Thresholds, selected: seq<PlannedRow>, xs: seq<Scenario>)
    requires NamedRows(selected) && Honest(env, t, selected, xs) && xs != []
    ensures var before, x := xs[..|xs| - 1], Last(xs);
            Honest(env, t, selected, before) && HasRowId(selected, x.id) && !HasId(before, x.id) && x.id != ""
  {
    var before := xs[..|xs| - 1];
    assert forall x :: x in before ==> x in xs;
    assert Last(xs) in xs;
    var r :| r in selected && Last(xs) == Evaluate(env, t)(r);
    assert r.id == Last(xs).id;
  }

  lemma {:induction false} DedupeFacts(xs: seq<Scenario>, selected: seq<PlannedRow>)
    ensures DistinctIds(Dedupe(xs, selected))
    ensures forall id :: HasId(Dedupe(xs, selected), id) ==> HasRowId(selected, id)
  {
    if xs != [] {
      var n := |xs| - 1;
      DedupeFacts(xs[..n], selected);
      var kept := Dedupe(xs[..n], selected);
      forall id
        ensures HasId(kept + [xs[n]], id) <==> HasId(kept, id) || xs[n].id == id
      {
        HasIdSnoc(kept, xs[n], id);
      }
    }
  }

  /** Some row of the group is missing and the cap is not zero. */
  ghost predicate CanProgress(selected: seq<PlannedRow>, done: seq<Scenario>, cfg: SensitivityConfig) {
    && (exists r :: r in selected && Missing(done, cfg.group)(r))
    && (cfg.maxPerInvocation.Some? ==> cfg.maxPerInvocation.value >= 1)
  }

  lemma ComputedFacts(env: Env, selected: seq<PlannedRow>, done: seq<Scenario>, cfg: SensitivityConfig,
                      elapsed: nat -> real)
    ensures forall s :: s in Computed(env, selected, done, cfg, elapsed) ==>
              exists r :: r in selected && Missing(done, cfg.group)(r) && s == Evaluate(env, cfg.thresholds)(r)
    ensures forall id :: HasId(Computed(env, selected, done, cfg, elapsed), id) ==>
              !HasId(done, id) && HasRowId(selected, id)
    ensures CanProgress(selected, done, cfg) ==> Computed(env, selected, done, cfg, elapsed) != []
  {
    hide Evaluate, HasId;
    var rows := ToRun(selected, done, cfg);
    var missing := Filter(selected, Missing(done, cfg.group));
    var ran := rows[..Completed(|rows|, 0, cfg, elapsed)];
    var news := Computed(env, selected, done, cfg, elapsed);
    forall s | s in news
      ensures exists r :: r in selected && Missing(done, cfg.group)(r) && s == Evaluate(env, cfg.thresholds)(r)
    {
      var i :| 0 <= i < |news| && news[i] == s;
      assert ran[i] in missing;
    }
    if exists r :: r in selected && Missing(done, cfg.group)(r) {
      var r :| r in selected && Missing(done, cfg.group)(r);
      assert r in missing;
    }
    ComputedIds(env, selected, done, cfg, news);
  }

  lemma ComputedIds(env: Env, selected: seq<PlannedRow>, done: seq<Scenario>, cfg: SensitivityConfig,
                    news: seq<Scenario>)
    requires forall s :: s in news ==>
               exists r :: r in selected && Missing(done, cfg.group)(r) && s == Evaluate(env, cfg.thresholds)(r)
    ensures forall id :: HasId(news, id) ==> !HasId(done, id) && HasRowId(selected, id)
  {
    forall id | HasId(news, id)
      ensures !HasId(done, id) && HasRowId(selected, id)
    {
      var i :| 0 <= i < |news| && news[i].id == id;
      assert news[i] in news;
      var r :| r in selected && Missing(done, cfg.group)(r) && news[i] == Evaluate(env, cfg.thresholds)(r);
      assert r.id == id;
    }
  }

  lemma SortKeepsIds(xs: seq<Scenario>)
    requires DistinctIds(xs)
    ensures var ys := SortBy(xs, ScenarioIndex(), IntLe());
            && DistinctIds(ys) && (forall x :: x in ys <==> x in xs) && (forall id :: HasId(ys, id) <==> HasId(xs, id))
  {
    var ys := SortBy(xs, ScenarioIndex(), IntLe());
    SameMembers(xs, ys);
    DistinctPermutation(xs, ys, IdOf());
    forall i, j | 0 <= i < j < |ys|
      ensures ys[i].id != ys[j].id
    {
      assert IdOf()(ys[i]) != IdOf()(ys[j]);
    }
    forall id
      ensures HasId(ys, id) <==> HasId(xs, id)
    {
      if HasId(ys, id) {
        var i :| 0 <= i < |ys| && ys[i].id == id;
        assert ys[i] in xs;
      }
      if HasId(xs, id) {
        var i :| 0 <= i < |xs| && xs[i].id == id;
        assert xs[i] in ys;
      }
    }
  }

  ghost predicate InIndexOrder(xs: seq<Scenario>) {
    Sorted(xs, ScenarioIndex(), IntLe())
  }

  /** One call of a run, resumed from honest results: it keeps them all, recomputes none of them,
      stays honest, and computes something whenever a matching row is missing and the cap is not 0. */
  lemma CallResumes(env: Env, base: ReplayConfig, cfg: SensitivityConfig, existing: seq<Scenario>, elapsed: nat -> real)
    requires Honest(env, cfg.thresholds, Selection(env, base, cfg), existing)
    ensures var selected := Selection(env, base, cfg);
            var result := Invoke(env, base, cfg, existing, elapsed).scenarios;
            var news := Computed(env, selected, existing, cfg, elapsed);
            && Honest(env, cfg.thresholds, selected, result) && InIndexOrder(result)
            && (forall x :: x in existing ==> x in result)
            && (forall s :: s in news ==> !HasId(existing, s.id))
            && (forall id :: HasId(result, id) <==> HasId(existing, id) || HasId(news, id))
            && (CanProgress(selected, existing, cfg) ==> exists id :: HasId(result, id) && !HasId(existing, id))
  {
    hide Selection, Evaluate, Computed, HasId, Merge, Dedupe;
    var selected := Selection(env, base, cfg);
    var news := Computed(env, selected, existing, cfg, elapsed);
    SelectionIsNamed(env, base, cfg);
    DedupeKeepsHonest(env, cfg.thresholds, selected, existing);
    ComputedFacts(env, selected, existing, cfg, elapsed);
    MergeFacts(existing, news);
    var all := Merge(existing, news);
    SortKeepsIds(all);
    IntOrder();
    SortSorted(all, ScenarioIndex(), IntLe());
    forall s | s in news
      ensures HasId(news, s.id)
    {
      MemberHasId(news, s);
    }
    forall x | x in existing
      ensures HasId(existing, x.id)
    {
      MemberHasId(existing, x);
    }
    if news != [] {
      assert news[0] in news;
    }
  }

  lemma MemberHasId(xs: seq<Scenario>, x: Scenario)
    requires x in xs
    ensures HasId(xs, x.id)
  {
  }

  // ----- whole runs

  /** Two configurations of one run: they differ at most in cap, time limit and group. */
  ghost predicate SameRun(cfg: SensitivityConfig, cfg': SensitivityConfig) {
    cfg' == cfg.(maxPerInvocation := cfg'.maxPerInvocation, maxRuntime := cfg'.maxRuntime, group := cfg'.group)
  }

  /** The run id is hashed from what the calls of a run share, and from nothing else. */
  lemma IdentityIsTheRun(cfg: SensitivityConfig, cfg': SensitivityConfig)
    ensures SameRun(cfg, cfg') <==> Identity(cfg) == Identity(cfg')
  {
  }

  lemma {:induction false} SameFlat<T, U>(xs: seq<T>, f: T -> seq<U>, g: T -> seq<U>)
    requires forall x :: x in xs ==> f(x) == g(x)
    ensures FlatMap(xs, f) == FlatMap(xs, g)
  {
    if xs != [] {
      SameFlat(xs[..|xs| - 1], f, g);
    }
  }

  lemma SameSelection(env: Env, base: ReplayConfig, cfg: SensitivityConfig, cfg': SensitivityConfig)
    requires SameRun(cfg, cfg')
    ensures Selection(env, base, cfg') == Selection(env, base, cfg)
  {
    forall s
      ensures AtSlippage(base, cfg')(s) == AtSlippage(base, cfg)(s)
    {
      forall p
        ensures AtSpread(base, cfg', s)(p) == AtSpread(base, cfg, s)(p)
      {
        SameFlat(cfg.intrabars, AtIntrabar(base, cfg', s, p), AtIntrabar(base, cfg, s, p));
      }
      SameFlat(cfg.spreads, AtSpread(base, cfg', s), AtSpread(base, cfg, s));
    }
    SameFlat(cfg.slippages, AtSlippage(base, cfg'), AtSlippage(base, cfg));
  }

  datatype Call = Call(cfg: SensitivityConfig, elapsed: nat -> real)

  /** The results after a series of calls, each resumed from the one before. */
  function Resume(env: Env, base: ReplayConfig, calls: seq<Call>): seq<Scenario> {
    if calls == [] then []
    else Invoke(env, base, Last(calls).cfg, Resume(env, base, calls[..|calls| - 1]), Last(calls).elapsed).scenarios
  }

  ghost predicate OneRun(cfg: SensitivityConfig, calls: seq<Call>) {
    forall k :: 0 <= k < |calls| ==> SameRun(cfg, calls[k].cfg)
  }

  function SingleShot(env: Env, base: ReplayConfig, cfg: SensitivityConfig): seq<Scenario> {
    Resume(env, base, [Call(Identity(cfg), _ => 0.0)])
  }

  /** No selected row is left. */
  ghost predicate Finished(env: Env, base: ReplayConfig, cfg: SensitivityConfig, xs: seq<Scenario>) {
    forall r :: r in Selection(env, base, cfg) ==> HasId(xs, r.id)
  }

  lemma {:induction false} ResumeIsHonest(env: Env, base: ReplayConfig, cfg: SensitivityConfig, calls: seq<Call>)
    requires OneRun(cfg, calls)
    ensures Honest(env, cfg.thresholds, Selection(env, base, cfg), Resume(env, base, calls))
    ensures InIndexOrder(Resume(env, base, calls))
  {
    hide Selection, Invoke;
    if calls != [] {
      var n := |calls| - 1;
      ResumeIsHonest(env, base, cfg, calls[..n]);
      SameSelection(env, base, cfg, calls[n].cfg);
      CallResumes(env, base, calls[n].cfg, Resume(env, base, calls[..n]), calls[n].elapsed);
    }
  }

  /** Selected rows never share an index, whatever their ids. */
  lemma SelectionIndices(env: Env, base: ReplayConfig, cfg: SensitivityConfig)
    ensures DistinctKeys(Selection(env, base, cfg), RowIndex())
  {
    hide Planned;
    var rows := PlannedRows(env, Planned(base, cfg));
    DistinctPermutation(rows, SortBy(rows, RowHash(), StrLe()), RowIndex());
  }

  function RowIndex(): PlannedRow -> int {
    (r: PlannedRow) => r.index
  }

  lemma EvaluatedIndices(env: Env, t: Thresholds, rows: seq<PlannedRow>)
    requires DistinctKeys(rows, RowIndex())
    ensures DistinctKeys(Map(rows, Evaluate(env, t)), ScenarioIndex())
  {
    var xs := Map(rows, Evaluate(env, t));
    forall i, j | 0 <= i < j < |xs|
      ensures ScenarioIndex()(xs[i]) != ScenarioIndex()(xs[j])
    {
      assert RowIndex()(rows[i]) != RowIndex()(rows[j]);
    }
  }

  /** Honest, finished results are all the evaluated rows, once each. */
  lemma HonestAndFinished(env: Env, base: ReplayConfig, cfg: SensitivityConfig, xs: seq<Scenario>)
    requires var selected := Selection(env, base, cfg);
             Honest(env, cfg.thresholds, selected, xs) && DistinctRowIds(selected)
    requires Finished(env, base, cfg, xs)
    ensures multiset(xs) == multiset(Map(Selection(env, base, cfg), Evaluate(env, cfg.thresholds)))
  {
    var selected := Selection(env, base, cfg);
    var all := Map(selected, Evaluate(env, cfg.thresholds));
    SelectionIndices(env, base, cfg);
    hide Selection;
    forall x | x in xs
      ensures x in all
    {
      var r :| r in selected && x == Evaluate(env, cfg.thresholds)(r);
      var i :| 0 <= i < |selected| && selected[i] == r;
      assert all[i] == x;
    }
    forall x | x in all
      ensures x in xs
    {
      var i :| 0 <= i < |all| && all[i] == x;
      FoundIsTheRow(env, cfg.thresholds, selected, xs, selected[i]);
    }
    EvaluatedIndices(env, cfg.thresholds, selected);
    CountAtMostOnce(all, ScenarioIndex());
    assert DistinctKeys(xs, IdOf());
    CountAtMostOnce(xs, IdOf());
  }

  lemma FoundIsTheRow(env: Env, t: Thresholds, selected: seq<PlannedRow>, xs: seq<Scenario>, r: PlannedRow)
    requires Honest(env, t, selected, xs) && DistinctRowIds(selected) && r in selected && HasId(xs, r.id)
    ensures Evaluate(env, t)(r) in xs
  {
    var k :| 0 <= k < |xs| && xs[k].id == r.id;
    assert xs[k] in xs;
    var q :| q in selected && xs[k] == Evaluate(env, t)(q);
    assert q.id == r.id;
    var i :| 0 <= i < |selected| && selected[i] == q;
    var j :| 0 <= j < |selected| && selected[j] == r;
    assert i == j;
  }

  /** With distinct ids, finished honest results in index order are one and the same list. */
  lemma FinishedResultsAgree(env: Env, base: ReplayConfig, cfg: SensitivityConfig, xs: seq<Scenario>, ys: seq<Scenario>)
    requires var selected := Selection(env, base, cfg);
             && DistinctRowIds(selected)
             && Honest(env, cfg.thresholds, selected, xs) && Honest(env, cfg.thresholds, selected, ys)
    requires InIndexOrder(xs) && InIndexOrder(ys) && Finished(env, base, cfg, xs) && Finished(env, base, cfg, ys)
    ensures xs == ys
  {
    HonestAndFinished(env, base, cfg, xs);
    HonestAndFinished(env, base, cfg, ys);
    SelectionIndices(env, base, cfg);
    EvaluatedIndices(env, cfg.thresholds, Selection(env, base, cfg));
    hide Selection;
    DistinctPermutation(Map(Selection(env, base, cfg), Evaluate(env, cfg.thresholds)), xs, ScenarioIndex());
    IntOrder();
    SortPermutation(xs, ys, ScenarioIndex(), IntLe());
    SortOfSorted(xs, ScenarioIndex(), IntLe());
    SortOfSorted(ys, ScenarioIndex(), IntLe());
  }

  /** An unlimited call finishes whatever it is given. */
  lemma UnlimitedCallFinishes(env: Env, base: ReplayConfig, cfg: SensitivityConfig, existing: seq<Scenario>,
                              elapsed: nat -> real)
    requires Honest(env, cfg.thresholds, Selection(env, base, cfg), existing)
    requires cfg.maxPerInvocation.None? && cfg.maxRuntime.None? && cfg.group.None?
    ensures Finished(env, base, cfg, Invoke(env, base, cfg, existing, elapsed).scenarios)
    ensures Computed(env, Selection(env, base, cfg), existing, cfg, elapsed)
         == Map(Filter(Selection(env, base, cfg), Unfinished(existing)), Evaluate(env, cfg.thresholds))
  {
    var selected := Selection(env, base, cfg);
    var rows := Filter(selected, Unfinished(existing));
    UnlimitedComputesAll(env, selected, existing, cfg, elapsed);
    hide Selection, Invoke, Computed, Honest, NamedRows, Filter, Evaluate, HasId;
    CallResumes(env, base, cfg, existing, elapsed);
    forall r | r in selected
      ensures HasId(Invoke(env, base, cfg, existing, elapsed).scenarios, r.id)
    {
      if !HasId(existing, r.id) {
        assert r in rows;
        EvaluatedHasId(env, cfg.thresholds, rows, r);
      }
    }
  }

  lemma UnlimitedComputesAll(env: Env, selected: seq<PlannedRow>, existing: seq<Scenario>, cfg: SensitivityConfig,
                             elapsed: nat -> real)
    requires cfg.maxPerInvocation.None? && cfg.maxRuntime.None? && cfg.group.None?
    ensures Computed(env, selected, existing, cfg, elapsed)
         == Map(Filter(selected, Unfinished(existing)), Evaluate(env, cfg.thresholds))
  {
    FilterCongruence(selected, Missing(existing, None), Unfinished(existing));
    var rows := Filter(selected, Unfinished(existing));
    assert rows[..|rows|] == rows;
  }

  lemma EvaluatedHasId(env: Env, t: Thresholds, rows: seq<PlannedRow>, r: PlannedRow)
    requires r in rows
    ensures HasId(Map(rows, Evaluate(env, t)), r.id)
  {
    var i :| 0 <= i < |rows| && rows[i] == r;
    assert Map(rows, Evaluate(env, t))[i].id == r.id;
  }

  lemma SingleShotFinishes(env: Env, base: ReplayConfig, cfg: SensitivityConfig)
    ensures Finished(env, base, cfg, SingleShot(env, base, cfg))
    ensures OneRun(cfg, [Call(Identity(cfg), _ => 0.0)])
  {
    SameSelection(env, base, cfg, Identity(cfg));
    hide Selection, Invoke;
    var calls := [Call(Identity(cfg), _ => 0.0)];
    assert calls[..0] == [];
    assert Resume(env, base, calls[..0]) == [];
    UnlimitedCallFinishes(env, base, Identity(cfg), [], calls[0].elapsed);
    assert SingleShot(env, base, cfg) == Invoke(env, base, Identity(cfg), [], calls[0].elapsed).scenarios;
  }

  /** Confluence: however a run is cut into capped, timed or grouped calls, once nothing is left its
      scenario list is the single-shot list. */
  lemma ResumedRunsAgree(env: Env, base: ReplayConfig, cfg: SensitivityConfig, calls: seq<Call>)
    requires DistinctRowIds(Selection(env, base, cfg))
    requires OneRun(cfg, calls) && Finished(env, base, cfg, Resume(env, base, calls))
    ensures Resume(env, base, calls) == SingleShot(env, base, cfg)
  {
    hide Selection, Invoke, Resume;
    ResumeIsHonest(env, base, cfg, calls);
    SingleShotFinishes(env, base, cfg);
    ResumeIsHonest(env, base, cfg, [Call(Identity(cfg), _ => 0.0)]);
    FinishedResultsAgree(env, base, cfg, Resume(env, base, calls), SingleShot(env, base, cfg));
  }

  /** Calls belong to one run as soon as they hash to one run id: equal identity payloads are enough. */
  lemma SameIdentityAgrees(env: Env, base: ReplayConfig, cfg: SensitivityConfig, calls: seq<Call>)
    requires forall k :: 0 <= k < |calls| ==> Identity(calls[k].cfg) == Identity(cfg)
    requires DistinctRowIds(Selection(env, base, cfg)) && Finished(env, base, cfg, Resume(env, base, calls))
    ensures Resume(env, base, calls) == SingleShot(env, base, cfg)
  {
    hide Selection, Finished, Resume, SingleShot, DistinctRowIds;
    forall k | 0 <= k < |calls|
      ensures SameRun(cfg, calls[k].cfg)
    {
      IdentityIsTheRun(cfg, calls[k].cfg);
    }
    ResumedRunsAgree(env, base, cfg, calls);
  }

  // ----- progress

  lemma {:induction false} StrictlyFewer<T>(xs: seq<T>, p: T -> bool, q: T -> bool, w: T)
    requires forall x :: x in xs && p(x) ==> q(x)
    requires w in xs && q(w) && !p(w)
    ensures |Filter(xs, p)| < |Filter(xs, q)|
  {
    if w in xs[1..] {
      StrictlyFewer(xs[1..], p, q, w);
    } else {
      assert w == xs[0];
      FilterCountMonotone(xs[1..], p, q);
    }
  }

  /** A call that could do something: a row of its group is missing and its cap is not zero. */
  ghost predicate Productive(env: Env, base: ReplayConfig, call: Call, existing: seq<Scenario>) {
    CanProgress(Selection(env, base, call.cfg), existing, call.cfg)
  }

  lemma ProductiveCallShrinks(env: Env, base: ReplayConfig, cfg: SensitivityConfig, before: seq<Scenario>, call: Call)
    requires SameRun(cfg, call.cfg)
    requires Honest(env, cfg.thresholds, Selection(env, base, cfg), before) && Productive(env, base, call, before)
    ensures var after := Invoke(env, base, call.cfg, before, call.elapsed).scenarios;
            |Filter(Selection(env, base, cfg), Unfinished(after))|
            < |Filter(Selection(env, base, cfg), Unfinished(before))|
  {
    hide Selection, Invoke, Computed, HasId, Filter;
    var selected := Selection(env, base, cfg);
    SameSelection(env, base, cfg, call.cfg);
    CallResumes(env, base, call.cfg, before, call.elapsed);
    var after := Invoke(env, base, call.cfg, before, call.elapsed).scenarios;
    var id :| HasId(after, id) && !HasId(before, id);
    var w := RowOfId(env, cfg.thresholds, selected, after, id);
    StrictlyFewer(selected, Unfinished(after), Unfinished(before), w);
  }

  /** Each productive call finishes at least one more row, so there are no more of them than rows,
      whatever the time limits do. */
  lemma {:induction false} ProductiveCallsEnd(env: Env, base: ReplayConfig, cfg: SensitivityConfig, calls: seq<Call>)
    requires OneRun(cfg, calls)
    requires forall k :: 0 <= k < |calls| ==> Productive(env, base, calls[k], Resume(env, base, calls[..k]))
    ensures |Filter(Selection(env, base, cfg), Unfinished(Resume(env, base, calls)))| + |calls|
         <= |Selection(env, base, cfg)|
  {
    hide Selection, Invoke, Productive, Filter;
    if calls != [] {
      var n := |calls| - 1;
      forall k | 0 <= k < n
        ensures Productive(env, base, calls[..n][k], Resume(env, base, calls[..n][..k]))
      {
        assert calls[..n][..k] == calls[..k];
      }
      ProductiveCallsEnd(env, base, cfg, calls[..n]);
      ResumeIsHonest(env, base, cfg, calls[..n]);
      ProductiveCallShrinks(env, base, cfg, Resume(env, base, calls[..n]), calls[n]);
    }
  }

  lemma RowOfId(env: Env, t: Thresholds, selected: seq<PlannedRow>, xs: seq<Scenario>, id: string)
    returns (r: PlannedRow)
    requires Honest(env, t, selected, xs) && HasId(xs, id)
    ensures r in selected && r.id == id
  {
    var i :| 0 <= i < |xs| && xs[i].id == id;
    assert xs[i] in xs;
    r :| r in selected && xs[i] == Evaluate(env, t)(r);
  }

  // ----- repeated ids break confluence

  lemma EvaluatedIds(env: Env, t: Thresholds, rows: seq<PlannedRow>, id: string)
    ensures HasId(Map(rows, Evaluate(env, t)), id) <==> HasRowId(rows, id)
  {
    var xs := Map(rows, Evaluate(env, t));
    assert forall i :: 0 <= i < |rows| ==> xs[i].id == rows[i].id;
    if HasRowId(rows, id) {
      var i :| 0 <= i < |rows| && rows[i].id == id;
      assert xs[i].id == id;
    }
  }

  /** Position of the last row with the id of row `i`. */
  lemma LastWithId(rows: seq<PlannedRow>, i: nat) returns (m: nat)
    requires i < |rows|
    ensures i <= m < |rows| && rows[m].id == rows[i].id && !HasRowId(rows[m + 1..], rows[i].id)
    decreases |rows| - i
  {
    if HasRowId(rows[i + 1..], rows[i].id) {
      var k :| 0 <= k < |rows[i + 1..]| && rows[i + 1..][k].id == rows[i].id;
      m := LastWithId(rows, i + 1 + k);
    } else {
      m := i;
    }
  }

  /** After a first call over `rows`, the result holds the last row of each id. */
  lemma FirstCallKeepsLast(env: Env, t: Thresholds, rows: seq<PlannedRow>, m: nat)
    requires m < |rows| && !HasRowId(rows[m + 1..], rows[m].id)
    ensures Evaluate(env, t)(rows[m]) in Merge([], Map(rows, Evaluate(env, t)))
  {
    var news := Map(rows, Evaluate(env, t));
    assert news[m + 1..] == Map(rows[m + 1..], Evaluate(env, t));
    EvaluatedIds(env, t, rows[m + 1..], rows[m].id);
    LastOneStays([], news, m);
  }

  /** What a first call with only a cap returns. */
  lemma FirstCall(env: Env, base: ReplayConfig, cfg: SensitivityConfig, elapsed: nat -> real)
    requires cfg.maxRuntime.None? && cfg.group.None?
    ensures var selected := Selection(env, base, cfg);
            var n := if cfg.maxPerInvocation.Some? then IntMin(cfg.maxPerInvocation.value, |selected|) else |selected|;
            Invoke(env, base, cfg, [], elapsed).scenarios
              == SortBy(Merge([], Map(selected[..n], Evaluate(env, cfg.thresholds))), ScenarioIndex(), IntLe())
  {
    hide Selection, Evaluate, Merge, SortBy, DefaultGrid;
    var selected := Selection(env, base, cfg);
    FilterAll(selected, Missing([], None));
    var rows := ToRun(selected, [], cfg);
    assert rows[..|rows|] == rows;
    assert selected[..|selected|] == selected;
  }

  function Clock(): nat -> real {
    _ => 0.0
  }

  /** A call capped just after row `i`, then an unlimited one. */
  function CutAfter(cfg: SensitivityConfig, i: nat): seq<Call> {
    [Call(Identity(cfg).(maxPerInvocation := Some(i + 1)), Clock()), Call(Identity(cfg), Clock())]
  }

  lemma CutIsTwoCalls(env: Env, base: ReplayConfig, cfg: SensitivityConfig, i: nat)
    ensures Resume(env, base, CutAfter(cfg, i)[..1])
         == Invoke(env, base, CutAfter(cfg, i)[0].cfg, [], Clock()).scenarios
    ensures Resume(env, base, CutAfter(cfg, i))
         == Invoke(env, base, Identity(cfg), Resume(env, base, CutAfter(cfg, i)[..1]), Clock()).scenarios
  {
    hide Invoke, Identity;
    var calls := CutAfter(cfg, i);
    assert calls[..1][..0] == [] && calls[..|calls| - 1] == calls[..1];
  }

  lemma CappedCallKeeps(env: Env, base: ReplayConfig, cfg: SensitivityConfig, i: nat)
    requires cfg.maxPerInvocation == Some(i + 1) && cfg.maxRuntime.None? && cfg.group.None?
    requires i < |Selection(env, base, cfg)|
    ensures Evaluate(env, cfg.thresholds)(Selection(env, base, cfg)[i]) in Invoke(env, base, cfg, [], Clock()).scenarios
  {
    hide Selection, Invoke, Evaluate, Merge, SortBy;
    var selected := Selection(env, base, cfg);
    FirstCall(env, base, cfg, Clock());
    var prefix := selected[..i + 1];
    assert prefix[i] == selected[i];
    FirstCallKeepsLast(env, cfg.thresholds, prefix, i);
    SortMembers(Merge([], Map(prefix, Evaluate(env, cfg.thresholds))));
  }

  lemma FreeCallKeeps(env: Env, base: ReplayConfig, cfg: SensitivityConfig, existing: seq<Scenario>, x: Scenario)
    requires Honest(env, cfg.thresholds, Selection(env, base, cfg), existing)
    requires x in existing
    ensures x in Invoke(env, base, Identity(cfg), existing, Clock()).scenarios
    ensures Finished(env, base, cfg, Invoke(env, base, Identity(cfg), existing, Clock()).scenarios)
  {
    hide Selection, Invoke, Computed, Honest;
    SameSelection(env, base, cfg, Identity(cfg));
    CallResumes(env, base, Identity(cfg), existing, Clock());
    UnlimitedCallFinishes(env, base, Identity(cfg), existing, Clock());
  }

  /** Cutting after a row keeps that row's result under its id, even when the id comes back later. */
  lemma CutKeepsEarly(env: Env, base: ReplayConfig, cfg: SensitivityConfig, i: nat)
    requires i < |Selection(env, base, cfg)|
    ensures OneRun(cfg, CutAfter(cfg, i)) && Finished(env, base, cfg, Resume(env, base, CutAfter(cfg, i)))
    ensures Evaluate(env, cfg.thresholds)(Selection(env, base, cfg)[i]) in Resume(env, base, CutAfter(cfg, i))
  {
    hide Selection, Invoke, Evaluate, Resume, Finished, Honest;
    var calls := CutAfter(cfg, i);
    var early := Evaluate(env, cfg.thresholds)(Selection(env, base, cfg)[i]);
    SameSelection(env, base, cfg, calls[0].cfg);
    CutIsTwoCalls(env, base, cfg, i);
    CappedCallKeeps(env, base, calls[0].cfg, i);
    ResumeIsHonest(env, base, cfg, calls[..1]);
    FreeCallKeeps(env, base, cfg, Resume(env, base, calls[..1]), early);
  }

  /** A single shot keeps the last row of every id. */
  lemma SingleShotKeepsLast(env: Env, base: ReplayConfig, cfg: SensitivityConfig, m: nat)
    requires m < |Selection(env, base, cfg)|
    requires !HasRowId(Selection(env, base, cfg)[m + 1..], Selection(env, base, cfg)[m].id)
    ensures Evaluate(env, cfg.thresholds)(Selection(env, base, cfg)[m]) in SingleShot(env, base, cfg)
    ensures DistinctIds(SingleShot(env, base, cfg))
  {
    hide Selection, Evaluate, Merge, Resume, SortBy;
    var selected := Selection(env, base, cfg);
    SingleShotIs(env, base, cfg);
    FirstCallKeepsLast(env, cfg.thresholds, selected, m);
    SortMembers(Merge([], Map(selected, Evaluate(env, cfg.thresholds))));
    SingleShotFinishes(env, base, cfg);
    ResumeIsHonest(env, base, cfg, [Call(Identity(cfg), _ => 0.0)]);
  }

  /** Cutting between two rows that share an id keeps the earlier one; a single shot keeps the last. */
  lemma RepeatedIdsDisagree(env: Env, base: ReplayConfig, cfg: SensitivityConfig) returns (calls: seq<Call>)
    requires !DistinctRowIds(Selection(env, base, cfg))
    ensures OneRun(cfg, calls) && Finished(env, base, cfg, Resume(env, base, calls))
    ensures Resume(env, base, calls) != SingleShot(env, base, cfg)
  {
    SelectionIndices(env, base, cfg);
    hide Selection, Resume, SingleShot, Evaluate;
    var selected := Selection(env, base, cfg);
    var i, j :| 0 <= i < j < |selected| && selected[i].id == selected[j].id;
    calls := CutAfter(cfg, i);
    CutKeepsEarly(env, base, cfg, i);
    var m := LastWithId(selected, j);
    SingleShotKeepsLast(env, base, cfg, m);
    TwoEntries(env, cfg.thresholds, selected, i, m, SingleShot(env, base, cfg));
  }

  lemma TwoEntries(env: Env, t: Thresholds, selected: seq<PlannedRow>, i: nat, m: nat, xs: seq<Scenario>)
    requires i < m < |selected| && selected[i].id == selected[m].id && DistinctKeys(selected, RowIndex())
    requires DistinctIds(xs) && Evaluate(env, t)(selected[m]) in xs
    ensures Evaluate(env, t)(selected[i]) !in xs
  {
    assert RowIndex()(selected[i]) != RowIndex()(selected[m]);
  }

  lemma SortMembers(xs: seq<Scenario>)
    ensures forall x :: x in SortBy(xs, ScenarioIndex(), IntLe()) <==> x in xs
  {
    SameMembers(xs, SortBy(xs, ScenarioIndex(), IntLe()));
  }

  lemma SingleShotIs(env: Env, base: ReplayConfig, cfg: SensitivityConfig)
    ensures SingleShot(env, base, cfg)
         == SortBy(Merge([], Map(Selection(env, base, cfg), Evaluate(env, cfg.thresholds))), ScenarioIndex(), IntLe())
  {
    SameSelection(env, base, cfg, Identity(cfg));
    hide Selection, Invoke, Evaluate, Merge;
    var calls := [Call(Identity(cfg), _ => 0.0)];
    assert calls[..0] == [] && Resume(env, base, calls[..0]) == [];
    FirstCall(env, base, Identity(cfg), calls[0].elapsed);
    var selected := Selection(env, base, cfg);
    assert selected[..|selected|] == selected;
  }

  /** However the run is cut into calls, once nothing selected is left it ends with the same list. */
  ghost predicate Confluent(env: Env, base: ReplayConfig, cfg: SensitivityConfig) {
    forall calls :: OneRun(cfg, calls) && Finished(env, base, cfg, Resume(env, base, calls)) ==>
      Resume(env, base, calls) == SingleShot(env, base, cfg)
  }

  /** The exact condition for confluence: the selected rows have pairwise distinct ids. */
  lemma ConfluentExactly(env: Env, base: ReplayConfig, cfg: SensitivityConfig)
    ensures Confluent(env, base, cfg) <==> DistinctRowIds(Selection(env, base, cfg))
  {
    hide Selection, Resume, SingleShot, Finished;
    if DistinctRowIds(Selection(env, base, cfg)) {
      forall calls | OneRun(cfg, calls) && Finished(env, base, cfg, Resume(env, base, calls))
        ensures Resume(env, base, calls) == SingleShot(env, base, cfg)
      {
        ResumedRunsAgree(env, base, cfg, calls);
      }
    } else {
      var calls := RepeatedIdsDisagree(env, base, cfg);
    }
  }
}
