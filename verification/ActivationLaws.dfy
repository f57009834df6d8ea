/** What the activation-grade flag certifies. */
module ActivationLaws {
  import opened Common
  import opened Sorting
  import opened Market
  import opened Grid
  import opened Sensitivity
  import opened SensitivityLaws

  // ----- counting ids

  function Elements(xs: seq<string>): set<string> {
    set x | x in xs
  }

  /** A list has at most as many elements as entries, and as many exactly when none is repeated. */
  lemma {:induction false} CountElements(xs: seq<string>)
    ensures |Elements(xs)| <= |xs|
    ensures |Elements(xs)| == |xs| <==> NoRepeats(xs)
  {
    if xs != [] {
      CountElements(xs[1..]);
      assert Elements(xs) == Elements(xs[1..]) + {xs[0]};
      if xs[0] in xs[1..] {
        var j :| 0 <= j < |xs[1..]| && xs[1..][j] == xs[0];
        assert xs[0] == xs[j + 1];
        assert Elements(xs) == Elements(xs[1..]);
      } else {
        assert forall i :: 0 < i < |xs| ==> xs[i] == xs[1..][i - 1];
      }
    }
  }

  lemma SubsetOfSameSize<T>(a: set<T>, b: set<T>)
    requires a <= b && |a| >= |b|
    ensures a == b
  {
    assert b == a + (b - a);
    assert |b| == |a| + |b - a|;
  }

  /** A list of planned scenarios has the plan's length exactly when it has every planned id, and the
      planned ids are distinct. */
  lemma CountMeansAll(rows: seq<PlannedRow>, xs: seq<Scenario>)
    requires DistinctIds(xs) && forall id :: HasId(xs, id) ==> HasRowId(rows, id)
    ensures |xs| == |rows| <==> DistinctRowIds(rows) && forall r :: r in rows ==> HasId(xs, r.id)
  {
    var planned, found := Map(rows, RowId()), Map(xs, IdOf());
    CountElements(planned);
    CountElements(found);
    assert DistinctRowIds(rows) <==> |Elements(planned)| == |planned|;
    assert |Elements(found)| == |found|;
    assert forall id :: id in found <==> HasId(xs, id);
    assert forall id :: id in planned <==> HasRowId(rows, id);
    assert Elements(found) <= Elements(planned);
    if |xs| == |rows| {
      SubsetOfSameSize(Elements(found), Elements(planned));
      forall r | r in rows
        ensures HasId(xs, r.id)
      {
        var i :| 0 <= i < |rows| && rows[i] == r;
        assert planned[i] in Elements(planned);
      }
    }
    if DistinctRowIds(rows) && forall r :: r in rows ==> HasId(xs, r.id) {
      forall id | id in planned
        ensures id in found
      {
        var i :| 0 <= i < |rows| && planned[i] == id;
        assert rows[i] in rows;
      }
      assert Elements(found) == Elements(planned);
    }
  }

  // ----- the flag

  lemma ResultIds(env: Env, base: ReplayConfig, cfg: SensitivityConfig, existing: seq<Scenario>, elapsed: nat -> real)
    ensures var xs := Invoke(env, base, cfg, existing, elapsed).scenarios;
            DistinctIds(xs) && forall id :: HasId(xs, id) ==> HasRowId(Selection(env, base, cfg), id)
  {
    hide Selection, Computed, Merge, Dedupe, HasId, SortBy;
    var selected := Selection(env, base, cfg);
    var done := Dedupe(existing, selected);
    var news := Computed(env, selected, done, cfg, elapsed);
    DedupeFacts(existing, selected);
    ComputedFacts(env, selected, done, cfg, elapsed);
    MergeFacts(done, news);
    SortKeepsIds(Merge(done, news));
  }

  /** Whatever is passed in as existing results - duplicates, foreign ids, partial lists - a run is
      activation grade exactly when it is a full or chunked run of the default grid whose planned ids
      are distinct and every one of them is in the result; and each is there once. */
  lemma ActivationExactly(env: Env, base: ReplayConfig, cfg: SensitivityConfig, existing: seq<Scenario>,
                          elapsed: nat -> real)
    ensures var result := Invoke(env, base, cfg, existing, elapsed);
            var rows := PlannedRows(env, Planned(base, cfg));
            && DistinctIds(result.scenarios)
            && (result.activationGrade <==>
                  DefaultGrid(cfg) && ActivationMode(cfg) && DistinctRowIds(rows)
                  && forall r :: r in rows ==> HasId(result.scenarios, r.id))
            && (result.activationGrade ==> |result.scenarios| == |rows| == FULL_GRID_COUNT)
  {
    ResultIds(env, base, cfg, existing, elapsed);
    PlannedSize(base, cfg);
    var rows := PlannedRows(env, Planned(base, cfg));
    if DefaultGrid(cfg) && ActivationMode(cfg) {
      assert Selection(env, base, cfg) == rows;
      CountMeansAll(rows, Invoke(env, base, cfg, existing, elapsed).scenarios);
      DefaultSize(cfg);
    }
    hide Selection, Merge, Dedupe, Computed, Planned, SortBy, HasId, Size;
  }

  lemma DefaultSize(cfg: SensitivityConfig)
    requires DefaultGrid(cfg)
    ensures Size(cfg) == FULL_GRID_COUNT
  {
    assert |COSTS| == 5 && |INTRABARS| == 3 && |SAME_BARS| == 1;
    assert Times(3, 1) == 3 && Times(5, 3) == 15 && Times(5, 15) == 75;
  }

  /** On the default grid the two cost groups split the plan: running both leaves nothing out and
      nothing is in both. */
  lemma CostGroupsPartition(base: ReplayConfig, cfg: SensitivityConfig, k: nat)
    requires DefaultGrid(cfg) && k < |Planned(base, cfg)|
    ensures Matches(Planned(base, cfg)[k], Some(LowCosts)) <==> !Matches(Planned(base, cfg)[k], Some(HighCosts))
  {
    hide Planned, Size, Position;
    PlannedSize(base, cfg);
    var a, b, c, d := PositionsCover(cfg, k);
    PlannedAt(base, cfg, a, b, c, d);
    CostsAreLowOrHigh(a);
    CostsAreLowOrHigh(b);
  }

  lemma CostsAreLowOrHigh(i: nat)
    requires i < |COSTS|
    ensures COSTS[i] <= 2.0 <==> !(COSTS[i] >= 5.0)
  {
  }
}
