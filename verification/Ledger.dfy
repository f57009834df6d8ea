/** Bookkeeping of a finished run: breakdowns, the daily series, skip counts and streaks lose
    nothing and count nothing twice. */
module Ledger {
  import opened Common
  import opened Sorting
  import opened Market
  import opened Replay
  import opened Metrics

  // ----- totals over a partition by key

  function Total<T>(xs: seq<T>, weight: T -> real): real {
    Sum(Map(xs, weight))
  }

  function KeyedTotal<T, K(==)>(xs: seq<T>, keys: seq<K>, key: T -> K, weight: T -> real): real {
    if keys == [] then 0.0
    else Total(Filter(xs, HasKey(key, keys[0])), weight) + KeyedTotal(xs, keys[1..], key, weight)
  }

  function Not<T>(p: T -> bool): T -> bool {
    x => !p(x)
  }

  lemma {:induction false} TotalSplits<T>(xs: seq<T>, p: T -> bool, weight: T -> real)
    ensures Total(xs, weight) == Total(Filter(xs, p), weight) + Total(Filter(xs, Not(p)), weight)
    ensures |xs| == |Filter(xs, p)| + |Filter(xs, Not(p))|
  {
    if xs != [] {
      TotalSplits(xs[1..], p, weight);
      TotalCons(xs[0], xs[1..], weight);
      assert xs == [xs[0]] + xs[1..];
      TotalCons(xs[0], Filter(xs[1..], p), weight);
      TotalCons(xs[0], Filter(xs[1..], Not(p)), weight);
    }
  }

  lemma TotalCons<T>(x: T, xs: seq<T>, weight: T -> real)
    ensures Total([x] + xs, weight) == weight(x) + Total(xs, weight)
  {
    assert Map([x] + xs, weight) == [weight(x)] + Map(xs, weight);
  }

  ghost predicate Covers<T, K>(keys: seq<K>, xs: seq<T>, key: T -> K) {
    forall x :: x in xs ==> key(x) in keys
  }

  lemma {:induction false} KeyedTotalOfRest<T, K>(xs: seq<T>, keys: seq<K>, key: T -> K, weight: T -> real, k: K)
    requires k !in keys
    ensures KeyedTotal(Filter(xs, Not(HasKey(key, k))), keys, key, weight) == KeyedTotal(xs, keys, key, weight)
  {
    if keys != [] {
      assert keys[0] in keys && forall q :: q in keys[1..] ==> q in keys;
      FilterTwice(xs, Not(HasKey(key, k)), HasKey(key, keys[0]));
      KeyedTotalOfRest(xs, keys[1..], key, weight, k);
    }
  }

  /** Totals over a partition by distinct, covering keys add up to the total. */
  lemma {:induction false} PartitionConserves<T, K>(xs: seq<T>, keys: seq<K>, key: T -> K, weight: T -> real)
    requires NoRepeats(keys) && Covers(keys, xs, key)
    ensures KeyedTotal(xs, keys, key, weight) == Total(xs, weight)
    decreases keys
  {
    if keys == [] {
      // nothing is covered by no key
      var any := (x: T) => true;
      FilterNone(xs, any);
      FilterAll(xs, any);
    } else {
      var k := keys[0];
      var rest := Filter(xs, Not(HasKey(key, k)));
      TotalSplits(xs, HasKey(key, k), weight);
      RestIsCovered(xs, keys, key);
      hide NoRepeats, Covers, Total, Filter;
      KeyedTotalOfRest(xs, keys[1..], key, weight, k);
      PartitionConserves(rest, keys[1..], key, weight);
    }
  }

  lemma RestIsCovered<T, K>(xs: seq<T>, keys: seq<K>, key: T -> K)
    requires NoRepeats(keys) && Covers(keys, xs, key) && keys != []
    ensures NoRepeats(keys[1..]) && keys[0] !in keys[1..]
    ensures Covers(keys[1..], Filter(xs, Not(HasKey(key, keys[0]))), key)
  {
    hide Filter;
    forall x | x in Filter(xs, Not(HasKey(key, keys[0])))
      ensures key(x) in keys[1..]
    {
      assert x in xs && key(x) in keys && keys == [keys[0]] + keys[1..];
    }
  }

  function One<T>(): T -> real {
    _ => 1.0
  }

  lemma {:induction false} CountIsTotal<T>(xs: seq<T>)
    ensures Total(xs, One()) == |xs| as real
  {
    if xs != [] {
      assert xs == [xs[0]] + xs[1..];
      TotalCons(xs[0], xs[1..], One());
      CountIsTotal(xs[1..]);
    }
  }

  // ----- breakdowns

  function Bucket<K>(buckets: map<K, seq<Row>>, k: K): seq<Row> {
    if k in buckets then buckets[k] else []
  }

  lemma BucketSnoc<K>(rows: seq<Row>, n: nat, field: Row -> K, k: K)
    requires n < |rows|
    ensures Filter(rows[..n + 1], HasKey(field, k))
         == Filter(rows[..n], HasKey(field, k)) + if k == field(rows[n]) then [rows[n]] else []
  {
    assert rows[..n + 1] == rows[..n] + [rows[n]];
    FilterSnoc(rows[..n], rows[n], HasKey(field, k));
  }

  lemma CoversSnoc<K>(keys: seq<K>, rows: seq<Row>, n: nat, field: Row -> K)
    requires n < |rows| && Covers(keys, rows[..n], field)
    ensures Covers(keys + [field(rows[n])], rows[..n + 1], field)
    ensures field(rows[n]) in keys ==> Covers(keys, rows[..n + 1], field)
  {
    assert forall x :: x in rows[..n + 1] ==> x in rows[..n] || x == rows[n];
  }

  /** The engine's breakdown of taken trades by one field: buckets in order of first appearance. */
  method Breakdown<K(==)>(taken: seq<Row>, field: Row -> K) returns (keys: seq<K>, buckets: map<K, seq<Row>>)
    ensures NoRepeats(keys) && Covers(keys, taken, field)
    ensures forall k :: k in keys <==> k in buckets
    ensures forall k :: Bucket(buckets, k) == Filter(taken, HasKey(field, k))
  {
    hide Filter, Covers;
    keys, buckets := [], map[];
    assert Covers(keys, taken[..0], field) by { NothingToCover(keys, taken, field); }
    forall k
      ensures Bucket(buckets, k) == Filter(taken[..0], HasKey(field, k))
    {
      FilterNone(taken[..0], HasKey(field, k));
    }
    for i := 0 to |taken|
      invariant NoRepeats(keys) && Covers(keys, taken[..i], field)
      invariant forall k :: k in keys <==> k in buckets
      invariant forall k :: Bucket(buckets, k) == Filter(taken[..i], HasKey(field, k))
    {
      var own := field(taken[i]);
      ghost var before := buckets;
      CoversSnoc(keys, taken, i, field);
      if own !in buckets {
        keys := keys + [own];
      }
      buckets := buckets[own := Bucket(buckets, own) + [taken[i]]];
      forall k
        ensures Bucket(buckets, k) == Filter(taken[..i + 1], HasKey(field, k))
      {
        BucketSnoc(taken, i, field, k);
        assert Bucket(before, k) == Filter(taken[..i], HasKey(field, k));
      }
    }
    assert taken[..|taken|] == taken;
  }

  lemma NothingToCover<K>(keys: seq<K>, rows: seq<Row>, field: Row -> K)
    ensures Covers(keys, rows[..0], field)
  {
  }

  /** Whatever field a run is broken down by, trade counts and total R add up to the run's. */
  lemma BreakdownConserves<K>(rows: seq<Row>, keys: seq<K>, field: Row -> K)
    requires var taken := Filter(rows, IsTaken()); NoRepeats(keys) && Covers(keys, taken, field)
    ensures var taken := Filter(rows, IsTaken());
            && KeyedTotal(taken, keys, field, RealizedR()) == Sum(Returns(rows))
            && KeyedTotal(taken, keys, field, One()) == |taken| as real
  {
    var taken := Filter(rows, IsTaken());
    PartitionConserves(taken, keys, field, RealizedR());
    PartitionConserves(taken, keys, field, One());
    CountIsTotal(taken);
  }

  // ----- the daily series

  function ExitDay(): Row -> int {
    (r: Row) => if r.outcome.Taken? then r.outcome.fill.exitTs / DAY else 0
  }

  function Id(): int -> int {
    k => k
  }

  function DayTotal(totals: map<int, real>, k: int): real {
    if k in totals then totals[k] else 0.0
  }

  lemma TotalSnoc<T>(xs: seq<T>, x: T, weight: T -> real)
    ensures Total(xs + [x], weight) == Total(xs, weight) + weight(x)
  {
    MapSnoc(xs, x, weight);
    SumConcat(Map(xs, weight), [weight(x)]);
  }

  function DaySum(rows: seq<Row>, k: int): real {
    Total(Filter(rows, HasKey(ExitDay(), k)), RealizedR())
  }

  lemma DaySnoc(rows: seq<Row>, n: nat, k: int)
    requires n < |rows|
    ensures DaySum(rows[..n + 1], k)
         == DaySum(rows[..n], k) + if k == ExitDay()(rows[n]) then RealizedR()(rows[n]) else 0.0
  {
    hide Total, Filter;
    var before := Filter(rows[..n], HasKey(ExitDay(), k));
    BucketSnoc(rows, n, ExitDay(), k);
    TotalSnoc(before, rows[n], RealizedR());
    assert before + [] == before;
  }

  lemma NoDays(rows: seq<Row>, k: int)
    ensures DaySum(rows[..0], k) == 0.0
  {
  }

  /** R summed by UTC exit day, days in order of first appearance. */
  method DayTotals(taken: seq<Row>) returns (order: seq<int>, totals: map<int, real>)
    ensures NoRepeats(order) && Covers(order, taken, ExitDay())
    ensures forall k :: k in order <==> k in totals
    ensures forall k :: DayTotal(totals, k) == DaySum(taken, k)
  {
    hide DaySum, Covers, ExitDay, RealizedR;
    order, totals := [], map[];
    assert Covers(order, taken[..0], ExitDay()) by { NothingToCover(order, taken, ExitDay()); }
    forall k
      ensures DayTotal(totals, k) == DaySum(taken[..0], k)
    {
      NoDays(taken, k);
    }
    for i := 0 to |taken|
      invariant NoRepeats(order) && Covers(order, taken[..i], ExitDay())
      invariant forall k :: k in order <==> k in totals
      invariant forall k :: DayTotal(totals, k) == DaySum(taken[..i], k)
    {
      var day := ExitDay()(taken[i]);
      ghost var before := totals;
      CoversSnoc(order, taken, i, ExitDay());
      if day !in totals {
        order := order + [day];
      }
      totals := totals[day := DayTotal(totals, day) + RealizedR()(taken[i])];
      forall k
        ensures DayTotal(totals, k) == DaySum(taken[..i + 1], k)
      {
        DaySnoc(taken, i, k);
        assert DayTotal(before, k) == DaySum(taken[..i], k);
      }
    }
    assert taken[..|taken|] == taken;
  }

  /** The daily series, in calendar order. */
  method DailyR(taken: seq<Row>) returns (days: seq<int>, totals: map<int, real>)
    ensures forall i, j :: 0 <= i < j < |days| ==> days[i] < days[j]
    ensures Covers(days, taken, ExitDay())
    ensures forall k :: k in days <==> k in totals
    ensures forall k :: DayTotal(totals, k) == DaySum(taken, k)
  {
    hide DaySum, Covers, ExitDay, SortBy, NoRepeats;
    var order: seq<int>;
    order, totals := DayTotals(taken);
    days := SortBy(order, Id(), IntLe());
    DaysSorted(order, days);
    CoversSame(order, days, taken);
  }

  lemma CoversSame(keys: seq<int>, keys': seq<int>, rows: seq<Row>)
    requires Covers(keys, rows, ExitDay()) && forall k :: k in keys ==> k in keys'
    ensures Covers(keys', rows, ExitDay())
  {
  }

  lemma DaysSorted(order: seq<int>, days: seq<int>)
    requires NoRepeats(order) && days == SortBy(order, Id(), IntLe())
    ensures forall i, j :: 0 <= i < j < |days| ==> days[i] < days[j]
    ensures forall k :: k in days <==> k in order
  {
    IntOrder();
    SortSorted(order, Id(), IntLe());
    SameMembers(days, order);
    DistinctPermutation(order, days, Id());
    forall i, j | 0 <= i < j < |days|
      ensures days[i] < days[j]
    {
      assert IntLe()(Id()(days[i]), Id()(days[j]));
      assert Id()(days[i]) != Id()(days[j]);
    }
  }

  /** The daily series adds up to the run's total R. */
  lemma DailyConserves(rows: seq<Row>, days: seq<int>)
    requires var taken := Filter(rows, IsTaken());
             (forall i, j :: 0 <= i < j < |days| ==> days[i] < days[j]) && Covers(days, taken, ExitDay())
    ensures KeyedTotal(Filter(rows, IsTaken()), days, ExitDay(), RealizedR()) == Sum(Returns(rows))
  {
    PartitionConserves(Filter(rows, IsTaken()), days, ExitDay(), RealizedR());
  }

  // ----- counts

  predicate InvalidReason(reason: SkipReason) {
    || reason.InvalidRiskPlan? || reason.InsufficientRewardRisk? || reason.InsufficientContext?
    || reason.DataQualityBlock?
    || reason.OutsideSession? || reason.MissingEntryBar? || reason.NoFutureBars?
  }

  function IsInvalid(): Row -> bool {
    (r: Row) => r.outcome.Skipped? && InvalidReason(r.outcome.reason)
  }

  function IsValid(): Row -> bool {
    (r: Row) => r.outcome.Taken? || !InvalidReason(r.outcome.reason)
  }

  function IsSkipped(): Row -> bool {
    (r: Row) => r.outcome.Skipped?
  }

  function ReasonOf(): Row -> SkipReason {
    (r: Row) => if r.outcome.Skipped? then r.outcome.reason else DuplicateCandidate
  }

  /** How a row enters the books: its decision, its R, its UTC exit day and its count. */
  ghost predicate Booked(r: Row, d: Decision) {
    && d.candidateId == r.c.id && (d.taken <==> r.outcome.Taken?)
    && (r.outcome.Taken? ==>
          && d.skipReason == None && d.entry == Some(r.outcome.fill.entryTs)
          && RealizedR()(r) == r.outcome.fill.realizedR
          && ExitDay()(r) * 86_400_000_000 <= r.outcome.fill.exitTs < (ExitDay()(r) + 1) * 86_400_000_000
          && IsValid()(r) && !IsInvalid()(r))
    && (r.outcome.Skipped? ==>
          var others := {OverlappingTrade, PortfolioTradeLimit, CooldownActive, RegimeFilterBlock, DuplicateCandidate};
          && d.skipReason == Some(r.outcome.reason) && d.entry == None && ReasonOf()(r) == r.outcome.reason
          && (IsValid()(r) <==> r.outcome.reason in others) && (IsInvalid()(r) <==> r.outcome.reason !in others))
  }

  lemma RowsAreBooked(r: Row)
    ensures Booked(r, DecisionOf()(r))
  {
  }

  /** One row and one decision per selected candidate; taken and skipped, and valid and invalid,
      split the total; the skip counts by reason add up to the rows skipped. */
  lemma CountsAddUp(cs: seq<Candidate>, tape: Tape, cfg: ReplayConfig, reasons: seq<SkipReason>)
    requires NoRepeats(reasons) && Covers(reasons, Filter(RunRows(cs, tape, cfg), IsSkipped()), ReasonOf())
    ensures var rows := RunRows(cs, tape, cfg);
            && |rows| == |cs| == |Map(rows, DecisionOf())|
            && (forall i :: 0 <= i < |cs| ==>
                  var d := DecisionOf()(rows[i]);
                  d.candidateId == cs[i].id && d.taken == rows[i].outcome.Taken? && (d.taken <==> d.skipReason.None?))
            && |Filter(rows, IsTaken())| + |Filter(rows, IsSkipped())| == |rows|
            && |Filter(rows, IsValid())| + |Filter(rows, IsInvalid())| == |rows|
            && KeyedTotal(Filter(rows, IsSkipped()), reasons, ReasonOf(), One()) == |Filter(rows, IsSkipped())| as real
  {
    hide RunRows;
    var rows := RunRows(cs, tape, cfg);
    TotalSplits(rows, IsTaken(), One());
    FilterCongruence(rows, IsSkipped(), Not(IsTaken()));
    TotalSplits(rows, IsValid(), One());
    FilterCongruence(rows, IsInvalid(), Not(IsValid()));
    var skipped := Filter(rows, IsSkipped());
    PartitionConserves(skipped, reasons, ReasonOf(), One());
    CountIsTotal(skipped);
  }

  // ----- streaks

  function Scores(positive: bool): real -> bool {
    v => if positive then v > 0.0 else v < 0.0
  }

  ghost predicate Streak(rs: seq<real>, positive: bool, i: nat, j: nat)
    requires i <= j <= |rs|
  {
    forall k :: i <= k < j ==> Scores(positive)(rs[k])
  }

  /** The longest run of consecutive wins, or of consecutive losses. */
  method MaxConsecutive(rs: seq<real>, positive: bool) returns (best: nat)
    ensures forall i, j :: 0 <= i <= j <= |rs| && Streak(rs, positive, i, j) ==> j - i <= best
    ensures exists i, j :: 0 <= i <= j <= |rs| && Streak(rs, positive, i, j) && j - i == best
  {
    best := 0;
    var current: nat := 0;
    ghost var from: nat := 0;
    assert Streak(rs, positive, 0, 0);
    for n := 0 to |rs|
      invariant 0 <= current <= n && Streak(rs, positive, n - current, n)
      invariant current < n ==> !Scores(positive)(rs[n - current - 1])
      invariant forall i, j :: 0 <= i <= j <= n && Streak(rs, positive, i, j) ==> j - i <= best
      invariant from + best <= n && Streak(rs, positive, from, from + best)
    {
      var matched := if positive then rs[n] > 0.0 else rs[n] < 0.0;
      current := if matched then current + 1 else 0;
      ghost var m := n + 1;
      assert current < m ==> !Scores(positive)(rs[m - current - 1]);
      forall i | 0 <= i <= m && Streak(rs, positive, i, m)
        ensures m - i <= current
      {
      }
      if best < current {
        best := current;
        from := n + 1 - current;
      }
    }
  }
}
