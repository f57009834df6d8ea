/** What the engine promises of its rows: no row depends on a later bar. */
module FeatureLaws {
  import opened Common
  import opened Sorting
  import opened FeatureRows

  function UpTo(t: Time): NBar -> bool { (b: NBar) => b.ts <= t }

  function RowUpTo(t: Time): FeatureRow -> bool { (r: FeatureRow) => r.ts <= t }

  /** Session dates never run backwards in time within a series. */
  ghost predicate DatesFollowTime(bars: seq<NBar>) {
    forall x, y :: x in bars && y in bars && SeriesOf(x) == SeriesOf(y) && x.ts <= y.ts ==> x.date <= y.date
  }

  // ----- order

  lemma ProcessedKept(bars: seq<NBar>, t: Time)
    ensures Processed(Filter(bars, UpTo(t))) == Filter(Processed(bars), UpTo(t))
  {
    KeyOrderTotal();
    SortFilter(bars, TimeKey(), KeyOrder(), UpTo(t));
    SortFilter(InOrder(bars), SessionKey(), KeyOrder(), UpTo(t));
  }

  function Earlier(): (NBar, NBar) -> bool { (a: NBar, b: NBar) => a.ts <= b.ts }

  /** Within a series, bars are processed in time order. */
  ghost predicate SeriesInTimeOrder(bars: seq<NBar>) {
    forall i, j :: 0 <= i < j < |bars| && SeriesOf(bars[i]) == SeriesOf(bars[j]) ==> bars[i].ts <= bars[j].ts
  }

  lemma InOrderWithinSessions(bars: seq<NBar>)
    ensures OrderedWithin(InOrder(bars), SessionKey(), Earlier())
  {
    KeyOrderTotal();
    var s := InOrder(bars);
    SortSorted(bars, TimeKey(), KeyOrder());
    forall i, j | 0 <= i < j < |s| && SessionKey()(s[i]) == SessionKey()(s[j])
      ensures Earlier()(s[i], s[j])
    {
      assert KeyOrder()(TimeKey()(s[i]), TimeKey()(s[j]));
    }
  }

  /** Sorted by session, in time order within sessions, and dated by time: then in time order. */
  lemma SessionsInTimeOrder(bars: seq<NBar>)
    requires DatesFollowTime(bars) && Sorted(bars, SessionKey(), KeyOrder())
           && OrderedWithin(bars, SessionKey(), Earlier())
    ensures SeriesInTimeOrder(bars)
  {
    hide StringLe;
    forall i, j | 0 <= i < j < |bars| && SeriesOf(bars[i]) == SeriesOf(bars[j])
      ensures bars[i].ts <= bars[j].ts
    {
      assert KeyOrder()(SessionKey()(bars[i]), SessionKey()(bars[j]));
      assert bars[i] in bars && bars[j] in bars;
      if SessionKey()(bars[i]) == SessionKey()(bars[j]) {
        assert Earlier()(bars[i], bars[j]);
      } else {
        assert bars[i].date < bars[j].date;
      }
    }
  }

  lemma ProcessedInTimeOrder(bars: seq<NBar>)
    requires DatesFollowTime(bars)
    ensures SeriesInTimeOrder(Processed(bars))
  {
    KeyOrderTotal();
    var s := InOrder(bars);
    InOrderWithinSessions(bars);
    SortStable(s, SessionKey(), KeyOrder(), Earlier());
    SortSorted(s, SessionKey(), KeyOrder());
    SameMembers(Processed(bars), s);
    SameMembers(s, bars);
    hide SortBy, Sorted, OrderedWithin, SeriesInTimeOrder;
    SessionsInTimeOrder(Processed(bars));
  }

  lemma DuplicatesKept(bars: seq<NBar>, t: Time, key: BarKey)
    requires key.at <= t
    ensures Duplicated(Filter(bars, UpTo(t)), key) <==> Duplicated(bars, key)
  {
    forall b | b in bars && Stamped(key)(b)
      ensures UpTo(t)(b)
    {
      assert TimeKey()(b).at == b.ts;
    }
    FilterTwice(bars, UpTo(t), Stamped(key));
  }

  lemma RowTime(p: Settings, history: seq<NBar>, duplicate: bool, unsorted: bool)
    requires history != []
    ensures RowOf(p, history, duplicate, unsorted).ts == Last(history).ts
  {
    hide Observe, PreviousDay, SameTimeVolumes, RowFlags, GapFill, Slope, AbsReturns, Vwap, TrueRange;
  }

  lemma LastInSeries(done: seq<NBar>, bar: NBar)
    ensures var own := Filter(done + [bar], InSeries(SeriesOf(bar))); own != [] && Last(own) == bar
  {
    FilterSnoc(done, bar, InSeries(SeriesOf(bar)));
  }

  /** A bar's own series up to it holds no bar later than it. */
  lemma OwnSeriesKept(done: seq<NBar>, bar: NBar, t: Time)
    requires SeriesInTimeOrder(done + [bar]) && bar.ts <= t
    ensures Filter(Filter(done, UpTo(t)) + [bar], InSeries(SeriesOf(bar)))
         == Filter(done + [bar], InSeries(SeriesOf(bar)))
  {
    var q := InSeries(SeriesOf(bar));
    forall x | x in done && q(x)
      ensures UpTo(t)(x)
    {
      var i :| 0 <= i < |done| && done[i] == x;
      assert (done + [bar])[i] == x && (done + [bar])[|done|] == bar;
    }
    FilterTwice(done, UpTo(t), q);
    FilterSnoc(Filter(done, UpTo(t)), bar, q);
    FilterSnoc(done, bar, q);
  }

  /** Dropping the later bars drops exactly the later rows. */
  lemma {:induction false} RawRowsKept(p: Settings, done: seq<NBar>, all: seq<NBar>, unsorted: bool, t: Time)
    requires SeriesInTimeOrder(done)
    ensures RawRows(p, Filter(done, UpTo(t)), Filter(all, UpTo(t)), unsorted)
         == Filter(RawRows(p, done, all, unsorted), RowUpTo(t))
  {
    hide RawRows, RowOf, Duplicated, SeriesInTimeOrder;
    if done == [] {
      NoRows(p, all, unsorted);
      NoRows(p, Filter(all, UpTo(t)), unsorted);
    } else {
      var n := |done| - 1;
      var bar := done[n];
      assert done == done[..n] + [bar];
      StillInOrder(done, n);
      RawRowsKept(p, done[..n], all, unsorted, t);
      RawRowsSnoc(p, done[..n], bar, all, unsorted);
      FilterSnoc(done[..n], bar, UpTo(t));
      var own := Filter(done[..n] + [bar], InSeries(SeriesOf(bar)));
      var row := RowOf(p, own, Duplicated(all, TimeKey()(bar)), unsorted);
      LastInSeries(done[..n], bar);
      RowTime(p, own, Duplicated(all, TimeKey()(bar)), unsorted);
      FilterSnoc(RawRows(p, done[..n], all, unsorted), row, RowUpTo(t));
      if bar.ts <= t {
        OwnSeriesKept(done[..n], bar, t);
        DuplicatesKept(all, t, TimeKey()(bar));
        RawRowsSnoc(p, Filter(done[..n], UpTo(t)), bar, Filter(all, UpTo(t)), unsorted);
      }
    }
  }

  lemma NoRows(p: Settings, all: seq<NBar>, unsorted: bool)
    ensures RawRows(p, [], all, unsorted) == []
  {
  }

  lemma StillInOrder(done: seq<NBar>, n: nat)
    requires SeriesInTimeOrder(done) && n <= |done|
    ensures SeriesInTimeOrder(done[..n])
  {
  }

  // ----- attaching benchmarks

  lemma AttachKeepsTime(rows: seq<FeatureRow>, r: FeatureRow)
    ensures AttachIn(rows)(r).ts == r.ts
  {
  }

  /** Benchmarks come from rows of the same moment only. */
  lemma SameBoard(rows: seq<FeatureRow>, r: FeatureRow, t: Time)
    requires r.ts <= t
    ensures AttachIn(Filter(rows, RowUpTo(t)))(r) == AttachIn(rows)(r)
  {
    hide Attach, BoardOf;
    FilterTwice(rows, RowUpTo(t), AtMoment(MomentOf(r)));
  }

  lemma AttachedKept(rows: seq<FeatureRow>, t: Time)
    ensures Attached(Filter(rows, RowUpTo(t))) == Filter(Attached(rows), RowUpTo(t))
  {
    hide AttachIn;
    var kept := Filter(rows, RowUpTo(t));
    forall r | r in rows
      ensures RowUpTo(t)(AttachIn(rows)(r)) == RowUpTo(t)(r)
    {
      AttachKeepsTime(rows, r);
    }
    FilterMap(rows, AttachIn(rows), RowUpTo(t), RowUpTo(t));
    forall i | 0 <= i < |kept|
      ensures AttachIn(kept)(kept[i]) == AttachIn(rows)(kept[i])
    {
      assert kept[i] in kept;
      SameBoard(rows, kept[i], t);
    }
    hide Filter;
    assert Map(kept, AttachIn(kept)) == Map(kept, AttachIn(rows));
  }

  /** The feature table with the input-order flag given. */
  function BuildWith(p: Settings, bars: seq<NBar>, unsorted: bool): seq<FeatureRow> {
    Attached(SortBy(RawRows(p, Processed(bars), bars, unsorted), RowKey(), KeyOrder()))
  }

  /** Up to the input-order flag, the table of the bars up to `t` is the full table up to `t`:
      previous-day levels, same-time volumes and relative strength included. */
  lemma RowsSeeNoLaterBar(p: Settings, bars: seq<NBar>, t: Time, unsorted: bool)
    requires DatesFollowTime(bars)
    ensures BuildWith(p, Filter(bars, UpTo(t)), unsorted) == Filter(BuildWith(p, bars, unsorted), RowUpTo(t))
  {
    ProcessedKept(bars, t);
    ProcessedInTimeOrder(bars);
    RawRowsKept(p, Processed(bars), bars, unsorted, t);
    KeyOrderTotal();
    hide RawRows, Attached, Processed;
    var raw := RawRows(p, Processed(bars), bars, unsorted);
    SortFilter(raw, RowKey(), KeyOrder(), RowUpTo(t));
    AttachedKept(SortBy(raw, RowKey(), KeyOrder()), t);
  }

  // ----- the input-order flag

  function Mark(): FeatureRow -> FeatureRow { (r: FeatureRow) => r.(flags := r.flags + {UNSORTED}) }

  // no other flag has this one's length

  lemma HistoryFlagsAreOthers(p: Settings, a: Accumulated, relative: Option<real>, duplicate: bool)
    ensures UNSORTED !in HistoryFlags(p, a, relative, duplicate)
  {
    assert |UNSORTED| == 45;
    assert |"duplicate_timestamp"| < 45 && |"atr_insufficient_history"| < 45 && |"atr_session_reset"| < 45;
    assert |"rolling_relative_volume_insufficient_history"| < 45;
  }

  lemma LevelFlagsAreOthers(p: Settings, a: Accumulated, bar: NBar, previous: Option<DayStats>, sameTime: Option<real>)
    ensures UNSORTED !in LevelFlags(p, a, bar, previous, sameTime)
  {
    hide OpeningComplete;
    assert |UNSORTED| == 45;
    assert |"same_time_rvol_insufficient_history"| < 45 && |"previous_day_levels_unavailable"| < 45;
    assert |"premarket_levels_unavailable"| < 45 && |"opening_range_incomplete"| < 45;
  }

  lemma OwnFlagsAreOthers(p: Settings, a: Accumulated, bar: NBar, previous: Option<DayStats>, relative: Option<real>,
                          sameTime: Option<real>, duplicate: bool)
    ensures UNSORTED !in OwnFlags(p, a, bar, previous, relative, sameTime, duplicate)
  {
    HistoryFlagsAreOthers(p, a, relative, duplicate);
    LevelFlagsAreOthers(p, a, bar, previous, sameTime);
    hide HistoryFlags, LevelFlags;
  }

  lemma FlagsMarked(p: Settings, a: Accumulated, bar: NBar, previous: Option<DayStats>, relative: Option<real>,
                    sameTime: Option<real>, duplicate: bool)
    ensures RowFlags(p, a, bar, previous, relative, sameTime, duplicate, true)
         == RowFlags(p, a, bar, previous, relative, sameTime, duplicate, false) + {UNSORTED}
    ensures UNSORTED in RowFlags(p, a, bar, previous, relative, sameTime, duplicate, false) <==> UNSORTED in bar.flags
  {
    OwnFlagsAreOthers(p, a, bar, previous, relative, sameTime, duplicate);
    hide OwnFlags;
  }

  lemma RowMarked(p: Settings, history: seq<NBar>, duplicate: bool)
    requires history != []
    ensures RowOf(p, history, duplicate, true) == Mark()(RowOf(p, history, duplicate, false))
    ensures UNSORTED in RowOf(p, history, duplicate, false).flags <==> UNSORTED in Last(history).flags
  {
    hide Observe, PreviousDay, SameTimeVolumes, RowFlags, GapFill, Slope, AbsReturns, Vwap, TrueRange, RollingReturn,
      PerMean, SafeDiv;
    var bar := Last(history);
    assert bar in Filter(history, OnDate(bar.date));
    var earlier := Filter(history, OffDate(bar.date));
    var a := Observe(p, Filter(history, OnDate(bar.date)));
    FlagsMarked(p, a, bar, PreviousDay(earlier), PerMean(bar.volume as real, Map(a.volumes, AsReal())),
                PerMean(bar.volume as real, Map(SameTimeVolumes(p, earlier, bar.minuteEt), AsReal())), duplicate);
  }

  lemma AttachMarked(rows: seq<FeatureRow>, r: FeatureRow)
    ensures AttachIn(Map(rows, Mark()))(Mark()(r)) == Mark()(AttachIn(rows)(r))
    ensures UNSORTED in AttachIn(rows)(r).flags <==> UNSORTED in r.flags
  {
    hide Filter, Benchmark, MeanOfKnown, Minus, BoardOf, Attach;
    var m := MomentOf(r);
    FilterMap(rows, Mark(), AtMoment(m), AtMoment(m));
    SameBoardMarked(Filter(rows, AtMoment(m)));
    AttachToMarked(r, BoardOf(Filter(rows, AtMoment(m))));
  }

  /** Attaching reads neither flag and adds none of this name. */
  lemma AttachToMarked(r: FeatureRow, board: Board)
    ensures Attach(Mark()(r), board) == Mark()(Attach(r, board))
    ensures UNSORTED in Attach(r, board).flags <==> UNSORTED in r.flags
  {
    hide Benchmark, MeanOfKnown, Minus;
    assert |UNSORTED| == 45;
    assert |"relative_strength_spy_unavailable"| < 45 && |"relative_strength_qqq_unavailable"| < 45;
  }

  lemma {:induction false} SameBoardMarked(rows: seq<FeatureRow>)
    ensures BoardOf(Map(rows, Mark())) == BoardOf(rows)
  {
    if rows != [] {
      var n := |rows| - 1;
      SameBoardMarked(rows[..n]);
      assert Map(rows, Mark())[..n] == Map(rows[..n], Mark());
    }
  }

  lemma {:induction false} RawRowsMarked(p: Settings, done: seq<NBar>, all: seq<NBar>)
    ensures RawRows(p, done, all, true) == Map(RawRows(p, done, all, false), Mark())
    ensures forall i :: 0 <= i < |done| ==>
              (UNSORTED in RawRows(p, done, all, false)[i].flags <==> UNSORTED in done[i].flags)
  {
    hide RowOf, Duplicated, Mark;
    if done != [] {
      var n := |done| - 1;
      var bar := done[n];
      assert done == done[..n] + [bar];
      RawRowsMarked(p, done[..n], all);
      RawRowsSnoc(p, done[..n], bar, all, true);
      RawRowsSnoc(p, done[..n], bar, all, false);
      LastInSeries(done[..n], bar);
      var own := Filter(done[..n] + [bar], InSeries(SeriesOf(bar)));
      var duplicate := Duplicated(all, TimeKey()(bar));
      RowMarked(p, own, duplicate);
      MapSnoc(RawRows(p, done[..n], all, false), RowOf(p, own, duplicate, false), Mark());
    }
  }

  lemma BuildMarked(p: Settings, bars: seq<NBar>)
    ensures BuildWith(p, bars, true) == Map(BuildWith(p, bars, false), Mark())
  {
    hide RawRows, AttachIn;
    var raw := RawRows(p, Processed(bars), bars, false);
    RawRowsMarked(p, Processed(bars), bars);
    SortMap(raw, RowKey(), KeyOrder(), Mark());
    var rows := SortBy(raw, RowKey(), KeyOrder());
    hide SortBy, Processed;
    forall i | 0 <= i < |rows|
      ensures AttachIn(Map(rows, Mark()))(Mark()(rows[i])) == Mark()(AttachIn(rows)(rows[i]))
    {
      AttachMarked(rows, rows[i]);
    }
    hide Mark;
    assert Attached(Map(rows, Mark())) == Map(Attached(rows), Mark());
  }

  /** All elements of `xs` satisfy `p` exactly when all of `ys` do. */
  lemma SameForAll<T>(xs: seq<T>, ys: seq<T>, p: T -> bool)
    requires multiset(xs) == multiset(ys)
    ensures (forall x :: x in xs ==> p(x)) <==> (forall y :: y in ys ==> p(y))
  {
    SameMembers(xs, ys);
  }

  /** The same for two sequences that agree position by position. */
  lemma AgreeForAll<T, U>(xs: seq<T>, ys: seq<U>, p: T -> bool, q: U -> bool)
    requires |xs| == |ys| && forall i :: 0 <= i < |xs| ==> p(xs[i]) == q(ys[i])
    ensures (forall x :: x in xs ==> p(x)) <==> (forall y :: y in ys ==> q(y))
  {
    if forall x :: x in xs ==> p(x) {
      forall i | 0 <= i < |ys|
        ensures q(ys[i])
      {
        assert xs[i] in xs;
      }
    }
    if forall y :: y in ys ==> q(y) {
      forall i | 0 <= i < |xs|
        ensures p(xs[i])
      {
        assert ys[i] in ys;
      }
    }
  }

  function BarFlagged(): NBar -> bool { (b: NBar) => UNSORTED in b.flags }

  function RowFlagged(): FeatureRow -> bool { (r: FeatureRow) => UNSORTED in r.flags }

  ghost predicate AllFlagged(bars: seq<NBar>) { forall b :: b in bars ==> BarFlagged()(b) }

  ghost predicate AllRowsFlagged(rows: seq<FeatureRow>) { forall r :: r in rows ==> RowFlagged()(r) }

  /** Every row is flagged without the input-order flag exactly when every bar already was. */
  lemma FlaggedRows(p: Settings, bars: seq<NBar>)
    ensures AllRowsFlagged(BuildWith(p, bars, false)) <==> AllFlagged(bars)
  {
    var g := Processed(bars);
    var raw := RawRows(p, g, bars, false);
    var rows := SortBy(raw, RowKey(), KeyOrder());
    hide RawRows, SortBy, AttachIn;
    SameForAll(g, InOrder(bars), BarFlagged());
    SameForAll(InOrder(bars), bars, BarFlagged());
    RawRowsMarked(p, g, bars);
    AgreeForAll(raw, g, RowFlagged(), BarFlagged());
    SameForAll(rows, raw, RowFlagged());
    forall i | 0 <= i < |rows|
      ensures RowFlagged()(Attached(rows)[i]) == RowFlagged()(rows[i])
    {
      AttachMarked(rows, rows[i]);
    }
    AgreeForAll(Attached(rows), rows, RowFlagged(), RowFlagged());
  }

  /** The input-order flag shows in the table unless every bar carried it already. */
  lemma FlagShows(p: Settings, bars: seq<NBar>, u: bool, v: bool)
    ensures BuildWith(p, bars, u) == BuildWith(p, bars, v) <==> u == v || AllFlagged(bars)
  {
    hide BuildWith, AllFlagged, AllRowsFlagged, Mark;
    if u != v {
      BuildMarked(p, bars);
      FlaggedRows(p, bars);
      MarkedIsSame(BuildWith(p, bars, false));
    }
  }

  /** The no-leakage contract, exactly: dropping the bars after `t` and building gives the full
      table's rows up to `t` if and only if the dropped bars do not change whether the input counts
      as out of order - or every remaining bar carried that flag already. */
  lemma NoLeakageExactly(p: Settings, bars: seq<NBar>, t: Time)
    requires DatesFollowTime(bars)
    ensures Build(p, Filter(bars, UpTo(t))) == Filter(Build(p, bars), RowUpTo(t))
       <==> Unsorted(Filter(bars, UpTo(t))) == Unsorted(bars) || AllFlagged(Filter(bars, UpTo(t)))
  {
    hide *;
    var kept := Filter(bars, UpTo(t));
    RowsSeeNoLaterBar(p, bars, t, Unsorted(bars));
    BuildIs(p, kept);
    BuildIs(p, bars);
    FlagShows(p, kept, Unsorted(kept), Unsorted(bars));
  }

  lemma BuildIs(p: Settings, bars: seq<NBar>)
    ensures Build(p, bars) == BuildWith(p, bars, Unsorted(bars))
  {
  }

  lemma MarkedIsSame(rows: seq<FeatureRow>)
    ensures Map(rows, Mark()) == rows <==> AllRowsFlagged(rows)
  {
    if Map(rows, Mark()) == rows {
      forall r | r in rows
        ensures UNSORTED in r.flags
      {
        var i :| 0 <= i < |rows| && rows[i] == r;
        assert rows[i] == Map(rows, Mark())[i];
      }
    }
    if AllRowsFlagged(rows) {
      forall i | 0 <= i < |rows|
        ensures Map(rows, Mark())[i] == rows[i]
      {
        assert RowFlagged()(rows[i]);
        assert rows[i].flags + {UNSORTED} == rows[i].flags;
      }
    }
  }

  // ----- which inputs leak

  /** The rows up to `t` tell something about the bars after it. */
  ghost predicate Leaks(p: Settings, bars: seq<NBar>, t: Time) {
    Build(p, Filter(bars, UpTo(t))) != Filter(Build(p, bars), RowUpTo(t))
  }

  /** The input-order flag says exactly what its name says. */
  lemma UnsortedExactly(bars: seq<NBar>)
    ensures Unsorted(bars) <==> !Sorted(bars, TimeKey(), KeyOrder())
  {
    KeyOrderTotal();
    SortSorted(bars, TimeKey(), KeyOrder());
    if Sorted(bars, TimeKey(), KeyOrder()) {
      SortOfSorted(bars, TimeKey(), KeyOrder());
    }
    hide SortBy, KeyLe;
    var s := InOrder(bars);
    if Map(bars, TimeKey()) == Map(s, TimeKey()) {
      forall i | 0 <= i < |bars|
        ensures TimeKey()(bars[i]) == TimeKey()(s[i])
      {
        assert Map(bars, TimeKey())[i] == Map(s, TimeKey())[i];
      }
      assert |s| == |bars|;
    }
  }

  /** A part of an input in order is in order. */
  lemma PartInOrder(bars: seq<NBar>, t: Time)
    requires !Unsorted(bars)
    ensures !Unsorted(Filter(bars, UpTo(t)))
  {
    KeyOrderTotal();
    UnsortedExactly(bars);
    UnsortedExactly(Filter(bars, UpTo(t)));
    SortOfSorted(bars, TimeKey(), KeyOrder());
    SortFilter(bars, TimeKey(), KeyOrder(), UpTo(t));
    SortSorted(Filter(bars, UpTo(t)), TimeKey(), KeyOrder());
  }

  /** A cut leaks exactly when the input is out of order, what is kept is in order, and some bar kept
      does not carry the flag already. */
  lemma LeaksExactly(p: Settings, bars: seq<NBar>, t: Time)
    requires DatesFollowTime(bars)
    ensures Leaks(p, bars, t)
       <==> Unsorted(bars) && !Unsorted(Filter(bars, UpTo(t))) && !AllFlagged(Filter(bars, UpTo(t)))
  {
    NoLeakageExactly(p, bars, t);
    hide Build, Unsorted, Filter, AllFlagged, UpTo, RowUpTo, DatesFollowTime;
    if !Unsorted(bars) {
      PartInOrder(bars, t);
    }
  }

  /** The bars up to `b` are in order, and `b` does not carry the flag. */
  ghost predicate Betrayed(bars: seq<NBar>, b: NBar) {
    b in bars && !BarFlagged()(b) && !Unsorted(Filter(bars, UpTo(b.ts)))
  }

  lemma CutsAgree(bars: seq<NBar>, s: Time, t: Time)
    requires s <= t
    ensures Filter(Filter(bars, UpTo(t)), UpTo(s)) == Filter(bars, UpTo(s))
  {
    FilterTwice(bars, UpTo(t), UpTo(s));
  }

  /** Which inputs leak at all, exactly: those out of order in which some unflagged bar comes with
      everything up to it in order. */
  lemma LeaksSomewhereExactly(p: Settings, bars: seq<NBar>)
    requires DatesFollowTime(bars)
    ensures (exists t :: Leaks(p, bars, t)) <==> Unsorted(bars) && exists b :: Betrayed(bars, b)
  {
    hide Unsorted, DatesFollowTime, Leaks;
    if t :| Leaks(p, bars, t) {
      LeaksExactly(p, bars, t);
      var kept := Filter(bars, UpTo(t));
      var b :| b in kept && !BarFlagged()(b);
      CutsAgree(bars, b.ts, t);
      PartInOrder(kept, b.ts);
      assert Betrayed(bars, b);
    }
    if Unsorted(bars) && exists b :: Betrayed(bars, b) {
      var b :| Betrayed(bars, b);
      assert b in Filter(bars, UpTo(b.ts)) && !BarFlagged()(b);
      LeaksExactly(p, bars, b.ts);
      assert Leaks(p, bars, b.ts);
    }
  }

  /** Input that arrives in order never leaks. */
  lemma SortedInputNeverLeaks(p: Settings, bars: seq<NBar>, t: Time)
    requires DatesFollowTime(bars) && Sorted(bars, TimeKey(), KeyOrder())
    ensures Build(p, Filter(bars, UpTo(t))) == Filter(Build(p, bars), RowUpTo(t))
  {
    hide Build, Unsorted, Filter, UpTo, RowUpTo, AllFlagged;
    UnsortedExactly(bars);
    LeaksExactly(p, bars, t);
  }

  lemma OnlyEarlyKept(early: NBar, late: NBar)
    requires early.ts < late.ts
    ensures Filter([late, early], UpTo(early.ts)) == [early]
  {
    FilterSnoc([late], early, UpTo(early.ts));
    assert [late] + [early] == [late, early];
  }

  /** The smallest such inputs: whenever two unflagged bars of a series arrive in the wrong order, the
      earlier bar's row tells that the later one exists. */
  lemma LateArrivalLeaks(p: Settings, early: NBar, late: NBar)
    requires SeriesOf(early) == SeriesOf(late) && early.ts < late.ts && early.date <= late.date
    requires UNSORTED !in early.flags
    ensures Build(p, Filter([late, early], UpTo(early.ts))) != Filter(Build(p, [late, early]), RowUpTo(early.ts))
  {
    hide Build, Unsorted, Filter, UpTo, RowUpTo, StringLe;
    OnlyEarlyKept(early, late);
    UnsortedExactly([early]);
    UnsortedExactly([late, early]);
    assert !KeyOrder()(TimeKey()([late, early][0]), TimeKey()([late, early][1]));
    assert DatesFollowTime([late, early]);
    assert early in [early] && !BarFlagged()(early);
    LeaksExactly(p, [late, early], early.ts);
  }
}
