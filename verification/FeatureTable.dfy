/** Where the rows of a feature table come from: one row per bar, its session, the session before it,
    the volumes of earlier sessions, and the benchmarks of its moment, all read off the input. */
module FeatureTable {
  import opened Common
  import opened Sorting
  import opened FeatureRows
  import opened FeatureColumns
  import opened FeatureLaws

  // ----- sessions

  ghost predicate Belongs(b: NBar, symbol: string, interval: string, date: int) {
    b.symbol == symbol && b.interval == interval && b.date == date
  }

  ghost function At(symbol: string, interval: string, date: int, t: Time): NBar -> bool {
    (b: NBar) => b.symbol == symbol && b.interval == interval && b.date == date && b.ts == t
  }

  ghost function Stamp(t: Time): NBar -> bool { (b: NBar) => b.ts == t }

  /** `s` is the session of a symbol, interval and date: its bars as often as they were given, in time
      order, those of one time in input order. */
  ghost predicate Session(bars: seq<NBar>, s: seq<NBar>, symbol: string, interval: string, date: int) {
    && (forall b :: multiset(s)[b] == if Belongs(b, symbol, interval, date) then multiset(bars)[b] else 0)
    && (forall i, j :: 0 <= i < j < |s| ==> s[i].ts <= s[j].ts)
    && (forall t :: Filter(s, Stamp(t)) == Filter(bars, At(symbol, interval, date, t)))
  }

  function SessionBars(bars: seq<NBar>, key: BarKey): seq<NBar> {
    Filter(InOrder(bars), HasKey(SessionKey(), key))
  }

  /** Filtering twice is filtering by both tests. */
  lemma {:induction false} FilterBoth<T>(xs: seq<T>, p: T -> bool, q: T -> bool, both: T -> bool)
    requires forall x :: x in xs ==> both(x) == (p(x) && q(x))
    ensures Filter(Filter(xs, p), q) == Filter(xs, both)
  {
    if xs != [] {
      FilterBoth(xs[1..], p, q, both);
    }
  }

  lemma SessionOnce(bars: seq<NBar>, key: BarKey, b: NBar)
    ensures multiset(SessionBars(bars, key))[b]
         == if Belongs(b, key.symbol, key.interval, key.at) then multiset(bars)[b] else 0
  {
    FilterMultiset(InOrder(bars), HasKey(SessionKey(), key));
    hide Filter, SortBy;
    assert HasKey(SessionKey(), key)(b) <==> Belongs(b, key.symbol, key.interval, key.at);
  }

  lemma SessionInTime(bars: seq<NBar>, key: BarKey)
    ensures var s := SessionBars(bars, key); forall i, j :: 0 <= i < j < |s| ==> s[i].ts <= s[j].ts
  {
    var s := SessionBars(bars, key);
    KeyOrderTotal();
    SortFilter(bars, TimeKey(), KeyOrder(), HasKey(SessionKey(), key));
    SortSorted(Filter(bars, HasKey(SessionKey(), key)), TimeKey(), KeyOrder());
    hide Filter, SortBy, StringLe;
    forall i, j | 0 <= i < j < |s|
      ensures s[i].ts <= s[j].ts
    {
      assert s[i] in s && s[j] in s;
      assert KeyOrder()(TimeKey()(s[i]), TimeKey()(s[j]));
      InSessionBars(bars, key, s[i]);
      InSessionBars(bars, key, s[j]);
    }
  }

  lemma InSessionBars(bars: seq<NBar>, key: BarKey, b: NBar)
    requires b in SessionBars(bars, key)
    ensures SessionKey()(b) == key
  {
  }

  lemma SessionTies(bars: seq<NBar>, key: BarKey, t: Time)
    ensures Filter(SessionBars(bars, key), Stamp(t)) == Filter(bars, At(key.symbol, key.interval, key.at, t))
  {
    var at := BarKey(key.symbol, key.interval, t);
    var both := At(key.symbol, key.interval, key.at, t);
    var sorted := InOrder(bars);
    KeyOrderTotal();
    SortKeepsGroup(bars, TimeKey(), KeyOrder(), at);
    FilterBoth(sorted, HasKey(SessionKey(), key), Stamp(t), both);
    FilterBoth(sorted, HasKey(TimeKey(), at), OnDate(key.at), both);
    FilterBoth(bars, HasKey(TimeKey(), at), OnDate(key.at), both);
  }

  lemma SessionIs(bars: seq<NBar>, key: BarKey)
    ensures Session(bars, SessionBars(bars, key), key.symbol, key.interval, key.at)
  {
    hide SessionBars, Filter;
    forall b
      ensures multiset(SessionBars(bars, key))[b]
           == if Belongs(b, key.symbol, key.interval, key.at) then multiset(bars)[b] else 0
    {
      SessionOnce(bars, key, b);
    }
    SessionInTime(bars, key);
    forall t
      ensures Filter(SessionBars(bars, key), Stamp(t)) == Filter(bars, At(key.symbol, key.interval, key.at, t))
    {
      SessionTies(bars, key, t);
    }
  }

  // ----- what a row is made of

  lemma {:induction false} RawRowAt(p: Settings, done: seq<NBar>, all: seq<NBar>, unsorted: bool, j: nat)
    requires j < |done|
    ensures Filter(done[..j + 1], InSeries(SeriesOf(done[j]))) != []
    ensures RawRows(p, done, all, unsorted)[j]
         == RowOf(p, Filter(done[..j + 1], InSeries(SeriesOf(done[j]))), Duplicated(all, TimeKey()(done[j])), unsorted)
  {
    hide RawRows, RowOf, Filter, Duplicated, InSeries, SeriesOf;
    var n := |done| - 1;
    assert done == done[..n] + [done[n]];
    RawRowsSnoc(p, done[..n], done[n], all, unsorted);
    if j < n {
      RawRowAt(p, done[..n], all, unsorted, j);
      assert done[..n][..j + 1] == done[..j + 1];
    } else {
      assert done[..j + 1] == done;
    }
  }

  /** The part of a session processed when bar `j` is, and its place in the session. */
  lemma SessionSoFar(g: seq<NBar>, j: nat, key: BarKey)
    requires j < |g| && SessionKey()(g[j]) == key
    ensures var s, n := Filter(g, HasKey(SessionKey(), key)), |Filter(g[..j], HasKey(SessionKey(), key))|;
            && n < |s| && s[n] == g[j] && Filter(g[..j + 1], HasKey(SessionKey(), key)) == s[..n + 1]
  {
    var keep := HasKey(SessionKey(), key);
    var before, s := Filter(g[..j], keep), Filter(g, keep);
    assert g[..j + 1] == g[..j] + [g[j]] && g == g[..j + 1] + g[j + 1..];
    FilterSnoc(g[..j], g[j], keep);
    FilterConcat(g[..j + 1], g[j + 1..], keep);
    hide Filter;
    assert s == before + [g[j]] + Filter(g[j + 1..], keep);
  }

  ghost function Before(symbol: string, interval: string, date: int): NBar -> bool {
    (b: NBar) => b.symbol == symbol && b.interval == interval && b.date < date
  }

  lemma EarlierSeen(g: seq<NBar>, j: nat, b: NBar)
    requires j < |g| && Sorted(g, SessionKey(), KeyOrder()) && b in g[..j + 1]
    ensures var bar := g[j];
            Before(bar.symbol, bar.interval, bar.date)(b) <==> InSeries(SeriesOf(bar))(b) && OffDate(bar.date)(b)
  {
    hide StringLe;
    var i :| 0 <= i <= j && g[i] == b;
    assert i < j ==> KeyOrder()(SessionKey()(g[i]), SessionKey()(g[j]));
  }

  lemma LaterIsNotEarlier(g: seq<NBar>, j: nat, b: NBar)
    requires j < |g| && Sorted(g, SessionKey(), KeyOrder()) && b in g[j + 1..]
    ensures !Before(g[j].symbol, g[j].interval, g[j].date)(b)
  {
    hide StringLe;
    var i :| 0 <= i < |g[j + 1..]| && g[j + 1..][i] == b;
    assert KeyOrder()(SessionKey()(g[j]), SessionKey()(g[j + 1 + i]));
  }

  /** In processing order, the other sessions of a series seen so far are those of earlier dates. */
  lemma EarlierSessions(g: seq<NBar>, j: nat)
    requires j < |g| && Sorted(g, SessionKey(), KeyOrder())
    ensures var bar := g[j];
            Filter(Filter(g[..j + 1], InSeries(SeriesOf(bar))), OffDate(bar.date))
              == Filter(g, Before(bar.symbol, bar.interval, bar.date))
  {
    var bar := g[j];
    var earlier := Before(bar.symbol, bar.interval, bar.date);
    var seen, rest := g[..j + 1], g[j + 1..];
    assert g == seen + rest;
    hide Filter, Sorted, SessionKey, KeyOrder, Before, InSeries, SeriesOf, OffDate;
    forall b | b in seen
      ensures earlier(b) == (InSeries(SeriesOf(bar))(b) && OffDate(bar.date)(b))
    {
      EarlierSeen(g, j, b);
    }
    FilterBoth(seen, InSeries(SeriesOf(bar)), OffDate(bar.date), earlier);
    forall b | b in rest
      ensures !earlier(b)
    {
      LaterIsNotEarlier(g, j, b);
    }
    FilterConcat(seen, rest, earlier);
    FilterNone(rest, earlier);
  }

  lemma ProcessedSorted(bars: seq<NBar>)
    ensures Sorted(Processed(bars), SessionKey(), KeyOrder())
  {
    KeyOrderTotal();
    SortSorted(InOrder(bars), SessionKey(), KeyOrder());
  }

  lemma ProcessedSession(bars: seq<NBar>, key: BarKey)
    ensures Filter(Processed(bars), HasKey(SessionKey(), key)) == SessionBars(bars, key)
  {
    KeyOrderTotal();
    SortKeepsGroup(InOrder(bars), SessionKey(), KeyOrder(), key);
  }

  /** The bars of earlier sessions of a series, session by session. */
  ghost function EarlierBars(bars: seq<NBar>, symbol: string, interval: string, date: int): seq<NBar> {
    Filter(Processed(bars), Before(symbol, interval, date))
  }

  /** The row of the `j`-th bar processed, as the row of a place in its session. */
  lemma RawRowIs(p: Settings, bars: seq<NBar>, unsorted: bool, j: nat) returns (n: nat)
    requires j < |Processed(bars)|
    ensures var bar := Processed(bars)[j];
            var s := SessionBars(bars, SessionKey()(bar));
            var earlier := EarlierBars(bars, bar.symbol, bar.interval, bar.date);
            && n < |s| && s[n] == bar
            && RawRows(p, Processed(bars), bars, unsorted)[j]
                 == RowAt(p, s, n, PreviousDay(earlier), SameTimeVolumes(p, earlier, bar.minuteEt),
                          Duplicated(bars, TimeKey()(bar)), unsorted)
  {
    var g := Processed(bars);
    var bar := g[j];
    var key := SessionKey()(bar);
    var h := Filter(g[..j + 1], InSeries(SeriesOf(bar)));
    n := |Filter(g[..j], HasKey(SessionKey(), key))|;
    RawRowAt(p, g, bars, unsorted, j);
    LastOfSeries(g, j);
    SessionSoFar(g, j, key);
    ProcessedSession(bars, key);
    ProcessedSorted(bars);
    EarlierSessions(g, j);
    FilterBoth(g[..j + 1], InSeries(SeriesOf(bar)), OnDate(bar.date), HasKey(SessionKey(), key));
    hide RawRows, Filter, Derive, Observe, PreviousDay, SameTimeVolumes, Duplicated, SortBy, Processed, SessionBars;
  }

  lemma LastOfSeries(g: seq<NBar>, j: nat)
    requires j < |g|
    ensures var h := Filter(g[..j + 1], InSeries(SeriesOf(g[j]))); h != [] && Last(h) == g[j]
  {
    assert g[..j + 1] == g[..j] + [g[j]];
    FilterSnoc(g[..j], g[j], InSeries(SeriesOf(g[j])));
  }

  // ----- the session before

  /** Missing in the first session of a series; else the extremes and the last close of the latest earlier
      session. */
  ghost predicate PreviousDayIs(bars: seq<NBar>, symbol: string, interval: string, date: int, day: Option<DayStats>) {
    if forall b :: b in bars && b.symbol == symbol && b.interval == interval ==> b.date >= date then day == None
    else exists s, d :: Latest(bars, s, symbol, interval, date, d) && StatsAre(s, day)
  }

  /** `s` is the session of the latest date before `date`. */
  ghost predicate Latest(bars: seq<NBar>, s: seq<NBar>, symbol: string, interval: string, date: int, d: int) {
    && Session(bars, s, symbol, interval, d) && s != [] && d < date
    && forall b :: b in bars && b.symbol == symbol && b.interval == interval && b.date < date ==> b.date <= d
  }

  ghost predicate StatsAre(s: seq<NBar>, day: Option<DayStats>) {
    && s != [] && day.Some?
    && Top(s, 0, |s| - 1, Any(), Some(day.value.high)) && Bottom(s, 0, |s| - 1, Any(), Some(day.value.low))
    && day.value.close == s[|s| - 1].close
  }

  lemma StatsOfAre(s: seq<NBar>)
    requires s != []
    ensures StatsAre(s, Some(StatsOf(s)))
  {
    DayExtremes(s, |s| - 1);
    assert s[..|s| - 1 + 1] == s;
    hide Highest, Lowest, Top, Bottom;
  }

  lemma EarlierMembers(bars: seq<NBar>, symbol: string, interval: string, date: int)
    ensures forall b :: b in EarlierBars(bars, symbol, interval, date) <==>
              b in bars && b.symbol == symbol && b.interval == interval && b.date < date
  {
    SameMembers(Processed(bars), InOrder(bars));
    SameMembers(InOrder(bars), bars);
    hide SortBy;
  }

  /** Earlier sessions come in order of date. */
  lemma EarlierInOrder(bars: seq<NBar>, symbol: string, interval: string, date: int)
    ensures var e := EarlierBars(bars, symbol, interval, date);
            forall i, j :: 0 <= i < j < |e| ==> e[i].date <= e[j].date
  {
    var e := EarlierBars(bars, symbol, interval, date);
    KeyOrderTotal();
    SortFilter(InOrder(bars), SessionKey(), KeyOrder(), Before(symbol, interval, date));
    SortSorted(Filter(InOrder(bars), Before(symbol, interval, date)), SessionKey(), KeyOrder());
    hide Filter, SortBy, StringLe, InOrder;
    forall i, j | 0 <= i < j < |e|
      ensures e[i].date <= e[j].date
    {
      assert KeyOrder()(SessionKey()(e[i]), SessionKey()(e[j]));
      assert e[i] in e && e[j] in e;
      EarlierAre(bars, symbol, interval, date, e[i]);
      EarlierAre(bars, symbol, interval, date, e[j]);
    }
  }

  lemma EarlierAre(bars: seq<NBar>, symbol: string, interval: string, date: int, b: NBar)
    requires b in EarlierBars(bars, symbol, interval, date)
    ensures Before(symbol, interval, date)(b)
  {
  }

  lemma EarlierSession(bars: seq<NBar>, symbol: string, interval: string, date: int, d: int)
    requires d < date
    ensures Filter(EarlierBars(bars, symbol, interval, date), OnDate(d))
         == SessionBars(bars, BarKey(symbol, interval, d))
  {
    var key := BarKey(symbol, interval, d);
    FilterBoth(Processed(bars), Before(symbol, interval, date), OnDate(d), HasKey(SessionKey(), key));
    ProcessedSession(bars, key);
  }

  lemma PreviousDayExactly(bars: seq<NBar>, symbol: string, interval: string, date: int)
    ensures PreviousDayIs(bars, symbol, interval, date, PreviousDay(EarlierBars(bars, symbol, interval, date)))
  {
    var e := EarlierBars(bars, symbol, interval, date);
    EarlierMembers(bars, symbol, interval, date);
    EarlierInOrder(bars, symbol, interval, date);
    hide EarlierBars, Filter, StatsOf, StatsAre, Session, SessionBars;
    if e != [] {
      var d := Last(e).date;
      var s := SessionBars(bars, BarKey(symbol, interval, d));
      assert Last(e) in e;
      EarlierSession(bars, symbol, interval, date, d);
      assert Last(e) in Filter(e, OnDate(d));
      SessionIs(bars, BarKey(symbol, interval, d));
      StatsOfAre(s);
      forall b | b in bars && b.symbol == symbol && b.interval == interval && b.date < date
        ensures b.date <= d
      {
        assert b in e;
        var i :| 0 <= i < |e| && e[i] == b;
      }
      assert Latest(bars, s, symbol, interval, date, d) && StatsAre(s, PreviousDay(e));
    }
  }

  // ----- volumes at the same time of day

  /** By date, and by time within a date. */
  ghost predicate DateThenTime(bars: seq<NBar>) {
    forall i, j :: 0 <= i < j < |bars| ==>
      bars[i].date < bars[j].date || (bars[i].date == bars[j].date && bars[i].ts <= bars[j].ts)
  }

  ghost predicate AtTime(b: NBar, symbol: string, interval: string, date: int, minute: int) {
    b.symbol == symbol && b.interval == interval && b.date < date && b.minuteEt == minute
  }

  /** The volumes of a series at one minute of the day, over the last sessions before `date`: the last of
      them, as many as remembered. */
  ghost predicate SameTimeAre(p: Settings, bars: seq<NBar>, symbol: string, interval: string, date: int, minute: int,
                              volumes: seq<int>) {
    exists m :: Minutes(bars, m, symbol, interval, date, minute) && LastVolumes(m, p.lookback, volumes)
  }

  ghost predicate Minutes(bars: seq<NBar>, m: seq<NBar>, symbol: string, interval: string, date: int, minute: int) {
    && (forall b :: multiset(m)[b] == if AtTime(b, symbol, interval, date, minute) then multiset(bars)[b] else 0)
    && DateThenTime(m)
  }

  ghost predicate LastVolumes(m: seq<NBar>, lookback: nat, volumes: seq<int>) {
    && |volumes| == Back(|m|, lookback)
    && forall j :: 0 <= j < |volumes| ==> volumes[j] == m[|m| - |volumes| + j].volume
  }

  /** Elements kept by a filter stand in the order they had. */
  lemma {:induction false} KeptPlaces<T>(xs: seq<T>, keep: T -> bool, i: nat, j: nat) returns (k: nat, m: nat)
    requires i < j < |Filter(xs, keep)|
    ensures k < m < |xs| && xs[k] == Filter(xs, keep)[i] && xs[m] == Filter(xs, keep)[j]
  {
    var rest := xs[1..];
    if keep(xs[0]) && i == 0 {
      var kept := Filter(rest, keep);
      assert kept[j - 1] in rest;
      var n :| 0 <= n < |rest| && rest[n] == kept[j - 1];
      k, m := 0, n + 1;
    } else if keep(xs[0]) {
      k, m := KeptPlaces(rest, keep, i - 1, j - 1);
      k, m := k + 1, m + 1;
    } else {
      k, m := KeptPlaces(rest, keep, i, j);
      k, m := k + 1, m + 1;
    }
  }

  lemma KeptInOrder(bars: seq<NBar>, keep: NBar -> bool)
    requires DateThenTime(bars)
    ensures DateThenTime(Filter(bars, keep))
  {
    hide Filter;
    var kept := Filter(bars, keep);
    forall i, j | 0 <= i < j < |kept|
      ensures kept[i].date < kept[j].date || (kept[i].date == kept[j].date && kept[i].ts <= kept[j].ts)
    {
      var k, m := KeptPlaces(bars, keep, i, j);
    }
  }

  lemma KeptWithin(bars: seq<NBar>, keep: NBar -> bool)
    requires OrderedWithin(bars, SessionKey(), Earlier())
    ensures OrderedWithin(Filter(bars, keep), SessionKey(), Earlier())
  {
    hide Filter;
    var kept := Filter(bars, keep);
    forall i, j | 0 <= i < j < |kept| && SessionKey()(kept[i]) == SessionKey()(kept[j])
      ensures Earlier()(kept[i], kept[j])
    {
      var k, m := KeptPlaces(bars, keep, i, j);
      assert Earlier()(bars[k], bars[m]);
    }
  }

  /** Earlier sessions come by date and, inside, by time. */
  lemma EarlierByTime(bars: seq<NBar>, symbol: string, interval: string, date: int)
    ensures DateThenTime(EarlierBars(bars, symbol, interval, date))
  {
    var e := EarlierBars(bars, symbol, interval, date);
    var keep := Before(symbol, interval, date);
    KeyOrderTotal();
    InOrderWithinSessions(bars);
    hide SortBy, StringLe;
    KeptWithin(InOrder(bars), keep);
    SortStable(Filter(InOrder(bars), keep), SessionKey(), KeyOrder(), Earlier());
    SortFilter(InOrder(bars), SessionKey(), KeyOrder(), keep);
    EarlierInOrder(bars, symbol, interval, date);
    hide InOrder, Filter;
    forall i, j | 0 <= i < j < |e|
      ensures e[i].date < e[j].date || (e[i].date == e[j].date && e[i].ts <= e[j].ts)
    {
      assert e[i] in e && e[j] in e;
      EarlierAre(bars, symbol, interval, date, e[i]);
      EarlierAre(bars, symbol, interval, date, e[j]);
      if e[i].date == e[j].date {
        assert SessionKey()(e[i]) == SessionKey()(e[j]);
        assert Earlier()(e[i], e[j]);
      }
    }
  }

  lemma MinutesOnce(bars: seq<NBar>, symbol: string, interval: string, date: int, minute: int, b: NBar)
    ensures multiset(Filter(EarlierBars(bars, symbol, interval, date), AtMinute(minute)))[b]
         == if AtTime(b, symbol, interval, date, minute) then multiset(bars)[b] else 0
  {
    FilterMultiset(Processed(bars), Before(symbol, interval, date));
    FilterMultiset(EarlierBars(bars, symbol, interval, date), AtMinute(minute));
    hide Filter, SortBy;
  }

  lemma SameTimeExactly(p: Settings, bars: seq<NBar>, symbol: string, interval: string, date: int, minute: int)
    ensures SameTimeAre(p, bars, symbol, interval, date, minute,
                        SameTimeVolumes(p, EarlierBars(bars, symbol, interval, date), minute))
  {
    hide Filter, DateThenTime, EarlierBars, LastN;
    var e := EarlierBars(bars, symbol, interval, date);
    var m := Filter(e, AtMinute(minute));
    EarlierByTime(bars, symbol, interval, date);
    KeptInOrder(e, AtMinute(minute));
    forall b
      ensures multiset(m)[b] == if AtTime(b, symbol, interval, date, minute) then multiset(bars)[b] else 0
    {
      MinutesOnce(bars, symbol, interval, date, minute, b);
    }
    LastNIs(Map(m, Volume()), p.lookback);
    assert Minutes(bars, m, symbol, interval, date, minute);
    hide Minutes;
    assert LastVolumes(m, p.lookback, SameTimeVolumes(p, e, minute));
  }

  // ----- the table

  /** The order of the table, and the one the input should have: by symbol, interval and time. */
  ghost predicate Comes(s: string, i: string, t: Time, s': string, i': string, t': Time) {
    if s != s' then Alphabetic(s, s') else if i != i' then Alphabetic(i, i') else t <= t'
  }

  ghost predicate OutOfOrder(bars: seq<NBar>) {
    exists i, j :: 0 <= i < j < |bars|
                   && !Comes(bars[i].symbol, bars[i].interval, bars[i].ts, bars[j].symbol, bars[j].interval, bars[j].ts)
  }

  /** Some two bars share symbol, interval and time with `b`. */
  ghost predicate Twice(bars: seq<NBar>, b: NBar) {
    exists i, j :: 0 <= i < j < |bars| && SameStamp(bars[i], b) && SameStamp(bars[j], b)
  }

  ghost predicate SameStamp(a: NBar, b: NBar) {
    a.symbol == b.symbol && a.interval == b.interval && a.ts == b.ts
  }

  lemma ComesIs(a: BarKey, b: BarKey)
    ensures KeyLe(a, b) <==> Comes(a.symbol, a.interval, a.at, b.symbol, b.interval, b.at)
  {
    hide StringLe, Alphabetic;
    StringLeIsAlphabetic(a.symbol, b.symbol);
    StringLeIsAlphabetic(a.interval, b.interval);
  }

  lemma OutOfOrderIs(bars: seq<NBar>)
    ensures Unsorted(bars) <==> OutOfOrder(bars)
  {
    UnsortedExactly(bars);
    hide Unsorted, KeyLe, Comes;
    forall i, j | 0 <= i < j < |bars|
      ensures KeyOrder()(TimeKey()(bars[i]), TimeKey()(bars[j])) <==>
                Comes(bars[i].symbol, bars[i].interval, bars[i].ts, bars[j].symbol, bars[j].interval, bars[j].ts)
    {
      ComesIs(TimeKey()(bars[i]), TimeKey()(bars[j]));
    }
  }

  lemma {:induction false} CountTwo<T>(xs: seq<T>, keep: T -> bool)
    ensures |Filter(xs, keep)| >= 1 <==> exists i :: 0 <= i < |xs| && keep(xs[i])
    ensures |Filter(xs, keep)| >= 2 <==> exists i, j :: 0 <= i < j < |xs| && keep(xs[i]) && keep(xs[j])
  {
    var kept := Filter(xs, keep);
    if |kept| >= 1 {
      assert kept[0] in kept;
    }
    if |kept| >= 2 {
      var i, j := KeptPlaces(xs, keep, 0, 1);
      assert kept[0] in kept && kept[1] in kept;
    }
    if i, j :| 0 <= i < j < |xs| && keep(xs[i]) && keep(xs[j]) {
      assert xs == xs[..j] + xs[j..];
      FilterConcat(xs[..j], xs[j..], keep);
      assert xs[..j][i] in xs[..j] && xs[j..][0] in xs[j..];
      assert xs[i] in Filter(xs[..j], keep) && xs[j] in Filter(xs[j..], keep);
    }
  }

  lemma TwiceIs(bars: seq<NBar>, b: NBar)
    ensures Duplicated(bars, TimeKey()(b)) <==> Twice(bars, b)
  {
    CountTwo(bars, Stamped(TimeKey()(b)));
    hide Filter;
    forall i | 0 <= i < |bars|
      ensures Stamped(TimeKey()(b))(bars[i]) <==> SameStamp(bars[i], b)
    {
    }
  }

  /** Rows before the benchmarks are attached. */
  ghost function Unattached(p: Settings, bars: seq<NBar>): seq<FeatureRow> {
    SortBy(RawRows(p, Processed(bars), bars, Unsorted(bars)), RowKey(), KeyOrder())
  }

  /** Everything a row says about its own series. */
  ghost predicate RowOk(p: Settings, bars: seq<NBar>, r: FeatureRow, s: seq<NBar>, n: nat) {
    && Session(bars, s, r.symbol, r.interval, r.date) && n < |s|
    && PreviousDayIs(bars, r.symbol, r.interval, r.date, r.previousDay)
    && exists sameTime :: SameTimeAre(p, bars, r.symbol, r.interval, r.date, s[n].minuteEt, sameTime)
                          && Columns(p, s, n, sameTime, r)
  }

  lemma RawRowOk(p: Settings, bars: seq<NBar>, j: nat) returns (s: seq<NBar>, n: nat)
    requires j < |Processed(bars)|
    ensures var r := RawRows(p, Processed(bars), bars, Unsorted(bars))[j];
            && RowOk(p, bars, r, s, n) && s[n] == Processed(bars)[j]
            && FlagsAt(p, s, n, r, Twice(bars, s[n]), OutOfOrder(bars))
            && r.symbol == s[n].symbol && r.interval == s[n].interval && r.date == s[n].date
  {
    hide *;
    var bar := Processed(bars)[j];
    var key := BarKey(bar.symbol, bar.interval, bar.date);
    KeyIs(bar);
    var earlier := EarlierBars(bars, bar.symbol, bar.interval, bar.date);
    var previous, sameTime := PreviousDay(earlier), SameTimeVolumes(p, earlier, bar.minuteEt);
    s := SessionBars(bars, key);
    n := RawRowIs(p, bars, Unsorted(bars), j);
    SessionIs(bars, key);
    PreviousDayExactly(bars, bar.symbol, bar.interval, bar.date);
    SameTimeExactly(p, bars, bar.symbol, bar.interval, bar.date, bar.minuteEt);
    var duplicate := Duplicated(bars, TimeKey()(bar));
    RowIdentity(p, s, n, previous, sameTime, duplicate, Unsorted(bars));
    ColumnsHold(p, s, n, previous, sameTime, duplicate, Unsorted(bars));
    FlagsHold(p, s, n, previous, sameTime, duplicate, Unsorted(bars));
    OutOfOrderIs(bars);
    TwiceIs(bars, bar);
    RowOkFrom(p, bars, RawRows(p, Processed(bars), bars, Unsorted(bars))[j], s, n, sameTime);
  }

  lemma KeyIs(b: NBar)
    ensures SessionKey()(b) == BarKey(b.symbol, b.interval, b.date)
  {
  }

  lemma RowOkFrom(p: Settings, bars: seq<NBar>, r: FeatureRow, s: seq<NBar>, n: nat, sameTime: seq<int>)
    requires Session(bars, s, r.symbol, r.interval, r.date) && n < |s|
    requires PreviousDayIs(bars, r.symbol, r.interval, r.date, r.previousDay)
    requires SameTimeAre(p, bars, r.symbol, r.interval, r.date, s[n].minuteEt, sameTime)
    requires Columns(p, s, n, sameTime, r)
    ensures RowOk(p, bars, r, s, n)
  {
  }

  /** What every row of the table says, but for its benchmarks: it is the row of one place of one session,
      every column is as written out for that place, and its flags are exactly the ones due. */
  lemma TableRow(p: Settings, bars: seq<NBar>, i: nat) returns (s: seq<NBar>, n: nat)
    requires i < |Build(p, bars)|
    ensures var r := Build(p, bars)[i];
            && RowOk(p, bars, r, s, n) && r.benchmarks.Benchmarks?
            && forall flag ::
                 flag in r.flags <==>
                   || Flagged(p, s, n, r, Twice(bars, s[n]), OutOfOrder(bars), flag)
                   || (flag == "relative_strength_spy_unavailable" && r.benchmarks.spy == None)
                   || (flag == "relative_strength_qqq_unavailable" && r.benchmarks.qqq == None)
  {
    var raw, rows := RawRows(p, Processed(bars), bars, Unsorted(bars)), Unattached(p, bars);
    BuildAttaches(p, bars, i);
    hide *;
    var j := PlaceBefore(p, bars, i);
    s, n := RawRowOk(p, bars, j);
    RowOkAttached(p, bars, rows[i], Build(p, bars)[i], s, n);
    FlagsAttached(p, s, n, rows[i], Build(p, bars)[i], Twice(bars, s[n]), OutOfOrder(bars));
  }

  /** Attaching touches benchmarks and flags only. */
  ghost predicate AttachedTo(r: FeatureRow, r': FeatureRow) {
    && SameColumns(r, r') && r'.benchmarks.Benchmarks?
    && forall flag ::
         flag in r'.flags <==>
           || flag in r.flags
           || (flag == "relative_strength_spy_unavailable" && r'.benchmarks.spy == None)
           || (flag == "relative_strength_qqq_unavailable" && r'.benchmarks.qqq == None)
  }

  lemma AttachIs(r: FeatureRow, board: Board)
    ensures AttachedTo(r, Attach(r, board))
  {
    hide Benchmark, MeanOfKnown, Minus;
  }

  lemma BuildAttaches(p: Settings, bars: seq<NBar>, i: nat)
    requires i < |Build(p, bars)|
    ensures |Unattached(p, bars)| == |Build(p, bars)| == |bars|
    ensures AttachedTo(Unattached(p, bars)[i], Build(p, bars)[i])
  {
    var rows := Unattached(p, bars);
    assert Build(p, bars) == Attached(rows);
    hide RawRows, Attach, AttachedTo, BoardOf;
    AttachIs(rows[i], BoardOf(Filter(rows, AtMoment(MomentOf(rows[i])))));
  }

  lemma PlaceBefore(p: Settings, bars: seq<NBar>, i: nat) returns (j: nat)
    requires i < |Unattached(p, bars)|
    ensures j < |Processed(bars)|
    ensures RawRows(p, Processed(bars), bars, Unsorted(bars))[j] == Unattached(p, bars)[i]
  {
    var raw := RawRows(p, Processed(bars), bars, Unsorted(bars));
    hide RawRows, Processed, Unsorted;
    SameMembers(raw, Unattached(p, bars));
    assert Unattached(p, bars)[i] in raw;
    j :| 0 <= j < |raw| && raw[j] == Unattached(p, bars)[i];
  }

  lemma RowOkAttached(p: Settings, bars: seq<NBar>, r: FeatureRow, r': FeatureRow, s: seq<NBar>, n: nat)
    requires RowOk(p, bars, r, s, n) && AttachedTo(r, r')
    ensures RowOk(p, bars, r', s, n)
  {
    hide Session, PreviousDayIs, SameTimeAre, Columns;
    var sameTime :| SameTimeAre(p, bars, r.symbol, r.interval, r.date, s[n].minuteEt, sameTime)
                    && Columns(p, s, n, sameTime, r);
    ColumnsIgnore(p, s, n, sameTime, r, r');
  }

  lemma FlagsAttached(p: Settings, s: seq<NBar>, n: nat, r: FeatureRow, r': FeatureRow, duplicate: bool, unsorted: bool)
    requires n < |s| && FlagsAt(p, s, n, r, duplicate, unsorted) && AttachedTo(r, r')
    ensures forall flag ::
              flag in r'.flags <==>
                || Flagged(p, s, n, r', duplicate, unsorted, flag)
                || (flag == "relative_strength_spy_unavailable" && r'.benchmarks.spy == None)
                || (flag == "relative_strength_qqq_unavailable" && r'.benchmarks.qqq == None)
  {
    hide OpeningOver;
    assert forall flag ::
        Flagged(p, s, n, r, duplicate, unsorted, flag) <==> Flagged(p, s, n, r', duplicate, unsorted, flag);
    hide Flagged;
  }

  /** The table is in order. */
  lemma TableInOrder(p: Settings, bars: seq<NBar>, i: nat, j: nat)
    requires i < j < |Build(p, bars)|
    ensures var a, b := Build(p, bars)[i], Build(p, bars)[j];
            Comes(a.symbol, a.interval, a.ts, b.symbol, b.interval, b.ts)
  {
    var raw, rows := RawRows(p, Processed(bars), bars, Unsorted(bars)), Unattached(p, bars);
    KeyOrderTotal();
    SortSorted(raw, RowKey(), KeyOrder());
    BuildAttaches(p, bars, i);
    BuildAttaches(p, bars, j);
    hide Build, RawRows, SortBy, Comes, KeyLe;
    ComesIs(RowKey()(rows[i]), RowKey()(rows[j]));
    assert KeyOrder()(RowKey()(rows[i]), RowKey()(rows[j]));
  }

  type Id = (string, string, int, Time, real)

  function BarId(): NBar -> Id { (b: NBar) => (b.symbol, b.interval, b.date, b.ts, b.close) }

  function RowId(): FeatureRow -> Id { (r: FeatureRow) => (r.symbol, r.interval, r.date, r.ts, r.close) }

  /** One row per bar, no more and no less. */
  lemma OneRowPerBar(p: Settings, bars: seq<NBar>)
    ensures multiset(Map(Build(p, bars), RowId())) == multiset(Map(bars, BarId()))
  {
    var g := Processed(bars);
    var raw := RawRows(p, g, bars, Unsorted(bars));
    var rows, table := Unattached(p, bars), Build(p, bars);
    hide RawRows, Build, RowOk, FlagsAt, Session, Twice, OutOfOrder, SortBy;
    MapPermutation(bars, InOrder(bars), BarId());
    MapPermutation(InOrder(bars), g, BarId());
    MapPermutation(raw, rows, RowId());
    forall j | 0 <= j < |g|
      ensures RowId()(raw[j]) == BarId()(g[j])
    {
      var s, n := RawRowOk(p, bars, j);
      RowIdOk(p, bars, raw[j], s, n);
    }
    assert Map(raw, RowId()) == Map(g, BarId());
    SameLength(p, bars);
    forall i | 0 <= i < |table|
      ensures RowId()(table[i]) == RowId()(rows[i])
    {
      BuildAttaches(p, bars, i);
    }
    assert Map(table, RowId()) == Map(rows, RowId());
  }

  lemma SameLength(p: Settings, bars: seq<NBar>)
    ensures |Build(p, bars)| == |Unattached(p, bars)|
  {
  }

  lemma RowIdOk(p: Settings, bars: seq<NBar>, r: FeatureRow, s: seq<NBar>, n: nat)
    requires RowOk(p, bars, r, s, n)
    ensures r.ts == s[n].ts && r.close == s[n].close
  {
    hide Session, PreviousDayIs, SameTimeAre, LevelsAt, VwapAt, RangesAt, VolumesAt, ChangesAt, TrendAt, QualityAt,
      RegularOpen, GapAt;
  }
}
