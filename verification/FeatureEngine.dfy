/** The streaming feature engine: bounded windows, running sums and extremes, one pass per session,
    and the two dictionaries carried from session to session. */
module FeatureEngine {
  import opened Common
  import opened Sorting
  import opened FeatureRows

  // ----- one step of every accumulator

  /** Appending to a deque of bounded length. */
  function Push<T>(window: seq<T>, x: T, n: Positive): seq<T> {
    if |window| < n then window + [x] else (window + [x])[1..]
  }

  lemma PushKeepsLast<T>(xs: seq<T>, x: T, n: Positive)
    ensures Push(LastN(xs, n), x, n) == LastN(xs + [x], n)
  {
  }

  lemma LastOfWindow<T>(xs: seq<T>, n: Positive)
    requires xs != []
    ensures LastN(xs, n) != [] && Last(LastN(xs, n)) == Last(xs)
  {
  }

  lemma Prefix(bars: seq<NBar>, i: nat)
    requires i < |bars|
    ensures bars[..i + 1] == bars[..i] + [bars[i]]
    ensures bars[..i + 1][..i] == bars[..i] && Last(bars[..i + 1]) == bars[i]
  {
  }

  lemma WindowStep<T>(bars: seq<NBar>, i: nat, f: NBar -> T, n: Positive)
    requires i < |bars|
    ensures Push(LastN(Map(bars[..i], f), n), f(bars[i]), n) == LastN(Map(bars[..i + 1], f), n)
  {
    Prefix(bars, i);
    MapSnoc(bars[..i], bars[i], f);
    PushKeepsLast(Map(bars[..i], f), f(bars[i]), n);
  }

  lemma SumStep(bars: seq<NBar>, i: nat, f: NBar -> real)
    requires i < |bars|
    ensures Sum(Map(bars[..i + 1], f)) == Sum(Map(bars[..i], f)) + f(bars[i])
  {
    Prefix(bars, i);
    MapSnoc(bars[..i], bars[i], f);
    SumConcat(Map(bars[..i], f), [f(bars[i])]);
  }

  /** The previous close a loop finds at the end of its window. */
  function CloseBefore(bars: seq<NBar>, i: nat): Option<real>
    requires i < |bars|
  {
    if i == 0 then None else Some(bars[i - 1].close)
  }

  lemma CloseBeforeIsInWindow(bars: seq<NBar>, i: nat, n: Positive)
    requires i < |bars|
    ensures var w := LastN(Map(bars[..i], Close()), n);
            CloseBefore(bars, i) == if w == [] then None else Some(Last(w))
  {
    if i > 0 {
      LastOfWindow(Map(bars[..i], Close()), n);
    }
  }

  lemma TrueRangeStep(bars: seq<NBar>, i: nat, n: Positive)
    requires i < |bars|
    ensures Push(LastN(TrueRanges(bars[..i]), n), TrueRange(bars[i], CloseBefore(bars, i)), n)
         == LastN(TrueRanges(bars[..i + 1]), n)
  {
    hide TrueRange;
    assert TrueRanges(bars[..i + 1]) == TrueRanges(bars[..i]) + [TrueRange(bars[i], CloseBefore(bars, i))];
    PushKeepsLast(TrueRanges(bars[..i]), TrueRange(bars[i], CloseBefore(bars, i)), n);
  }

  lemma VolumeChangeStep(bars: seq<NBar>, i: nat)
    requires i < |bars|
    ensures LastN(VolumeChanges(bars[..i + 1]), 5)
         == if i == 0 then [] else Push(LastN(VolumeChanges(bars[..i]), 5), VolumeChange(bars[i - 1], bars[i]), 5)
  {
    hide VolumeChange, LastN, Push;
    if i == 0 {
      NoChangesYet(bars);
      assert VolumeChanges(bars[..1]) == [] == VolumeChanges(bars[..0]);
    } else {
      var x := VolumeChange(bars[i - 1], bars[i]);
      assert VolumeChanges(bars[..i + 1]) == VolumeChanges(bars[..i]) + [x];
      PushKeepsLast(VolumeChanges(bars[..i]), x, 5);
    }
  }

  function Raise(best: Option<real>, x: real): Option<real> {
    if best.None? then Some(x) else Some(Max(best.value, x))
  }

  function Sink(least: Option<real>, x: real): Option<real> {
    if least.None? then Some(x) else Some(Min(least.value, x))
  }

  lemma ExtremesSnoc(bars: seq<NBar>, b: NBar)
    ensures HighestOf(bars + [b]) == Raise(HighestOf(bars), b.high)
    ensures LowestOf(bars + [b]) == Sink(LowestOf(bars), b.low)
  {
    MapSnoc(bars, b, High());
    MapSnoc(bars, b, Low());
    assert (Map(bars, High()) + [b.high])[..|bars|] == Map(bars, High());
    assert (Map(bars, Low()) + [b.low])[..|bars|] == Map(bars, Low());
  }

  lemma ExtremesStep(bars: seq<NBar>, i: nat, q: NBar -> bool)
    requires i < |bars|
    ensures HighestOf(Filter(bars[..i + 1], q))
         == if q(bars[i]) then Raise(HighestOf(Filter(bars[..i], q)), bars[i].high) else HighestOf(Filter(bars[..i], q))
    ensures LowestOf(Filter(bars[..i + 1], q))
         == if q(bars[i]) then Sink(LowestOf(Filter(bars[..i], q)), bars[i].low) else LowestOf(Filter(bars[..i], q))
  {
    Prefix(bars, i);
    FilterSnoc(bars[..i], bars[i], q);
    ExtremesSnoc(Filter(bars[..i], q), bars[i]);
  }

  function FirstOpen(bars: seq<NBar>): Option<real> {
    if bars == [] then None else Some(bars[0].open)
  }

  lemma FirstOpenStep(bars: seq<NBar>, i: nat, q: NBar -> bool)
    requires i < |bars|
    ensures FirstOpen(Filter(bars[..i + 1], q))
         == if q(bars[i]) && FirstOpen(Filter(bars[..i], q)).None? then Some(bars[i].open)
            else FirstOpen(Filter(bars[..i], q))
  {
    Prefix(bars, i);
    FilterSnoc(bars[..i], bars[i], q);
  }

  function EmaOf(bars: seq<NBar>): Option<real> {
    if bars == [] then None else Some(Ema(bars))
  }

  lemma EmaStep(bars: seq<NBar>, i: nat)
    requires i < |bars|
    ensures Ema(bars[..i + 1]) == if i == 0 then bars[i].close else Smooth(Ema(bars[..i]), bars[i].close)
  {
    Prefix(bars, i);
  }

  /** The accumulators in the form the loop carries them from bar to bar. */
  datatype Carried = Carried(
    closes: seq<real>, highs: seq<real>, lows: seq<real>, volumes: seq<int>,
    trueRanges: seq<real>, volumeChanges: seq<real>, pv: real, traded: real,
    dayHigh: Option<real>, dayLow: Option<real>, premarketHigh: Option<real>, premarketLow: Option<real>,
    openingHigh: Option<real>, openingLow: Option<real>, rthOpen: Option<real>, ema: Option<real>)

  /** What the loop carries after the bars of `seen`, recomputed directly. */
  function Carry(p: Settings, seen: seq<NBar>): Carried {
    Carried(
      LastN(Map(seen, Close()), p.window), LastN(Map(seen, High()), p.window), LastN(Map(seen, Low()), p.window),
      LastN(Map(seen, Volume()), p.window), LastN(TrueRanges(seen), p.atrPeriod), LastN(VolumeChanges(seen), 5),
      Sum(Map(seen, TypicalTimesVolume())), Sum(Map(seen, Traded())), HighestOf(seen), LowestOf(seen),
      HighestOf(Filter(seen, InSession("premarket"))), LowestOf(Filter(seen, InSession("premarket"))),
      HighestOf(Filter(seen, InOpeningRange(p))), LowestOf(Filter(seen, InOpeningRange(p))),
      FirstOpen(Filter(seen, InSession("rth"))), EmaOf(seen))
  }

  /** What a row sees: the windows before its bar, everything else including it. */
  lemma ObservedFromCarried(p: Settings, bars: seq<NBar>, i: nat)
    requires i < |bars|
    ensures var before, after := Carry(p, bars[..i]), Carry(p, bars[..i + 1]);
            && after.dayHigh.Some? && after.dayLow.Some? && after.ema.Some?
            && Observe(p, bars[..i + 1])
            == Accumulated(before.closes, before.highs, before.lows, before.volumes,
                           after.trueRanges, after.volumeChanges,
                           after.pv, after.traded, after.dayHigh.value, after.dayLow.value,
                           after.premarketHigh, after.premarketLow, after.openingHigh, after.openingLow,
                           after.rthOpen, after.ema.value, before.ema, bars[0].close, i)
  {
    hide Highest, Lowest, Ema, Filter, TrueRanges, VolumeChanges, Sum;
    Prefix(bars, i);
  }

  function HistoryAt(history: map<(Series, int), seq<int>>, s: Series, minute: int): seq<int> {
    if (s, minute) in history then history[(s, minute)] else []
  }

  /** The rows one session contributes. */
  ghost predicate AreSessionRows(p: Settings, rows: seq<FeatureRow>, bars: seq<NBar>, previous: Option<DayStats>,
                                 history: map<(Series, int), seq<int>>, duplicates: set<BarKey>, unsorted: bool) {
    |rows| == |bars| && forall i :: 0 <= i < |bars| ==>
      rows[i] == Derive(p, Observe(p, bars[..i + 1]), bars[i], previous,
                        HistoryAt(history, SeriesOf(bars[i]), bars[i].minuteEt),
                        TimeKey()(bars[i]) in duplicates, unsorted)
  }

  /** Day, premarket and opening-range extremes and the session open, updated from the bar. */
  method AbsorbLevels(p: Settings, c: Carried, ghost bars: seq<NBar>, ghost i: nat, bar: NBar) returns (r: Carried)
    requires i < |bars| && bars[i] == bar && c == Carry(p, bars[..i])
    ensures var after := Carry(p, bars[..i + 1]);
            r == c.(dayHigh := after.dayHigh, dayLow := after.dayLow, premarketHigh := after.premarketHigh,
                    premarketLow := after.premarketLow, openingHigh := after.openingHigh,
                    openingLow := after.openingLow, rthOpen := after.rthOpen)
  {
    hide Carry, Filter, Raise, Sink, InSession, InOpeningRange, HighestOf, LowestOf, FirstOpen;
    CarryParts(p, bars[..i]);
    CarryParts(p, bars[..i + 1]);
    var dayHigh, dayLow := Raise(c.dayHigh, bar.high), Sink(c.dayLow, bar.low);
    Prefix(bars, i);
    ExtremesSnoc(bars[..i], bar);
    var premarketHigh, premarketLow := c.premarketHigh, c.premarketLow;
    if InSession("premarket")(bar) {
      premarketHigh, premarketLow := Raise(premarketHigh, bar.high), Sink(premarketLow, bar.low);
    }
    ExtremesStep(bars, i, InSession("premarket"));
    var openingHigh, openingLow := c.openingHigh, c.openingLow;
    if InOpeningRange(p)(bar) {
      openingHigh, openingLow := Raise(openingHigh, bar.high), Sink(openingLow, bar.low);
    }
    ExtremesStep(bars, i, InOpeningRange(p));
    var rthOpen := c.rthOpen;
    if InSession("rth")(bar) && rthOpen.None? {
      rthOpen := Some(bar.open);
    }
    FirstOpenStep(bars, i, InSession("rth"));
    r := c.(dayHigh := dayHigh, dayLow := dayLow, premarketHigh := premarketHigh, premarketLow := premarketLow,
            openingHigh := openingHigh, openingLow := openingLow, rthOpen := rthOpen);
  }

  /** Running sums and the exponential average, updated from the bar. */
  method AbsorbSums(p: Settings, c: Carried, ghost bars: seq<NBar>, ghost i: nat, bar: NBar)
    returns (pv: real, traded: real, ema: real)
    requires i < |bars| && bars[i] == bar && c == Carry(p, bars[..i])
    ensures var after := Carry(p, bars[..i + 1]); pv == after.pv && traded == after.traded && after.ema == Some(ema)
  {
    hide Carry, Ema, Sum, TypicalTimesVolume, Traded, Smooth;
    CarrySums(p, bars[..i]);
    CarrySums(p, bars[..i + 1]);
    pv, traded := c.pv + TypicalTimesVolume()(bar), c.traded + Traded()(bar);
    SumStep(bars, i, TypicalTimesVolume());
    SumStep(bars, i, Traded());
    ema := if c.ema.None? then bar.close else Smooth(c.ema.value, bar.close);
    EmaStep(bars, i);
  }

  lemma CarrySums(p: Settings, seen: seq<NBar>)
    ensures Carry(p, seen).pv == Sum(Map(seen, TypicalTimesVolume()))
           && Carry(p, seen).traded == Sum(Map(seen, Traded()))
    ensures Carry(p, seen).ema == EmaOf(seen)
  {
  }

  /** The windows of true ranges and volume changes, updated from the bar and the previous windows. */
  method AbsorbRanges(p: Settings, c: Carried, ghost bars: seq<NBar>, ghost i: nat, bar: NBar)
    returns (trueRanges: seq<real>, volumeChanges: seq<real>)
    requires i < |bars| && bars[i] == bar && c == Carry(p, bars[..i])
    ensures trueRanges == Carry(p, bars[..i + 1]).trueRanges && volumeChanges == Carry(p, bars[..i + 1]).volumeChanges
  {
    hide Carry, TrueRanges, VolumeChanges, VolumeChange, TrueRange, LastN, Push;
    CarryParts(p, bars[..i]);
    CarryParts(p, bars[..i + 1]);
    var previousClose := if c.closes == [] then None else Some(Last(c.closes));
    CloseBeforeIsInWindow(bars, i, p.window);
    trueRanges := Push(c.trueRanges, TrueRange(bar, previousClose), p.atrPeriod);
    TrueRangeStep(bars, i, p.atrPeriod);
    PriorVolumeIsInWindow(bars, i, p.window);
    volumeChanges := if c.volumes == [] then c.volumeChanges
      else Push(c.volumeChanges, (bar.volume - Last(c.volumes)) as real, 5);
    if i > 0 {
      ChangeIs(bars, i);
    }
    VolumeChangeStep(bars, i);
    NoChangesYet(bars);
  }

  lemma ChangeIs(bars: seq<NBar>, i: nat)
    requires 0 < i < |bars|
    ensures VolumeChange(bars[i - 1], bars[i]) == (bars[i].volume - bars[i - 1].volume) as real
  {
  }

  /** One bar of the loop: every accumulator updated from its old value and the bar alone. */
  method Absorb(p: Settings, c: Carried, ghost bars: seq<NBar>, ghost i: nat, bar: NBar) returns (r: Carried)
    requires i < |bars| && bars[i] == bar && c == Carry(p, bars[..i])
    ensures r == Carry(p, bars[..i + 1])
  {
    hide Carry, Filter, Sum, LastN, Push, HighestOf, LowestOf, FirstOpen, TrueRanges, VolumeChanges;
    var levels := AbsorbLevels(p, c, bars, i, bar);
    var pv, traded, ema := AbsorbSums(p, c, bars, i, bar);
    var trueRanges, volumeChanges := AbsorbRanges(p, c, bars, i, bar);
    CarryParts(p, bars[..i]);
    CarryParts(p, bars[..i + 1]);
    WindowStep(bars, i, Close(), p.window);
    WindowStep(bars, i, High(), p.window);
    WindowStep(bars, i, Low(), p.window);
    WindowStep(bars, i, Volume(), p.window);
    r := levels.(closes := Push(c.closes, bar.close, p.window), highs := Push(c.highs, bar.high, p.window),
                 lows := Push(c.lows, bar.low, p.window), volumes := Push(c.volumes, bar.volume, p.window),
                 trueRanges := trueRanges, volumeChanges := volumeChanges, pv := pv, traded := traded,
                 ema := Some(ema));
  }

  lemma CarryParts(p: Settings, seen: seq<NBar>)
    ensures Carry(p, seen) == Carried(
      LastN(Map(seen, Close()), p.window), LastN(Map(seen, High()), p.window), LastN(Map(seen, Low()), p.window),
      LastN(Map(seen, Volume()), p.window), LastN(TrueRanges(seen), p.atrPeriod), LastN(VolumeChanges(seen), 5),
      Sum(Map(seen, TypicalTimesVolume())), Sum(Map(seen, Traded())), HighestOf(seen), LowestOf(seen),
      HighestOf(Filter(seen, InSession("premarket"))), LowestOf(Filter(seen, InSession("premarket"))),
      HighestOf(Filter(seen, InOpeningRange(p))), LowestOf(Filter(seen, InOpeningRange(p))),
      FirstOpen(Filter(seen, InSession("rth"))), EmaOf(seen))
  {
  }

  lemma PriorVolumeIsInWindow(bars: seq<NBar>, i: nat, n: Positive)
    requires i < |bars|
    ensures var w := LastN(Map(bars[..i], Volume()), n);
            if i == 0 then w == [] else w != [] && Last(w) == bars[i - 1].volume
  {
    if i > 0 {
      LastOfWindow(Map(bars[..i], Volume()), n);
    }
  }

  lemma NoChangesYet(bars: seq<NBar>)
    ensures LastN(VolumeChanges(bars[..0]), 5) == []
  {
  }

  /** One session in a single pass. */
  method BuildSession(p: Settings, bars: seq<NBar>, previous: Option<DayStats>, history: map<(Series, int), seq<int>>,
                      duplicates: set<BarKey>, unsorted: bool)
    returns (rows: seq<FeatureRow>)
    ensures AreSessionRows(p, rows, bars, previous, history, duplicates, unsorted)
  {
    hide Carry, Derive, Observe;
    rows := [];
    var carried := Carried([], [], [], [], [], [], 0.0, 0.0, None, None, None, None, None, None, None, None);
    CarryOfNothing(p, bars);
    for i := 0 to |bars|
      invariant carried == Carry(p, bars[..i])
      invariant |rows| == i
      invariant forall k :: 0 <= k < i ==>
        rows[k] == Derive(p, Observe(p, bars[..k + 1]), bars[k], previous,
                          HistoryAt(history, SeriesOf(bars[k]), bars[k].minuteEt),
                          TimeKey()(bars[k]) in duplicates, unsorted)
    {
      var bar := bars[i];
      var after := Absorb(p, carried, bars, i, bar);
      ObservedFromCarried(p, bars, i);
      var seen := Accumulated(carried.closes, carried.highs, carried.lows, carried.volumes,
                              after.trueRanges, after.volumeChanges,
                              after.pv, after.traded, after.dayHigh.value, after.dayLow.value,
                              after.premarketHigh, after.premarketLow, after.openingHigh, after.openingLow,
                              after.rthOpen, after.ema.value, carried.ema, bars[0].close, i);
      var row := Derive(p, seen, bar, previous, HistoryAt(history, SeriesOf(bar), bar.minuteEt),
                        TimeKey()(bar) in duplicates, unsorted);
      rows := rows + [row];
      carried := after;
    }
  }

  lemma CarryOfNothing(p: Settings, bars: seq<NBar>)
    ensures Carry(p, bars[..0])
         == Carried([], [], [], [], [], [], 0.0, 0.0, None, None, None, None, None, None, None, None)
  {
    assert bars[..0] == [];
    assert TrueRanges([]) == [];
  }

  // ----- from session to session

  method DuplicateKeys(bars: seq<NBar>) returns (duplicates: set<BarKey>)
    ensures forall k :: k in duplicates <==> Duplicated(bars, k)
  {
    var counts: map<BarKey, nat> := map[];
    for i := 0 to |bars|
      invariant forall k :: (if k in counts then counts[k] else 0) == |Filter(bars[..i], Stamped(k))|
    {
      var own := TimeKey()(bars[i]);
      forall k
        ensures |Filter(bars[..i + 1], Stamped(k))| == |Filter(bars[..i], Stamped(k))| + if k == own then 1 else 0
      {
        Prefix(bars, i);
        FilterSnoc(bars[..i], bars[i], Stamped(k));
      }
      counts := counts[own := (if own in counts then counts[own] else 0) + 1];
    }
    assert bars[..|bars|] == bars;
    duplicates := set k | k in counts && counts[k] > 1;
  }

  function GroupAt(groups: map<BarKey, seq<NBar>>, k: BarKey): seq<NBar> {
    if k in groups then groups[k] else []
  }

  ghost predicate GoodKeys(bars: seq<NBar>, keys: seq<BarKey>) {
    && NoRepeats(keys)
    && (forall b :: b in bars ==> SessionKey()(b) in keys)
    && (forall k :: k in keys ==> Filter(bars, HasKey(SessionKey(), k)) != [])
  }

  function Itself(): BarKey -> BarKey { k => k }

  lemma GoodKeysStep(bars: seq<NBar>, i: nat, keys: seq<BarKey>)
    requires i < |bars| && GoodKeys(bars[..i], keys)
    ensures var own := SessionKey()(bars[i]);
            GoodKeys(bars[..i + 1], if own in keys then keys else keys + [own])
  {
    Prefix(bars, i);
    var own := SessionKey()(bars[i]);
    forall k
      ensures Filter(bars[..i + 1], HasKey(SessionKey(), k))
           == Filter(bars[..i], HasKey(SessionKey(), k)) + if k == own then [bars[i]] else []
    {
      FilterSnoc(bars[..i], bars[i], HasKey(SessionKey(), k));
    }
    hide Filter;
    assert forall b :: b in bars[..i + 1] ==> b in bars[..i] || b == bars[i];
  }

  lemma GroupStep(bars: seq<NBar>, i: nat, k: BarKey)
    requires i < |bars|
    ensures Filter(bars[..i + 1], HasKey(SessionKey(), k))
         == Filter(bars[..i], HasKey(SessionKey(), k)) + if k == SessionKey()(bars[i]) then [bars[i]] else []
  {
    Prefix(bars, i);
    FilterSnoc(bars[..i], bars[i], HasKey(SessionKey(), k));
  }

  lemma NoGroups(bars: seq<NBar>, k: BarKey)
    ensures Filter(bars[..0], HasKey(SessionKey(), k)) == []
    ensures GoodKeys(bars[..0], [])
  {
  }

  /** Groups bars by session in order of first appearance. */
  method CollectSessions(bars: seq<NBar>) returns (keys: seq<BarKey>, groups: map<BarKey, seq<NBar>>)
    ensures GoodKeys(bars, keys)
    ensures forall k :: GroupAt(groups, k) == Filter(bars, HasKey(SessionKey(), k))
  {
    hide Filter, GoodKeys, SessionKey;
    keys, groups := [], map[];
    NoGroups(bars, BarKey("", "", 0));
    forall k
      ensures GroupAt(groups, k) == Filter(bars[..0], HasKey(SessionKey(), k))
    {
      NoGroups(bars, k);
    }
    for i := 0 to |bars|
      invariant GoodKeys(bars[..i], keys)
      invariant forall k :: GroupAt(groups, k) == Filter(bars[..i], HasKey(SessionKey(), k))
      invariant forall k :: k in keys <==> k in groups
    {
      var own := SessionKey()(bars[i]);
      ghost var before := groups;
      GoodKeysStep(bars, i, keys);
      if own !in groups {
        keys := keys + [own];
      }
      groups := groups[own := GroupAt(groups, own) + [bars[i]]];
      forall k
        ensures GroupAt(groups, k) == Filter(bars[..i + 1], HasKey(SessionKey(), k))
      {
        GroupStep(bars, i, k);
        assert GroupAt(before, k) == Filter(bars[..i], HasKey(SessionKey(), k));
      }
    }
    assert bars[..|bars|] == bars;
  }

  function StatsAt(stats: map<Series, DayStats>, s: Series): Option<DayStats> {
    if s in stats then Some(stats[s]) else None
  }

  /** The two dictionaries after the sessions of `done`. */
  ghost predicate StatsTrack(stats: map<Series, DayStats>, done: seq<NBar>) {
    forall s :: StatsAt(stats, s) == PreviousDay(Filter(done, InSeries(s)))
  }

  ghost predicate VolumesTrack(p: Settings, history: map<(Series, int), seq<int>>, done: seq<NBar>) {
    forall s, m :: HistoryAt(history, s, m) == SameTimeVolumes(p, Filter(done, InSeries(s)), m)
  }

  /** A session: one series, one date, at least one bar. */
  ghost predicate IsSession(session: seq<NBar>, s: Series, date: int) {
    session != [] && forall b :: b in session ==> SeriesOf(b) == s && b.date == date
  }

  lemma SeriesGrows(done: seq<NBar>, session: seq<NBar>, s: Series, date: int, other: Series)
    requires IsSession(session, s, date)
    ensures Filter(done + session, InSeries(other))
         == if other == s then Filter(done, InSeries(s)) + session else Filter(done, InSeries(other))
  {
    FilterConcat(done, session, InSeries(other));
    if other == s {
      FilterAll(session, InSeries(other));
    } else {
      FilterNone(session, InSeries(other));
    }
  }

  /** A session's bars split cleanly from the series' earlier bars. */
  lemma DatesSplit(earlier: seq<NBar>, part: seq<NBar>, date: int)
    requires forall b :: b in earlier ==> b.date != date
    requires forall b :: b in part ==> b.date == date
    ensures Filter(earlier + part, OffDate(date)) == earlier
    ensures Filter(earlier + part, OnDate(date)) == part
  {
    FilterConcat(earlier, part, OffDate(date));
    FilterConcat(earlier, part, OnDate(date));
    FilterAll(earlier, OffDate(date));
    FilterNone(part, OffDate(date));
    FilterNone(earlier, OnDate(date));
    FilterAll(part, OnDate(date));
  }

  lemma StatsGrow(stats: map<Series, DayStats>, done: seq<NBar>, session: seq<NBar>, s: Series, date: int)
    requires StatsTrack(stats, done) && IsSession(session, s, date)
    requires forall b :: b in Filter(done, InSeries(s)) ==> b.date != date
    ensures StatsTrack(stats[s := StatsOf(session)], done + session)
  {
    hide Filter, StatsOf;
    var earlier := Filter(done, InSeries(s));
    DatesSplit(earlier, session, date);
    assert Last(earlier + session) == Last(session) && Last(session) in session;
    forall other
      ensures StatsAt(stats[s := StatsOf(session)], other) == PreviousDay(Filter(done + session, InSeries(other)))
    {
      SeriesGrows(done, session, s, date, other);
      assert StatsAt(stats, other) == PreviousDay(Filter(done, InSeries(other)));
    }
  }

  /** A row of a session is the specification's row for the series history up to its bar. */
  lemma RowIsSpecified(p: Settings, earlier: seq<NBar>, session: seq<NBar>, s: Series, date: int, m: nat,
                       duplicate: bool, unsorted: bool)
    requires m < |session| && IsSession(session, s, date)
    requires forall b :: b in earlier ==> b.date != date
    ensures RowOf(p, earlier + session[..m + 1], duplicate, unsorted)
         == Derive(p, Observe(p, session[..m + 1]), session[m], PreviousDay(earlier),
                   SameTimeVolumes(p, earlier, session[m].minuteEt), duplicate, unsorted)
  {
    hide Filter, Derive, Observe, PreviousDay, SameTimeVolumes;
    var part := session[..m + 1];
    assert forall b :: b in part ==> b in session;
    DatesSplit(earlier, part, date);
    assert Last(earlier + part) == session[m] && session[m] in session;
  }

  /** The rows of a session are the specification's rows for its bars. */
  lemma {:induction false} SessionIsSpecified(p: Settings, done: seq<NBar>, session: seq<NBar>, s: Series, date: int,
                           n: nat, all: seq<NBar>, unsorted: bool, rows: seq<FeatureRow>,
                           stats: map<Series, DayStats>, history: map<(Series, int), seq<int>>, duplicates: set<BarKey>)
    requires n <= |session| && IsSession(session, s, date)
    requires forall b :: b in Filter(done, InSeries(s)) ==> b.date != date
    requires StatsTrack(stats, done) && VolumesTrack(p, history, done)
    requires forall k :: k in duplicates <==> Duplicated(all, k)
    requires AreSessionRows(p, rows, session, StatsAt(stats, s), history, duplicates, unsorted)
    ensures RawRows(p, done + session[..n], all, unsorted) == RawRows(p, done, all, unsorted) + rows[..n]
  {
    hide Filter, Derive, Observe, Duplicated, PreviousDay, SameTimeVolumes, RawRows, RowOf;
    if n == 0 {
      assert done + session[..0] == done;
    } else {
      var m := n - 1;
      SessionIsSpecified(p, done, session, s, date, m, all, unsorted, rows, stats, history, duplicates);
      var earlier := Filter(done, InSeries(s));
      var bar := session[m];
      assert bar in session;
      RawRowsSnoc(p, done + session[..m], bar, all, unsorted);
      assert (done + session[..m]) + [bar] == done + session[..n];
      PartIsSession(session, s, date, n);
      SeriesGrows(done, session[..n], s, date, s);
      RowIsSpecified(p, earlier, session, s, date, m, Duplicated(all, TimeKey()(bar)), unsorted);
      assert StatsAt(stats, s) == PreviousDay(earlier);
      assert HistoryAt(history, s, bar.minuteEt) == SameTimeVolumes(p, earlier, bar.minuteEt);
      assert rows[..n] == rows[..m] + [rows[m]];
    }
  }

  lemma PartIsSession(session: seq<NBar>, s: Series, date: int, n: nat)
    requires IsSession(session, s, date) && 0 < n <= |session|
    ensures IsSession(session[..n], s, date)
  {
    assert forall b :: b in session[..n] ==> b in session;
  }

  /** After a session, its volumes join the per-minute windows. */
  method RecordVolumes(p: Settings, session: seq<NBar>, history: map<(Series, int), seq<int>>, ghost done: seq<NBar>,
                       s: Series, ghost date: int)
    returns (grown: map<(Series, int), seq<int>>)
    requires VolumesTrack(p, history, done) && IsSession(session, s, date)
    ensures VolumesTrack(p, grown, done + session)
  {
    hide VolumesTrack;
    grown := history;
    assert done + session[..0] == done;
    for i := 0 to |session|
      invariant VolumesTrack(p, grown, done + session[..i])
    {
      var bar := session[i];
      assert bar in session;
      VolumeJoins(p, grown, done + session[..i], bar);
      assert done + session[..i + 1] == (done + session[..i]) + [bar];
      grown := grown[(s, bar.minuteEt) := Push(HistoryAt(grown, s, bar.minuteEt), bar.volume, p.lookback)];
    }
    assert session[..|session|] == session;
  }

  lemma VolumeJoins(p: Settings, history: map<(Series, int), seq<int>>, done: seq<NBar>, bar: NBar)
    requires VolumesTrack(p, history, done)
    ensures var key := (SeriesOf(bar), bar.minuteEt);
            VolumesTrack(p, history[key := Push(HistoryAt(history, key.0, key.1), bar.volume, p.lookback)],
                         done + [bar])
  {
    var key := (SeriesOf(bar), bar.minuteEt);
    var grown := history[key := Push(HistoryAt(history, key.0, key.1), bar.volume, p.lookback)];
    forall s, m
      ensures HistoryAt(grown, s, m) == SameTimeVolumes(p, Filter(done + [bar], InSeries(s)), m)
    {
      assert HistoryAt(history, s, m) == SameTimeVolumes(p, Filter(done, InSeries(s)), m);
      var earlier := Filter(done, InSeries(s));
      FilterSnoc(done, bar, InSeries(s));
      if SeriesOf(bar) == s {
        FilterSnoc(earlier, bar, AtMinute(m));
        var before := Filter(earlier, AtMinute(m));
        MapSnoc(before, bar, Volume());
        PushKeepsLast(Map(before, Volume()), bar.volume, p.lookback);
      }
    }
  }

  lemma KeysSorted(bars: seq<NBar>, found: seq<BarKey>, keys: seq<BarKey>)
    requires GoodKeys(bars, found) && keys == SortBy(found, Itself(), KeyOrder())
    ensures GoodKeys(bars, keys)
    ensures forall i, j :: 0 <= i < j < |keys| ==> KeyOrder()(keys[i], keys[j])
  {
    KeyOrderTotal();
    SortSorted(found, Itself(), KeyOrder());
    SameMembers(found, keys);
    DistinctPermutation(found, keys, Itself());
    forall i, j | 0 <= i < j < |keys|
      ensures KeyOrder()(keys[i], keys[j]) && keys[i] != keys[j]
    {
      assert Itself()(keys[i]) != Itself()(keys[j]);
      assert KeyOrder()(Itself()(keys[i]), Itself()(keys[j]));
    }
  }

  /** The bars of one key among sorted bars form a session. */
  lemma GroupIsSession(bars: seq<NBar>, keys: seq<BarKey>, i: nat)
    requires GoodKeys(bars, keys) && i < |keys|
    ensures IsSession(Filter(bars, HasKey(SessionKey(), keys[i])), (keys[i].symbol, keys[i].interval), keys[i].at)
    ensures forall b :: b in Filter(Cat(bars, keys[..i], SessionKey()),
                                    InSeries((keys[i].symbol, keys[i].interval))) ==>
              b.date != keys[i].at
  {
    CatMembers(bars, keys[..i], SessionKey());
    var done := Cat(bars, keys[..i], SessionKey());
    forall b | b in Filter(done, InSeries((keys[i].symbol, keys[i].interval)))
      ensures b.date != keys[i].at
    {
      assert b in done && SessionKey()(b) in keys[..i];
    }
  }

  /** All sessions in order, with the dictionaries carried along. */
  method WalkSessions(p: Settings, bars: seq<NBar>, keys: seq<BarKey>, groups: map<BarKey, seq<NBar>>,
                      duplicates: set<BarKey>, unsorted: bool, ghost all: seq<NBar>)
    returns (output: seq<FeatureRow>)
    requires GoodKeys(bars, keys)
    requires forall k :: GroupAt(groups, k) == Filter(bars, HasKey(SessionKey(), k))
    requires forall k :: k in duplicates <==> Duplicated(all, k)
    ensures output == RawRows(p, Cat(bars, keys, SessionKey()), all, unsorted)
  {
    hide Filter, GoodKeys, RawRows, StatsOf, StatsTrack, VolumesTrack, Duplicated, Cat;
    output := [];
    var stats: map<Series, DayStats> := map[];
    var history: map<(Series, int), seq<int>> := map[];
    NothingDone(p, bars, keys, all, unsorted);
    for i := 0 to |keys|
      invariant output == RawRows(p, Cat(bars, keys[..i], SessionKey()), all, unsorted)
      invariant StatsTrack(stats, Cat(bars, keys[..i], SessionKey()))
      invariant VolumesTrack(p, history, Cat(bars, keys[..i], SessionKey()))
    {
      var s, date := (keys[i].symbol, keys[i].interval), keys[i].at;
      var session := GroupAt(groups, keys[i]);
      ghost var done := Cat(bars, keys[..i], SessionKey());
      GroupIsSession(bars, keys, i);
      CatStep(bars, keys, i);
      var rows := BuildSession(p, session, StatsAt(stats, s), history, duplicates, unsorted);
      SessionIsSpecified(p, done, session, s, date, |session|, all, unsorted, rows, stats, history, duplicates);
      assert session[..|session|] == session && rows[..|session|] == rows;
      output := output + rows;
      StatsGrow(stats, done, session, s, date);
      stats := stats[s := StatsOf(session)];
      history := RecordVolumes(p, session, history, done, s, date);
    }
    assert keys[..|keys|] == keys;
  }

  lemma CatStep(bars: seq<NBar>, keys: seq<BarKey>, i: nat)
    requires i < |keys|
    ensures Cat(bars, keys[..i + 1], SessionKey())
         == Cat(bars, keys[..i], SessionKey()) + Filter(bars, HasKey(SessionKey(), keys[i]))
  {
    assert keys[..i + 1][..i] == keys[..i] && Last(keys[..i + 1]) == keys[i];
  }

  lemma NothingDone(p: Settings, bars: seq<NBar>, keys: seq<BarKey>, all: seq<NBar>, unsorted: bool)
    ensures Cat(bars, keys[..0], SessionKey()) == []
    ensures RawRows(p, [], all, unsorted) == [] && StatsTrack(map[], []) && VolumesTrack(p, map[], [])
  {
  }

  // ----- relative strength, in place

  ghost predicate BoardsOf(byMoment: map<Moment, Board>, rows: seq<FeatureRow>) {
    forall m :: BoardAt(byMoment, m) == BoardOf(Filter(rows, AtMoment(m)))
  }

  /** First pass: the returns known at each moment. */
  method CollectReturns(rows: seq<FeatureRow>) returns (byMoment: map<Moment, Board>)
    ensures BoardsOf(byMoment, rows)
  {
    hide BoardsOf, MomentOf, Post;
    byMoment := map[];
    NoBoards(rows);
    for i := 0 to |rows|
      invariant BoardsOf(byMoment, rows[..i])
    {
      var r := rows[i];
      BoardsGrow(byMoment, rows, i);
      byMoment := byMoment[MomentOf(r) := Post(BoardAt(byMoment, MomentOf(r)), r.symbol, r.sessionReturn)];
    }
    assert rows[..|rows|] == rows;
  }

  lemma BoardsGrow(byMoment: map<Moment, Board>, rows: seq<FeatureRow>, i: nat)
    requires i < |rows| && BoardsOf(byMoment, rows[..i])
    ensures var r := rows[i];
            BoardsOf(byMoment[MomentOf(r) := Post(BoardAt(byMoment, MomentOf(r)), r.symbol, r.sessionReturn)],
                     rows[..i + 1])
  {
    hide Filter, BoardOf, Post, MomentOf;
    var r := rows[i];
    var grown := byMoment[MomentOf(r) := Post(BoardAt(byMoment, MomentOf(r)), r.symbol, r.sessionReturn)];
    forall m
      ensures BoardAt(grown, m) == BoardOf(Filter(rows[..i + 1], AtMoment(m)))
    {
      BoardStep(rows, i, m);
      assert BoardAt(byMoment, m) == BoardOf(Filter(rows[..i], AtMoment(m)));
    }
  }

  /** The two passes over the rows: collect returns by moment, then rewrite every row. */
  method AttachRelativeStrength(rows: seq<FeatureRow>) returns (attached: seq<FeatureRow>)
    ensures attached == Attached(rows)
  {
    hide Attach, Filter, BoardOf, MomentOf;
    var byMoment := CollectReturns(rows);
    attached := [];
    for i := 0 to |rows|
      invariant attached == Map(rows[..i], AttachIn(rows))
    {
      assert rows[..i + 1] == rows[..i] + [rows[i]];
      MapSnoc(rows[..i], rows[i], AttachIn(rows));
      attached := attached + [Attach(rows[i], BoardAt(byMoment, MomentOf(rows[i])))];
    }
    assert rows[..|rows|] == rows;
  }

  function BoardAt(byMoment: map<Moment, Board>, m: Moment): Board {
    if m in byMoment then byMoment[m] else Board([], map[])
  }

  lemma NoBoards(rows: seq<FeatureRow>)
    ensures BoardsOf(map[], rows[..0])
  {
  }

  lemma BoardStep(rows: seq<FeatureRow>, i: nat, m: Moment)
    requires i < |rows|
    ensures var before, after := BoardOf(Filter(rows[..i], AtMoment(m))), BoardOf(Filter(rows[..i + 1], AtMoment(m)));
            after == if MomentOf(rows[i]) == m then Post(before, rows[i].symbol, rows[i].sessionReturn) else before
  {
    assert rows[..i + 1] == rows[..i] + [rows[i]];
    FilterSnoc(rows[..i], rows[i], AtMoment(m));
    var kept := Filter(rows[..i], AtMoment(m));
    assert (kept + [rows[i]])[..|kept|] == kept;
  }

  /** The engine: sort, detect duplicates, group, walk the sessions, sort the rows, attach. */
  method BuildFeatures(p: Settings, bars: seq<NBar>) returns (output: seq<FeatureRow>)
    ensures output == Build(p, bars)
  {
    hide RawRows, Attached, Filter, GoodKeys, Cat;
    var sorted := InOrder(bars);
    var unsorted := Map(bars, TimeKey()) != Map(sorted, TimeKey());
    var duplicates := DuplicateKeys(sorted);
    SameDuplicates(bars);
    var found, groups := CollectSessions(sorted);
    var keys := SortBy(found, Itself(), KeyOrder());
    KeysSorted(sorted, found, keys);
    var raw := WalkSessions(p, sorted, keys, groups, duplicates, unsorted, bars);
    SessionsAreProcessed(bars, keys);
    var ordered := SortBy(raw, RowKey(), KeyOrder());
    output := AttachRelativeStrength(ordered);
  }

  lemma SameDuplicates(bars: seq<NBar>)
    ensures forall k :: Duplicated(InOrder(bars), k) <==> Duplicated(bars, k)
  {
    forall k
      ensures Duplicated(InOrder(bars), k) <==> Duplicated(bars, k)
    {
      FilterPermutation(InOrder(bars), bars, Stamped(k));
      assert |multiset(Filter(InOrder(bars), Stamped(k)))| == |multiset(Filter(bars, Stamped(k)))|;
    }
  }

  lemma SessionsAreProcessed(bars: seq<NBar>, keys: seq<BarKey>)
    requires GoodKeys(InOrder(bars), keys)
    requires forall i, j :: 0 <= i < j < |keys| ==> KeyOrder()(keys[i], keys[j])
    ensures Cat(InOrder(bars), keys, SessionKey()) == Processed(bars)
  {
    KeyOrderTotal();
    CatIsSort(InOrder(bars), keys, SessionKey(), KeyOrder());
  }
}
