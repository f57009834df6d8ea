/** The benchmarks of a feature table, read off the table itself: whose return is compared with whose. */
module RelativeStrength {
  import opened Common
  import opened Sorting
  import opened FeatureRows

  // ----- quotes

  /** Rows of one moment: same interval, date and time. */
  ghost predicate Peers(a: FeatureRow, b: FeatureRow) {
    a.interval == b.interval && a.date == b.date && a.ts == b.ts
  }

  ghost predicate QuotedBy(table: seq<FeatureRow>, r: FeatureRow, symbol: string, k: int) {
    0 <= k < |table| && Peers(table[k], r) && table[k].symbol == symbol
  }

  /** The session return of a symbol at the moment of `r`: that of its last row, missing without any. */
  ghost predicate Quoted(table: seq<FeatureRow>, r: FeatureRow, symbol: string, v: Option<real>) {
    if v == None then forall k :: !QuotedBy(table, r, symbol, k)
    else exists k :: QuotedBy(table, r, symbol, k) && table[k].sessionReturn == v.value
                     && forall m :: QuotedBy(table, r, symbol, m) ==> m <= k
  }

  function BoardFor(table: seq<FeatureRow>, r: FeatureRow): Board {
    BoardOf(Filter(table, AtMoment(MomentOf(r))))
  }

  lemma BoardSnoc(table: seq<FeatureRow>, x: FeatureRow, r: FeatureRow)
    ensures BoardFor(table + [x], r)
         == if Peers(x, r) then Post(BoardFor(table, r), x.symbol, x.sessionReturn) else BoardFor(table, r)
  {
    FilterSnoc(table, x, AtMoment(MomentOf(r)));
    var kept := Filter(table, AtMoment(MomentOf(r)));
    assert (kept + [x])[..|kept|] == kept;
  }

  lemma QuoteGrows(table: seq<FeatureRow>, x: FeatureRow, r: FeatureRow, symbol: string, v: Option<real>)
    requires Quoted(table, r, symbol, v)
    ensures Quoted(table + [x], r, symbol, if Peers(x, r) && x.symbol == symbol then Some(x.sessionReturn) else v)
  {
    var n, grown := |table|, table + [x];
    hide Peers;
    forall k | k != n
      ensures QuotedBy(grown, r, symbol, k) <==> QuotedBy(table, r, symbol, k)
    {
    }
    if Peers(x, r) && x.symbol == symbol {
      assert QuotedBy(grown, r, symbol, n);
    } else {
      assert !QuotedBy(grown, r, symbol, n);
      if v != None {
        var k :| QuotedBy(table, r, symbol, k) && table[k].sessionReturn == v.value
                 && forall m :: QuotedBy(table, r, symbol, m) ==> m <= k;
        assert QuotedBy(grown, r, symbol, k) && grown[k].sessionReturn == v.value;
      }
    }
  }

  /** The board of a moment quotes every symbol as its last row does. */
  lemma {:induction false} BoardQuotes(table: seq<FeatureRow>, r: FeatureRow, symbol: string)
    ensures Quoted(table, r, symbol, Quote(BoardFor(table, r), symbol))
  {
    if table == [] {
      assert BoardFor(table, r) == Board([], map[]);
    } else {
      var n := |table| - 1;
      assert table == table[..n] + [table[n]];
      BoardQuotes(table[..n], r, symbol);
      BoardSnoc(table[..n], table[n], r);
      hide BoardFor, Quoted;
      QuoteGrows(table[..n], table[n], r, symbol, Quote(BoardFor(table[..n], r), symbol));
    }
  }

  /** A board lists its symbols once each. */
  lemma {:induction false} BoardNames(table: seq<FeatureRow>, r: FeatureRow)
    ensures var board := BoardFor(table, r);
            NoRepeats(board.symbols) && forall name :: name in board.symbols <==> name in board.values
  {
    if table == [] {
      assert BoardFor(table, r) == Board([], map[]);
    } else {
      var n := |table| - 1;
      assert table == table[..n] + [table[n]];
      BoardNames(table[..n], r);
      BoardSnoc(table[..n], table[n], r);
      hide BoardFor;
    }
  }

  // ----- medians

  /** The element in the middle of the sorted values, the upper one of two. */
  ghost predicate MiddleOf(values: seq<real>, v: Option<real>) {
    if values == [] then v == None
    else exists sorted :: Ascending(sorted, values) && v == Some(sorted[|sorted| / 2])
  }

  ghost predicate Ascending(sorted: seq<real>, values: seq<real>) {
    && |sorted| == |values| > 0 && multiset(sorted) == multiset(values)
    && forall i, j :: 0 <= i < j < |sorted| ==> sorted[i] <= sorted[j]
  }

  lemma RealOrder()
    ensures TotalOrder(RealLe())
  {
  }

  lemma SortedIsAscending(values: seq<real>)
    requires values != []
    ensures Ascending(SortBy(values, Same(), RealLe()), values)
  {
    RealOrder();
    SortSorted(values, Same(), RealLe());
    var sorted := SortBy(values, Same(), RealLe());
    hide SortBy;
    forall i, j | 0 <= i < j < |sorted|
      ensures sorted[i] <= sorted[j]
    {
      assert RealLe()(Same()(sorted[i]), Same()(sorted[j]));
    }
  }

  /** `names` are the symbols quoted at the moment of `r` other than its own, `values` their returns. */
  ghost predicate OthersAre(table: seq<FeatureRow>, r: FeatureRow, names: seq<string>, values: seq<real>) {
    && NoRepeats(names) && |names| == |values|
    && (forall name :: name in names <==> name != r.symbol && !Quoted(table, r, name, None))
    && forall j :: 0 <= j < |names| ==> Quoted(table, r, names[j], Some(values[j]))
  }

  ghost predicate MedianOfOthers(table: seq<FeatureRow>, r: FeatureRow, v: Option<real>) {
    exists names, values :: OthersAre(table, r, names, values) && MiddleOf(values, v)
  }

  lemma NoneOrSome(table: seq<FeatureRow>, r: FeatureRow, name: string, v: Option<real>)
    requires Quoted(table, r, name, v)
    ensures Quoted(table, r, name, None) <==> v == None
  {
  }

  lemma {:induction false} KeptOnce<T>(xs: seq<T>, keep: T -> bool)
    requires NoRepeats(xs)
    ensures NoRepeats(Filter(xs, keep))
  {
    if xs != [] {
      var rest := xs[1..];
      assert forall i :: 0 <= i < |rest| ==> rest[i] == xs[i + 1];
      KeptOnce(rest, keep);
      assert xs[0] !in rest;
    }
  }

  lemma OthersOnBoard(table: seq<FeatureRow>, r: FeatureRow)
    ensures var board := BoardFor(table, r);
            var names := Filter(board.symbols, Other(r.symbol));
            OthersAre(table, r, names, Map(names, ValueIn(board)))
  {
    var board := BoardFor(table, r);
    var names := Filter(board.symbols, Other(r.symbol));
    var values := Map(names, ValueIn(board));
    BoardNames(table, r);
    KeptOnce(board.symbols, Other(r.symbol));
    hide BoardFor, Filter, Quoted;
    forall name
      ensures name in names <==> name != r.symbol && !Quoted(table, r, name, None)
    {
      BoardQuotes(table, r, name);
      NoneOrSome(table, r, name, Quote(board, name));
    }
    forall j | 0 <= j < |names|
      ensures Quoted(table, r, names[j], Some(values[j]))
    {
      assert names[j] in names && names[j] in board.symbols;
      BoardQuotes(table, r, names[j]);
    }
  }

  lemma MedianIs(table: seq<FeatureRow>, r: FeatureRow)
    ensures MedianOfOthers(table, r, UpperMedian(BoardFor(table, r), r.symbol))
  {
    var board := BoardFor(table, r);
    var names := Filter(board.symbols, Other(r.symbol));
    var values := Map(names, ValueIn(board));
    OthersOnBoard(table, r);
    if values != [] {
      SortedIsAscending(values);
    }
    hide BoardFor, Filter, OthersAre, Ascending, Map, SortBy;
    var v := UpperMedian(board, r.symbol);
    assert values != [] ==> Ascending(SortBy(values, Same(), RealLe()), values);
    assert MiddleOf(values, v) by { MiddleIs(values); }
  }

  lemma MiddleIs(values: seq<real>)
    ensures var sorted := SortBy(values, Same(), RealLe());
            MiddleOf(values, if sorted == [] then None else Some(sorted[|sorted| / 2]))
  {
    if values != [] {
      SortedIsAscending(values);
    }
  }

  // ----- benchmarks

  /** An index is every symbol's benchmark but its own; its own is IWM if that is quoted, and else the
      median of the other symbols. */
  ghost predicate BenchmarkIs(table: seq<FeatureRow>, r: FeatureRow, index: string, v: Option<real>) {
    if r.symbol != index then Quoted(table, r, index, v)
    else exists iwm :: Quoted(table, r, "IWM", iwm)
                       && if iwm != None then v == iwm else MedianOfOthers(table, r, v)
  }

  lemma BenchmarkHolds(table: seq<FeatureRow>, r: FeatureRow, index: string)
    ensures BenchmarkIs(table, r, index, Benchmark(BoardFor(table, r), r.symbol, index))
  {
    hide BoardFor, Quoted, Quote, UpperMedian, MedianOfOthers;
    BoardQuotes(table, r, index);
    BoardQuotes(table, r, "IWM");
    MedianIs(table, r);
  }

  /** Own return less the benchmark's, for SPY and QQQ, and the mean of what is known of the two. */
  ghost predicate StrengthIs(table: seq<FeatureRow>, r: FeatureRow) {
    r.benchmarks.Benchmarks? &&
    var b := r.benchmarks;
    && BenchmarkIs(table, r, "SPY", b.spy) && BenchmarkIs(table, r, "QQQ", b.qqq)
    && b.vsSpy == (if b.spy == None then None else Some(r.sessionReturn - b.spy.value))
    && b.vsQqq == (if b.qqq == None then None else Some(r.sessionReturn - b.qqq.value))
    && (b.leadership == None <==> b.spy == None && b.qqq == None)
    && (b.spy != None && b.qqq != None ==> b.leadership == Some((b.vsSpy.value + b.vsQqq.value) / 2.0))
    && (b.spy != None && b.qqq == None ==> b.leadership == b.vsSpy)
    && (b.spy == None && b.qqq != None ==> b.leadership == b.vsQqq)
  }

  /** The same series and return. */
  ghost predicate SameQuote(r: FeatureRow, r': FeatureRow) {
    Peers(r, r') && r.symbol == r'.symbol && r.sessionReturn == r'.sessionReturn
  }

  ghost predicate SameQuotes(rows: seq<FeatureRow>, table: seq<FeatureRow>) {
    |rows| == |table| && forall k :: 0 <= k < |rows| ==> SameQuote(rows[k], table[k])
  }

  lemma QuotedSame(rows: seq<FeatureRow>, table: seq<FeatureRow>, r: FeatureRow, r': FeatureRow, symbol: string,
                   v: Option<real>)
    requires SameQuotes(rows, table) && SameQuote(r, r')
    ensures Quoted(rows, r, symbol, v) <==> Quoted(table, r', symbol, v)
  {
    forall k
      ensures QuotedBy(rows, r, symbol, k) <==> QuotedBy(table, r', symbol, k)
      ensures QuotedBy(rows, r, symbol, k) ==> rows[k].sessionReturn == table[k].sessionReturn
    {
    }
    hide QuotedBy;
    if v != None {
      if k :| QuotedBy(rows, r, symbol, k) && rows[k].sessionReturn == v.value
              && forall m :: QuotedBy(rows, r, symbol, m) ==> m <= k {
        assert QuotedBy(table, r', symbol, k) && table[k].sessionReturn == v.value;
      }
      if k :| QuotedBy(table, r', symbol, k) && table[k].sessionReturn == v.value
              && forall m :: QuotedBy(table, r', symbol, m) ==> m <= k {
        assert QuotedBy(rows, r, symbol, k) && rows[k].sessionReturn == v.value;
      }
    }
  }

  lemma BenchmarkSame(rows: seq<FeatureRow>, table: seq<FeatureRow>, r: FeatureRow, r': FeatureRow, index: string,
                      v: Option<real>)
    requires SameQuotes(rows, table) && SameQuote(r, r') && BenchmarkIs(rows, r, index, v)
    ensures BenchmarkIs(table, r', index, v)
  {
    hide Quoted, MiddleOf, SameQuotes;
    forall symbol, w
      ensures Quoted(rows, r, symbol, w) <==> Quoted(table, r', symbol, w)
    {
      QuotedSame(rows, table, r, r', symbol, w);
    }
    if r.symbol == index && MedianOfOthers(rows, r, v) {
      var names, values :| OthersAre(rows, r, names, values) && MiddleOf(values, v);
      assert OthersAre(table, r', names, values);
    }
  }

  lemma AttachedQuotes(rows: seq<FeatureRow>)
    ensures SameQuotes(rows, Attached(rows))
  {
    forall k | 0 <= k < |rows|
      ensures SameQuote(rows[k], Attached(rows)[k])
    {
      AttachKeepsQuote(rows[k], BoardFor(rows, rows[k]));
    }
  }

  lemma AttachKeepsQuote(r: FeatureRow, board: Board)
    ensures SameQuote(r, Attach(r, board))
  {
    hide Benchmark, MeanOfKnown, Minus;
  }

  /** What attaching computes, given the two benchmarks. */
  lemma AttachComputes(r: FeatureRow, board: Board)
    ensures var r', b := Attach(r, board), Attach(r, board).benchmarks;
            && r'.sessionReturn == r.sessionReturn
            && b.Benchmarks? && b.spy == Benchmark(board, r.symbol, "SPY") && b.qqq == Benchmark(board, r.symbol, "QQQ")
            && b.vsSpy == (if b.spy == None then None else Some(r.sessionReturn - b.spy.value))
            && b.vsQqq == (if b.qqq == None then None else Some(r.sessionReturn - b.qqq.value))
            && b.leadership == MeanOfKnown(b.vsSpy, b.vsQqq)
  {
    hide Benchmark, MeanOfKnown;
  }

  lemma AttachedAt(rows: seq<FeatureRow>, i: nat)
    requires i < |rows|
    ensures Attached(rows)[i] == Attach(rows[i], BoardFor(rows, rows[i]))
  {
    hide Attach, BoardOf, Filter;
  }

  lemma AttachedStrength(rows: seq<FeatureRow>, i: nat)
    requires i < |rows|
    ensures StrengthIs(Attached(rows), Attached(rows)[i])
  {
    hide Attach, BoardFor, Benchmark, Attached, BenchmarkIs, SameQuote, SameQuotes;
    var r := rows[i];
    AttachedAt(rows, i);
    AttachedQuotes(rows);
    AttachKeepsQuote(r, BoardFor(rows, r));
    AttachComputes(r, BoardFor(rows, r));
    BenchmarkHolds(rows, r, "SPY");
    BenchmarkHolds(rows, r, "QQQ");
    var r' := Attach(r, BoardFor(rows, r));
    BenchmarkSame(rows, Attached(rows), r, r', "SPY", r'.benchmarks.spy);
    BenchmarkSame(rows, Attached(rows), r, r', "QQQ", r'.benchmarks.qqq);
    StrengthFrom(Attached(rows), r');
  }

  lemma StrengthFrom(table: seq<FeatureRow>, r: FeatureRow)
    requires r.benchmarks.Benchmarks?
    requires BenchmarkIs(table, r, "SPY", r.benchmarks.spy) && BenchmarkIs(table, r, "QQQ", r.benchmarks.qqq)
    requires r.benchmarks.vsSpy == if r.benchmarks.spy == None then None
                                   else Some(r.sessionReturn - r.benchmarks.spy.value)
    requires r.benchmarks.vsQqq == if r.benchmarks.qqq == None then None
                                   else Some(r.sessionReturn - r.benchmarks.qqq.value)
    requires r.benchmarks.leadership == MeanOfKnown(r.benchmarks.vsSpy, r.benchmarks.vsQqq)
    ensures StrengthIs(table, r)
  {
    hide BenchmarkIs;
  }

  /** Every row of the table is compared with the right returns of its own moment, the right way round. */
  lemma TableStrength(p: Settings, bars: seq<NBar>, i: nat)
    requires i < |Build(p, bars)|
    ensures StrengthIs(Build(p, bars), Build(p, bars)[i])
  {
    var rows := SortBy(RawRows(p, Processed(bars), bars, Unsorted(bars)), RowKey(), KeyOrder());
    assert Build(p, bars) == Attached(rows);
    hide Build, Attached, StrengthIs, SortBy;
    AttachedStrength(rows, i);
  }
}
