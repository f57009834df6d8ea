/** The label backtest: at most one open trade per symbol, taken greedily in time order. */
module Labels {
  import opened Common
  import opened Sorting

  datatype Label = Label(symbol: string, ts: Time, long: bool, entry: real, stop: real, realizedR: real,
                         timeToTarget: Option<int>, timeToStop: Option<int>, exitTs: Option<Time>)

  datatype LabelTrade = LabelTrade(source: Label, exitTs: Time, exitPrice: real, duration: int)

  function LabelTime(): Label -> Time {
    (l: Label) => l.ts
  }

  predicate Usable(n: Option<int>) {
    n.Some? && n.value != 0
  }

  /** Time to target, else time to stop, else the maximum hold; a zero counts as missing. */
  function Duration(l: Label, maxHoldBars: int): int {
    if Usable(l.timeToTarget) then l.timeToTarget.value
    else if Usable(l.timeToStop) then l.timeToStop.value
    else maxHoldBars
  }

  function ExitTime(l: Label, maxHoldBars: int): Time {
    if l.exitTs.Some? then l.exitTs.value else l.ts + Duration(l, maxHoldBars) * MINUTE
  }

  function ExitPrice(l: Label): real {
    if l.long then l.entry + l.realizedR * (l.entry - l.stop) else l.entry - l.realizedR * (l.stop - l.entry)
  }

  function TradeOf(l: Label, maxHoldBars: int): LabelTrade {
    LabelTrade(l, ExitTime(l, maxHoldBars), ExitPrice(l), Duration(l, maxHoldBars))
  }

  /** Some earlier trade on the symbol has not exited before `t`. */
  predicate Busy(trades: seq<LabelTrade>, symbol: string, t: Time) {
    exists k :: 0 <= k < |trades| && trades[k].source.symbol == symbol && t <= trades[k].exitTs
  }

  /** The greedy rule over all earlier trades. */
  function Greedy(ls: seq<Label>, onePerSymbol: bool, maxHoldBars: int): seq<LabelTrade> {
    if ls == [] then []
    else
      var before := Greedy(ls[..|ls| - 1], onePerSymbol, maxHoldBars);
      if onePerSymbol && Busy(before, Last(ls).symbol, Last(ls).ts) then before
      else before + [TradeOf(Last(ls), maxHoldBars)]
  }

  /** What the engine's map remembers: the exit of the symbol's last trade, and that every trade
      before the last one is over by the time the last one starts. */
  ghost predicate Remembers(openUntil: map<string, Time>, trades: seq<LabelTrade>, now: Time) {
    forall s, t :: now <= t ==> ((s in openUntil && t <= openUntil[s]) <==> Busy(trades, s, t))
  }

  lemma BusySnoc(trades: seq<LabelTrade>, x: LabelTrade, s: string, t: Time)
    ensures Busy(trades + [x], s, t) <==> Busy(trades, s, t) || (x.source.symbol == s && t <= x.exitTs)
  {
    if Busy(trades, s, t) {
      var k :| 0 <= k < |trades| && trades[k].source.symbol == s && t <= trades[k].exitTs;
      assert (trades + [x])[k] == trades[k];
    }
    if x.source.symbol == s && t <= x.exitTs {
      assert (trades + [x])[|trades|] == x;
    }
  }

  /** Overwriting is harmless whatever the new exit is: the old trades are over by the new signal,
      and no later label comes before that signal. */
  lemma OverwriteIsHarmless(openUntil: map<string, Time>, trades: seq<LabelTrade>, x: LabelTrade)
    requires Remembers(openUntil, trades, x.source.ts) && !Busy(trades, x.source.symbol, x.source.ts)
    ensures Remembers(openUntil[x.source.symbol := x.exitTs], trades + [x], x.source.ts)
  {
    forall s, t | x.source.ts <= t
      ensures (s in openUntil[x.source.symbol := x.exitTs] && t <= openUntil[x.source.symbol := x.exitTs][s])
           <==> Busy(trades + [x], s, t)
    {
      BusySnoc(trades, x, s, t);
      assert Busy(trades, x.source.symbol, t) ==> Busy(trades, x.source.symbol, x.source.ts);
    }
  }

  method SimulateLabels(labels: seq<Label>, onePerSymbol: bool, maxHoldBars: int) returns (trades: seq<LabelTrade>)
    ensures trades == Greedy(SortBy(labels, LabelTime(), IntLe()), onePerSymbol, maxHoldBars)
  {
    hide Busy, TradeOf, Remembers, Greedy, SortBy;
    var ls := SortBy(labels, LabelTime(), IntLe());
    LabelsInOrder(labels, ls);
    NothingTraded(ls, onePerSymbol, maxHoldBars);
    trades := [];
    var openUntil: map<string, Time> := map[];
    ghost var now := if ls == [] then 0 else ls[0].ts;
    for i := 0 to |ls|
      invariant trades == Greedy(ls[..i], onePerSymbol, maxHoldBars)
      invariant onePerSymbol ==> Remembers(openUntil, trades, now)
      invariant i < |ls| ==> now <= ls[i].ts
    {
      var l := ls[i];
      var blocked := onePerSymbol && l.symbol in openUntil && l.ts <= openUntil[l.symbol];
      GreedyStep(ls, i, onePerSymbol, maxHoldBars);
      if onePerSymbol {
        AskMap(openUntil, trades, now, l);
      }
      now := l.ts;
      if blocked {
        continue;
      }
      var trade := TradeOf(l, maxHoldBars);
      assert trade.source == l by { TradeKeepsLabel(l, maxHoldBars); }
      if onePerSymbol {
        OverwriteIsHarmless(openUntil, trades, trade);
      }
      trades := trades + [trade];
      openUntil := openUntil[l.symbol := trade.exitTs];
    }
    assert ls[..|ls|] == ls;
  }

  lemma NothingTraded(ls: seq<Label>, onePerSymbol: bool, maxHoldBars: int)
    ensures Greedy(ls[..0], onePerSymbol, maxHoldBars) == []
    ensures forall now :: Remembers(map[], [], now)
  {
  }

  lemma TradeKeepsLabel(l: Label, maxHoldBars: int)
    ensures TradeOf(l, maxHoldBars).source == l
  {
  }

  lemma GreedyStep(ls: seq<Label>, n: nat, onePerSymbol: bool, maxHoldBars: int)
    requires n < |ls|
    ensures var before := Greedy(ls[..n], onePerSymbol, maxHoldBars);
            var blocked := onePerSymbol && Busy(before, ls[n].symbol, ls[n].ts);
            Greedy(ls[..n + 1], onePerSymbol, maxHoldBars)
              == if blocked then before else before + [TradeOf(ls[n], maxHoldBars)]
  {
    hide Busy, TradeOf;
    assert ls[..n + 1][..n] == ls[..n] && Last(ls[..n + 1]) == ls[n];
  }

  /** The map answers for the whole history, now and for every later label. */
  lemma AskMap(openUntil: map<string, Time>, trades: seq<LabelTrade>, now: Time, l: Label)
    requires Remembers(openUntil, trades, now) && now <= l.ts
    ensures l.symbol in openUntil && l.ts <= openUntil[l.symbol] <==> Busy(trades, l.symbol, l.ts)
    ensures Remembers(openUntil, trades, l.ts)
  {
  }

  lemma LabelsInOrder(labels: seq<Label>, ls: seq<Label>)
    requires ls == SortBy(labels, LabelTime(), IntLe())
    ensures forall i, j :: 0 <= i < j < |ls| ==> ls[i].ts <= ls[j].ts
  {
    IntOrder();
    SortSorted(labels, LabelTime(), IntLe());
    forall i, j | 0 <= i < j < |ls|
      ensures ls[i].ts <= ls[j].ts
    {
      assert IntLe()(LabelTime()(ls[i]), LabelTime()(ls[j]));
    }
  }

  /** Two trades on one symbol never overlap: the earlier is over before the later label. */
  ghost predicate Apart(trades: seq<LabelTrade>) {
    forall i, j :: 0 <= i < j < |trades| && trades[i].source.symbol == trades[j].source.symbol ==>
      trades[i].exitTs < trades[j].source.ts
  }

  /** Every label became a trade or fell inside one. */
  ghost predicate Accounted(ls: seq<Label>, trades: seq<LabelTrade>, maxHoldBars: int) {
    forall l :: l in ls ==> TradeOf(l, maxHoldBars) in trades || Busy(trades, l.symbol, l.ts)
  }

  /** Every trade is the trade of a label. */
  ghost predicate Labelled(ls: seq<Label>, trades: seq<LabelTrade>, maxHoldBars: int) {
    forall k :: 0 <= k < |trades| ==> trades[k].source in ls && trades[k] == TradeOf(trades[k].source, maxHoldBars)
  }

  lemma ApartSnoc(trades: seq<LabelTrade>, x: LabelTrade)
    requires Apart(trades) && !Busy(trades, x.source.symbol, x.source.ts)
    ensures Apart(trades + [x])
  {
  }

  lemma AccountedSnoc(ls: seq<Label>, l: Label, trades: seq<LabelTrade>, maxHoldBars: int)
    requires Accounted(ls, trades, maxHoldBars)
    ensures Accounted(ls + [l], trades + [TradeOf(l, maxHoldBars)], maxHoldBars)
  {
    hide Busy, TradeOf;
    var x := TradeOf(l, maxHoldBars);
    assert (trades + [x])[|trades|] == x;
    forall other | other in ls
      ensures TradeOf(other, maxHoldBars) in trades + [x] || Busy(trades + [x], other.symbol, other.ts)
    {
      BusySnoc(trades, x, other.symbol, other.ts);
    }
  }

  lemma AccountedByOther(ls: seq<Label>, l: Label, trades: seq<LabelTrade>, maxHoldBars: int)
    requires Accounted(ls, trades, maxHoldBars) && Busy(trades, l.symbol, l.ts)
    ensures Accounted(ls + [l], trades, maxHoldBars)
  {
    hide Busy, TradeOf;
  }

  lemma LabelledSnoc(ls: seq<Label>, l: Label, trades: seq<LabelTrade>, maxHoldBars: int)
    requires Labelled(ls, trades, maxHoldBars)
    ensures Labelled(ls + [l], trades, maxHoldBars)
           && Labelled(ls + [l], trades + [TradeOf(l, maxHoldBars)], maxHoldBars)
  {
    TradeKeepsLabel(l, maxHoldBars);
    hide TradeOf;
    assert (ls + [l])[|ls|] == l;
  }

  /** Any two trades on one symbol are apart, and a label is left out only if it falls inside one. */
  lemma {:induction false} OneOpenTradePerSymbol(ls: seq<Label>, maxHoldBars: int)
    ensures Apart(Greedy(ls, true, maxHoldBars))
    ensures Accounted(ls, Greedy(ls, true, maxHoldBars), maxHoldBars)
    ensures Labelled(ls, Greedy(ls, true, maxHoldBars), maxHoldBars)
  {
    if ls != [] {
      var n := |ls| - 1;
      var before := Greedy(ls[..n], true, maxHoldBars);
      OneOpenTradePerSymbol(ls[..n], maxHoldBars);
      assert ls == ls[..n] + [ls[n]];
      TradeKeepsLabel(ls[n], maxHoldBars);
      hide TradeOf, Apart, Accounted, Labelled, Busy;
      LabelledSnoc(ls[..n], ls[n], before, maxHoldBars);
      if Busy(before, ls[n].symbol, ls[n].ts) {
        AccountedByOther(ls[..n], ls[n], before, maxHoldBars);
      } else {
        ApartSnoc(before, TradeOf(ls[n], maxHoldBars));
        AccountedSnoc(ls[..n], ls[n], before, maxHoldBars);
      }
    }
  }

  /** Reading R back off the exit price gives the label's R. */
  lemma ExitPriceCarriesR(l: Label)
    requires l.entry != l.stop
    ensures (ExitPrice(l) - l.entry) / (l.entry - l.stop) == l.realizedR
  {
    var d := l.entry - l.stop;
    assert l.realizedR * (l.stop - l.entry) == -(l.realizedR * d);
    assert ExitPrice(l) - l.entry == l.realizedR * d;
  }

  // ----- what a trade is

  ghost predicate Missing(n: Option<int>) {
    n == None || n == Some(0)
  }

  /** A label's trade: held for the time to its target, failing that to its stop, failing that the maximum
      hold, and closed at the price its R stands for. */
  ghost predicate TradeIs(t: LabelTrade, maxHoldBars: int) {
    var l := t.source;
    && (!Missing(l.timeToTarget) ==> l.timeToTarget == Some(t.duration))
    && (Missing(l.timeToTarget) && !Missing(l.timeToStop) ==> l.timeToStop == Some(t.duration))
    && (Missing(l.timeToTarget) && Missing(l.timeToStop) ==> t.duration == maxHoldBars)
    && (l.exitTs != None ==> l.exitTs == Some(t.exitTs))
    && (l.exitTs == None ==> t.exitTs - l.ts == t.duration * 60_000_000)
    && t.exitPrice - l.entry == l.realizedR * (l.entry - l.stop)
  }

  lemma TradeOfIs(l: Label, maxHoldBars: int)
    ensures TradeIs(TradeOf(l, maxHoldBars), maxHoldBars)
  {
    assert l.realizedR * (l.stop - l.entry) == -(l.realizedR * (l.entry - l.stop));
  }

  /** Every trade is of a label and is what that label's trade should be, in the order of the labels; without
      the rule of one trade per symbol every label has one. */
  lemma {:induction false} TradesAreRight(ls: seq<Label>, onePerSymbol: bool, maxHoldBars: int)
    ensures var trades := Greedy(ls, onePerSymbol, maxHoldBars);
            && (forall t :: t in trades ==> t.source in ls && TradeIs(t, maxHoldBars))
            && (!onePerSymbol ==>
                  |trades| == |ls| && forall k :: 0 <= k < |ls| ==> trades[k].source == ls[k])
  {
    if ls != [] {
      var n := |ls| - 1;
      TradesAreRight(ls[..n], onePerSymbol, maxHoldBars);
      TradeOfIs(ls[n], maxHoldBars);
      TradeKeepsLabel(ls[n], maxHoldBars);
      assert ls == ls[..n] + [ls[n]];
      hide TradeIs, TradeOf, Busy;
    }
  }
}
