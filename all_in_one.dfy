/** The ad-hoc strategy bundle: five bar-pattern rules run over every
    symbol's price table; each rule's matches are ranked and cut to a
    fixed length, and only the categories with a match are returned. */
module AllInOne {
  import opened Common
  import opened Bars
  import opened Windows
  import opened Records
  import opened Tables

  const MoonshotName := "1. Low Float Moonshot (>8x vol)"
  const RsiName := "2. RSI Oversold Bounce"
  const GapName := "3. Gap Up >8%"
  const FirstRedDayName := "4. First Red Day Dip"
  const ParabolicName := "5. Parabolic Short"

  /** The price tables by symbol, in the mapping's order. */
  type Data = seq<(string, seq<Bar>)>

  /** A rule: the row it reports for a symbol's bars, if they match. */
  type Rule = (string, seq<Bar>) -> Option<Dict>

  // ------------------------------------------------------------ the rules

  /** The 20-bar mean volume ending at the bar before the last. */
  function PriorAvgVolume(bars: seq<Bar>): real
    requires |bars| >= 21
  {
    Mean(Column(bars[|bars| - 21..|bars| - 1], Volume))
  }

  /** The 20-bar mean volume ending at the last bar. */
  function AvgVolume(bars: seq<Bar>): real
    requires |bars| >= 20
  {
    Mean(Column(bars[|bars| - 20..], Volume))
  }

  /** Low float moonshot: a cheap stock trading more than eight times its
      prior average volume. */
  function Moonshot(symbol: string, bars: seq<Bar>): Option<Dict>
  {
    if |bars| < 30 || Back(bars, 1).close > 25.0 then None
    else
      var avg := PriorAvgVolume(bars);
      if avg <= 0.0 then None
      else
        var volX := Div(Back(bars, 1).volume, avg);
        if Above(volX, 8.0) then
          Some(Dict(["symbol", "price", "vol_x"],
                    map["symbol" := Text(symbol), "price" := Real(Back(bars, 1).close), "vol_x" := Num(volX)]))
        else None
  }

  /** RSI oversold bounce. `rsi` is the last value of the smoothed RSI the
      strategy computes from the closes. */
  function RsiBounce(rsi: seq<Bar> -> Float, symbol: string, bars: seq<Bar>): Option<Dict>
  {
    if |bars| < 40 then None
    else
      var volX := Div(Back(bars, 1).volume, AvgVolume(bars));
      if Below(rsi(bars), 32.0) && Above(volX, 3.0) then
        Some(Dict(["symbol", "price", "rsi"],
                  map["symbol" := Text(symbol), "price" := Real(Back(bars, 1).close), "rsi" := Num(rsi(bars))]))
      else None
  }

  /** `(open / prev_close - 1) * 100`. */
  function GapPct(bars: seq<Bar>): Float
    requires |bars| >= 2
  {
    Scale(Shift(Div(Back(bars, 1).open, Back(bars, 2).close), -1.0), 100.0)
  }

  /** Gap up runner: an opening gap above 8% that closes above the open. */
  function GapUp(symbol: string, bars: seq<Bar>): Option<Dict>
  {
    if |bars| < 2 then None
    else if Above(GapPct(bars), 8.0) && Back(bars, 1).close > Back(bars, 1).open then
      Some(Dict(["symbol", "gap_%", "price"],
                map["symbol" := Text(symbol), "gap_%" := Num(GapPct(bars)), "price" := Real(Back(bars, 1).close)]))
    else None
  }

  /** First red day dip: a bar three days back that closed 25% above its
      open, and a last bar that closes below its open by less than 12%. */
  function FirstRedDay(symbol: string, bars: seq<Bar>): Option<Dict>
  {
    if |bars| < 4 then None
    else if Back(bars, 4).close > Back(bars, 4).open * 1.25 &&
            Back(bars, 1).close < Back(bars, 1).open &&
            Back(bars, 1).close > Back(bars, 1).open * 0.88 then
      Some(Dict(["symbol", "price"], map["symbol" := Text(symbol), "price" := Real(Back(bars, 1).close)]))
    else None
  }

  /** `(last close / first close - 1) * 100` over the last eight bars. */
  function SevenDayPct(bars: seq<Bar>): Float
    requires |bars| >= 8
  {
    Scale(Shift(Div(Back(bars, 1).close, Back(bars, 8).close), -1.0), 100.0)
  }

  /** Parabolic short: eight up bars in a row whose last close is more
      than 2.2 times the first. */
  function Parabolic(symbol: string, bars: seq<Bar>): Option<Dict>
  {
    if |bars| < 8 then None
    else if (forall k :: |bars| - 8 <= k < |bars| ==> bars[k].close > bars[k].open) &&
            Back(bars, 1).close > Back(bars, 8).close * 2.2 then
      Some(Dict(["symbol", "price", "7d_%"],
                map["symbol" := Text(symbol), "price" := Real(Back(bars, 1).close), "7d_%" := Num(SevenDayPct(bars))]))
    else None
  }

  // ------------------------------------------------------------ the loops

  /** The rows a rule reports, in the order of the symbols. */
  function Picks(data: Data, rule: Rule): (r: seq<Dict>)
    ensures |r| <= |data|
  {
    if data == [] then []
    else
      var rest := Picks(data[..|data| - 1], rule);
      var (s, bars) := data[|data| - 1];
      match rule(s, bars)
      case None => rest
      case Some(row) => rest + [row]
  }

  /** One rule's loop over the symbols. */
  method CollectPicks(data: Data, rule: Rule) returns (picks: seq<Dict>)
    ensures picks == Picks(data, rule)
  {
    picks := [];
    for i := 0 to |data|
      invariant picks == Picks(data[..i], rule)
    {
      assert data[..i + 1][..i] == data[..i] && data[..i + 1][i] == data[i];
      var (s, bars) := data[i];
      var row := rule(s, bars);
      if row.Some? {
        picks := picks + [row.value];
      }
    }
    assert data[..|data|] == data;
  }

  /** `sort_values(column).head(n)` of a rule's rows. */
  function Ranked(picks: seq<Dict>, column: string, ascending: bool, n: int): seq<Dict>
  {
    Head(SortRows(picks, column, ascending), n)
  }

  /** The five categories, in order, before the empty ones are dropped. */
  function Categories(data: Data, rsi: seq<Bar> -> Float): seq<(string, seq<Dict>)>
  {
    [(MoonshotName, Ranked(Picks(data, Moonshot), "vol_x", false, 20)),
     (RsiName, Ranked(Picks(data, (s, bars) => RsiBounce(rsi, s, bars)), "rsi", true, 20)),
     (GapName, Ranked(Picks(data, GapUp), "gap_%", false, 20)),
     (FirstRedDayName, Head(Picks(data, FirstRedDay), 20)),
     (ParabolicName, Ranked(Picks(data, Parabolic), "7d_%", false, 15))]
  }

  /** The entries with at least one row, in order. */
  function NonEmpty(entries: seq<(string, seq<Dict>)>): (r: seq<(string, seq<Dict>)>)
    ensures forall e :: e in r <==> e in entries && |e.1| > 0
  {
    if entries == [] then []
    else
      var rest := NonEmpty(entries[1..]);
      assert forall e :: e in entries <==> e == entries[0] || e in entries[1..];
      if |entries[0].1| > 0 then [entries[0]] + rest else rest
  }

  /** `run_all_scanners`: each rule's loop, then the mapping of the
      categories that found something. */
  method RunAllScanners(data: Data, rsi: seq<Bar> -> Float) returns (results: seq<(string, seq<Dict>)>)
    ensures results == NonEmpty(Categories(data, rsi))
  {
    var low := CollectPicks(data, Moonshot);
    var oversold := CollectPicks(data, (s, bars) => RsiBounce(rsi, s, bars));
    var gap := CollectPicks(data, GapUp);
    var frd := CollectPicks(data, FirstRedDay);
    var para := CollectPicks(data, Parabolic);
    var all := [(MoonshotName, Ranked(low, "vol_x", false, 20)),
                (RsiName, Ranked(oversold, "rsi", true, 20)),
                (GapName, Ranked(gap, "gap_%", false, 20)),
                (FirstRedDayName, Head(frd, 20)),
                (ParabolicName, Ranked(para, "7d_%", false, 15))];
    results := NonEmpty(all);
  }

  // ------------------------------------------------------------ properties

  /** A row is picked exactly when the rule matches some symbol. */
  lemma {:induction false} PicksExactly(data: Data, rule: Rule)
    ensures forall row :: row in Picks(data, rule) <==>
              exists k :: 0 <= k < |data| && rule(data[k].0, data[k].1) == Some(row)
    decreases |data|
  {
    if data != [] {
      var init := data[..|data| - 1];
      PicksExactly(init, rule);
      assert forall k :: 0 <= k < |init| ==> init[k] == data[k];
    }
  }

  /** Picked rows keep the order of their symbols. */
  lemma {:induction false} PicksInOrder(data: Data, rule: Rule, i: nat, j: nat) returns (a: nat, b: nat)
    requires i < j < |Picks(data, rule)|
    ensures a < b < |data|
    ensures rule(data[a].0, data[a].1) == Some(Picks(data, rule)[i])
    ensures rule(data[b].0, data[b].1) == Some(Picks(data, rule)[j])
    decreases |data|
  {
    var init := data[..|data| - 1];
    var rest := Picks(init, rule);
    assert forall k :: 0 <= k < |init| ==> init[k] == data[k];
    if j < |rest| {
      a, b := PicksInOrder(init, rule, i, j);
    } else {
      PicksExactly(init, rule);
      assert rest[i] in rest;
      var k :| 0 <= k < |init| && rule(init[k].0, init[k].1) == Some(rest[i]);
      a, b := k, |data| - 1;
    }
  }

  /** The moonshot test: at least 30 bars, a last close of at most 25, a
      positive prior average, and a last volume above eight times it. */
  lemma MoonshotIff(symbol: string, bars: seq<Bar>)
    ensures Moonshot(symbol, bars).Some? <==>
              |bars| >= 30 && Back(bars, 1).close <= 25.0 && PriorAvgVolume(bars) > 0.0 &&
              Back(bars, 1).volume > 8.0 * PriorAvgVolume(bars)
  {
    if |bars| >= 30 && PriorAvgVolume(bars) > 0.0 {
      DivAboveIff(Back(bars, 1).volume, PriorAvgVolume(bars), 8.0);
    }
  }

  /** After a positive close, the gap test is an open above 1.08 times
      that close with a close above the open. */
  lemma GapUpIff(symbol: string, bars: seq<Bar>)
    requires |bars| >= 2 && Back(bars, 2).close > 0.0
    ensures GapUp(symbol, bars).Some? <==>
              Back(bars, 1).open > 1.08 * Back(bars, 2).close && Back(bars, 1).close > Back(bars, 1).open
  {
    DivAboveIff(Back(bars, 1).open, Back(bars, 2).close, 1.08);
  }

  /** After a zero close, any positive open is an infinite gap. */
  lemma GapAfterZeroClose(symbol: string, bars: seq<Bar>)
    requires |bars| >= 2 && Back(bars, 2).close == 0.0
    ensures GapUp(symbol, bars).Some? <==> Back(bars, 1).open > 0.0 && Back(bars, 1).close > Back(bars, 1).open
  {
  }

  /** A parabolic match after a positive first close has gained more than
      120% over the eight bars. */
  lemma ParabolicGain(symbol: string, bars: seq<Bar>)
    requires Parabolic(symbol, bars).Some? && Back(bars, 8).close > 0.0
    ensures Above(SevenDayPct(bars), 120.0)
  {
    DivAboveIff(Back(bars, 1).close, Back(bars, 8).close, 2.2);
  }

  /** A ranked category keeps min(n, matches) rows, all of them picked by
      its rule, ordered by the column, and no dropped match ranks ahead of
      a kept one; with no more than `n` matches every match is kept. */
  lemma RankedCategory(picks: seq<Dict>, column: string, ascending: bool, n: nat)
    ensures |Ranked(picks, column, ascending, n)| == if |picks| < n then |picks| else n
    ensures forall x, y :: x in Ranked(picks, column, ascending, n) &&
                           y in multiset(picks) - multiset(Ranked(picks, column, ascending, n)) ==>
              KeyOrder(RowKey(x, column), RowKey(y, column), ascending)
    ensures forall row :: row in Ranked(picks, column, ascending, n) ==> row in picks
    ensures var r := Ranked(picks, column, ascending, n);
            forall i, j :: 0 <= i < j < |r| ==> KeyOrder(RowKey(r[i], column), RowKey(r[j], column), ascending)
    ensures |picks| <= n ==> multiset(Ranked(picks, column, ascending, n)) == multiset(picks)
  {
    var sorted := SortRows(picks, column, ascending);
    var r := Ranked(picks, column, ascending, n);
    assert |sorted| == |multiset(sorted)| == |picks|;
    assert forall k :: 0 <= k < |r| ==> r[k] == sorted[k];
    if |picks| <= n {
      assert r == sorted;
    }
    forall row | row in r ensures row in picks {
      assert row in sorted;
      assert row in multiset(sorted);
    }
    forall x, y | x in r && y in multiset(picks) - multiset(r)
      ensures KeyOrder(RowKey(x, column), RowKey(y, column), ascending)
    {
      RankedBeforeRest(picks, column, ascending, n, x, y);
    }
  }

  /** A kept row is ordered before any dropped one: the kept rows are the
      sorted prefix and the dropped ones its remainder. */
  lemma RankedBeforeRest(picks: seq<Dict>, column: string, ascending: bool, n: nat, x: Dict, y: Dict)
    requires x in Ranked(picks, column, ascending, n)
    requires y in multiset(picks) - multiset(Ranked(picks, column, ascending, n))
    ensures KeyOrder(RowKey(x, column), RowKey(y, column), ascending)
  {
    var sorted := SortRows(picks, column, ascending);
    var top := Ranked(picks, column, ascending, n);
    var rest := sorted[|top|..];
    assert sorted == top + rest;
    assert multiset(sorted) == multiset(top) + multiset(rest);
    assert y in multiset(rest);
    var j :| 0 <= j < |rest| && rest[j] == y;
    var i :| 0 <= i < |top| && top[i] == x;
    assert sorted[|top| + j] == y;
  }

  /** The first-red-day category is the first 20 matches in the order of
      the symbols. */
  lemma FirstRedDayCategory(data: Data)
    ensures |Head(Picks(data, FirstRedDay), 20)| == if |Picks(data, FirstRedDay)| < 20 then |Picks(data, FirstRedDay)| else 20
    ensures Head(Picks(data, FirstRedDay), 20) == Picks(data, FirstRedDay)[..|Head(Picks(data, FirstRedDay), 20)|]
  {
  }

  lemma RankedEmptyIff(picks: seq<Dict>, column: string, ascending: bool, n: nat)
    requires n > 0
    ensures Ranked(picks, column, ascending, n) == [] <==> picks == []
  {
    assert |SortRows(picks, column, ascending)| == |multiset(picks)| == |picks|;
  }

  /** With names that are unique, a named entry is kept exactly when it
      has a row. */
  lemma PresentIff(entries: seq<(string, seq<Dict>)>, i: nat)
    requires i < |entries|
    requires forall j :: 0 <= j < |entries| && j != i ==> entries[j].0 != entries[i].0
    ensures (exists rows :: (entries[i].0, rows) in NonEmpty(entries)) <==> |entries[i].1| > 0
  {
    var name := entries[i].0;
    if |entries[i].1| > 0 {
      assert (name, entries[i].1) in NonEmpty(entries);
    }
    forall rows | (name, rows) in NonEmpty(entries) ensures |entries[i].1| > 0 {
      var j :| 0 <= j < |entries| && entries[j] == (name, rows);
    }
  }

  /** The five named entries: each is kept exactly when it has a row. */
  lemma FivePresent(a: seq<Dict>, b: seq<Dict>, c: seq<Dict>, d: seq<Dict>, e: seq<Dict>)
    ensures var r := NonEmpty([(MoonshotName, a), (RsiName, b), (GapName, c), (FirstRedDayName, d), (ParabolicName, e)]);
            ((exists rows :: (MoonshotName, rows) in r) <==> |a| > 0) &&
            ((exists rows :: (RsiName, rows) in r) <==> |b| > 0) &&
            ((exists rows :: (GapName, rows) in r) <==> |c| > 0) &&
            ((exists rows :: (FirstRedDayName, rows) in r) <==> |d| > 0) &&
            ((exists rows :: (ParabolicName, rows) in r) <==> |e| > 0)
  {
    var cs := [(MoonshotName, a), (RsiName, b), (GapName, c), (FirstRedDayName, d), (ParabolicName, e)];
    forall j, k | 0 <= j < k < |cs| ensures cs[j].0 != cs[k].0 {
      assert cs[j].0[0] == "12345"[j] && cs[k].0[0] == "12345"[k];
    }
    PresentIff(cs, 0);
    PresentIff(cs, 1);
    PresentIff(cs, 2);
    PresentIff(cs, 3);
    PresentIff(cs, 4);
  }

  /** A category is returned exactly when its rule matched some symbol,
      and no returned category is empty. */
  lemma CategoryPresentIff(data: Data, rsi: seq<Bar> -> Float)
    ensures (exists rows :: (MoonshotName, rows) in NonEmpty(Categories(data, rsi))) <==> Picks(data, Moonshot) != []
    ensures (exists rows :: (RsiName, rows) in NonEmpty(Categories(data, rsi))) <==>
              Picks(data, (s, bars) => RsiBounce(rsi, s, bars)) != []
    ensures (exists rows :: (GapName, rows) in NonEmpty(Categories(data, rsi))) <==> Picks(data, GapUp) != []
    ensures (exists rows :: (FirstRedDayName, rows) in NonEmpty(Categories(data, rsi))) <==> Picks(data, FirstRedDay) != []
    ensures (exists rows :: (ParabolicName, rows) in NonEmpty(Categories(data, rsi))) <==> Picks(data, Parabolic) != []
    ensures forall e :: e in NonEmpty(Categories(data, rsi)) ==> |e.1| > 0
  {
    var a := Picks(data, Moonshot);
    var b := Picks(data, (s, bars) => RsiBounce(rsi, s, bars));
    var c := Picks(data, GapUp);
    var d := Picks(data, FirstRedDay);
    var e := Picks(data, Parabolic);
    RankedEmptyIff(a, "vol_x", false, 20);
    RankedEmptyIff(b, "rsi", true, 20);
    RankedEmptyIff(c, "gap_%", false, 20);
    RankedEmptyIff(e, "7d_%", false, 15);
    FivePresent(Ranked(a, "vol_x", false, 20), Ranked(b, "rsi", true, 20), Ranked(c, "gap_%", false, 20),
                Head(d, 20), Ranked(e, "7d_%", false, 15));
  }
}
