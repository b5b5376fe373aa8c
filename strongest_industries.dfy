/** The strongest-industries scanner: the companies of the market with a
    relative-strength percentile, grouped by industry; the industries large
    enough are ranked by their mean percentile, and the strongest stocks of
    the strongest industries are reported with their industry's mean. */
module StrongestIndustries {
  import opened Common
  import opened Records
  import opened Query
  import opened Windows
  import opened Tables

  const DefaultRsPeriodMonths := 12
  const DefaultTopNIndustries := 5
  const DefaultTopNStocksPerIndustry := 5
  const DefaultMinMarketCap := 1000000000.0
  const DefaultMinIndustrySize := 30

  const LeadingColumns := ["symbol", "longname", "industry", "industry_rs_percentile", "rs_percentile"]
  /** The columns of the merged frame before the leading columns are moved
      to the front. */
  const MergedColumns := ["symbol", "longname", "industry", "rs_percentile", "industry_rs_percentile"]

  /** The percentile column of the chosen period; an unknown period falls
      back to the twelve-month column. */
  function RsColumn(months: int): (c: string)
    ensures months == 6 ==> c == "relative_strength_percentile_126"
    ensures months == 3 ==> c == "relative_strength_percentile_63"
    ensures months != 6 && months != 3 ==> c == "relative_strength_percentile_252"
  {
    if months == 12 then "relative_strength_percentile_252"
    else if months == 6 then "relative_strength_percentile_126"
    else if months == 3 then "relative_strength_percentile_63"
    else "relative_strength_percentile_252"
  }

  /** The query's filters after the active and market tests. */
  function BaseConditions(rsColumn: string, minMarketCap: real): seq<Condition>
  {
    [NotNull("industry"), NotNull(rsColumn), Compare("marketcap", DbGt, SNum(minMarketCap))]
  }

  // ------------------------------------------------------------ the rows

  /** One row of the query: symbol, name, industry and percentile. */
  datatype Stock = Stock(symbol: Value, longname: Value, industry: Value, rs: real)

  /** A reported stock with its industry's mean percentile. */
  datatype Ranked = Ranked(stock: Stock, industryRs: real)

  function Field(d: Dict, k: string): Value
  {
    if k in d.vals then d.vals[k] else Null
  }

  /** The query row of a company record, when its percentile is a number. */
  function StockOf(d: Dict, rsColumn: string): Option<Stock>
  {
    if rsColumn in d.vals && d.vals[rsColumn].Num? && d.vals[rsColumn].x.Finite? then
      Some(Stock(Field(d, "symbol"), Field(d, "longname"), Field(d, "industry"), d.vals[rsColumn].x.val))
    else None
  }

  /** The query: the rows of the companies that pass it, in table order. */
  function Selected(records: seq<Dict>, exchanges: set<string>, rsColumn: string, minMarketCap: real): (r: seq<Stock>)
    ensures |r| <= |records|
    ensures forall s :: s in r ==>
              exists d :: d in records && Candidate(d, exchanges, BaseConditions(rsColumn, minMarketCap)) &&
                          StockOf(d, rsColumn) == Some(s)
  {
    if records == [] then []
    else
      var rest := Selected(records[1..], exchanges, rsColumn, minMarketCap);
      assert forall d :: d in records[1..] ==> d in records;
      var d := records[0];
      if Candidate(d, exchanges, BaseConditions(rsColumn, minMarketCap)) && StockOf(d, rsColumn).Some? then
        [StockOf(d, rsColumn).value] + rest
      else rest
  }

  /** Every company that passes the query with a numeric percentile is
      among the selected rows. */
  lemma {:induction false} SelectedComplete(records: seq<Dict>, exchanges: set<string>, rsColumn: string,
                                            minMarketCap: real, d: Dict)
    requires d in records && Candidate(d, exchanges, BaseConditions(rsColumn, minMarketCap))
    requires StockOf(d, rsColumn).Some?
    ensures StockOf(d, rsColumn).value in Selected(records, exchanges, rsColumn, minMarketCap)
  {
    if records[0] != d {
      assert d in records[1..];
      SelectedComplete(records[1..], exchanges, rsColumn, minMarketCap, d);
    }
  }

  /** The rows of one industry, in order. */
  function Members(stocks: seq<Stock>, industry: Value): (r: seq<Stock>)
    ensures forall s :: s in r <==> s in stocks && s.industry == industry
    ensures |r| <= |stocks|
  {
    if stocks == [] then []
    else
      var rest := Members(stocks[1..], industry);
      assert forall s :: s in stocks <==> s == stocks[0] || s in stocks[1..];
      if stocks[0].industry == industry then [stocks[0]] + rest else rest
  }

  /** `value_counts()` of one industry. */
  function Count(stocks: seq<Stock>, industry: Value): nat
  {
    |Members(stocks, industry)|
  }

  /** The rows of the industries with at least `minSize` rows. */
  function Sized(stocks: seq<Stock>, minSize: int): (r: seq<Stock>)
    ensures forall s :: s in r <==> s in stocks && Count(stocks, s.industry) >= minSize
  {
    Keep(stocks, stocks, minSize)
  }

  function Keep(stocks: seq<Stock>, all: seq<Stock>, minSize: int): (r: seq<Stock>)
    ensures forall s :: s in r <==> s in stocks && Count(all, s.industry) >= minSize
  {
    if stocks == [] then []
    else
      var rest := Keep(stocks[1..], all, minSize);
      assert forall s :: s in stocks <==> s == stocks[0] || s in stocks[1..];
      if Count(all, stocks[0].industry) >= minSize then [stocks[0]] + rest else rest
  }

  /** Every industry of the rows, once each. */
  function IndustriesOf(stocks: seq<Stock>): (r: seq<Value>)
    ensures forall v :: v in r <==> exists s :: s in stocks && s.industry == v
  {
    if stocks == [] then []
    else
      var rest := IndustriesOf(stocks[1..]);
      assert forall s :: s in stocks <==> s == stocks[0] || s in stocks[1..];
      if stocks[0].industry in rest then rest else [stocks[0].industry] + rest
  }

  function Percentiles(stocks: seq<Stock>): (r: seq<real>)
    ensures |r| == |stocks| && forall i :: 0 <= i < |stocks| ==> r[i] == stocks[i].rs
  {
    seq(|stocks|, i requires 0 <= i < |stocks| => stocks[i].rs)
  }

  /** The mean percentile of an industry (0 for an industry without rows,
      which is never asked for). */
  function IndustryRs(stocks: seq<Stock>, industry: Value): real
  {
    var m := Members(stocks, industry);
    if |m| == 0 then 0.0 else Mean(Percentiles(m))
  }

  // ------------------------------------------------------------ ranking

  function StrongerIndustry(stocks: seq<Stock>): (Value, Value) -> bool
  {
    (a: Value, b: Value) => IndustryRs(stocks, a) >= IndustryRs(stocks, b)
  }

  lemma StrongerIndustryTotal(stocks: seq<Stock>)
    ensures TotalPreorder(StrongerIndustry(stocks))
  {
  }

  /** The industries by mean percentile, strongest first. */
  function RankedIndustries(stocks: seq<Stock>): (r: seq<Value>)
    ensures SortedBy(r, StrongerIndustry(stocks))
    ensures multiset(r) == multiset(IndustriesOf(stocks))
  {
    StrongerIndustryTotal(stocks);
    Sort(IndustriesOf(stocks), StrongerIndustry(stocks))
  }

  function TopIndustries(stocks: seq<Stock>, topN: int): seq<Value>
  {
    Head(RankedIndustries(stocks), topN)
  }

  function StrongerStock(): (Stock, Stock) -> bool
  {
    (a: Stock, b: Stock) => a.rs >= b.rs
  }

  lemma StrongerStockTotal()
    ensures TotalPreorder(StrongerStock())
  {
  }

  /** The rows of one industry by percentile, strongest first. */
  function RankedMembers(stocks: seq<Stock>, industry: Value): (r: seq<Stock>)
    ensures SortedBy(r, StrongerStock())
    ensures multiset(r) == multiset(Members(stocks, industry))
  {
    StrongerStockTotal();
    Sort(Members(stocks, industry), StrongerStock())
  }

  /** `head(top_n_stocks_per_industry)` of one industry. */
  function TopStocks(stocks: seq<Stock>, industry: Value, topK: int): seq<Stock>
  {
    Head(RankedMembers(stocks, industry), topK)
  }

  /** The rows the loop over the chosen industries appends, each with its
      industry's mean. */
  function Strongest(stocks: seq<Stock>, industries: seq<Value>, topK: int): (r: seq<Ranked>)
  {
    if industries == [] then []
    else
      var ind := industries[|industries| - 1];
      Strongest(stocks, industries[..|industries| - 1], topK) + Tagged(TopStocks(stocks, ind, topK), IndustryRs(stocks, ind))
  }

  function Tagged(ss: seq<Stock>, mean: real): (r: seq<Ranked>)
    ensures |r| == |ss| && forall i :: 0 <= i < |ss| ==> r[i] == Ranked(ss[i], mean)
  {
    seq(|ss|, i requires 0 <= i < |ss| => Ranked(ss[i], mean))
  }

  /** The final order: industry mean descending, then percentile
      descending. */
  function Before(): (Ranked, Ranked) -> bool
  {
    (a: Ranked, b: Ranked) =>
      a.industryRs > b.industryRs || (a.industryRs == b.industryRs && a.stock.rs >= b.stock.rs)
  }

  lemma BeforeTotal()
    ensures TotalPreorder(Before())
  {
  }

  function SortRanked(rows: seq<Ranked>): (r: seq<Ranked>)
    ensures SortedBy(r, Before())
    ensures multiset(r) == multiset(rows)
  {
    BeforeTotal();
    Sort(rows, Before())
  }

  function RowOf(x: Ranked): Dict
  {
    Dict(LeadingColumns,
         map["symbol" := x.stock.symbol, "longname" := x.stock.longname, "industry" := x.stock.industry,
             "industry_rs_percentile" := Real(x.industryRs), "rs_percentile" := Real(x.stock.rs)])
  }

  function Rows(xs: seq<Ranked>): (r: seq<Dict>)
    ensures |r| == |xs| && forall i :: 0 <= i < |xs| ==> r[i] == RowOf(xs[i])
  {
    seq(|xs|, i requires 0 <= i < |xs| => RowOf(xs[i]))
  }

  /** The reported stocks, before formatting: empty when no row passes the
      query, no industry is large enough, or no industry is chosen. */
  function Ranking(stocks: seq<Stock>, topN: int, topK: int, minSize: int): seq<Ranked>
  {
    var sized := Sized(stocks, minSize);
    SortRanked(Strongest(sized, TopIndustries(sized, topN), topK))
  }

  /** The table `run_scan` returns for the rows of the query. */
  function Report(stocks: seq<Stock>, topN: int, topK: int, minSize: int): Table
  {
    if stocks == [] then EmptyTable
    else
      var sized := Sized(stocks, minSize);
      if sized == [] then EmptyTable
      else if TopIndustries(sized, topN) == [] then EmptyTable
      else
        var ranking := Ranking(stocks, topN, topK, minSize);
        if ranking == [] then Table(MergedColumns, [])
        else Table(LeadingColumns, Rows(ranking))
  }

  // ------------------------------------------------------------ the scan

  /** `run_scan`, step by step: the industry filter, the ranking, and the
      loop that collects the top stocks of each chosen industry. */
  method RunScan(records: seq<Dict>, exchanges: set<string>, rsPeriodMonths: int, topN: int, topK: int,
                 minMarketCap: real, minSize: int) returns (t: Table)
    ensures t == Report(Selected(records, exchanges, RsColumn(rsPeriodMonths), minMarketCap), topN, topK, minSize)
  {
    var stocks := Selected(records, exchanges, RsColumn(rsPeriodMonths), minMarketCap);
    if |stocks| == 0 {
      return EmptyTable;
    }
    var sized := Sized(stocks, minSize);
    if |sized| == 0 {
      return EmptyTable;
    }
    var top := TopIndustries(sized, topN);
    var strongest := CollectStrongest(sized, top, topK);
    if |top| == 0 {
      return EmptyTable;
    }
    var ranking := SortRanked(strongest);
    if |ranking| == 0 {
      return Table(MergedColumns, []);
    }
    return Table(LeadingColumns, Rows(ranking));
  }

  /** The loop over the chosen industries. */
  method CollectStrongest(stocks: seq<Stock>, industries: seq<Value>, topK: int) returns (strongest: seq<Ranked>)
    ensures strongest == Strongest(stocks, industries, topK)
  {
    strongest := [];
    var i := 0;
    while i < |industries|
      invariant 0 <= i <= |industries|
      invariant strongest == Strongest(stocks, industries[..i], topK)
    {
      var ind := industries[i];
      assert industries[..i + 1][..i] == industries[..i] && industries[..i + 1][i] == ind;
      strongest := strongest + Tagged(TopStocks(stocks, ind, topK), IndustryRs(stocks, ind));
      i := i + 1;
    }
    assert industries[..i] == industries;
  }

  // ------------------------------------------------------------ properties

  lemma TopStocksSize(stocks: seq<Stock>, industry: Value, topK: nat)
    ensures |TopStocks(stocks, industry, topK)| <= topK
  {
  }

  lemma MulStep(n: nat, k: nat)
    ensures (n + 1) * k == n * k + k
  {
  }

  lemma MulMono(a: nat, b: nat, k: nat)
    requires a <= b
    ensures a * k <= b * k
  {
  }

  /** Each chosen industry contributes at most `topK` rows. */
  lemma {:induction false} StrongestSize(stocks: seq<Stock>, industries: seq<Value>, topK: nat)
    ensures |Strongest(stocks, industries, topK)| <= |industries| * topK
    decreases |industries|
  {
    if industries != [] {
      var init := industries[..|industries| - 1];
      var ind := industries[|industries| - 1];
      StrongestSize(stocks, init, topK);
      TopStocksSize(stocks, ind, topK);
      MulStep(|init|, topK);
      assert |Strongest(stocks, industries, topK)| == |Strongest(stocks, init, topK)| + |TopStocks(stocks, ind, topK)|;
    }
  }

  /** Every collected row is a top stock of one of the chosen industries,
      tagged with that industry's mean. */
  lemma {:induction false} StrongestOrigin(stocks: seq<Stock>, industries: seq<Value>, topK: int)
    ensures forall x :: x in Strongest(stocks, industries, topK) ==>
              x.stock.industry in industries && x.stock in TopStocks(stocks, x.stock.industry, topK) &&
              x.industryRs == IndustryRs(stocks, x.stock.industry)
    decreases |industries|
  {
    if industries != [] {
      var init := industries[..|industries| - 1];
      var ind := industries[|industries| - 1];
      StrongestOrigin(stocks, init, topK);
      assert forall v :: v in init ==> v in industries;
      TaggedOrigin(stocks, ind, topK);
      var tagged := Tagged(TopStocks(stocks, ind, topK), IndustryRs(stocks, ind));
      assert Strongest(stocks, industries, topK) == Strongest(stocks, init, topK) + tagged;
      assert forall x :: x in Strongest(stocks, industries, topK) ==> x in Strongest(stocks, init, topK) || x in tagged;
    }
  }

  /** The rows appended for one industry are its top stocks, tagged with
      its mean. */
  lemma TaggedOrigin(stocks: seq<Stock>, ind: Value, topK: int)
    ensures forall x :: x in Tagged(TopStocks(stocks, ind, topK), IndustryRs(stocks, ind)) ==>
              x.stock.industry == ind && x.stock in TopStocks(stocks, ind, topK) &&
              x.industryRs == IndustryRs(stocks, ind)
  {
    var top := TopStocks(stocks, ind, topK);
    var tagged := Tagged(top, IndustryRs(stocks, ind));
    forall x | x in tagged
      ensures x.stock.industry == ind && x.stock in top && x.industryRs == IndustryRs(stocks, ind)
    {
      var j :| 0 <= j < |tagged| && tagged[j] == x;
      var s := top[j];
      assert s in top;
      assert s in multiset(RankedMembers(stocks, ind));
      assert s in Members(stocks, ind);
    }
  }

  /** At most `topN * topK` rows are reported. */
  lemma RankingSize(stocks: seq<Stock>, topN: nat, topK: nat, minSize: int)
    ensures |Ranking(stocks, topN, topK, minSize)| <= topN * topK
  {
    var sized := Sized(stocks, minSize);
    var top := TopIndustries(sized, topN);
    StrongestSize(sized, top, topK);
    MulMono(|top|, topN, topK);
    var rows := Strongest(sized, top, topK);
    assert |SortRanked(rows)| == |multiset(SortRanked(rows))| == |multiset(rows)| == |rows|;
  }

  /** Every reported stock passed the query, belongs to an industry with at
      least `minSize` rows that is among the top `topN`, and carries that
      industry's mean percentile. */
  /** Every top stock of a listed industry is collected with that
      industry's mean. */
  lemma {:induction false} StrongestComplete(stocks: seq<Stock>, industries: seq<Value>, topK: int, ind: Value, s: Stock)
    requires ind in industries && s in TopStocks(stocks, ind, topK)
    ensures Ranked(s, IndustryRs(stocks, ind)) in Strongest(stocks, industries, topK)
    decreases |industries|
  {
    var init := industries[..|industries| - 1];
    var last := industries[|industries| - 1];
    var top := TopStocks(stocks, last, topK);
    var tagged := Tagged(top, IndustryRs(stocks, last));
    var prev := Strongest(stocks, init, topK);
    assert Strongest(stocks, industries, topK) == prev + tagged;
    if last == ind {
      var j :| 0 <= j < |top| && top[j] == s;
      assert tagged[j] == Ranked(s, IndustryRs(stocks, ind));
      assert tagged[j] in prev + tagged;
    } else {
      var k :| 0 <= k < |industries| && industries[k] == ind;
      assert init[k] == ind;
      StrongestComplete(stocks, init, topK, ind, s);
      assert Ranked(s, IndustryRs(stocks, ind)) in prev;
    }
  }

  /** Every top-K stock of every top-N industry is ranked. */
  lemma RankingComplete(stocks: seq<Stock>, topN: int, topK: int, minSize: int, ind: Value, s: Stock)
    requires ind in TopIndustries(Sized(stocks, minSize), topN)
    requires s in TopStocks(Sized(stocks, minSize), ind, topK)
    ensures Ranked(s, IndustryRs(Sized(stocks, minSize), ind)) in Ranking(stocks, topN, topK, minSize)
  {
    var sized := Sized(stocks, minSize);
    StrongestComplete(sized, TopIndustries(sized, topN), topK, ind, s);
    var rows := Strongest(sized, TopIndustries(sized, topN), topK);
    assert Ranked(s, IndustryRs(sized, ind)) in multiset(rows);
  }

  lemma RankingOrigin(stocks: seq<Stock>, topN: int, topK: int, minSize: int)
    ensures forall x :: x in Ranking(stocks, topN, topK, minSize) ==>
              x.stock in stocks && Count(stocks, x.stock.industry) >= minSize &&
              x.stock.industry in TopIndustries(Sized(stocks, minSize), topN) &&
              x.industryRs == IndustryRs(Sized(stocks, minSize), x.stock.industry)
  {
    var sized := Sized(stocks, minSize);
    var top := TopIndustries(sized, topN);
    StrongestOrigin(sized, top, topK);
    forall x | x in Ranking(stocks, topN, topK, minSize)
      ensures x.stock in stocks && Count(stocks, x.stock.industry) >= minSize &&
              x.stock.industry in top && x.industryRs == IndustryRs(sized, x.stock.industry)
    {
      assert x in multiset(Strongest(sized, top, topK));
      var ind := x.stock.industry;
      assert x.stock in multiset(RankedMembers(sized, ind));
      assert x.stock in Members(sized, ind);
    }
  }

  /** The report is ordered by industry mean, then percentile, both
      descending. */
  lemma RankingOrdered(stocks: seq<Stock>, topN: int, topK: int, minSize: int)
    ensures var r := Ranking(stocks, topN, topK, minSize);
            forall i, j :: 0 <= i < j < |r| ==>
              r[i].industryRs > r[j].industryRs ||
              (r[i].industryRs == r[j].industryRs && r[i].stock.rs >= r[j].stock.rs)
  {
    var r := Ranking(stocks, topN, topK, minSize);
    assert SortedBy(r, Before());
  }

  lemma PrefixMembers<T>(s: seq<T>, n: nat)
    requires n <= |s|
    ensures forall j :: 0 <= j < n ==> s[j] in s[..n]
  {
    forall j | 0 <= j < n ensures s[j] in s[..n] {
      assert s[..n][j] == s[j];
    }
  }

  /** No chosen industry has a lower mean than an industry left out. */
  lemma TopIndustriesAreStrongest(stocks: seq<Stock>, topN: int, a: Value, b: Value)
    requires a in TopIndustries(stocks, topN)
    requires b in IndustriesOf(stocks) && b !in TopIndustries(stocks, topN)
    ensures IndustryRs(stocks, a) >= IndustryRs(stocks, b)
  {
    var ranked := RankedIndustries(stocks);
    var top := TopIndustries(stocks, topN);
    assert b in multiset(ranked);
    var j :| 0 <= j < |ranked| && ranked[j] == b;
    var i :| 0 <= i < |top| && top[i] == a;
    PrefixMembers(ranked, |top|);
    assert StrongerIndustry(stocks)(ranked[i], ranked[j]);
  }

  /** Within an industry, no stock left out has a higher percentile than a
      stock kept. */
  lemma TopStocksAreStrongest(stocks: seq<Stock>, industry: Value, topK: int, x: Stock, y: Stock)
    requires x in TopStocks(stocks, industry, topK)
    requires y in multiset(Members(stocks, industry)) - multiset(TopStocks(stocks, industry, topK))
    ensures y.rs <= x.rs
  {
    var ranked := RankedMembers(stocks, industry);
    var top := TopStocks(stocks, industry, topK);
    var rest := ranked[|top|..];
    assert ranked == top + rest;
    assert multiset(ranked) == multiset(top) + multiset(rest);
    assert y in multiset(rest);
    var j :| 0 <= j < |rest| && rest[j] == y;
    var i :| 0 <= i < |top| && top[i] == x;
    assert ranked[|top| + j] == y;
    assert StrongerStock()(ranked[i], ranked[|top| + j]);
  }

  /** Every chosen industry with `topK` or more rows contributes exactly
      `topK` of them. */
  lemma FullIndustriesGiveTopK(stocks: seq<Stock>, industry: Value, topK: nat)
    requires Count(stocks, industry) >= topK
    ensures |TopStocks(stocks, industry, topK)| == topK
  {
    var ranked := RankedMembers(stocks, industry);
    assert |ranked| == |multiset(ranked)| == |multiset(Members(stocks, industry))|;
  }

  /** When no industry reaches the minimum size the report is empty. */
  lemma NoLargeIndustryNoReport(stocks: seq<Stock>, topN: int, topK: int, minSize: int)
    requires forall s :: s in stocks ==> Count(stocks, s.industry) < minSize
    ensures Report(stocks, topN, topK, minSize) == EmptyTable
  {
    var sized := Sized(stocks, minSize);
    PrefixMembers(sized, |sized|);
  }

  /** A reported table lists the leading columns in order, and each row
      holds exactly those columns. */
  lemma ReportShape(stocks: seq<Stock>, topN: int, topK: int, minSize: int)
    ensures var t := Report(stocks, topN, topK, minSize);
            t.rows != [] ==> t.columns == LeadingColumns && forall i :: 0 <= i < |t.rows| ==> t.rows[i].keys == LeadingColumns
    ensures var t := Report(stocks, topN, topK, minSize);
            t.rows != [] ==> |t.rows| == |Ranking(stocks, topN, topK, minSize)|
  {
  }
}
