/** Bearish RSI divergence: in a long-term uptrend, one of the last few bars
    makes a higher high than the highest bar of the window before it, while
    its RSI is lower than the RSI at that highest bar. */
module BearishRsiDivergence {
  import opened Common
  import opened Windows
  import opened Bars
  import opened Records
  import BullishRsiDivergence

  const DefaultRsiPeriod := 14
  const DefaultDivergenceLookback := 30
  const DefaultSetupLookback := 2
  const Drops := ["id", "isactive", "longbusinesssummary", "bookvalue"]
  const LeadingColumns := ["symbol", "rsi", "divergence_date", "longname", "marketcap"]
  const SortBy := "marketcap"
  const Ascending := false

  datatype Params = Params(rsiPeriod: int, divergenceLookback: nat, setupLookback: int)

  function RsiSeries(bars: seq<Bar>, lib: Talib, p: Params): Series
  {
    lib(Rsi(p.rsiPeriod as real), bars)
  }

  function Sma200(bars: seq<Bar>, lib: Talib): Series
  {
    lib(Sma(Close, 200.0), bars)
  }

  /** The reference bar for bar -i (an index into `bars`): the first bar of
      the D bars before bar -i that holds their highest high. */
  function HighestBefore(bars: seq<Bar>, D: nat, i: nat): (r: nat)
    requires 1 <= i && D >= 1 && |bars| >= D + i
    ensures |bars| - (D + i) <= r < |bars| - i
    ensures forall k :: |bars| - (D + i) <= k < |bars| - i ==> bars[k].high <= bars[r].high
    ensures forall k :: |bars| - (D + i) <= k < r ==> bars[k].high < bars[r].high
  {
    var start := |bars| - (D + i);
    HighestInWindow(bars, start, |bars| - i);
    start + ArgMax(Column(bars[start .. |bars| - i], High))
  }

  /** Bar -i shows the divergence: its RSI and 200-bar average are known,
      the window before it is not empty, it closes strictly above the
      average, its high is strictly above the reference high, and its RSI is
      strictly below the RSI at the reference bar (false when that RSI is
      missing). */
  predicate DivergenceAt(bars: seq<Bar>, rsi: Series, sma200: Series, p: Params, i: nat)
  {
    var n := |bars|;
    var D := p.divergenceLookback;
    1 <= i && n >= D + i && |rsi| == n && |sma200| == n &&
    rsi[n - i].Some? && sma200[n - i].Some? && D >= 1 &&
    var ref := HighestBefore(bars, D, i);
    bars[n - i].close > sma200[n - i].value &&
    bars[n - i].high > bars[ref].high &&
    Lt(rsi[n - i], rsi[ref])
  }

  function Matches(bars: seq<Bar>, rsi: Series, sma200: Series, p: Params): nat -> bool
  {
    (i: nat) => DivergenceAt(bars, rsi, sma200, p, i)
  }

  /** The reported offset: none without D + rsiPeriod + L bars, otherwise
      the smallest offset in 1..L that shows the divergence. */
  function Detect(bars: seq<Bar>, lib: Talib, p: Params): (r: Option<nat>)
    ensures r.Some? ==> |bars| >= p.divergenceLookback + p.rsiPeriod + p.setupLookback &&
                        1 <= r.value <= p.setupLookback &&
                        DivergenceAt(bars, RsiSeries(bars, lib, p), Sma200(bars, lib), p, r.value)
    ensures r.Some? ==> forall j :: 1 <= j < r.value ==>
                          !DivergenceAt(bars, RsiSeries(bars, lib, p), Sma200(bars, lib), p, j)
    ensures r.None? <==> |bars| < p.divergenceLookback + p.rsiPeriod + p.setupLookback ||
                         forall j :: 1 <= j <= p.setupLookback ==>
                           !DivergenceAt(bars, RsiSeries(bars, lib, p), Sma200(bars, lib), p, j)
  {
    var rsi, sma200 := RsiSeries(bars, lib, p), Sma200(bars, lib);
    assert forall j: nat :: Matches(bars, rsi, sma200, p)(j) == DivergenceAt(bars, rsi, sma200, p, j);
    if |bars| < p.divergenceLookback + p.rsiPeriod + p.setupLookback then None
    else FirstMatch(Matches(bars, rsi, sma200, p), 1, Span(p.setupLookback))
  }

  /** A divergence bar's high is a new high for the whole window before it. */
  lemma DivergenceIsNewHigh(bars: seq<Bar>, rsi: Series, sma200: Series, p: Params, i: nat)
    requires DivergenceAt(bars, rsi, sma200, p, i)
    ensures forall k :: |bars| - (p.divergenceLookback + i) <= k < |bars| - i ==>
              bars[|bars| - i].high > bars[k].high
  {
  }

  /** On the same series, one bar never shows both a bullish and a bearish
      divergence: the two demand opposite sides of the 200-bar average. */
  lemma NotBothDivergences(bars: seq<Bar>, rsi: Series, rsi': Series, sma200: Series,
                           p: Params, p': BullishRsiDivergence.Params, i: nat)
    ensures !(DivergenceAt(bars, rsi, sma200, p, i) &&
              BullishRsiDivergence.DivergenceAt(bars, rsi', sma200, p', i))
  {
  }

  function Fields(bars: seq<Bar>, rsi: Series, i: nat): seq<(string, Value)>
    requires 1 <= i <= |bars| && |rsi| == |bars|
  {
    [("rsi", Num(FromOption(Back(rsi, i)))),
     ("divergence_date", Day(Back(bars, i).date))]
  }

  function Evaluate(d: Dict, bars: seq<Bar>, lib: Talib, p: Params): Option<Dict>
  {
    match Detect(bars, lib, p)
    case None => None
    case Some(i) => Some(Enriched(d, Drops, Fields(bars, RsiSeries(bars, lib, p), i)))
  }

  /** One iteration of the offset loop: whether bar -i passes every test. */
  method CheckOffset(bars: seq<Bar>, rsi: Series, sma200: Series, p: Params, i: nat) returns (found: bool)
    requires 1 <= i && |rsi| == |bars| && |sma200| == |bars|
    ensures found <==> DivergenceAt(bars, rsi, sma200, p, i)
  {
    var n := |bars|;
    var D := p.divergenceLookback;
    if n < D + i || rsi[n - i].None? || sma200[n - i].None? {
      return false;
    }
    var window := bars[n - (D + i) .. n - i];
    if |window| == 0 {
      return false;
    }
    var maxDay := (n - (D + i)) + ArgMax(Column(window, High));
    var isNewHigh := bars[n - i].high > bars[maxDay].high;
    var isLowerRsi := Lt(rsi[n - i], rsi[maxDay]);
    var isUptrend := bars[n - i].close > sma200[n - i].value;
    assert maxDay == HighestBefore(bars, D, i);
    found := isUptrend && isNewHigh && isLowerRsi;
  }

  method Scan(bars: seq<Bar>, lib: Talib, p: Params, info: CompanyInfo) returns (r: CompanyInfo?)
    requires info.Valid()
    modifies info
    ensures Evaluate(old(info.Snapshot()), bars, lib, p).None? ==>
              r == null && info.Snapshot() == old(info.Snapshot())
    ensures Evaluate(old(info.Snapshot()), bars, lib, p).Some? ==>
              r == info && info.Valid() && info.Snapshot() == Evaluate(old(info.Snapshot()), bars, lib, p).value
  {
    if |bars| < p.divergenceLookback + p.rsiPeriod + p.setupLookback {
      return null;
    }
    var rsi := lib(Rsi(p.rsiPeriod as real), bars);
    var sma200 := lib(Sma(Close, 200.0), bars);
    assert rsi == RsiSeries(bars, lib, p) && sma200 == Sma200(bars, lib);
    var i := 1;
    while i <= p.setupLookback
      invariant 1 <= i <= Span(p.setupLookback) + 1
      invariant forall j :: 1 <= j < i ==> !DivergenceAt(bars, rsi, sma200, p, j)
      invariant info.Valid() && info.Snapshot() == old(info.Snapshot())
    {
      var found := CheckOffset(bars, rsi, sma200, p, i);
      if found {
        FirstMatchIs(Matches(bars, rsi, sma200, p), 1, Span(p.setupLookback), i);
        assert Detect(bars, lib, p) == Some(i);
        info.Enrich(Drops, Fields(bars, rsi, i));
        return info;
      }
      i := i + 1;
    }
    return null;
  }
}
