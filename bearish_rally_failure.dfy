/** Bearish rally failure: in a long-term downtrend, a relief rally makes a
    higher high than the window before it while its RSI is lower than at
    that window's highest bar. */
module BearishRallyFailure {
  import opened Common
  import opened Windows
  import opened Bars
  import opened Records
  import BearishRsiDivergence

  const DefaultRsiPeriod := 7
  const DefaultDivergenceLookback := 30
  const DefaultSetupLookback := 2
  const Drops := ["id", "isactive", "longbusinesssummary", "bookvalue"]
  const LeadingColumns := ["symbol", "rsi", "divergence_date", "longname", "marketcap"]
  const SortBy := "marketcap"
  const Ascending := false

  datatype Params = Params(rsiPeriod: int, divergenceLookback: nat, setupLookback: int)

  function RsiSeries(bars: seq<Bar>, lib: Talib, p: Params): Series
  {
    lib(Rsi(p.rsiPeriod as real), bars)
  }

  function Sma200(bars: seq<Bar>, lib: Talib): Series
  {
    lib(Sma(Close, 200.0), bars)
  }

  /** Bar -i fails its rally: RSI and 200-bar average known, a non-empty
      window before it, a close strictly below the average, a high strictly
      above the window's highest high and an RSI strictly below the RSI at
      that highest bar. */
  predicate FailureAt(bars: seq<Bar>, rsi: Series, sma200: Series, p: Params, i: nat)
  {
    var n := |bars|;
    var D := p.divergenceLookback;
    1 <= i && n >= D + i && |rsi| == n && |sma200| == n &&
    rsi[n - i].Some? && sma200[n - i].Some? && D >= 1 &&
    var ref := BearishRsiDivergence.HighestBefore(bars, D, i);
    bars[n - i].close < sma200[n - i].value &&
    bars[n - i].high > bars[ref].high &&
    Lt(rsi[n - i], rsi[ref])
  }

  function Matches(bars: seq<Bar>, rsi: Series, sma200: Series, p: Params): nat -> bool
  {
    (i: nat) => FailureAt(bars, rsi, sma200, p, i)
  }

  /** The reported offset: none without D + rsiPeriod + L bars, otherwise
      the smallest offset in 1..L where the rally fails. */
  function Detect(bars: seq<Bar>, lib: Talib, p: Params): (r: Option<nat>)
    ensures r.Some? ==> |bars| >= p.divergenceLookback + p.rsiPeriod + p.setupLookback &&
                        1 <= r.value <= p.setupLookback &&
                        FailureAt(bars, RsiSeries(bars, lib, p), Sma200(bars, lib), p, r.value)
    ensures r.Some? ==> forall j :: 1 <= j < r.value ==>
                          !FailureAt(bars, RsiSeries(bars, lib, p), Sma200(bars, lib), p, j)
    ensures r.None? <==> |bars| < p.divergenceLookback + p.rsiPeriod + p.setupLookback ||
                         forall j :: 1 <= j <= p.setupLookback ==>
                           !FailureAt(bars, RsiSeries(bars, lib, p), Sma200(bars, lib), p, j)
  {
    var rsi, sma200 := RsiSeries(bars, lib, p), Sma200(bars, lib);
    assert forall j: nat :: Matches(bars, rsi, sma200, p)(j) == FailureAt(bars, rsi, sma200, p, j);
    if |bars| < p.divergenceLookback + p.rsiPeriod + p.setupLookback then None
    else FirstMatch(Matches(bars, rsi, sma200, p), 1, Span(p.setupLookback))
  }

  /** A rally failure is never a bearish divergence at the same bar: the
      two patterns ask for the close on opposite sides of the 200-bar
      average. */
  lemma FailureMirrorsDivergence(bars: seq<Bar>, rsi: Series, sma200: Series, p: Params, i: nat)
    requires FailureAt(bars, rsi, sma200, p, i)
    ensures !BearishRsiDivergence.DivergenceAt(bars, rsi, sma200,
               BearishRsiDivergence.Params(p.rsiPeriod, p.divergenceLookback, p.setupLookback), i)
  {
  }

  function Fields(bars: seq<Bar>, rsi: Series, i: nat): seq<(string, Value)>
    requires 1 <= i <= |bars| && |rsi| == |bars|
  {
    [("rsi", Num(FromOption(Back(rsi, i)))),
     ("divergence_date", Day(Back(bars, i).date))]
  }

  function Evaluate(d: Dict, bars: seq<Bar>, lib: Talib, p: Params): Option<Dict>
  {
    match Detect(bars, lib, p)
    case None => None
    case Some(i) => Some(Enriched(d, Drops, Fields(bars, RsiSeries(bars, lib, p), i)))
  }

  /** One iteration of the offset loop: whether bar -i passes every test. */
  method CheckOffset(bars: seq<Bar>, rsi: Series, sma200: Series, p: Params, i: nat) returns (found: bool)
    requires 1 <= i && |rsi| == |bars| && |sma200| == |bars|
    ensures found <==> FailureAt(bars, rsi, sma200, p, i)
  {
    var n := |bars|;
    var D := p.divergenceLookback;
    if n < D + i || rsi[n - i].None? || sma200[n - i].None? {
      return false;
    }
    var window := bars[n - (D + i) .. n - i];
    if |window| == 0 {
      return false;
    }
    var maxDay := (n - (D + i)) + ArgMax(Column(window, High));
    var isHigherHigh := bars[n - i].high > bars[maxDay].high;
    var isLowerRsi := Lt(rsi[n - i], rsi[maxDay]);
    var isDowntrend := bars[n - i].close < sma200[n - i].value;
    assert maxDay == BearishRsiDivergence.HighestBefore(bars, D, i);
    found := isDowntrend && isHigherHigh && isLowerRsi;
  }

  method Scan(bars: seq<Bar>, lib: Talib, p: Params, info: CompanyInfo) returns (r: CompanyInfo?)
    requires info.Valid()
    modifies info
    ensures Evaluate(old(info.Snapshot()), bars, lib, p).None? ==>
              r == null && info.Snapshot() == old(info.Snapshot())
    ensures Evaluate(old(info.Snapshot()), bars, lib, p).Some? ==>
              r == info && info.Valid() && info.Snapshot() == Evaluate(old(info.Snapshot()), bars, lib, p).value
  {
    if |bars| < p.divergenceLookback + p.rsiPeriod + p.setupLookback {
      return null;
    }
    var rsi := lib(Rsi(p.rsiPeriod as real), bars);
    var sma200 := lib(Sma(Close, 200.0), bars);
    assert rsi == RsiSeries(bars, lib, p) && sma200 == Sma200(bars, lib);
    var i := 1;
    while i <= p.setupLookback
      invariant 1 <= i <= Span(p.setupLookback) + 1
      invariant forall j :: 1 <= j < i ==> !FailureAt(bars, rsi, sma200, p, j)
      invariant info.Valid() && info.Snapshot() == old(info.Snapshot())
    {
      var found := CheckOffset(bars, rsi, sma200, p, i);
      if found {
        FirstMatchIs(Matches(bars, rsi, sma200, p), 1, Span(p.setupLookback), i);
        assert Detect(bars, lib, p) == Some(i);
        info.Enrich(Drops, Fields(bars, rsi, i));
        return info;
      }
      i := i + 1;
    }
    return null;
  }
}
