/** RSI oversold pullback: within the last few bars the RSI dips under the
    oversold level while the 200-bar average is rising and the close stays
    within 5% of it. */
module RsiOversold {
  import opened Common
  import opened Windows
  import opened Bars
  import opened Records

  const DefaultRsiPeriod := 14
  const DefaultThreshold := 30.0
  const DefaultSetupLookback := 2
  /** Bars needed before any offset is examined, besides the lookback. */
  const MinBars := 201
  /** How many bars back the slope of the 200-bar average is measured. */
  const SlopeBars := 5
  const Drops := ["id", "isactive", "longbusinesssummary"]
  const LeadingColumns := ["symbol", "rsi", "sma200", "setup_date", "longname", "sector", "marketcap"]
  const SortBy := "rsi"
  const Ascending := true

  datatype Params = Params(rsiPeriod: int, threshold: real, setupLookback: int)

  function RsiSeries(bars: seq<Bar>, lib: Talib, p: Params): Series
  {
    lib(Rsi(p.rsiPeriod as real), bars)
  }

  function Sma200(bars: seq<Bar>, lib: Talib): Series
  {
    lib(Sma(Close, 200.0), bars)
  }

  /** Bar -i is an oversold pullback: RSI at bar -i and the average at bars
      -i and -(i+5) are known, the RSI is strictly under the threshold, the
      average rose strictly over those five bars and the close is strictly
      above 95% of the average. */
  predicate OversoldAt(bars: seq<Bar>, rsi: Series, sma200: Series, threshold: real, i: nat)
  {
    var n := |bars|;
    1 <= i && |rsi| == n && |sma200| == n && n >= i + SlopeBars &&
    rsi[n - i].Some? && sma200[n - i].Some? && sma200[n - i - SlopeBars].Some? &&
    rsi[n - i].value < threshold &&
    sma200[n - i].value > sma200[n - i - SlopeBars].value &&
    bars[n - i].close > sma200[n - i].value * 0.95
  }

  function Matches(bars: seq<Bar>, rsi: Series, sma200: Series, threshold: real): nat -> bool
  {
    (i: nat) => OversoldAt(bars, rsi, sma200, threshold, i)
  }

  /** The reported offset: none without 201 + L bars, otherwise the smallest
      offset in 1..L that is an oversold pullback. */
  function Detect(bars: seq<Bar>, lib: Talib, p: Params): (r: Option<nat>)
    ensures r.Some? ==> |bars| >= MinBars + p.setupLookback && 1 <= r.value <= p.setupLookback &&
                        OversoldAt(bars, RsiSeries(bars, lib, p), Sma200(bars, lib), p.threshold, r.value)
    ensures r.Some? ==> forall j :: 1 <= j < r.value ==>
                          !OversoldAt(bars, RsiSeries(bars, lib, p), Sma200(bars, lib), p.threshold, j)
    ensures r.None? <==> |bars| < MinBars + p.setupLookback ||
                         forall j :: 1 <= j <= p.setupLookback ==>
                           !OversoldAt(bars, RsiSeries(bars, lib, p), Sma200(bars, lib), p.threshold, j)
  {
    var rsi, sma200 := RsiSeries(bars, lib, p), Sma200(bars, lib);
    assert forall j: nat :: Matches(bars, rsi, sma200, p.threshold)(j) == OversoldAt(bars, rsi, sma200, p.threshold, j);
    if |bars| < MinBars + p.setupLookback then None
    else FirstMatch(Matches(bars, rsi, sma200, p.threshold), 1, Span(p.setupLookback))
  }

  /** Searching further back never changes a setup already found: with a
      longer lookback (and enough bars for it) the same offset is reported. */
  lemma LongerLookbackKeepsSetup(bars: seq<Bar>, lib: Talib, p: Params, lookback: int)
    requires Detect(bars, lib, p).Some?
    requires p.setupLookback <= lookback && |bars| >= MinBars + lookback
    ensures Detect(bars, lib, p.(setupLookback := lookback)) == Detect(bars, lib, p)
  {
    var rsi, sma200 := RsiSeries(bars, lib, p), Sma200(bars, lib);
    var m := Matches(bars, rsi, sma200, p.threshold);
    assert forall j: nat :: m(j) == OversoldAt(bars, rsi, sma200, p.threshold, j);
    FirstMatchStable(m, 1, Span(p.setupLookback), Span(lookback));
  }

  function Fields(bars: seq<Bar>, rsi: Series, sma200: Series, i: nat): seq<(string, Value)>
    requires 1 <= i <= |bars| && |rsi| == |bars| && |sma200| == |bars|
  {
    [("rsi", Num(FromOption(Back(rsi, i)))),
     ("sma200", Num(FromOption(Back(sma200, i)))),
     ("setup_date", Day(Back(bars, i).date))]
  }

  function Evaluate(d: Dict, bars: seq<Bar>, lib: Talib, p: Params): Option<Dict>
  {
    match Detect(bars, lib, p)
    case None => None
    case Some(i) => Some(Enriched(d, Drops, Fields(bars, RsiSeries(bars, lib, p), Sma200(bars, lib), i)))
  }

  /** The reported RSI is a known value strictly under the threshold, and
      the reported average is the known average at the reported bar. */
  lemma ReportedValues(bars: seq<Bar>, lib: Talib, p: Params)
    requires Detect(bars, lib, p).Some?
    ensures var i := Detect(bars, lib, p).value;
            var fs := Fields(bars, RsiSeries(bars, lib, p), Sma200(bars, lib), i);
            fs[0].0 == "rsi" && fs[0].1.Num? && fs[0].1.x.Finite? && fs[0].1.x.val < p.threshold &&
            fs[1].0 == "sma200" && fs[1].1.Num? && fs[1].1.x.Finite? &&
            Some(fs[1].1.x.val) == Back(Sma200(bars, lib), i)
  {
  }

  /** The first oversold pullback the offset loop finds is the reported
      one. */
  lemma DetectIs(bars: seq<Bar>, lib: Talib, p: Params, i: nat)
    requires |bars| >= MinBars + p.setupLookback && 1 <= i <= p.setupLookback
    requires OversoldAt(bars, RsiSeries(bars, lib, p), Sma200(bars, lib), p.threshold, i)
    requires forall j :: 1 <= j < i ==> !OversoldAt(bars, RsiSeries(bars, lib, p), Sma200(bars, lib), p.threshold, j)
    ensures Detect(bars, lib, p) == Some(i)
  {
    FirstMatchIs(Matches(bars, RsiSeries(bars, lib, p), Sma200(bars, lib), p.threshold), 1, Span(p.setupLookback), i);
  }

  method Scan(bars: seq<Bar>, lib: Talib, p: Params, info: CompanyInfo) returns (r: CompanyInfo?)
    requires info.Valid()
    modifies info
    ensures Evaluate(old(info.Snapshot()), bars, lib, p).None? ==>
              r == null && info.Snapshot() == old(info.Snapshot())
    ensures Evaluate(old(info.Snapshot()), bars, lib, p).Some? ==>
              r == info && info.Valid() && info.Snapshot() == Evaluate(old(info.Snapshot()), bars, lib, p).value
  {
    var n := |bars|;
    if n < MinBars + p.setupLookback {
      return null;
    }
    var rsi := lib(Rsi(p.rsiPeriod as real), bars);
    var sma200 := lib(Sma(Close, 200.0), bars);
    assert rsi == RsiSeries(bars, lib, p) && sma200 == Sma200(bars, lib);
    var i := 1;
    while i <= p.setupLookback
      invariant 1 <= i <= Span(p.setupLookback) + 1
      invariant forall j :: 1 <= j < i ==> !OversoldAt(bars, rsi, sma200, p.threshold, j)
      invariant info.Valid() && info.Snapshot() == old(info.Snapshot())
    {
      if |rsi| < i + 5 || |sma200| < i + 5 || rsi[n - i].None? || sma200[n - i].None? || sma200[n - i - 5].None? {
        i := i + 1;
        continue;
      }
      var isOversold := rsi[n - i].value < p.threshold;
      var isSmaRising := sma200[n - i].value > sma200[n - i - 5].value;
      var isPriceCloseToSma := bars[n - i].close > sma200[n - i].value * 0.95;
      var isUptrend := isSmaRising && isPriceCloseToSma;
      if isOversold && isUptrend {
        assert OversoldAt(bars, rsi, sma200, p.threshold, i);
        DetectIs(bars, lib, p, i);
        info.Enrich(Drops, Fields(bars, rsi, sma200, i));
        return info;
      }
      i := i + 1;
    }
    assert Detect(bars, lib, p).None?;
    return null;
  }
}
