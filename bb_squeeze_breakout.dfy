/** Bollinger squeeze breakout: the band width on the bar before a recent
    bar is at or under its rolling quantile (a squeeze), and that recent bar
    closes above the upper band and above the 200-bar average. */
module BbSqueezeBreakout {
  import opened Common
  import opened Windows
  import opened Bars
  import opened Records

  const DefaultBbPeriod := 20
  const DefaultSqueezePeriod := 120
  const DefaultSqueezeQuantile := 0.1
  const DefaultBreakoutLookback := 2
  /** The library's default band deviations, used by this scanner. */
  const DefaultDeviation := 2.0
  const Drops := ["id", "isactive", "longbusinesssummary"]
  const LeadingColumns := ["symbol", "breakout_date", "longname", "industry", "marketcap"]
  const SortBy := "marketcap"
  const Ascending := false

  datatype Params = Params(bbPeriod: int, squeezePeriod: int, squeezeQuantile: real, breakoutLookback: int)

  /** The three bands, the 200-bar average and the rolling quantile of the
      band width. */
  datatype Bands = Bands(upper: Series, middle: Series, lower: Series, sma200: Series, threshold: Series)

  function BandsOf(bars: seq<Bar>, lib: Talib, p: Params): (b: Bands)
    ensures |b.upper| == |b.middle| == |b.lower| == |b.sma200| == |b.threshold| == |bars|
  {
    var bp := p.bbPeriod as real;
    Bands(lib(BbUpper(bp, DefaultDeviation, DefaultDeviation), bars),
          lib(BbMiddle(bp, DefaultDeviation, DefaultDeviation), bars),
          lib(BbLower(bp, DefaultDeviation, DefaultDeviation), bars),
          lib(Sma(Close, 200.0), bars),
          lib(WidthQuantile(bp, p.squeezePeriod as real, p.squeezeQuantile), bars))
  }

  /** `(upper - lower) / middle` at index k: NaN when a band is missing,
      an infinity or NaN when the middle band is zero. */
  function Width(b: Bands, k: nat): (w: Float)
    requires k < |b.upper| && k < |b.middle| && k < |b.lower|
    ensures w.NaN? <==> b.upper[k].None? || b.middle[k].None? || b.lower[k].None? ||
                        (b.middle[k].value == 0.0 && b.upper[k].value == b.lower[k].value)
  {
    if b.upper[k].None? || b.middle[k].None? || b.lower[k].None? then NaN
    else Div(b.upper[k].value - b.lower[k].value, b.middle[k].value)
  }

  /** Bar -i is a squeeze breakout: its width and average are known, the
      width on bar -(i+1) is at most the threshold there, and the close of
      bar -i is strictly above both the upper band and the average. */
  predicate BreakoutAt(bars: seq<Bar>, b: Bands, i: nat)
    requires |b.upper| == |b.middle| == |b.lower| == |b.sma200| == |b.threshold| == |bars|
  {
    var n := |bars|;
    1 <= i && n >= i + 1 &&
    !Width(b, n - i).NaN? && b.sma200[n - i].Some? &&
    b.threshold[n - (i + 1)].Some? && AtMost(Width(b, n - (i + 1)), b.threshold[n - (i + 1)].value) &&
    Gt(Some(bars[n - i].close), b.upper[n - i]) &&
    bars[n - i].close > b.sma200[n - i].value
  }

  function Matches(bars: seq<Bar>, b: Bands): nat -> bool
    requires |b.upper| == |b.middle| == |b.lower| == |b.sma200| == |b.threshold| == |bars|
  {
    (i: nat) => BreakoutAt(bars, b, i)
  }

  /** The reported offset: none with fewer than squeeze_period bars or
      fewer than L + 1 bars, otherwise the smallest breakout offset in 1..L. */
  function Detect(bars: seq<Bar>, lib: Talib, p: Params): (r: Option<nat>)
    ensures r.Some? ==> |bars| >= p.squeezePeriod && |bars| >= p.breakoutLookback + 1 &&
                        1 <= r.value <= p.breakoutLookback && BreakoutAt(bars, BandsOf(bars, lib, p), r.value)
    ensures r.Some? ==> forall j :: 1 <= j < r.value ==> !BreakoutAt(bars, BandsOf(bars, lib, p), j)
    ensures r.None? <==> |bars| < p.squeezePeriod || |bars| < p.breakoutLookback + 1 ||
                         forall j :: 1 <= j <= p.breakoutLookback ==> !BreakoutAt(bars, BandsOf(bars, lib, p), j)
  {
    var b := BandsOf(bars, lib, p);
    assert forall j: nat :: Matches(bars, b)(j) == BreakoutAt(bars, b, j);
    if |bars| < p.squeezePeriod || |bars| < p.breakoutLookback + 1 then None
    else FirstMatch(Matches(bars, b), 1, Span(p.breakoutLookback))
  }

  /** With a positive middle band, the squeeze on the bar before the
      breakout says the band spread there is at most the threshold times
      the middle band. */
  lemma SqueezeBoundsSpread(bars: seq<Bar>, b: Bands, i: nat)
    requires |b.upper| == |b.middle| == |b.lower| == |b.sma200| == |b.threshold| == |bars|
    requires BreakoutAt(bars, b, i)
    requires b.middle[|bars| - (i + 1)].Some? && b.middle[|bars| - (i + 1)].value > 0.0
    ensures var k := |bars| - (i + 1);
            b.upper[k].Some? && b.lower[k].Some? &&
            b.upper[k].value - b.lower[k].value <= b.threshold[k].value * b.middle[k].value
  {
    var k := |bars| - (i + 1);
    DivAtMostIff(b.upper[k].value - b.lower[k].value, b.middle[k].value, b.threshold[k].value);
  }

  function Fields(bars: seq<Bar>, i: nat): seq<(string, Value)>
    requires 1 <= i <= |bars|
  {
    [("breakout_date", Day(Back(bars, i).date))]
  }

  function Evaluate(d: Dict, bars: seq<Bar>, lib: Talib, p: Params): Option<Dict>
  {
    match Detect(bars, lib, p)
    case None => None
    case Some(i) => Some(Enriched(d, Drops, Fields(bars, i)))
  }

  /** One iteration of the offset loop (the threshold series is recomputed
      each time, as a pure value). */
  method CheckOffset(bars: seq<Bar>, lib: Talib, p: Params, b: Bands, i: nat) returns (found: bool)
    requires b == BandsOf(bars, lib, p) && 1 <= i && |bars| >= i + 1
    ensures found <==> BreakoutAt(bars, b, i)
  {
    var n := |bars|;
    if Width(b, n - i).NaN? || b.sma200[n - i].None? {
      return false;
    }
    var threshold := lib(WidthQuantile(p.bbPeriod as real, p.squeezePeriod as real, p.squeezeQuantile), bars);
    var isInSqueeze := threshold[n - (i + 1)].Some? && AtMost(Width(b, n - (i + 1)), threshold[n - (i + 1)].value);
    var isBreakout := Gt(Some(bars[n - i].close), b.upper[n - i]);
    var isUptrend := bars[n - i].close > b.sma200[n - i].value;
    found := isUptrend && isInSqueeze && isBreakout;
  }

  method Scan(bars: seq<Bar>, lib: Talib, p: Params, info: CompanyInfo) returns (r: CompanyInfo?)
    requires info.Valid()
    modifies info
    ensures Evaluate(old(info.Snapshot()), bars, lib, p).None? ==>
              r == null && info.Snapshot() == old(info.Snapshot())
    ensures Evaluate(old(info.Snapshot()), bars, lib, p).Some? ==>
              r == info && info.Valid() && info.Snapshot() == Evaluate(old(info.Snapshot()), bars, lib, p).value
  {
    var n := |bars|;
    if n < p.squeezePeriod {
      return null;
    }
    var b := BandsOf(bars, lib, p);
    if n < p.breakoutLookback + 1 {
      return null;
    }
    var i := 1;
    while i <= p.breakoutLookback
      invariant 1 <= i <= Span(p.breakoutLookback) + 1
      invariant forall j :: 1 <= j < i ==> !BreakoutAt(bars, b, j)
      invariant info.Valid() && info.Snapshot() == old(info.Snapshot())
    {
      var found := CheckOffset(bars, lib, p, b, i);
      if found {
        FirstMatchIs(Matches(bars, b), 1, Span(p.breakoutLookback), i);
        assert Detect(bars, lib, p) == Some(i);
        info.Enrich(Drops, Fields(bars, i));
        return info;
      }
      i := i + 1;
    }
    return null;
  }
}
