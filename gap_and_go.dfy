/** Gap and go: within the last few bars, one bar opens above the previous
    close by more than a minimum fraction, on a volume spike, in a long-term
    uptrend. */
module GapAndGo {
  import opened Common
  import opened Windows
  import opened Bars
  import opened Records

  const MinBars := 201
  const DefaultMinGapUpPct := 2.0
  const DefaultVolumeSpikeMultiplier := 1.5
  const DefaultGapLookback := 2
  const Drops := ["id", "isactive", "longbusinesssummary"]
  const LeadingColumns := ["symbol", "gap_pct", "gap_date", "longname", "marketcap"]
  const SortBy := "gap_pct"
  const Ascending := false

  datatype Params = Params(minGapUpPct: real, volumeSpike: real, gapLookback: int)

  function Sma200(bars: seq<Bar>, lib: Talib): Series
  {
    lib(Sma(Close, 200.0), bars)
  }

  function AvgVolume(bars: seq<Bar>, lib: Talib): Series
  {
    lib(Sma(Volume, 20.0), bars)
  }

  /** The gap of bar -i as a fraction of the previous close:
      `(open[-i] - close[-(i+1)]) / close[-(i+1)]`, a float division that
      yields an infinity or NaN on a zero previous close. */
  function Gap(bars: seq<Bar>, i: nat): Float
    requires 1 <= i && |bars| >= i + 1
  {
    var prevClose := bars[|bars| - (i + 1)].close;
    Div(bars[|bars| - i].open - prevClose, prevClose)
  }

  /** Bar -i gaps and goes: both averages are known, the gap fraction is
      strictly above `minGapUpPct / 100`, the volume is strictly above the
      average times the multiplier and the close is strictly above the
      200-bar average. */
  predicate GapAt(bars: seq<Bar>, sma200: Series, avg: Series, p: Params, i: nat)
  {
    var n := |bars|;
    1 <= i && n >= i + 1 && |sma200| == n && |avg| == n &&
    sma200[n - i].Some? && avg[n - i].Some? &&
    Above(Gap(bars, i), p.minGapUpPct / 100.0) &&
    bars[n - i].volume > avg[n - i].value * p.volumeSpike &&
    bars[n - i].close > sma200[n - i].value
  }

  function Matches(bars: seq<Bar>, sma200: Series, avg: Series, p: Params): nat -> bool
  {
    (i: nat) => GapAt(bars, sma200, avg, p, i)
  }

  /** The reported offset: none without 201 + L bars, otherwise the
      smallest offset in 1..L that gaps and goes. */
  function Detect(bars: seq<Bar>, lib: Talib, p: Params): (r: Option<nat>)
    ensures r.Some? ==> |bars| >= MinBars + p.gapLookback && 1 <= r.value <= p.gapLookback &&
                        GapAt(bars, Sma200(bars, lib), AvgVolume(bars, lib), p, r.value)
    ensures r.Some? ==> forall j :: 1 <= j < r.value ==> !GapAt(bars, Sma200(bars, lib), AvgVolume(bars, lib), p, j)
    ensures r.None? <==> |bars| < MinBars + p.gapLookback ||
                         forall j :: 1 <= j <= p.gapLookback ==> !GapAt(bars, Sma200(bars, lib), AvgVolume(bars, lib), p, j)
  {
    var sma200, avg := Sma200(bars, lib), AvgVolume(bars, lib);
    assert forall j: nat :: Matches(bars, sma200, avg, p)(j) == GapAt(bars, sma200, avg, p, j);
    if |bars| < MinBars + p.gapLookback then None
    else FirstMatch(Matches(bars, sma200, avg, p), 1, Span(p.gapLookback))
  }

  /** The reported `gap_pct`: the gap fraction times 100. */
  function GapPct(bars: seq<Bar>, i: nat): Float
    requires 1 <= i && |bars| >= i + 1
  {
    Scale(Gap(bars, i), 100.0)
  }

  /** The reported percentage exceeds the minimum percentage the user asked
      for, whatever the sign of the minimum. */
  lemma GapPctExceedsMinimum(bars: seq<Bar>, lib: Talib, p: Params)
    requires Detect(bars, lib, p).Some?
    ensures Above(GapPct(bars, Detect(bars, lib, p).value), p.minGapUpPct)
  {
    var g := Gap(bars, Detect(bars, lib, p).value);
    if g.Finite? {
      assert g.val > p.minGapUpPct / 100.0;
      assert g.val * 100.0 > p.minGapUpPct / 100.0 * 100.0;
    }
  }

  /** With a positive previous close, the gap condition is the open lying
      strictly above the previous close raised by `minGapUpPct` percent. */
  lemma GapConditionOnPrices(bars: seq<Bar>, i: nat, minGapUpPct: real)
    requires 1 <= i && |bars| >= i + 1 && bars[|bars| - (i + 1)].close > 0.0
    ensures var prevClose := bars[|bars| - (i + 1)].close;
            Above(Gap(bars, i), minGapUpPct / 100.0) <==>
            bars[|bars| - i].open > prevClose * (1.0 + minGapUpPct / 100.0)
  {
    var prevClose := bars[|bars| - (i + 1)].close;
    DivAboveIff(bars[|bars| - i].open - prevClose, prevClose, minGapUpPct / 100.0);
  }

  function Fields(bars: seq<Bar>, i: nat): seq<(string, Value)>
    requires 1 <= i && |bars| >= i + 1
  {
    [("gap_pct", Num(GapPct(bars, i))),
     ("gap_date", Day(Back(bars, i).date))]
  }

  function Evaluate(d: Dict, bars: seq<Bar>, lib: Talib, p: Params): Option<Dict>
  {
    match Detect(bars, lib, p)
    case None => None
    case Some(i) => Some(Enriched(d, Drops, Fields(bars, i)))
  }

  method Scan(bars: seq<Bar>, lib: Talib, p: Params, info: CompanyInfo) returns (r: CompanyInfo?)
    requires info.Valid()
    modifies info
    ensures Evaluate(old(info.Snapshot()), bars, lib, p).None? ==>
              r == null && info.Snapshot() == old(info.Snapshot())
    ensures Evaluate(old(info.Snapshot()), bars, lib, p).Some? ==>
              r == info && info.Valid() && info.Snapshot() == Evaluate(old(info.Snapshot()), bars, lib, p).value
  {
    var n := |bars|;
    if n < MinBars + p.gapLookback {
      return null;
    }
    var sma200 := lib(Sma(Close, 200.0), bars);
    var avg := lib(Sma(Volume, 20.0), bars);
    assert sma200 == Sma200(bars, lib) && avg == AvgVolume(bars, lib);
    var i := 1;
    while i <= p.gapLookback
      invariant 1 <= i <= Span(p.gapLookback) + 1
      invariant forall j :: 1 <= j < i ==> !GapAt(bars, sma200, avg, p, j)
      invariant info.Valid() && info.Snapshot() == old(info.Snapshot())
    {
      if n < i + 1 || sma200[n - i].None? || avg[n - i].None? {
        i := i + 1;
        continue;
      }
      var prevClose := bars[n - (i + 1)].close;
      var gap := Div(bars[n - i].open - prevClose, prevClose);
      var isGapUp := Above(gap, p.minGapUpPct / 100.0);
      var isHighVolume := bars[n - i].volume > avg[n - i].value * p.volumeSpike;
      var isUptrend := bars[n - i].close > sma200[n - i].value;
      if isUptrend && isGapUp && isHighVolume {
        assert GapAt(bars, sma200, avg, p, i);
        FirstMatchIs(Matches(bars, sma200, avg, p), 1, Span(p.gapLookback), i);
        assert Detect(bars, lib, p) == Some(i);
        info.Enrich(Drops, Fields(bars, i));
        return info;
      }
      i := i + 1;
    }
    return null;
  }
}
