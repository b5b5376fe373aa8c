/** Wyckoff spring: after a tight trading range ("box"), one of the last few
    bars dips below the range's support and closes back above it on light
    volume, with the close in the upper part of the bar. */
module WyckoffSpring {
  import opened Common
  import opened Windows
  import opened Bars
  import opened Records

  const DefaultSupportPeriod := 60
  const DefaultMaxVolumeRatio := 1.2
  const DefaultMaxBoxHeightPct := 10.0
  const DefaultMinClosePositionPct := 50.0
  const DefaultSetupLookback := 2
  const Drops := ["id", "isactive", "longbusinesssummary"]
  const LeadingColumns := ["symbol", "spring_date", "support_level", "longname", "marketcap"]
  const SortBy := "marketcap"
  const Ascending := false

  datatype Params = Params(supportPeriod: nat, maxVolumeRatio: real, maxBoxHeightPct: real,
                           minClosePositionPct: real, setupLookback: int)

  /** The box before bar -i: the `supportPeriod` bars immediately before it. */
  function Box(bars: seq<Bar>, S: nat, i: nat): seq<Bar>
    requires 1 <= i && |bars| >= S + i
  {
    bars[|bars| - (S + i) .. |bars| - i]
  }

  /** The height of a box in percent of its low; 0 when the low is not
      positive. */
  function BoxHeightPct(boxHigh: real, boxLow: real): real
  {
    if boxLow > 0.0 then (boxHigh - boxLow) / boxLow * 100.0 else 0.0
  }

  predicate TightBox(boxHigh: real, boxLow: real, maxPct: real)
  {
    0.0 < BoxHeightPct(boxHigh, boxLow) < maxPct
  }

  /** A box whose low is not positive is never tight. */
  lemma NonPositiveLowNeverTight(boxHigh: real, boxLow: real, maxPct: real)
    requires boxLow <= 0.0
    ensures !TightBox(boxHigh, boxLow, maxPct)
  {
  }

  /** A tight box with a positive low has a high strictly above its low. */
  lemma TightBoxHasHeight(boxHigh: real, boxLow: real, maxPct: real)
    requires TightBox(boxHigh, boxLow, maxPct)
    ensures boxLow > 0.0 && boxHigh > boxLow
  {
    var q := (boxHigh - boxLow) / boxLow;
    assert q * boxLow == boxHigh - boxLow;
    assert q > 0.0;
  }

  /** Bar -i is a spring: both averages are known, the box is not empty and
      tight, the bar has a non-zero range, its low is strictly below the
      box's lowest low (the support) and its close strictly above it, it
      closes at least `minClosePositionPct` percent up its range, and its
      volume relative to the 20-bar average is strictly below the limit. */
  predicate SpringAt(bars: seq<Bar>, sma50: Series, avg: Series, p: Params, i: nat)
  {
    var n := |bars|;
    var S := p.supportPeriod;
    1 <= i && n >= S + i && |avg| == n && |sma50| == n &&
    avg[n - i].Some? && sma50[n - i].Some? && S >= 1 &&
    var box := Box(bars, S, i);
    var support := Min(Column(box, Low));
    var b := bars[n - i];
    TightBox(Max(Column(box, High)), support, p.maxBoxHeightPct) &&
    b.high - b.low != 0.0 &&
    ClosePosition(b) >= p.minClosePositionPct &&
    b.low < support < b.close &&
    Below(Div(b.volume, avg[n - i].value), p.maxVolumeRatio)
  }

  function Sma50(bars: seq<Bar>, lib: Talib): Series
  {
    lib(Sma(Close, 50.0), bars)
  }

  function AvgVolume(bars: seq<Bar>, lib: Talib): Series
  {
    lib(Sma(Volume, 20.0), bars)
  }

  function Matches(bars: seq<Bar>, sma50: Series, avg: Series, p: Params): nat -> bool
  {
    (i: nat) => SpringAt(bars, sma50, avg, p, i)
  }

  /** The reported offset: none without supportPeriod + 1 + L bars,
      otherwise the smallest offset in 1..L that is a spring. */
  function Detect(bars: seq<Bar>, lib: Talib, p: Params): (r: Option<nat>)
    ensures r.Some? ==> |bars| >= p.supportPeriod + 1 + p.setupLookback && 1 <= r.value <= p.setupLookback &&
                        SpringAt(bars, Sma50(bars, lib), AvgVolume(bars, lib), p, r.value)
    ensures r.Some? ==> forall j :: 1 <= j < r.value ==> !SpringAt(bars, Sma50(bars, lib), AvgVolume(bars, lib), p, j)
    ensures r.None? <==> |bars| < p.supportPeriod + 1 + p.setupLookback ||
                         forall j :: 1 <= j <= p.setupLookback ==>
                           !SpringAt(bars, Sma50(bars, lib), AvgVolume(bars, lib), p, j)
  {
    var sma50, avg := Sma50(bars, lib), AvgVolume(bars, lib);
    assert forall j: nat :: Matches(bars, sma50, avg, p)(j) == SpringAt(bars, sma50, avg, p, j);
    if |bars| < p.supportPeriod + 1 + p.setupLookback then None
    else FirstMatch(Matches(bars, sma50, avg, p), 1, Span(p.setupLookback))
  }

  /** The reported support level: the lowest low of the box. */
  function Support(bars: seq<Bar>, p: Params, i: nat): real
    requires 1 <= i && |bars| >= p.supportPeriod + i && p.supportPeriod >= 1
  {
    Min(Column(Box(bars, p.supportPeriod, i), Low))
  }

  /** The support level reported for a spring is a low of one of the box's
      bars, no box bar is lower, and the spring bar's low pierces it while
      its close recovers above it. */
  lemma SpringSupport(bars: seq<Bar>, lib: Talib, p: Params)
    requires Detect(bars, lib, p).Some?
    ensures var i := Detect(bars, lib, p).value;
            var n := |bars|;
            var s := Support(bars, p, i);
            (exists k :: n - (p.supportPeriod + i) <= k < n - i && bars[k].low == s) &&
            (forall k :: n - (p.supportPeriod + i) <= k < n - i ==> s <= bars[k].low) &&
            bars[n - i].low < s < bars[n - i].close
  {
    var i := Detect(bars, lib, p).value;
    BoxSupport(bars, p, i);
  }

  /** The support of the box before bar -i is the low of one of its bars,
      and no bar of the box is lower. */
  lemma BoxSupport(bars: seq<Bar>, p: Params, i: nat)
    requires 1 <= i && |bars| >= p.supportPeriod + i && p.supportPeriod >= 1
    ensures var n := |bars|;
            var s := Support(bars, p, i);
            (exists k :: n - (p.supportPeriod + i) <= k < n - i && bars[k].low == s) &&
            (forall k :: n - (p.supportPeriod + i) <= k < n - i ==> s <= bars[k].low)
  {
    var n := |bars|;
    var start := n - (p.supportPeriod + i);
    var lows := Column(Box(bars, p.supportPeriod, i), Low);
    var s := Support(bars, p, i);
    var m :| 0 <= m < |lows| && lows[m] == s;
    assert bars[start + m].low == s;
    forall k | start <= k < n - i ensures s <= bars[k].low {
      assert lows[k - start] == bars[k].low;
    }
  }

  function Fields(bars: seq<Bar>, p: Params, i: nat): seq<(string, Value)>
    requires 1 <= i && |bars| >= p.supportPeriod + i && p.supportPeriod >= 1
  {
    [("support_level", Real(Support(bars, p, i))),
     ("spring_date", Day(Back(bars, i).date))]
  }

  function Evaluate(d: Dict, bars: seq<Bar>, lib: Talib, p: Params): Option<Dict>
  {
    match Detect(bars, lib, p)
    case None => None
    case Some(i) => Some(Enriched(d, Drops, Fields(bars, p, i)))
  }

  /** One pass of the offset loop: whether bar -i is a spring, computed as
      the scanner does (the early exits are its `continue`s). */
  method CheckOffset(bars: seq<Bar>, sma50: Series, avg: Series, p: Params, i: nat) returns (spring: bool)
    requires |sma50| == |bars| && |avg| == |bars| && 1 <= i <= |bars|
    ensures spring <==> SpringAt(bars, sma50, avg, p, i)
  {
    var n := |bars|;
    var S := p.supportPeriod;
    if n < S + i || avg[n - i].None? || sma50[n - i].None? {
      return false;
    }
    var box := bars[n - (S + i) .. n - i];
    if |box| == 0 {
      return false;
    }
    assert box == Box(bars, S, i) && S >= 1;
    var boxHigh := Max(Column(box, High));
    var boxLow := Min(Column(box, Low));
    var boxHeightPct := BoxHeightPct(boxHigh, boxLow);
    var isTightBox := boxHeightPct > 0.0 && boxHeightPct < p.maxBoxHeightPct;
    var support := boxLow;
    var b := bars[n - i];
    var barRange := b.high - b.low;
    if barRange == 0.0 {
      return false;
    }
    var closePos := ClosePosition(b);
    var hasLongTail := closePos >= p.minClosePositionPct;
    var isSpringAction := b.low < support && b.close > support;
    var isLowVolume := Below(Div(b.volume, avg[n - i].value), p.maxVolumeRatio);
    return isTightBox && isSpringAction && hasLongTail && isLowVolume;
  }

  /** The first spring found by the offset loop is the reported one. */
  lemma DetectIs(bars: seq<Bar>, lib: Talib, p: Params, i: nat)
    requires |bars| >= p.supportPeriod + 1 + p.setupLookback && 1 <= i <= p.setupLookback
    requires SpringAt(bars, Sma50(bars, lib), AvgVolume(bars, lib), p, i)
    requires forall j :: 1 <= j < i ==> !SpringAt(bars, Sma50(bars, lib), AvgVolume(bars, lib), p, j)
    ensures Detect(bars, lib, p) == Some(i)
  {
    FirstMatchIs(Matches(bars, Sma50(bars, lib), AvgVolume(bars, lib), p), 1, Span(p.setupLookback), i);
  }

  method Scan(bars: seq<Bar>, lib: Talib, p: Params, info: CompanyInfo) returns (r: CompanyInfo?)
    requires info.Valid()
    modifies info
    ensures Evaluate(old(info.Snapshot()), bars, lib, p).None? ==>
              r == null && info.Snapshot() == old(info.Snapshot())
    ensures Evaluate(old(info.Snapshot()), bars, lib, p).Some? ==>
              r == info && info.Valid() && info.Snapshot() == Evaluate(old(info.Snapshot()), bars, lib, p).value
  {
    var n := |bars|;
    if n < p.supportPeriod + 1 + p.setupLookback {
      return null;
    }
    var sma50 := lib(Sma(Close, 50.0), bars);
    var avg := lib(Sma(Volume, 20.0), bars);
    assert sma50 == Sma50(bars, lib) && avg == AvgVolume(bars, lib);
    var i := 1;
    while i <= p.setupLookback
      invariant 1 <= i <= Span(p.setupLookback) + 1
      invariant forall j :: 1 <= j < i ==> !SpringAt(bars, sma50, avg, p, j)
      invariant info.Valid() && info.Snapshot() == old(info.Snapshot())
    {
      var spring := CheckOffset(bars, sma50, avg, p, i);
      if spring {
        DetectIs(bars, lib, p, i);
        info.Enrich(Drops, Fields(bars, p, i));
        return info;
      }
      i := i + 1;
    }
    return null;
  }
}
