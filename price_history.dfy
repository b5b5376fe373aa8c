/** The price history the scan template loads for each candidate: split
    adjustment of the OHLC prices, and the rolling average volume that
    decides whether a company is liquid enough to be scanned. */
module PriceHistory {
  import opened Common
  import opened Windows
  import opened Bars

  // -------------------------------------------------------- split adjustment

  /** A stored coefficient of 0 is read as 1. */
  function Coefficient(b: Bar): (c: real)
    ensures c != 0.0
    ensures b.split != 0.0 ==> c == b.split
  {
    if b.split == 0.0 then 1.0 else b.split
  }

  /** The product of the coefficients from bar k through the last bar
      (the reversed cumulative product). */
  function CumSplit(bars: seq<Bar>, k: nat): (r: real)
    requires k <= |bars|
    ensures r != 0.0
    decreases |bars| - k
  {
    if k == |bars| then 1.0
    else
      var rest := CumSplit(bars, k + 1);
      assert Coefficient(bars[k]) != 0.0 && rest != 0.0;
      Coefficient(bars[k]) * rest
  }

  function Divided(b: Bar, c: real): Bar
    requires c != 0.0
  {
    b.(open := b.open / c, high := b.high / c, low := b.low / c, close := b.close / c,
       split := Coefficient(b))
  }

  /** One company's bars with open, high, low and close divided by the
      cumulative split factor of their bar; the date, adjusted close and
      volume are left alone. */
  function SplitAdjust(bars: seq<Bar>): (r: seq<Bar>)
    ensures |r| == |bars|
    ensures forall k :: 0 <= k < |bars| ==>
              r[k].open == bars[k].open / CumSplit(bars, k) &&
              r[k].high == bars[k].high / CumSplit(bars, k) &&
              r[k].low == bars[k].low / CumSplit(bars, k) &&
              r[k].close == bars[k].close / CumSplit(bars, k)
    ensures forall k :: 0 <= k < |bars| ==>
              r[k].date == bars[k].date && r[k].adjclose == bars[k].adjclose &&
              r[k].volume == bars[k].volume && r[k].split == Coefficient(bars[k])
  {
    seq(|bars|, k requires 0 <= k < |bars| => Divided(bars[k], CumSplit(bars, k)))
  }

  /** A history whose coefficients are all 1 (or 0, read as 1) has a
      cumulative factor of 1 everywhere. */
  lemma {:induction false} UnitCumSplit(bars: seq<Bar>, k: nat)
    requires k <= |bars|
    requires forall j :: 0 <= j < |bars| ==> Coefficient(bars[j]) == 1.0
    ensures CumSplit(bars, k) == 1.0
    decreases |bars| - k
  {
    if k < |bars| {
      UnitCumSplit(bars, k + 1);
    }
  }

  /** Adjusting a history that holds no split leaves every price as it
      was; only a stored coefficient of 0 is rewritten as 1. */
  lemma UnitSplitsChangeNothing(bars: seq<Bar>)
    requires forall j :: 0 <= j < |bars| ==> Coefficient(bars[j]) == 1.0
    ensures forall k :: 0 <= k < |bars| ==> SplitAdjust(bars)[k] == bars[k].(split := 1.0)
  {
    forall k | 0 <= k < |bars| ensures SplitAdjust(bars)[k] == bars[k].(split := 1.0) {
      UnitCumSplit(bars, k);
    }
  }

  /** With a single split of factor c at bar s, the bars up to and
      including s are divided by c and the later bars keep their prices. */
  lemma {:induction false} SingleSplitFactor(bars: seq<Bar>, s: nat, c: real, k: nat)
    requires s < |bars| && k <= |bars|
    requires Coefficient(bars[s]) == c
    requires forall j :: 0 <= j < |bars| && j != s ==> Coefficient(bars[j]) == 1.0
    ensures CumSplit(bars, k) == if k <= s then c else 1.0
    decreases |bars| - k
  {
    if k < |bars| {
      SingleSplitFactor(bars, s, c, k + 1);
    }
  }

  lemma SingleSplit(bars: seq<Bar>, s: nat, c: real)
    requires s < |bars|
    requires Coefficient(bars[s]) == c
    requires forall j :: 0 <= j < |bars| && j != s ==> Coefficient(bars[j]) == 1.0
    ensures forall k :: 0 <= k <= s ==>
              SplitAdjust(bars)[k].open == bars[k].open / c && SplitAdjust(bars)[k].high == bars[k].high / c &&
              SplitAdjust(bars)[k].low == bars[k].low / c && SplitAdjust(bars)[k].close == bars[k].close / c
    ensures forall k :: s < k < |bars| ==>
              SplitAdjust(bars)[k].open == bars[k].open && SplitAdjust(bars)[k].high == bars[k].high &&
              SplitAdjust(bars)[k].low == bars[k].low && SplitAdjust(bars)[k].close == bars[k].close
  {
    forall k | 0 <= k < |bars| ensures CumSplit(bars, k) == if k <= s then c else 1.0 {
      SingleSplitFactor(bars, s, c, k);
    }
  }

  // ------------------------------------------------------- liquidity filter

  /** The rolling mean of volume at bar k with `min_periods=1`: the mean of
      the last min(k + 1, window) volumes. */
  function RollingMean(vols: seq<real>, window: nat, k: nat): (r: real)
    requires window >= 1 && k < |vols|
  {
    var m := if k + 1 < window then k + 1 else window;
    Mean(vols[k + 1 - m .. k + 1])
  }

  /** How many volumes the latest average covers: min(|bars|, window). */
  function WindowLen(n: nat, window: nat): (m: nat)
    ensures m <= n && m <= window
    ensures m == n || m == window
  {
    if n < window then n else window
  }

  /** The volumes the latest average covers. */
  function LatestWindow(bars: seq<Bar>, window: nat): (w: seq<real>)
    requires window >= 1 && |bars| > 0
    ensures |w| == WindowLen(|bars|, window) && |w| > 0
    ensures forall j :: |bars| - |w| <= j < |bars| ==> w[j - (|bars| - |w|)] == bars[j].volume
  {
    Column(bars[|bars| - WindowLen(|bars|, window)..], Volume)
  }

  /** The last rolling average volume of a company. */
  function LatestAvgVolume(bars: seq<Bar>, window: nat): (r: real)
    requires window >= 1 && |bars| > 0
    ensures r == Mean(LatestWindow(bars, window))
  {
    LatestIsRolling(bars, window);
    RollingMean(Column(bars, Volume), window, |bars| - 1)
  }

  /** The window of the last rolling mean is the latest window. */
  lemma LatestIsRolling(bars: seq<Bar>, window: nat)
    requires window >= 1 && |bars| > 0
    ensures Column(bars, Volume)[|bars| - WindowLen(|bars|, window) .. |bars|] == LatestWindow(bars, window)
  {
    var n := |bars|;
    var a := Column(bars, Volume)[n - WindowLen(n, window) .. n];
    var b := LatestWindow(bars, window);
    forall j | 0 <= j < |a| ensures a[j] == b[j] {
      assert a[j] == bars[n - |b| + j].volume;
    }
  }

  /** The liquidity test is inclusive. */
  predicate Liquid(bars: seq<Bar>, window: nat, minAvgVolume: real)
    requires window >= 1
  {
    |bars| > 0 && LatestAvgVolume(bars, window) >= minAvgVolume
  }

  /** A company whose every volume in the latest window reaches the floor
      is liquid. */
  lemma LiquidWhenEveryVolumeReaches(bars: seq<Bar>, window: nat, minAvgVolume: real)
    requires window >= 1 && |bars| > 0
    requires forall j :: |bars| - |LatestWindow(bars, window)| <= j < |bars| ==> bars[j].volume >= minAvgVolume
    ensures Liquid(bars, window, minAvgVolume)
  {
    var w := LatestWindow(bars, window);
    MeanWithin(w, minAvgVolume, Max(w));
  }

  /** A company whose every volume in the latest window stays below the
      floor is dropped. */
  lemma IlliquidWhenEveryVolumeBelow(bars: seq<Bar>, window: nat, minAvgVolume: real)
    requires window >= 1 && |bars| > 0
    requires forall j :: |bars| - |LatestWindow(bars, window)| <= j < |bars| ==> bars[j].volume < minAvgVolume
    ensures !Liquid(bars, window, minAvgVolume)
  {
    var w := LatestWindow(bars, window);
    var hi := Max(w);
    assert hi < minAvgVolume;
    MeanWithin(w, Min(w), hi);
  }

  /** With a window at least as long as the history, the latest average is
      the mean volume of the whole history. */
  lemma LongWindowAveragesEverything(bars: seq<Bar>, window: nat)
    requires window >= |bars| > 0
    ensures LatestAvgVolume(bars, window) == Mean(Column(bars, Volume))
  {
    assert LatestWindow(bars, window) == Column(bars, Volume);
  }
}
