/** Lorenz regime flip: the close's position within its recent range is
    classified as uptrend (1), downtrend (-1) or unstable (0), and a company
    is reported when the regime has just flipped from unstable to uptrend
    above the 200-bar average. */
module LorenzRegime {
  import opened Common
  import opened Windows
  import opened Bars
  import opened Records

  const DefaultLookback := 50
  const DefaultThreshold := 0.1
  const MinBars := 201
  const Drops := ["id", "isactive", "longbusinesssummary", "bookvalue"]
  const LeadingColumns := ["symbol", "longname", "industry", "marketcap", "lorenz_regime"]
  const SortBy := "marketcap"
  const Ascending := false

  datatype Params = Params(lookback: nat, threshold: real)

  /** The state at bar t: 2 * (close - min) / (max - min) - 1 over the
      `lookback` closes ending at t, or 0 when that window is incomplete or
      its range is not positive. A rolling window of 0 bars yields NaN
      extremes, whose range is never positive, so the state is 0. */
  function StateX(bars: seq<Bar>, lookback: nat, t: nat): real
    requires t < |bars|
  {
    if lookback == 0 || t + 1 < lookback then 0.0
    else
      var closes := Column(bars[t + 1 - lookback .. t + 1], Close);
      var lo, hi := Min(closes), Max(closes);
      if hi - lo > 0.0 then Position(bars[t].close, lo, hi) else 0.0
  }

  /** `2 * ((c - lo) / (hi - lo)) - 1`: -1 at the low of the range, 1 at its
      high. */
  function Position(c: real, lo: real, hi: real): real
    requires hi - lo > 0.0
  {
    2.0 * ((c - lo) / (hi - lo)) - 1.0
  }

  /** The state always lies in [-1, 1]: the close is inside its own window. */
  lemma StateXBounds(bars: seq<Bar>, lookback: nat, t: nat)
    requires t < |bars|
    ensures -1.0 <= StateX(bars, lookback, t) <= 1.0
  {
    if lookback >= 1 && t + 1 >= lookback {
      var w := bars[t + 1 - lookback .. t + 1];
      var closes := Column(w, Close);
      var lo, hi := Min(closes), Max(closes);
      if hi - lo > 0.0 {
        assert closes[lookback - 1] == bars[t].close;
        DivideBounds(bars[t].close - lo, hi - lo, 0.0, 1.0);
      }
    }
  }

  /** `np.select([x > thr, x < -thr], [1, -1], default=0)`: the first
      condition that holds decides. */
  function Regime(x: real, threshold: real): (r: int)
    ensures r == 1 <==> x > threshold
    ensures r == -1 <==> !(x > threshold) && x < -threshold
    ensures r == 0 <==> !(x > threshold) && !(x < -threshold)
  {
    if x > threshold then 1 else if x < -threshold then -1 else 0
  }

  function RegimeAt(bars: seq<Bar>, p: Params, t: nat): int
    requires t < |bars|
  {
    Regime(StateX(bars, p.lookback, t), p.threshold)
  }

  function Sma200(bars: seq<Bar>, lib: Talib): Series
  {
    lib(Sma(Close, 200.0), bars)
  }

  /** The regime was 0 on the bar before the latest and is 1 on the latest. */
  predicate FlipToUptrend(bars: seq<Bar>, p: Params)
    requires |bars| >= 2
  {
    RegimeAt(bars, p, |bars| - 1) == 1 && RegimeAt(bars, p, |bars| - 2) == 0
  }

  /** The company is reported: enough bars, a known latest average, the
      regime 1 on the latest bar and 0 on the bar before, and the latest
      close strictly above the average. */
  predicate FlipsUp(bars: seq<Bar>, lib: Talib, p: Params)
  {
    var n := |bars|;
    var sma200 := Sma200(bars, lib);
    n >= MinBars && n >= p.lookback + 2 && Back(sma200, 1).Some? &&
    FlipToUptrend(bars, p) &&
    Back(bars, 1).close > Back(sma200, 1).value
  }

  /** A threshold of 1 or more can never be crossed, so nothing is ever
      reported. */
  lemma NoFlipAtHighThreshold(bars: seq<Bar>, lib: Talib, p: Params)
    requires p.threshold >= 1.0
    ensures !FlipsUp(bars, lib, p)
  {
    if |bars| >= MinBars {
      StateXBounds(bars, p.lookback, |bars| - 1);
    }
  }

  /** A look-back of 0 leaves the state 0 on every bar, so the regime is
      the same on the last two bars and never flips. */
  lemma NoFlipAtZeroLookback(bars: seq<Bar>, lib: Talib, p: Params)
    requires p.lookback == 0
    ensures !FlipsUp(bars, lib, p)
  {
    if |bars| >= MinBars {
      assert StateX(bars, 0, |bars| - 1) == 0.0 && StateX(bars, 0, |bars| - 2) == 0.0;
    }
  }

  /** On a flip the latest state is above the threshold and the previous
      state is within [-threshold, threshold]. */
  lemma FlipMeaning(bars: seq<Bar>, lib: Talib, p: Params)
    requires FlipsUp(bars, lib, p)
    ensures StateX(bars, p.lookback, |bars| - 1) > p.threshold
    ensures -p.threshold <= StateX(bars, p.lookback, |bars| - 2) <= p.threshold
  {
    assert FlipToUptrend(bars, p);
  }

  const Fields := [("lorenz_regime", Real(1.0))]

  function Evaluate(d: Dict, bars: seq<Bar>, lib: Talib, p: Params): Option<Dict>
  {
    if FlipsUp(bars, lib, p) then Some(Enriched(d, Drops, Fields)) else None
  }

  /** The vectorised part of the scan: the length guard, the latest
      average and the regimes of the last two bars. */
  method CheckFlip(bars: seq<Bar>, lib: Talib, p: Params) returns (flip: bool)
    ensures flip <==> FlipsUp(bars, lib, p)
  {
    var n := |bars|;
    if n < MinBars || n < p.lookback + 2 {
      return false;
    }
    var sma200 := lib(Sma(Close, 200.0), bars);
    assert sma200 == Sma200(bars, lib);
    if sma200[n - 1].None? {
      assert Back(Sma200(bars, lib), 1).None?;
      return false;
    }
    var isCrossoverToUptrend := FlipToUptrend(bars, p);
    var isGeneralUptrend := bars[n - 1].close > sma200[n - 1].value;
    flip := isCrossoverToUptrend && isGeneralUptrend;
  }

  method Scan(bars: seq<Bar>, lib: Talib, p: Params, info: CompanyInfo) returns (r: CompanyInfo?)
    requires info.Valid()
    modifies info
    ensures Evaluate(old(info.Snapshot()), bars, lib, p).None? ==>
              r == null && info.Snapshot() == old(info.Snapshot())
    ensures Evaluate(old(info.Snapshot()), bars, lib, p).Some? ==>
              r == info && info.Valid() && info.Snapshot() == Evaluate(old(info.Snapshot()), bars, lib, p).value
  {
    var flip := CheckFlip(bars, lib, p);
    if flip {
      info.Enrich(Drops, Fields);
      return info;
    }
    return null;
  }
}
