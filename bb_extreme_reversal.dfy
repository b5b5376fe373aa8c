/** Bollinger extreme reversal: within the last few bars before today some
    low touched or pierced the lower band, and today closes back above the
    lower band and above the 200-bar average. */
module BbExtremeReversal {
  import opened Common
  import opened Windows
  import opened Bars
  import opened Records

  const DefaultBbPeriod := 20
  const DefaultStdDev := 2.0
  const DefaultExtremeLookback := 2
  const MinBars := 201
  const Drops := ["id", "isactive", "longbusinesssummary", "bookvalue"]
  const LeadingColumns := ["symbol", "setup_date", "bb_lower", "bb_upper", "longname", "industry", "marketcap"]
  const SortBy := "marketcap"
  const Ascending := false

  datatype Params = Params(bbPeriod: int, stdDev: real, extremeLookback: int)

  function Upper(bars: seq<Bar>, lib: Talib, p: Params): Series
  {
    lib(BbUpper(p.bbPeriod as real, p.stdDev, p.stdDev), bars)
  }

  function Lower(bars: seq<Bar>, lib: Talib, p: Params): Series
  {
    lib(BbLower(p.bbPeriod as real, p.stdDev, p.stdDev), bars)
  }

  function Sma200(bars: seq<Bar>, lib: Talib): Series
  {
    lib(Sma(Close, 200.0), bars)
  }

  /** Bar k touched the band: a known lower band at or above its low. */
  predicate Touches(bars: seq<Bar>, lower: Series, k: nat)
    requires k < |bars| && k < |lower|
  {
    lower[k].Some? && bars[k].low <= lower[k].value
  }

  /** `(low[lo:hi] <= lower[lo:hi]).any()`, scanning the window left to
      right. */
  function AnyTouch(bars: seq<Bar>, lower: Series, lo: nat, hi: nat): (r: bool)
    requires lo <= hi <= |bars| && |lower| == |bars|
    decreases hi - lo
    ensures r <==> exists k :: lo <= k < hi && Touches(bars, lower, k)
  {
    if lo == hi then false
    else Touches(bars, lower, lo) || AnyTouch(bars, lower, lo + 1, hi)
  }

  /** The window `iloc[-E-1:-1]`: from the Python slice start -E-1 up to,
      and not including, today. */
  function WindowStart(n: nat, extremeLookback: int): nat
  {
    SliceBound(n, -extremeLookback - 1)
  }

  /** For 0 <= E < n the window is exactly the E bars before today. */
  lemma WindowIsLookback(n: nat, extremeLookback: int)
    requires 0 <= extremeLookback < n
    ensures WindowStart(n, extremeLookback) == n - 1 - extremeLookback
  {
  }

  /** The company is reported: at least 201 bars, the latest lower band and
      average are known, a bar of the window touched the lower band, and
      today's close is strictly above both the lower band and the average. */
  predicate Reverses(bars: seq<Bar>, lib: Talib, p: Params)
  {
    var n := |bars|;
    var lower, sma200 := Lower(bars, lib, p), Sma200(bars, lib);
    n >= MinBars && Back(lower, 1).Some? && Back(sma200, 1).Some? &&
    WindowStart(n, p.extremeLookback) <= n - 1 &&
    (exists k :: WindowStart(n, p.extremeLookback) <= k < n - 1 && Touches(bars, lower, k)) &&
    Back(bars, 1).close > Back(lower, 1).value &&
    Back(bars, 1).close > Back(sma200, 1).value
  }

  /** A lookback of zero leaves the window empty: nothing is reported. */
  lemma NoLookbackNoSetup(bars: seq<Bar>, lib: Talib, p: Params)
    requires p.extremeLookback == 0
    ensures !Reverses(bars, lib, p)
  {
    if |bars| >= MinBars {
      WindowIsLookback(|bars|, 0);
    }
  }

  function Fields(bars: seq<Bar>, lib: Talib, p: Params): seq<(string, Value)>
    requires |bars| >= 1
  {
    [("bb_lower", Num(FromOption(Back(Lower(bars, lib, p), 1)))),
     ("bb_upper", Num(FromOption(Back(Upper(bars, lib, p), 1)))),
     ("setup_date", Day(Back(bars, 1).date))]
  }

  function Evaluate(d: Dict, bars: seq<Bar>, lib: Talib, p: Params): Option<Dict>
  {
    if Reverses(bars, lib, p) then Some(Enriched(d, Drops, Fields(bars, lib, p))) else None
  }

  /** The vectorised part of the scan, without the record update. */
  method CheckReversal(bars: seq<Bar>, lib: Talib, p: Params) returns (found: bool)
    ensures found <==> Reverses(bars, lib, p)
  {
    var n := |bars|;
    if n < MinBars {
      return false;
    }
    var lower := lib(BbLower(p.bbPeriod as real, p.stdDev, p.stdDev), bars);
    var sma200 := lib(Sma(Close, 200.0), bars);
    assert lower == Lower(bars, lib, p) && sma200 == Sma200(bars, lib);
    if lower[n - 1].None? || sma200[n - 1].None? {
      return false;
    }
    var start := SliceBound(n, -p.extremeLookback - 1);
    var isExtremeInLookback := start <= n - 1 && AnyTouch(bars, lower, start, n - 1);
    var isReversedToday := bars[n - 1].close > lower[n - 1].value;
    var isUptrend := bars[n - 1].close > sma200[n - 1].value;
    found := isUptrend && isExtremeInLookback && isReversedToday;
  }

  method Scan(bars: seq<Bar>, lib: Talib, p: Params, info: CompanyInfo) returns (r: CompanyInfo?)
    requires info.Valid()
    modifies info
    ensures Evaluate(old(info.Snapshot()), bars, lib, p).None? ==>
              r == null && info.Snapshot() == old(info.Snapshot())
    ensures Evaluate(old(info.Snapshot()), bars, lib, p).Some? ==>
              r == info && info.Valid() && info.Snapshot() == Evaluate(old(info.Snapshot()), bars, lib, p).value
  {
    var found := CheckReversal(bars, lib, p);
    if found {
      info.Enrich(Drops, Fields(bars, lib, p));
      return info;
    }
    return null;
  }
}
