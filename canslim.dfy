/** CANSLIM leaders: strong quarterly earnings growth and a high relative
    strength percentile (read from the company record), trading near the
    52-week high. */
module Canslim {
  import opened Common
  import opened Windows
  import opened Bars
  import opened Records

  const DefaultMinEpsGrowthPct := 25.0
  const DefaultMinRsPercentile := 80.0
  const DefaultWithinPctOfHigh := 15.0
  /** Trading days in the 52-week window. */
  const Year := 252
  const EpsGrowthKey := "earningsquarterlygrowth"
  const RsKey := "relative_strength_percentile_252"
  const Drops := ["id", "isactive", "longbusinesssummary"]
  const LeadingColumns := ["symbol", "earningsquarterlygrowth", "rs_percentile", "pct_of_high",
                           "longname", "industry", "marketcap"]
  const SortBy := "rs_percentile"
  const Ascending := false

  datatype Params = Params(minEpsGrowthPct: real, minRsPercentile: real, withinPctOfHigh: real)

  /** `d.get(k) is not None`. */
  predicate Present(d: Dict, k: string)
  {
    k in d.vals && !d.vals[k].Null?
  }

  /** `v > c` on a record value: only a number above c passes. */
  predicate Exceeds(v: Value, c: real)
  {
    v.Num? && Above(v.x, c)
  }

  /** The fundamental gate: both values present, EPS growth strictly above
      the minimum percentage (as a fraction), RS strictly above the minimum. */
  predicate StrongLeader(d: Dict, p: Params)
  {
    Present(d, EpsGrowthKey) && Present(d, RsKey) &&
    Exceeds(d.vals[EpsGrowthKey], p.minEpsGrowthPct / 100.0) &&
    Exceeds(d.vals[RsKey], p.minRsPercentile)
  }

  /** The highest high of the last 252 bars, the latest included. */
  function High52(bars: seq<Bar>): (h: real)
    requires |bars| >= Year
    ensures forall k :: |bars| - Year <= k < |bars| ==> bars[k].high <= h
    ensures exists k :: |bars| - Year <= k < |bars| && bars[k].high == h
  {
    LastYearHighs(bars);
    Max(Column(bars[|bars| - Year..], High))
  }

  lemma LastYearHighs(bars: seq<Bar>)
    requires |bars| >= Year
    ensures var h := Max(Column(bars[|bars| - Year..], High));
            (forall k :: |bars| - Year <= k < |bars| ==> bars[k].high <= h) &&
            exists k :: |bars| - Year <= k < |bars| && bars[k].high == h
  {
    var start := |bars| - Year;
    var highs := Column(bars[start..], High);
    var h := Max(highs);
    assert forall k :: start <= k < |bars| ==> highs[k - start] == bars[k].high;
    var m :| 0 <= m < |highs| && highs[m] == h;
    assert bars[start + m].high == h;
  }

  /** The latest close is at least the 52-week high less `within` percent. */
  predicate NearHigh(bars: seq<Bar>, p: Params)
    requires |bars| >= Year
  {
    Back(bars, 1).close >= Discounted(High52(bars), p.withinPctOfHigh)
  }

  /** `h * (1 - pct / 100)`. */
  function Discounted(h: real, pct: real): real
  {
    h * (1.0 - pct / 100.0)
  }

  function Fields(d: Dict, bars: seq<Bar>): seq<(string, Value)>
    requires |bars| >= Year && RsKey in d.vals
  {
    [("pct_of_high", Real(PercentOf(Back(bars, 1).close, High52(bars)))),
     ("rs_percentile", d.vals[RsKey])]
  }

  /** The record returned for a company, or none. The gate is checked
      before the length of the history. */
  function Evaluate(d: Dict, bars: seq<Bar>, p: Params): (r: Option<Dict>)
    ensures r.Some? <==> StrongLeader(d, p) && |bars| >= Year && NearHigh(bars, p)
    ensures r.Some? ==> WellFormed(d) ==> WellFormed(r.value)
  {
    if !StrongLeader(d, p) || |bars| < Year || !NearHigh(bars, p) then None
    else Some(Enriched(d, Drops, Fields(d, bars)))
  }

  /** A company that passes with a positive 52-week high reports a
      percentage of the high of at least 100 - within. */
  lemma PctOfHighAtLeast(bars: seq<Bar>, p: Params)
    requires |bars| >= Year && NearHigh(bars, p) && High52(bars) > 0.0
    ensures PercentOf(Back(bars, 1).close, High52(bars)) >= 100.0 - p.withinPctOfHigh
  {
    var c, h := Back(bars, 1).close, High52(bars);
    var k := 1.0 - p.withinPctOfHigh / 100.0;
    assert c >= h * k;
    var q := c / h;
    assert q * h == c;
    if q < k {
      assert false;
    }
  }

  /** A rejected or a too-short company is never reported, whatever its
      prices. */
  lemma GateFirst(d: Dict, bars: seq<Bar>, bars': seq<Bar>, p: Params)
    requires !StrongLeader(d, p)
    ensures Evaluate(d, bars, p) == Evaluate(d, bars', p) == None
  {
  }

  method Scan(bars: seq<Bar>, p: Params, info: CompanyInfo) returns (r: CompanyInfo?)
    requires info.Valid()
    modifies info
    ensures Evaluate(old(info.Snapshot()), bars, p).None? ==>
              r == null && info.Snapshot() == old(info.Snapshot())
    ensures Evaluate(old(info.Snapshot()), bars, p).Some? ==>
              r == info && info.Valid() && info.Snapshot() == Evaluate(old(info.Snapshot()), bars, p).value
  {
    var epsGrowth := if EpsGrowthKey in info.vals then info.vals[EpsGrowthKey] else Null;
    var rsPercentile := if RsKey in info.vals then info.vals[RsKey] else Null;
    if epsGrowth.Null? || rsPercentile.Null? {
      assert !StrongLeader(info.Snapshot(), p);
      return null;
    }
    var isStrongGrowth := Exceeds(epsGrowth, p.minEpsGrowthPct / 100.0);
    var isLeader := Exceeds(rsPercentile, p.minRsPercentile);
    if !(isStrongGrowth && isLeader) {
      assert !StrongLeader(info.Snapshot(), p);
      return null;
    }
    assert StrongLeader(info.Snapshot(), p);
    if |bars| < Year {
      return null;
    }
    var currentPrice := bars[|bars| - 1].close;
    var fiftyTwoWeekHigh := Max(Column(bars[|bars| - Year..], High));
    var isNearHigh := currentPrice >= Discounted(fiftyTwoWeekHigh, p.withinPctOfHigh);
    assert fiftyTwoWeekHigh == High52(bars);
    if isNearHigh {
      info.Enrich(Drops, [("pct_of_high", Real(PercentOf(currentPrice, fiftyTwoWeekHigh))),
                          ("rs_percentile", rsPercentile)]);
      return info;
    }
    return null;
  }
}
