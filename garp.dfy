/** Growth at a reasonable price: a profitable company with a moderate
    P/E, a positive PEG below a limit, and earnings and revenue growth
    above given percentages. All of it is decided by the candidate query. */
module Garp {
  import opened Records
  import opened Query
  import opened Fundamentals

  datatype Params = Params(minMarketCap: real, maxPeRatio: real, maxPegRatio: real,
                           minEpsGrowthPct: real, minRevenueGrowthPct: real)

  const Defaults := Params(1000000000.0, 25.0, 1.5, 10.0, 10.0)
  const LeadingColumns := ["symbol", "trailingpegratio", "trailingpe", "earningsquarterlygrowth",
                           "revenuegrowth", "longname", "industry", "marketcap"]
  /** Lowest PEG first. */
  const SortBy := "trailingpegratio"
  const Ascending := true

  /** The query's conditions after the active and market tests; growth is
      stored as a fraction, so the percentage thresholds are divided by 100. */
  function Conditions(p: Params): seq<Condition>
  {
    [Compare("marketcap", DbGt, SNum(p.minMarketCap)),
     Compare("trailingpe", DbGt, SNum(0.0)),
     Compare("trailingpe", DbLt, SNum(p.maxPeRatio)),
     Compare("trailingpegratio", DbGt, SNum(0.0)),
     Compare("trailingpegratio", DbLt, SNum(p.maxPegRatio)),
     Compare("earningsquarterlygrowth", DbGt, SNum(p.minEpsGrowthPct / 100.0)),
     Compare("revenuegrowth", DbGt, SNum(p.minRevenueGrowthPct / 100.0))]
  }

  /** The screen in the terms of its description, with growth compared as
      a percentage. */
  predicate IsGarp(d: Dict, p: Params)
  {
    Over(d, "marketcap", p.minMarketCap) &&
    Over(d, "trailingpe", 0.0) && Under(d, "trailingpe", p.maxPeRatio) &&
    Over(d, "trailingpegratio", 0.0) && Under(d, "trailingpegratio", p.maxPegRatio) &&
    NumberIn(d, "earningsquarterlygrowth").Some? && NumberIn(d, "earningsquarterlygrowth").value * 100.0 > p.minEpsGrowthPct &&
    NumberIn(d, "revenuegrowth").Some? && NumberIn(d, "revenuegrowth").value * 100.0 > p.minRevenueGrowthPct
  }

  /** A company is a candidate exactly when it is active, listed in the
      market and meets the screen. */
  lemma CandidateIff(d: Dict, exchanges: set<string>, p: Params)
    ensures Candidate(d, exchanges, Conditions(p)) <==>
              "isactive" in d.vals && d.vals["isactive"] == Flag(true) &&
              "exchange" in d.vals && d.vals["exchange"].Text? && d.vals["exchange"].s in exchanges &&
              IsGarp(d, p)
  {
    var cs := Conditions(p);
    assert (forall j :: 0 <= j < |cs| ==> Holds(d, cs[j])) <==>
      Holds(d, cs[0]) && Holds(d, cs[1]) && Holds(d, cs[2]) && Holds(d, cs[3]) &&
      Holds(d, cs[4]) && Holds(d, cs[5]) && Holds(d, cs[6]);
    GrowthIff(d, "earningsquarterlygrowth", p.minEpsGrowthPct);
    GrowthIff(d, "revenuegrowth", p.minRevenueGrowthPct);
  }

  /** A growth fraction exceeds pct / 100 exactly when it exceeds pct as a
      percentage. */
  lemma GrowthIff(d: Dict, column: string, pct: real)
    ensures Holds(d, Compare(column, DbGt, SNum(pct / 100.0))) <==>
              NumberIn(d, column).Some? && NumberIn(d, column).value * 100.0 > pct
  {
    if NumberIn(d, column).Some? {
      var g := NumberIn(d, column).value;
      assert g > pct / 100.0 <==> g * 100.0 > pct;
    }
  }

  /** The P/E and PEG bounds are strict on both sides: a limit of zero or
      below selects no company. */
  lemma NonPositiveLimitSelectsNothing(d: Dict, exchanges: set<string>, p: Params)
    requires p.maxPeRatio <= 0.0 || p.maxPegRatio <= 0.0
    ensures !Candidate(d, exchanges, Conditions(p))
  {
    var cs := Conditions(p);
    assert !(Holds(d, cs[1]) && Holds(d, cs[2])) || !(Holds(d, cs[3]) && Holds(d, cs[4]));
  }
}
