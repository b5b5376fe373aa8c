/** High dividend yield: a company whose yield exceeds a minimum and whose
    payout ratio is positive and below a ceiling. Both are compared as
    stored, without dividing the percentages by 100. */
module HighDividendYield {
  import opened Common
  import opened Records
  import opened Query
  import opened Fundamentals
  import GenericScreener

  datatype Params = Params(minMarketCap: real, minDividendYieldPct: real, maxPayoutRatioPct: real)

  const Defaults := Params(1000000000.0, 3.0, 80.0)
  const LeadingColumns := ["symbol", "dividendyield", "payoutratio", "longname", "industry", "marketcap"]
  /** Highest yield first. */
  const SortBy := "dividendyield"
  const Ascending := false

  function Conditions(p: Params): seq<Condition>
  {
    [Compare("marketcap", DbGt, SNum(p.minMarketCap)),
     Compare("dividendyield", DbGt, SNum(p.minDividendYieldPct)),
     Compare("payoutratio", DbGt, SNum(0.0)),
     Compare("payoutratio", DbLt, SNum(p.maxPayoutRatioPct))]
  }

  predicate IsHighYield(d: Dict, p: Params)
  {
    Over(d, "marketcap", p.minMarketCap) &&
    Over(d, "dividendyield", p.minDividendYieldPct) &&
    Over(d, "payoutratio", 0.0) && Under(d, "payoutratio", p.maxPayoutRatioPct)
  }

  lemma CandidateIff(d: Dict, exchanges: set<string>, p: Params)
    ensures Candidate(d, exchanges, Conditions(p)) <==>
              "isactive" in d.vals && d.vals["isactive"] == Flag(true) &&
              "exchange" in d.vals && d.vals["exchange"].Text? && d.vals["exchange"].s in exchanges &&
              IsHighYield(d, p)
  {
    var cs := Conditions(p);
    assert (forall j :: 0 <= j < |cs| ==> Holds(d, cs[j])) <==>
      Holds(d, cs[0]) && Holds(d, cs[1]) && Holds(d, cs[2]) && Holds(d, cs[3]);
  }

  /** The same threshold means different things here and in the generic
      screener, which divides a `dividendyield` value by 100: a record whose
      yield equals a positive threshold passes the generic filter and fails
      this one. */
  lemma RawVersusScaledYield(d: Dict, t: real)
    requires t > 0.0
    requires "dividendyield" in d.vals && d.vals["dividendyield"] == Real(t)
    ensures GenericScreener.FilterConditions(GenericScreener.Filter(Some("dividendyield"), Some(">"), GenericScreener.NumberValue(t)))
              == Success([NotNull("dividendyield"), Compare("dividendyield", DbGt, SNum(t / 100.0))])
    ensures Holds(d, Compare("dividendyield", DbGt, SNum(t / 100.0)))
    ensures !Holds(d, Conditions(Params(0.0, t, 0.0))[1])
  {
    var f := GenericScreener.Filter(Some("dividendyield"), Some(">"), GenericScreener.NumberValue(t));
    assert GenericScreener.FilterMap["dividendyield"] == GenericScreener.Db("dividendyield", GenericScreener.Percentage);
    assert GenericScreener.Accepted(f);
    assert GenericScreener.DbOpOf(">") == Some(DbGt);
  }
}
