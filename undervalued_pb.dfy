/** Low price-to-book: a profitable company whose P/B lies strictly
    between a floor and a ceiling and whose debt-to-equity is below a
    limit. All of it is decided by the candidate query. */
module UndervaluedPb {
  import opened Records
  import opened Query
  import opened Fundamentals

  datatype Params = Params(minMarketCap: real, maxPbRatio: real, minPbRatio: real, maxDebtToEquity: real)

  const Defaults := Params(500000000.0, 1.5, 0.1, 2.0)
  const LeadingColumns := ["symbol", "pricetobook", "trailingpe", "debttoequity", "longname", "industry", "marketcap"]
  /** Lowest P/B first. */
  const SortBy := "pricetobook"
  const Ascending := true

  function Conditions(p: Params): seq<Condition>
  {
    [Compare("marketcap", DbGt, SNum(p.minMarketCap)),
     NotNull("bookvalue"),
     NotNull("pricetobook"),
     Compare("pricetobook", DbGt, SNum(p.minPbRatio)),
     Compare("pricetobook", DbGt, SNum(0.0)),
     Compare("pricetobook", DbLt, SNum(p.maxPbRatio)),
     Compare("trailingpe", DbGt, SNum(0.0)),
     NotNull("debttoequity"),
     Compare("debttoequity", DbLt, SNum(p.maxDebtToEquity))]
  }

  /** The screen in the terms of its description: the P/B lies strictly
      between the larger of the floor and zero, and the ceiling. */
  predicate IsUndervalued(d: Dict, p: Params)
  {
    Over(d, "marketcap", p.minMarketCap) &&
    "bookvalue" in d.vals && !d.vals["bookvalue"].Null? &&
    NumberIn(d, "pricetobook").Some? &&
    Max(p.minPbRatio, 0.0) < NumberIn(d, "pricetobook").value < p.maxPbRatio &&
    Over(d, "trailingpe", 0.0) &&
    Under(d, "debttoequity", p.maxDebtToEquity)
  }

  function Max(a: real, b: real): real
  {
    if a >= b then a else b
  }

  lemma CandidateIff(d: Dict, exchanges: set<string>, p: Params)
    ensures Candidate(d, exchanges, Conditions(p)) <==>
              "isactive" in d.vals && d.vals["isactive"] == Flag(true) &&
              "exchange" in d.vals && d.vals["exchange"].Text? && d.vals["exchange"].s in exchanges &&
              IsUndervalued(d, p)
  {
    var cs := Conditions(p);
    assert (forall j :: 0 <= j < |cs| ==> Holds(d, cs[j])) <==>
      Holds(d, cs[0]) && Holds(d, cs[1]) && Holds(d, cs[2]) && Holds(d, cs[3]) &&
      Holds(d, cs[4]) && Holds(d, cs[5]) && Holds(d, cs[6]) && Holds(d, cs[7]) && Holds(d, cs[8]);
  }

  /** A selected company trades below the P/B ceiling and, with the default
      parameters, below one and a half times its book value. */
  lemma DefaultsBoundPb(d: Dict, exchanges: set<string>)
    requires Candidate(d, exchanges, Conditions(Defaults))
    ensures NumberIn(d, "pricetobook").Some?
    ensures 0.1 < NumberIn(d, "pricetobook").value < 1.5
    ensures Over(d, "marketcap", 500000000.0)
  {
    CandidateIff(d, exchanges, Defaults);
  }
}
