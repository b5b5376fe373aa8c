/** New 52-week highs: the high of one of the last few bars is at least the
    high of every bar in the year of trading before it. */
module NewHighs {
  import opened Common
  import opened Windows
  import opened Bars
  import opened Records

  /** Trading days in the 52-week window. */
  const Year := 252
  const DefaultSetupLookback := 2
  const Drops := ["id", "isactive", "longbusinesssummary"]
  const LeadingColumns := ["symbol", "setup_date", "pct_of_high", "currentprice", "fiftytwoweekhigh",
                           "rs_percentile", "longname", "industry", "marketcap"]
  const SortBy := "pct_of_high"
  const Ascending := false

  /** Bar -i makes a new 52-week high: its high is at least the high of each
      of the 252 bars immediately before it. */
  predicate NewHighAt(bars: seq<Bar>, i: nat)
  {
    1 <= i && |bars| >= Year + i &&
    forall k :: |bars| - (Year + i) <= k < |bars| - i ==> bars[k].high <= bars[|bars| - i].high
  }

  function Matches(bars: seq<Bar>): nat -> bool
  {
    (i: nat) => NewHighAt(bars, i)
  }

  /** The offset the scanner reports: none without 252 + L bars, otherwise
      the smallest offset in 1..L that makes a new high. */
  function Detect(bars: seq<Bar>, L: int): (r: Option<nat>)
    ensures r.Some? ==> |bars| >= Year + L && 1 <= r.value <= L && NewHighAt(bars, r.value)
    ensures r.Some? ==> forall j :: 1 <= j < r.value ==> !NewHighAt(bars, j)
    ensures r.None? <==> |bars| < Year + L || forall j :: 1 <= j <= L ==> !NewHighAt(bars, j)
  {
    assert forall j: nat :: Matches(bars)(j) == NewHighAt(bars, j);
    if |bars| < Year + L then None else FirstMatch(Matches(bars), 1, Span(L))
  }

  /** The fields written for a match at bar -i. */
  function Fields(bars: seq<Bar>, i: nat): seq<(string, Value)>
    requires 1 <= i <= |bars|
  {
    var b := Back(bars, i);
    [("currentprice", Real(b.close)),
     ("fiftytwoweekhigh", Real(b.high)),
     ("pct_of_high", Real(PercentOf(b.close, b.high))),
     ("setup_date", Day(b.date))]
  }

  /** The record the scanner returns, if any. */
  function Evaluate(d: Dict, bars: seq<Bar>, L: int): Option<Dict>
  {
    match Detect(bars, L)
    case None => None
    case Some(i) => Some(Enriched(d, Drops, Fields(bars, i)))
  }

  /** A match reports the high and close of the matching bar and drops
      the three internal fields; the other fields are kept (`Enriched`). */
  lemma MatchOutput(d: Dict, bars: seq<Bar>, L: int)
    requires Detect(bars, L).Some?
    ensures var b := Back(bars, Detect(bars, L).value);
            var e := Evaluate(d, bars, L).value;
            "fiftytwoweekhigh" in e.vals && e.vals["fiftytwoweekhigh"] == Real(b.high) &&
            "currentprice" in e.vals && e.vals["currentprice"] == Real(b.close) &&
            "pct_of_high" in e.vals && e.vals["pct_of_high"] == Real(PercentOf(b.close, b.high)) &&
            forall k :: k in Drops ==> k !in e.vals
  {
    FieldsOutput(d, bars, Detect(bars, L).value);
  }

  lemma FieldsOutput(d: Dict, bars: seq<Bar>, i: nat)
    requires 1 <= i <= |bars|
    ensures var b := Back(bars, i);
            var e := Enriched(d, Drops, Fields(bars, i));
            "fiftytwoweekhigh" in e.vals && e.vals["fiftytwoweekhigh"] == Real(b.high) &&
            "currentprice" in e.vals && e.vals["currentprice"] == Real(b.close) &&
            "pct_of_high" in e.vals && e.vals["pct_of_high"] == Real(PercentOf(b.close, b.high)) &&
            forall k :: k in Drops ==> k !in e.vals
  {
    var fs := Fields(bars, i);
    FieldNames(bars, i);
    FieldsDropped(d, bars, i);
    EnrichedAt(d, Drops, fs, 0);
    EnrichedAt(d, Drops, fs, 1);
    EnrichedAt(d, Drops, fs, 2);
  }

  lemma FieldNames(bars: seq<Bar>, i: nat)
    requires 1 <= i <= |bars|
    ensures Names(Fields(bars, i)) == ["currentprice", "fiftytwoweekhigh", "pct_of_high", "setup_date"]
    ensures Distinct(Names(Fields(bars, i)))
  {
  }

  lemma FieldsDropped(d: Dict, bars: seq<Bar>, i: nat)
    requires 1 <= i <= |bars|
    ensures forall k :: k in Drops ==> k !in Enriched(d, Drops, Fields(bars, i)).vals
  {
    var fs := Fields(bars, i);
    FieldNames(bars, i);
    forall k | k in Drops ensures k !in Enriched(d, Drops, fs).vals {
      assert k !in Names(fs);
    }
  }

  /** The scan's test of bar -i against the maximum of the 252 highs
      before it is the definition of a new high. */
  lemma WindowTest(bars: seq<Bar>, i: nat)
    requires 1 <= i && |bars| >= Year + i
    ensures var n := |bars|;
            bars[n - i].high >= Max(Column(bars[n - (Year + i) .. n - i], High)) <==> NewHighAt(bars, i)
  {
    var n := |bars|;
    var window := Column(bars[n - (Year + i) .. n - i], High);
    if NewHighAt(bars, i) {
      var m :| 0 <= m < |window| && window[m] == Max(window);
      assert window[m] == bars[n - (Year + i) + m].high;
    } else {
      var k :| n - (Year + i) <= k < n - i && bars[n - i].high < bars[k].high;
      assert window[k - (n - (Year + i))] == bars[k].high;
    }
  }

  method Scan(bars: seq<Bar>, L: int, info: CompanyInfo) returns (r: CompanyInfo?)
    requires info.Valid()
    modifies info
    ensures Evaluate(old(info.Snapshot()), bars, L).None? ==>
              r == null && info.Snapshot() == old(info.Snapshot())
    ensures Evaluate(old(info.Snapshot()), bars, L).Some? ==>
              r == info && info.Valid() && info.Snapshot() == Evaluate(old(info.Snapshot()), bars, L).value
  {
    var n := |bars|;
    if n < Year + L {
      return null;
    }
    var i := 1;
    while i <= L
      invariant 1 <= i <= Span(L) + 1
      invariant forall j :: 1 <= j < i ==> !NewHighAt(bars, j)
      invariant info.Valid() && info.Snapshot() == old(info.Snapshot())
    {
      var window := Column(bars[n - (Year + i) .. n - i], High);
      var current := bars[n - i];
      WindowTest(bars, i);
      if current.high >= Max(window) {
        FirstMatchIs(Matches(bars), 1, Span(L), i);
        assert Detect(bars, L) == Some(i);
        info.Enrich(Drops, Fields(bars, i));
        return info;
      }
      i := i + 1;
    }
    assert Detect(bars, L).None?;
    return null;
  }
}
