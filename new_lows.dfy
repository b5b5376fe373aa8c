/** New 52-week lows: the low of one of the last few bars is at most the
    low of every bar in the year of trading before it. */
module NewLows {
  import opened Common
  import opened Windows
  import opened Bars
  import opened Records

  /** Trading days in the 52-week window. */
  const Year := 252
  const DefaultSetupLookback := 2
  const Drops := ["id", "isactive", "longbusinesssummary"]
  const LeadingColumns := ["symbol", "setup_date", "pct_from_low", "currentprice", "fiftytwoweeklow",
                           "rs_percentile", "longname", "industry", "marketcap"]
  const SortBy := "pct_from_low"
  const Ascending := true

  /** Bar -i makes a new 52-week low: its low is at most the low of each of
      the 252 bars immediately before it. */
  predicate NewLowAt(bars: seq<Bar>, i: nat)
  {
    1 <= i && |bars| >= Year + i &&
    forall k :: |bars| - (Year + i) <= k < |bars| - i ==> bars[|bars| - i].low <= bars[k].low
  }

  function Matches(bars: seq<Bar>): nat -> bool
  {
    (i: nat) => NewLowAt(bars, i)
  }

  /** The offset the scanner reports: none without 252 + L bars, otherwise
      the smallest offset in 1..L that makes a new low. */
  function Detect(bars: seq<Bar>, L: int): (r: Option<nat>)
    ensures r.Some? ==> |bars| >= Year + L && 1 <= r.value <= L && NewLowAt(bars, r.value)
    ensures r.Some? ==> forall j :: 1 <= j < r.value ==> !NewLowAt(bars, j)
    ensures r.None? <==> |bars| < Year + L || forall j :: 1 <= j <= L ==> !NewLowAt(bars, j)
  {
    assert forall j: nat :: Matches(bars)(j) == NewLowAt(bars, j);
    if |bars| < Year + L then None else FirstMatch(Matches(bars), 1, Span(L))
  }

  /** `(close / low - 1) * 100 if low > 0 else 0`. */
  function PctFromLow(close: real, low: real): real
  {
    if low > 0.0 then (close / low - 1.0) * 100.0 else 0.0
  }

  /** The fields written for a match at bar -i. */
  function Fields(bars: seq<Bar>, i: nat): seq<(string, Value)>
    requires 1 <= i <= |bars|
  {
    var b := Back(bars, i);
    [("currentprice", Real(b.close)),
     ("fiftytwoweeklow", Real(b.low)),
     ("pct_from_low", Real(PctFromLow(b.close, b.low))),
     ("setup_date", Day(b.date))]
  }

  /** The record the scanner returns, if any. */
  function Evaluate(d: Dict, bars: seq<Bar>, L: int): Option<Dict>
  {
    match Detect(bars, L)
    case None => None
    case Some(i) => Some(Enriched(d, Drops, Fields(bars, i)))
  }

  /** A match reports the low and close of the matching bar and drops the
      three internal fields; the other fields are kept (`Enriched`). */
  lemma MatchOutput(d: Dict, bars: seq<Bar>, L: int)
    requires Detect(bars, L).Some?
    ensures var b := Back(bars, Detect(bars, L).value);
            var e := Evaluate(d, bars, L).value;
            "fiftytwoweeklow" in e.vals && e.vals["fiftytwoweeklow"] == Real(b.low) &&
            "currentprice" in e.vals && e.vals["currentprice"] == Real(b.close) &&
            "pct_from_low" in e.vals && e.vals["pct_from_low"] == Real(PctFromLow(b.close, b.low)) &&
            forall k :: k in Drops ==> k !in e.vals
  {
    FieldsOutput(d, bars, Detect(bars, L).value);
  }

  lemma FieldsOutput(d: Dict, bars: seq<Bar>, i: nat)
    requires 1 <= i <= |bars|
    ensures var b := Back(bars, i);
            var e := Enriched(d, Drops, Fields(bars, i));
            "fiftytwoweeklow" in e.vals && e.vals["fiftytwoweeklow"] == Real(b.low) &&
            "currentprice" in e.vals && e.vals["currentprice"] == Real(b.close) &&
            "pct_from_low" in e.vals && e.vals["pct_from_low"] == Real(PctFromLow(b.close, b.low)) &&
            forall k :: k in Drops ==> k !in e.vals
  {
    var fs := Fields(bars, i);
    FieldNames(bars, i);
    FieldsDropped(d, bars, i);
    EnrichedAt(d, Drops, fs, 0);
    EnrichedAt(d, Drops, fs, 1);
    EnrichedAt(d, Drops, fs, 2);
  }

  lemma FieldNames(bars: seq<Bar>, i: nat)
    requires 1 <= i <= |bars|
    ensures Names(Fields(bars, i)) == ["currentprice", "fiftytwoweeklow", "pct_from_low", "setup_date"]
    ensures Distinct(Names(Fields(bars, i)))
  {
  }

  lemma FieldsDropped(d: Dict, bars: seq<Bar>, i: nat)
    requires 1 <= i <= |bars|
    ensures forall k :: k in Drops ==> k !in Enriched(d, Drops, Fields(bars, i)).vals
  {
    var fs := Fields(bars, i);
    FieldNames(bars, i);
    forall k | k in Drops ensures k !in Enriched(d, Drops, fs).vals {
      assert k !in Names(fs);
    }
  }

  /** A positive low gives a non-negative distance from the low exactly
      when the close is at or above it. */
  lemma PctFromLowSign(close: real, low: real)
    requires low > 0.0
    ensures PctFromLow(close, low) >= 0.0 <==> close >= low
  {
    var q := close / low;
    assert q * low == close;
    if q >= 1.0 {
      assert q * low >= 1.0 * low;
    } else {
      assert q * low < 1.0 * low;
    }
  }

  /** The scan's test of bar -i against the minimum of the 252 lows
      before it is the definition of a new low. */
  lemma WindowTest(bars: seq<Bar>, i: nat)
    requires 1 <= i && |bars| >= Year + i
    ensures var n := |bars|;
            bars[n - i].low <= Min(Column(bars[n - (Year + i) .. n - i], Low)) <==> NewLowAt(bars, i)
  {
    var n := |bars|;
    var window := Column(bars[n - (Year + i) .. n - i], Low);
    if NewLowAt(bars, i) {
      var m :| 0 <= m < |window| && window[m] == Min(window);
      assert window[m] == bars[n - (Year + i) + m].low;
    } else {
      var k :| n - (Year + i) <= k < n - i && bars[n - i].low > bars[k].low;
      assert window[k - (n - (Year + i))] == bars[k].low;
    }
  }

  method Scan(bars: seq<Bar>, L: int, info: CompanyInfo) returns (r: CompanyInfo?)
    requires info.Valid()
    modifies info
    ensures Evaluate(old(info.Snapshot()), bars, L).None? ==>
              r == null && info.Snapshot() == old(info.Snapshot())
    ensures Evaluate(old(info.Snapshot()), bars, L).Some? ==>
              r == info && info.Valid() && info.Snapshot() == Evaluate(old(info.Snapshot()), bars, L).value
  {
    var n := |bars|;
    if n < Year + L {
      return null;
    }
    var i := 1;
    while i <= L
      invariant 1 <= i <= Span(L) + 1
      invariant forall j :: 1 <= j < i ==> !NewLowAt(bars, j)
      invariant info.Valid() && info.Snapshot() == old(info.Snapshot())
    {
      var window := Column(bars[n - (Year + i) .. n - i], Low);
      var current := bars[n - i];
      WindowTest(bars, i);
      if current.low <= Min(window) {
        FirstMatchIs(Matches(bars), 1, Span(L), i);
        assert Detect(bars, L) == Some(i);
        info.Enrich(Drops, Fields(bars, i));
        return info;
      }
      i := i + 1;
    }
    assert Detect(bars, L).None?;
    return null;
  }
}
