/** What the three fundamental screens (GARP, low price-to-book, high
    dividend yield) share: every filter is in the candidate query, so a
    company that reaches `scan_company` passes, and only its `id` and
    `isactive` keys are removed. */
module Fundamentals {
  import opened Common
  import opened Records
  import opened Query

  /** Removed with an unconditional `del`: both keys must be present. */
  const Drops := ["id", "isactive"]

  /** A column's value when it is a finite number; NULL, text and the like
      are none. */
  function NumberIn(d: Dict, column: string): (r: Option<real>)
    ensures r.Some? <==> column in d.vals && ScalarOf(d.vals[column]).Some? && ScalarOf(d.vals[column]).value.SNum?
    ensures r.Some? ==> ScalarOf(d.vals[column]) == Some(SNum(r.value))
  {
    if column in d.vals && ScalarOf(d.vals[column]).Some? && ScalarOf(d.vals[column]).value.SNum?
    then Some(ScalarOf(d.vals[column]).value.x)
    else None
  }

  /** `column > c` in SQL: false when the column is NULL or not a number. */
  predicate Over(d: Dict, column: string, c: real)
  {
    NumberIn(d, column).Some? && NumberIn(d, column).value > c
  }

  /** `column < c` in SQL. */
  predicate Under(d: Dict, column: string, c: real)
  {
    NumberIn(d, column).Some? && NumberIn(d, column).value < c
  }

  lemma OverIff(d: Dict, column: string, c: real)
    ensures Holds(d, Compare(column, DbGt, SNum(c))) <==> Over(d, column, c)
  {
  }

  lemma UnderIff(d: Dict, column: string, c: real)
    ensures Holds(d, Compare(column, DbLt, SNum(c))) <==> Under(d, column, c)
  {
  }

  /** `scan_company`: the record minus `id` and `isactive`, or KeyError
      when either is missing. */
  function Evaluate(d: Dict): (r: Result<Dict>)
    ensures r.Success? <==> "id" in d.vals && "isactive" in d.vals
    ensures r.Success? ==> r.value.vals == d.vals - {"id", "isactive"}
    ensures r.Success? && WellFormed(d) ==> WellFormed(r.value)
    ensures r.Failure? ==> r.error == "KeyError"
  {
    assert Distinct(Drops);
    assert (set k | k in Drops) == {"id", "isactive"};
    DeleteStrict(d, Drops)
  }

  /** A record that passed the candidate query is active, so it has the
      `isactive` key; with an `id` it always comes back from `scan_company`
      and is non-empty as long as it has any other column. */
  lemma PassingRecordReturned(d: Dict, exchanges: set<string>, cs: seq<Condition>)
    requires Candidate(d, exchanges, cs) && "id" in d.vals
    ensures Evaluate(d).Success?
    ensures "exchange" in Evaluate(d).value.vals
    ensures !IsEmpty(Evaluate(d).value)
  {
    assert "exchange" in Evaluate(d).value.vals;
  }

  /** The `scan_company` of the three screens, on the mutable record. */
  method ScanCompany(info: CompanyInfo) returns (r: Result<CompanyInfo>)
    requires info.Valid()
    modifies info
    ensures r.Success? <==> Evaluate(old(info.Snapshot())).Success?
    ensures r.Success? ==> r.value == info && info.Valid() && info.Snapshot() == Evaluate(old(info.Snapshot())).value
    ensures r.Failure? ==> r.error == "KeyError"
  {
    var ok := info.DeleteKeys(Drops);
    if !ok {
      return Failure("KeyError");
    }
    return Success(info);
  }
}
