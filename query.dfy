/** The candidate query of a scanner, as a predicate over a company record:
    SQL comparisons on the record's columns, where NULL selects nothing. */
module Query {
  import opened Common
  import opened Records

  datatype Scalar = SNum(x: real) | SText(s: string)

  datatype DbOp = DbGt | DbGe | DbLt | DbLe | DbEq

  /** One conjunct of the candidate query. */
  datatype Condition =
    | NotNull(column: string)
    | Compare(column: string, op: DbOp, operand: Scalar)
    | OneOf(column: string, items: seq<Scalar>)

  /** Code-point order on strings. */
  predicate TextLess(a: string, b: string)
  {
    if |a| == 0 then |b| > 0
    else if |b| == 0 then false
    else if a[0] != b[0] then a[0] < b[0]
    else TextLess(a[1..], b[1..])
  }

  predicate CompareReal(op: DbOp, a: real, b: real)
  {
    match op
    case DbGt => a > b
    case DbGe => a >= b
    case DbLt => a < b
    case DbLe => a <= b
    case DbEq => a == b
  }

  predicate CompareText(op: DbOp, a: string, b: string)
  {
    match op
    case DbGt => TextLess(b, a)
    case DbGe => !TextLess(a, b)
    case DbLt => TextLess(a, b)
    case DbLe => !TextLess(b, a)
    case DbEq => a == b
  }

  /** A record value as a comparable scalar; NULL and other kinds are none. */
  function ScalarOf(v: Value): Option<Scalar>
  {
    match v
    case Num(Finite(x)) => Some(SNum(x))
    case Text(s) => Some(SText(s))
    case _ => None
  }

  /** SQL semantics: a comparison involving NULL, or values of different
      kinds, does not select the row. */
  predicate Holds(d: Dict, c: Condition)
  {
    c.column in d.vals &&
    var v := d.vals[c.column];
    match c
    case NotNull(_) => !v.Null?
    case Compare(_, op, SNum(b)) => ScalarOf(v).Some? && ScalarOf(v).value.SNum? && CompareReal(op, ScalarOf(v).value.x, b)
    case Compare(_, op, SText(b)) => ScalarOf(v).Some? && ScalarOf(v).value.SText? && CompareText(op, ScalarOf(v).value.s, b)
    case OneOf(_, items) => ScalarOf(v).Some? && ScalarOf(v).value in items
  }

  /** The candidate query: an active company listed on one of the market's
      exchanges that satisfies every condition. */
  predicate Candidate(d: Dict, exchanges: set<string>, cs: seq<Condition>)
  {
    "isactive" in d.vals && d.vals["isactive"] == Flag(true) && Listed(d, exchanges) &&
    forall j :: 0 <= j < |cs| ==> Holds(d, cs[j])
  }

  /** The company's exchange is one of the market's. */
  predicate Listed(d: Dict, exchanges: set<string>)
  {
    "exchange" in d.vals && d.vals["exchange"].Text? && d.vals["exchange"].s in exchanges
  }

  /** Bounds that contradict each other select no company; the query is
      still built without error. */
  lemma ContradictoryBoundsSelectNothing(d: Dict, exchanges: set<string>, cs: seq<Condition>,
                                         column: string, lo: real, hi: real)
    requires Compare(column, DbGt, SNum(lo)) in cs && Compare(column, DbLt, SNum(hi)) in cs
    requires hi <= lo
    ensures !Candidate(d, exchanges, cs)
  {
  }
}
