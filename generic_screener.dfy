/** The user-configurable screener. Each filter names a metric: database
    metrics become conditions of the candidate query, technical metrics are
    evaluated on the price history of each candidate. */
module GenericScreener {
  import opened Common
  import opened Bars
  import opened Records
  import opened Query

  /** How a database value is compared: percentages are stored as
      fractions, so the user's value is divided by 100 first. */
  datatype Kind = Numeric | Percentage | PercentageRaw | Category

  /** Where a metric comes from: a database column, or the price history. */
  datatype Source = Db(column: string, kind: Kind) | Tech

  /** The table of known metrics. */
  const FilterMap: map<string, Source> := map[
    "marketcap" := Db("marketcap", Numeric),
    "dividendyield" := Db("dividendyield", Percentage),
    "currentprice" := Db("currentprice", Numeric),
    "industry" := Db("industry", Category),
    "sector" := Db("sectorkey", Category),
    "country" := Db("country", Category),
    "recommendationkey" := Db("recommendationkey", Category),
    "trailingpe" := Db("trailingpe", Numeric),
    "forwardpe" := Db("forwardpe", Numeric),
    "trailingpegratio" := Db("trailingpegratio", Numeric),
    "pricetosalestrailing12months" := Db("pricetosalestrailing12months", Numeric),
    "pricetobook" := Db("pricetobook", Numeric),
    "enterprisetoebitda" := Db("enterprisetoebitda", Numeric),
    "returnonequity" := Db("returnonequity", Percentage),
    "returnonassets" := Db("returnonassets", Percentage),
    "profitmargins" := Db("profitmargins", Percentage),
    "grossmargins" := Db("grossmargins", Percentage),
    "operatingmargins" := Db("operatingmargins", Percentage),
    "earningsgrowth_quarterly_yoy" := Db("earningsgrowth_quarterly_yoy", Percentage),
    "revenuegrowth_quarterly_yoy" := Db("revenuegrowth_quarterly_yoy", Percentage),
    "eps_cagr_3year" := Db("eps_cagr_3year", Percentage),
    "debttoequity" := Db("debttoequity", Numeric),
    "currentratio" := Db("currentratio", Numeric),
    "payoutratio" := Db("payoutratio", Percentage),
    "beta" := Db("beta", Numeric),
    "price_relative_to_52week_high" := Db("price_relative_to_52week_high", PercentageRaw),
    "relative_strength_percentile_252" := Db("relative_strength_percentile_252", Numeric),
    "relative_strength_percentile_126" := Db("relative_strength_percentile_126", Numeric),
    "relative_strength_percentile_63" := Db("relative_strength_percentile_63", Numeric),
    "_52weekchange" := Db("_52weekchange", Percentage),
    "sma" := Tech,
    "ema" := Tech,
    "rsi" := Tech,
    "macd" := Tech,
    "stoch" := Tech,
    "bbands" := Tech,
    "adx" := Tech
  ]

  const DefaultMarket := "us"
  const DefaultLeadingColumns := ["symbol", "longname", "marketcap"]
  const SortBy := "marketcap"
  const Ascending := false
  /** The keys removed from a record that passes. */
  const Drops := ["id", "isactive"]

  /** The leading columns: the user's output columns, or the default. */
  function LeadingColumns(outputColumns: Option<seq<string>>): (r: seq<string>)
    ensures outputColumns.None? ==> r == DefaultLeadingColumns
    ensures outputColumns.Some? ==> r == outputColumns.value
  {
    match outputColumns
    case None => DefaultLeadingColumns
    case Some(cs) => cs
  }

  /** The `value` of a filter: absent, None, a number, a string, a list, or
      a mapping of indicator parameters. */
  datatype FilterValue =
    | NoValue
    | NullValue
    | NumberValue(x: real)
    | TextValue(s: string)
    | ListValue(items: seq<Scalar>)
    | MappingValue(params: map<string, real>)

  datatype Filter = Filter(name: Option<string>, op: Option<string>, value: FilterValue)

  /** A known metric served by `source`. */
  predicate HasSource(f: Filter, tech: bool)
  {
    f.name.Some? && f.name.value in FilterMap && FilterMap[f.name.value].Tech? == tech
  }

  // ---------------------------------------------------------------- database

  /** The comparison operators recognised for database filters; `'in'` is
      handled separately and anything else adds no comparison. */
  function DbOpOf(op: string): (r: Option<DbOp>)
    ensures r.Some? <==> op in {">", ">=", "<", "<=", "=="}
  {
    if op == ">" then Some(DbGt)
    else if op == ">=" then Some(DbGe)
    else if op == "<" then Some(DbLt)
    else if op == "<=" then Some(DbLe)
    else if op == "==" then Some(DbEq)
    else None
  }

  /** A percentage value divided by 100; dividing anything but a number
      raises. */
  function Scaled(v: FilterValue): (r: Result<FilterValue>)
    ensures v.NumberValue? ==> r == Success(NumberValue(v.x / 100.0))
    ensures !v.NumberValue? ==> r.Failure?
  {
    if v.NumberValue? then Success(NumberValue(v.x / 100.0)) else Failure("TypeError")
  }

  /** A filter is accepted for the database when it names a database metric,
      has a non-empty operator and a value that is not None. */
  predicate Accepted(f: Filter)
  {
    HasSource(f, false) && f.op.Some? && f.op.value != "" && !f.value.NoValue? && !f.value.NullValue?
  }

  /** The number a filter compares with: its value, divided by 100 for a
      percentage. */
  function Operand(kind: Kind, x: real): real
  {
    if kind == Percentage then x / 100.0 else x
  }

  /** The conditions one filter adds to the query. */
  function FilterConditions(f: Filter): (r: Result<seq<Condition>>)
    ensures !Accepted(f) ==> r == Success([])
    ensures Accepted(f) && r.Success? ==>
              |r.value| >= 1 && r.value[0] == NotNull(FilterMap[f.name.value].column)
    ensures Accepted(f) && f.value.NumberValue? && DbOpOf(f.op.value).Some? ==>
              var src := FilterMap[f.name.value];
              r == Success([NotNull(src.column),
                            Compare(src.column, DbOpOf(f.op.value).value,
                                    SNum(Operand(src.kind, f.value.x)))])
    ensures Accepted(f) && FilterMap[f.name.value].kind == Percentage && !f.value.NumberValue? ==> r.Failure?
  {
    if !Accepted(f) then Success([])
    else
      var src := FilterMap[f.name.value];
      var op := f.op.value;
      var scaled := if src.kind == Percentage then Scaled(f.value) else Success(f.value);
      assert f.value.NumberValue? && scaled.Success? ==> scaled.value == NumberValue(Operand(src.kind, f.value.x));
      match scaled
      case Failure(e) => Failure(e)
      case Success(v) =>
        if DbOpOf(op).Some? then
          match v
          case NumberValue(x) => Success([NotNull(src.column), Compare(src.column, DbOpOf(op).value, SNum(x))])
          case TextValue(s) => Success([NotNull(src.column), Compare(src.column, DbOpOf(op).value, SText(s))])
          case _ => Failure("ArgumentError")
        else if op == "in" then
          if v.ListValue? && |v.items| > 0 then Success([NotNull(src.column), OneOf(src.column, v.items)])
          else Success([NotNull(src.column)])
        else Success([NotNull(src.column)])
  }

  /** The conditions of all filters, in order; the first filter that raises
      stops the construction. */
  function Conditions(fs: seq<Filter>): Result<seq<Condition>>
  {
    if fs == [] then Success([])
    else
      match Conditions(fs[..|fs| - 1])
      case Failure(e) => Failure(e)
      case Success(cs) =>
        match FilterConditions(fs[|fs| - 1])
        case Failure(e) => Failure(e)
        case Success(more) => Success(cs + more)
  }

  /** The loop of the query builder, appending each filter's conditions. */
  method BuildConditions(fs: seq<Filter>) returns (r: Result<seq<Condition>>)
    ensures r == Conditions(fs)
  {
    var active: seq<Condition> := [];
    var j := 0;
    while j < |fs|
      invariant 0 <= j <= |fs|
      invariant Conditions(fs[..j]) == Success(active)
    {
      assert fs[..j + 1][..j] == fs[..j];
      var more := FilterConditions(fs[j]);
      if more.Failure? {
        FailureSticks(fs, j + 1);
        return Failure(more.error);
      }
      active := active + more.value;
      j := j + 1;
    }
    assert fs[..j] == fs;
    return Success(active);
  }

  /** Once a prefix of the filters raises, the whole list raises with the
      same error. */
  lemma {:induction false} FailureSticks(fs: seq<Filter>, j: nat)
    requires j <= |fs| && Conditions(fs[..j]).Failure?
    ensures Conditions(fs) == Conditions(fs[..j])
    decreases |fs| - j
  {
    if j < |fs| {
      assert fs[..j + 1][..j] == fs[..j];
      FailureSticks(fs, j + 1);
    } else {
      assert fs[..j] == fs;
    }
  }

  /** Filters naming an unknown metric never change the conditions. */
  function KnownOnly(fs: seq<Filter>): (r: seq<Filter>)
    ensures forall f :: f in r <==> f in fs && f.name.Some? && f.name.value in FilterMap
  {
    if fs == [] then []
    else
      var last := fs[|fs| - 1];
      KnownOnly(fs[..|fs| - 1]) + (if last.name.Some? && last.name.value in FilterMap then [last] else [])
  }

  lemma {:induction false} UnknownFiltersIgnored(fs: seq<Filter>)
    ensures Conditions(KnownOnly(fs)) == Conditions(fs)
  {
    if fs != [] {
      var init, last := fs[..|fs| - 1], fs[|fs| - 1];
      UnknownFiltersIgnored(init);
      if last.name.Some? && last.name.value in FilterMap {
        var k := KnownOnly(fs);
        assert k[..|k| - 1] == KnownOnly(init);
      } else {
        assert KnownOnly(fs) == KnownOnly(init);
        match Conditions(init)
        case Failure(_) =>
        case Success(cs) => assert cs + [] == cs;
      }
    }
  }

  // ----------------------------------------------------------- price history

  /** The technical filters, in order. */
  function TechFilters(fs: seq<Filter>): (r: seq<Filter>)
    ensures forall f :: f in r <==> f in fs && HasSource(f, true)
  {
    if fs == [] then []
    else TechFilters(fs[..|fs| - 1]) + (if HasSource(fs[|fs| - 1], true) then [fs[|fs| - 1]] else [])
  }

  /** The operators of `eval(f"a {op} b")` that the model recognises. */
  datatype EvalOp = EvGt | EvGe | EvLt | EvLe | EvEq | EvNe

  function EvalOpOf(op: Option<string>): Option<EvalOp>
  {
    if op == Some(">") then Some(EvGt)
    else if op == Some(">=") then Some(EvGe)
    else if op == Some("<") then Some(EvLt)
    else if op == Some("<=") then Some(EvLe)
    else if op == Some("==") then Some(EvEq)
    else if op == Some("!=") then Some(EvNe)
    else None
  }

  /** `eval(f"a {op} b")`: an operator the model does not recognise raises. */
  function Eval(op: Option<string>, a: real, b: real): (r: Result<bool>)
    ensures r.Failure? <==> EvalOpOf(op).None?
    ensures op == Some(">") ==> r == Success(a > b)
    ensures op == Some("<") ==> r == Success(a < b)
  {
    match EvalOpOf(op)
    case None => Failure("SyntaxError")
    case Some(EvGt) => Success(a > b)
    case Some(EvGe) => Success(a >= b)
    case Some(EvLt) => Success(a < b)
    case Some(EvLe) => Success(a <= b)
    case Some(EvEq) => Success(a == b)
    case Some(EvNe) => Success(a != b)
  }

  function Param(m: map<string, real>, key: string, default: real): real
  {
    if key in m then m[key] else default
  }

  /** The two last points of x cross above y: above now, at or below before. */
  predicate CrossedAbove(x: Series, y: Series)
    requires |x| >= 2 && |y| >= 2
  {
    Gt(Back(x, 1), Back(y, 1)) && Le(Back(x, 2), Back(y, 2))
  }

  predicate CrossedBelow(x: Series, y: Series)
    requires |x| >= 2 && |y| >= 2
  {
    Lt(Back(x, 1), Back(y, 1)) && Ge(Back(x, 2), Back(y, 2))
  }

  /** The two crossings exclude each other. */
  lemma CrossingsExclusive(x: Series, y: Series)
    requires |x| >= 2 && |y| >= 2
    ensures !(CrossedAbove(x, y) && CrossedBelow(x, y))
  {
  }

  /** The latest close against the latest value of a moving average with
      the given period: false without `period` bars or a known average. */
  function AgainstAverage(bars: seq<Bar>, lib: Talib, call: IndicatorCall, period: real, op: Option<string>): Result<bool>
  {
    if (|bars| as real) < period then Success(false)
    else if |bars| == 0 then Failure("IndexError")
    else
      var avg := Back(lib(call, bars), 1);
      if avg.None? then Success(false) else Eval(op, Back(bars, 1).close, avg.value)
  }

  /** One technical filter on a company's bars. A `value` that is not a
      mapping raises once the filter reads its parameters; `adx` and unknown
      names fail. */
  function ApplyTechFilter(bars: seq<Bar>, lib: Talib, f: Filter): (r: Result<bool>)
  {
    var name := if f.name.Some? then f.name.value else "";
    if name !in {"sma", "ema", "rsi", "macd", "stoch", "bbands"} then Success(false)
    else if !(f.value.NoValue? || f.value.MappingValue?) then Failure("AttributeError")
    else
      var m := if f.value.MappingValue? then f.value.params else map[];
      var n := |bars|;
      if name == "sma" then
        var period := Param(m, "period", 20.0);
        AgainstAverage(bars, lib, Sma(Close, period), period, f.op)
      else if name == "ema" then
        var period := Param(m, "period", 20.0);
        AgainstAverage(bars, lib, Ema(period), period, f.op)
      else if name == "rsi" then
        var period := Param(m, "period", 14.0);
        if (n as real) < period + 1.0 then Success(false)
        else if n == 0 then Failure("IndexError")
        else
          var rsi := Back(lib(Rsi(period), bars), 1);
          if rsi.None? || "value" !in m then Success(false) else Eval(f.op, rsi.value, m["value"])
      else if name == "macd" then
        var call := (Param(m, "fastperiod", 12.0), Param(m, "slowperiod", 26.0), Param(m, "signalperiod", 9.0));
        var line := lib(MacdLine(call.0, call.1, call.2), bars);
        var signal := lib(MacdSignal(call.0, call.1, call.2), bars);
        if n < 2 || Back(line, 1).None? || Back(signal, 1).None? then Success(false)
        else if f.op == Some("cross_above") then Success(CrossedAbove(line, signal))
        else if f.op == Some("cross_below") then Success(CrossedBelow(line, signal))
        else Success(false)
      else if name == "stoch" then
        var call := (Param(m, "fastk_period", 14.0), Param(m, "slowk_period", 3.0), Param(m, "slowd_period", 3.0));
        var k := lib(StochK(call.0, call.1, call.2), bars);
        var d := lib(StochD(call.0, call.1, call.2), bars);
        if n < 2 || Back(k, 1).None? || Back(d, 1).None? then Success(false)
        else if f.op == Some("cross_above") then Success(CrossedAbove(k, d))
        else if f.op == Some("cross_below") then Success(CrossedBelow(k, d))
        else if f.op == Some("above") then
          if "value" in m then Success(Back(k, 1).value > m["value"]) else Failure("TypeError")
        else if f.op == Some("below") then
          if "value" in m then Success(Back(k, 1).value < m["value"]) else Failure("TypeError")
        else Success(false)
      else
        var call := (Param(m, "period", 20.0), Param(m, "nbdevup", 2.0), Param(m, "nbdevdn", 2.0));
        var upper := lib(BbUpper(call.0, call.1, call.2), bars);
        var lower := lib(BbLower(call.0, call.1, call.2), bars);
        if n < 1 || Back(upper, 1).None? || Back(lower, 1).None? then Success(false)
        else if f.op == Some("cross_above_upper") then Success(Back(bars, 1).close > Back(upper, 1).value)
        else if f.op == Some("cross_below_lower") then Success(Back(bars, 1).close < Back(lower, 1).value)
        else Success(false)
  }

  /** An `adx` filter is listed but never implemented: it rejects every
      company. */
  lemma AdxRejectsEverything(bars: seq<Bar>, lib: Talib, f: Filter)
    requires f.name == Some("adx")
    ensures ApplyTechFilter(bars, lib, f) == Success(false)
  {
  }

  /** A moving-average filter fails without `period` bars, and a close equal
      to the average passes neither `>` nor `<`. */
  lemma AverageFilterBoundaries(bars: seq<Bar>, lib: Talib, f: Filter)
    requires f.name == Some("sma") && f.value.MappingValue?
    ensures (|bars| as real) < Param(f.value.params, "period", 20.0) ==> ApplyTechFilter(bars, lib, f) == Success(false)
    ensures |bars| > 0 && (f.op == Some(">") || f.op == Some("<")) &&
            Back(lib(Sma(Close, Param(f.value.params, "period", 20.0)), bars), 1) == Some(Back(bars, 1).close) ==>
              ApplyTechFilter(bars, lib, f) == Success(false)
  {
  }

  /** The MACD and stochastic crossings cannot both pass on the same data. */
  lemma CrossFiltersExclusive(bars: seq<Bar>, lib: Talib, f: Filter, g: Filter)
    requires f.name == g.name && f.value == g.value && f.name in {Some("macd"), Some("stoch")}
    requires f.op == Some("cross_above") && g.op == Some("cross_below")
    ensures !(ApplyTechFilter(bars, lib, f) == Success(true) && ApplyTechFilter(bars, lib, g) == Success(true))
  {
    if |bars| >= 2 {
      var m := if f.value.MappingValue? then f.value.params else map[];
      if f.name == Some("macd") {
        var call := (Param(m, "fastperiod", 12.0), Param(m, "slowperiod", 26.0), Param(m, "signalperiod", 9.0));
        CrossingsExclusive(lib(MacdLine(call.0, call.1, call.2), bars), lib(MacdSignal(call.0, call.1, call.2), bars));
      } else {
        var call := (Param(m, "fastk_period", 14.0), Param(m, "slowk_period", 3.0), Param(m, "slowd_period", 3.0));
        CrossingsExclusive(lib(StochK(call.0, call.1, call.2), bars), lib(StochD(call.0, call.1, call.2), bars));
      }
    }
  }

  /** The technical filters applied in order, stopping at the first that
      fails or raises. */
  function PassAll(bars: seq<Bar>, lib: Talib, ts: seq<Filter>): (r: Result<bool>)
    ensures r == Success(true) <==> forall j :: 0 <= j < |ts| ==> ApplyTechFilter(bars, lib, ts[j]) == Success(true)
    ensures r == Success(false) ==> exists j :: 0 <= j < |ts| && ApplyTechFilter(bars, lib, ts[j]) == Success(false)
  {
    if ts == [] then Success(true)
    else
      match ApplyTechFilter(bars, lib, ts[0])
      case Failure(e) => Failure(e)
      case Success(false) => Success(false)
      case Success(true) =>
        var rest := PassAll(bars, lib, ts[1..]);
        assert forall j :: 1 <= j < |ts| ==> ts[j] == ts[1..][j - 1];
        rest
  }

  /** `scan_company`: the record without `id` and `isactive` when every
      technical filter passes, none when one fails. */
  function Evaluate(d: Dict, bars: seq<Bar>, lib: Talib, fs: seq<Filter>): (r: Result<Option<Dict>>)
    ensures r.Success? && r.value.Some? ==> r.value.value.vals == d.vals - {"id", "isactive"}
    ensures WellFormed(d) && r.Success? && r.value.Some? ==> WellFormed(r.value.value)
  {
    match PassAll(bars, lib, TechFilters(fs))
    case Failure(e) => Failure(e)
    case Success(false) => Success(None)
    case Success(true) =>
      assert (set k | k in Drops) == {"id", "isactive"};
      Success(Some(DeleteAll(d, Drops)))
  }

  /** Without technical filters every candidate passes. */
  lemma NoTechFiltersPassAll(d: Dict, bars: seq<Bar>, lib: Talib, fs: seq<Filter>)
    requires forall f :: f in fs ==> !HasSource(f, true)
    ensures Evaluate(d, bars, lib, fs) == Success(Some(DeleteAll(d, Drops)))
  {
    assert TechFilters(fs) == [] by {
      if TechFilters(fs) != [] {
        assert TechFilters(fs)[0] in TechFilters(fs);
      }
    }
  }

  method ScanCompany(bars: seq<Bar>, lib: Talib, fs: seq<Filter>, info: CompanyInfo) returns (r: Result<CompanyInfo?>)
    requires info.Valid()
    modifies info
    ensures Evaluate(old(info.Snapshot()), bars, lib, fs).Failure? ==>
              r == Failure(Evaluate(old(info.Snapshot()), bars, lib, fs).error) && info.Snapshot() == old(info.Snapshot())
    ensures Evaluate(old(info.Snapshot()), bars, lib, fs) == Success(None) ==>
              r == Success(null) && info.Snapshot() == old(info.Snapshot())
    ensures Evaluate(old(info.Snapshot()), bars, lib, fs).Success? && Evaluate(old(info.Snapshot()), bars, lib, fs).value.Some? ==>
              r == Success(info) && info.Valid() &&
              info.Snapshot() == Evaluate(old(info.Snapshot()), bars, lib, fs).value.value
  {
    var ts := TechFilters(fs);
    var i := 0;
    while i < |ts|
      invariant 0 <= i <= |ts|
      invariant forall j :: 0 <= j < i ==> ApplyTechFilter(bars, lib, ts[j]) == Success(true)
      invariant PassAll(bars, lib, ts) == PassAll(bars, lib, ts[i..])
    {
      var passed := ApplyTechFilter(bars, lib, ts[i]);
      if passed.Failure? {
        return Failure(passed.error);
      }
      if !passed.value {
        return Success(null);
      }
      assert ts[i..][1..] == ts[i + 1..];
      i := i + 1;
    }
    info.DiscardKeys(Drops);
    return Success(info);
  }
}
