/** The scan template every scanner runs (`BaseScanner.run_scan`): select
    the candidates, load and split-adjust their price history, drop the
    illiquid companies, hand each remaining company to the scanner's
    `scan_company`, and assemble the passing records into a table. */
module ScannerSdk {
  import opened Common
  import opened Bars
  import opened Records
  import opened Query
  import opened Tables
  import opened PriceHistory
  import NewHighs
  import NewLows
  import GoldenCross
  import DeathCross
  import SellingClimax
  import WyckoffSpring
  import GapAndGo
  import BullishRsiDivergence
  import BearishRsiDivergence
  import BearishRallyFailure
  import RsiOversold
  import Canslim
  import LorenzRegime
  import BbSqueezeBreakout
  import BbExtremeReversal
  import GenericScreener
  import Fundamentals
  import Garp
  import UndervaluedPb
  import HighDividendYield

  // -------------------------------------------------------------- defaults

  const DefaultLeadingColumns := ["symbol", "longname", "sector", "marketcap"]
  const DefaultSortBy := "marketcap"
  const DefaultAscending := false
  const DefaultMinMarketCap := 1000000000.0
  const DefaultMinAvgVolume := 100000.0
  const DefaultVolumeLookback := 50

  /** The chart-pattern scanners, each with its parameters. */
  datatype Pattern =
    | NewHighsScan(setupLookback: int)
    | NewLowsScan(setupLookback: int)
    | GoldenCrossScan(crossoverLookback: int, maxExtensionPct: real)
    | DeathCrossScan(crossoverLookback: int)
    | SellingClimaxScan(sellingClimax: SellingClimax.Params)
    | WyckoffSpringScan(wyckoffSpring: WyckoffSpring.Params)
    | GapAndGoScan(gapAndGo: GapAndGo.Params)
    | BullishRsiDivergenceScan(bullish: BullishRsiDivergence.Params)
    | BearishRsiDivergenceScan(bearish: BearishRsiDivergence.Params)
    | BearishRallyFailureScan(rallyFailure: BearishRallyFailure.Params)
    | RsiOversoldScan(rsiOversold: RsiOversold.Params)
    | CanslimScan(canslim: Canslim.Params)
    | LorenzRegimeScan(lorenz: LorenzRegime.Params)
    | BbSqueezeBreakoutScan(squeeze: BbSqueezeBreakout.Params)
    | BbExtremeReversalScan(reversal: BbExtremeReversal.Params)

  /** The scanners of the registry, each with its parameters. `BaseOnly`
      is a scanner that keeps every default of the template. */
  datatype Scanner =
    | BaseOnly
    | PatternScan(pattern: Pattern)
    | GenericScan(filters: seq<GenericScreener.Filter>, outputColumns: Option<seq<string>>)
    | GarpScan(garp: Garp.Params)
    | UndervaluedPbScan(undervalued: UndervaluedPb.Params)
    | HighDividendYieldScan(highYield: HighDividendYield.Params)

  /** The template's own parameters: the market's exchanges, the market
      cap floor of the default query, and the liquidity filter. */
  datatype Config = Config(exchanges: set<string>, minMarketCap: real,
                           minAvgVolume: real, volumeLookback: int)

  // ------------------------------------------------------ per-scanner hooks

  /** `get_leading_columns()`. */
  function LeadingColumnsOf(s: Scanner): seq<string>
  {
    match s
    case BaseOnly => DefaultLeadingColumns
    case PatternScan(p) => PatternLeadingColumns(p)
    case GenericScan(_, cols) => GenericScreener.LeadingColumns(cols)
    case GarpScan(_) => Garp.LeadingColumns
    case UndervaluedPbScan(_) => UndervaluedPb.LeadingColumns
    case HighDividendYieldScan(_) => HighDividendYield.LeadingColumns
  }

  function PatternLeadingColumns(p: Pattern): seq<string>
  {
    match p
    case NewHighsScan(_) => NewHighs.LeadingColumns
    case NewLowsScan(_) => NewLows.LeadingColumns
    case GoldenCrossScan(_, _) => GoldenCross.LeadingColumns
    case DeathCrossScan(_) => DeathCross.LeadingColumns
    case SellingClimaxScan(_) => SellingClimax.LeadingColumns
    case WyckoffSpringScan(_) => WyckoffSpring.LeadingColumns
    case GapAndGoScan(_) => GapAndGo.LeadingColumns
    case BullishRsiDivergenceScan(_) => BullishRsiDivergence.LeadingColumns
    case BearishRsiDivergenceScan(_) => BearishRsiDivergence.LeadingColumns
    case BearishRallyFailureScan(_) => BearishRallyFailure.LeadingColumns
    case RsiOversoldScan(_) => RsiOversold.LeadingColumns
    case CanslimScan(_) => Canslim.LeadingColumns
    case LorenzRegimeScan(_) => LorenzRegime.LeadingColumns
    case BbSqueezeBreakoutScan(_) => BbSqueezeBreakout.LeadingColumns
    case BbExtremeReversalScan(_) => BbExtremeReversal.LeadingColumns
  }

  /** `get_sort_info()`: the sort column and whether it is ascending. */
  function SortOf(s: Scanner): (string, bool)
  {
    match s
    case BaseOnly => (DefaultSortBy, DefaultAscending)
    case PatternScan(p) => PatternSort(p)
    case GenericScan(_, _) => (GenericScreener.SortBy, GenericScreener.Ascending)
    case GarpScan(_) => (Garp.SortBy, Garp.Ascending)
    case UndervaluedPbScan(_) => (UndervaluedPb.SortBy, UndervaluedPb.Ascending)
    case HighDividendYieldScan(_) => (HighDividendYield.SortBy, HighDividendYield.Ascending)
  }

  function PatternSort(p: Pattern): (string, bool)
  {
    match p
    case NewHighsScan(_) => (NewHighs.SortBy, NewHighs.Ascending)
    case NewLowsScan(_) => (NewLows.SortBy, NewLows.Ascending)
    case GoldenCrossScan(_, _) => (GoldenCross.SortBy, GoldenCross.Ascending)
    case DeathCrossScan(_) => (DeathCross.SortBy, DeathCross.Ascending)
    case SellingClimaxScan(_) => (SellingClimax.SortBy, SellingClimax.Ascending)
    case WyckoffSpringScan(_) => (WyckoffSpring.SortBy, WyckoffSpring.Ascending)
    case GapAndGoScan(_) => (GapAndGo.SortBy, GapAndGo.Ascending)
    case BullishRsiDivergenceScan(_) => (BullishRsiDivergence.SortBy, BullishRsiDivergence.Ascending)
    case BearishRsiDivergenceScan(_) => (BearishRsiDivergence.SortBy, BearishRsiDivergence.Ascending)
    case BearishRallyFailureScan(_) => (BearishRallyFailure.SortBy, BearishRallyFailure.Ascending)
    case RsiOversoldScan(_) => (RsiOversold.SortBy, RsiOversold.Ascending)
    case CanslimScan(_) => (Canslim.SortBy, Canslim.Ascending)
    case LorenzRegimeScan(_) => (LorenzRegime.SortBy, LorenzRegime.Ascending)
    case BbSqueezeBreakoutScan(_) => (BbSqueezeBreakout.SortBy, BbSqueezeBreakout.Ascending)
    case BbExtremeReversalScan(_) => (BbExtremeReversal.SortBy, BbExtremeReversal.Ascending)
  }

  /** The conditions of the candidate query after the active and market
      tests: the default query asks only for a market cap above the floor;
      the generic and fundamental screens build their own, and building the
      generic one can raise. */
  function QueryOf(s: Scanner, cfg: Config): (r: Result<seq<Condition>>)
    ensures !s.GenericScan? ==> r.Success?
    ensures s.GenericScan? ==> r == GenericScreener.Conditions(s.filters)
  {
    match s
    case GenericScan(fs, _) => GenericScreener.Conditions(fs)
    case GarpScan(p) => Success(Garp.Conditions(p))
    case UndervaluedPbScan(p) => Success(UndervaluedPb.Conditions(p))
    case HighDividendYieldScan(p) => Success(HighDividendYield.Conditions(p))
    case _ => Success([Compare("marketcap", DbGt, SNum(cfg.minMarketCap))])
  }

  /** `scan_company(group, company_info)`: the record to report, none, or
      the exception that aborts the scan. */
  function ScanCompany(s: Scanner, d: Dict, bars: seq<Bar>, lib: Talib): (r: Result<Option<Dict>>)
    ensures s.BaseOnly? ==> r == Success(None)
    ensures s.PatternScan? ==> r.Success?
  {
    match s
    case BaseOnly => Success(None)
    case PatternScan(p) => Success(Detected(p, d, bars, lib))
    case GenericScan(fs, _) => GenericScreener.Evaluate(d, bars, lib, fs)
    case GarpScan(_) => Reported(Fundamentals.Evaluate(d))
    case UndervaluedPbScan(_) => Reported(Fundamentals.Evaluate(d))
    case HighDividendYieldScan(_) => Reported(Fundamentals.Evaluate(d))
  }

  /** The `scan_company` of a chart-pattern scanner, which never raises. */
  function Detected(p: Pattern, d: Dict, bars: seq<Bar>, lib: Talib): Option<Dict>
  {
    match p
    case NewHighsScan(L) => NewHighs.Evaluate(d, bars, L)
    case NewLowsScan(L) => NewLows.Evaluate(d, bars, L)
    case GoldenCrossScan(L, pct) => GoldenCross.Evaluate(d, bars, lib, L, pct)
    case DeathCrossScan(L) => DeathCross.Evaluate(d, bars, lib, L)
    case SellingClimaxScan(q) => SellingClimax.Evaluate(d, bars, lib, q)
    case WyckoffSpringScan(q) => WyckoffSpring.Evaluate(d, bars, lib, q)
    case GapAndGoScan(q) => GapAndGo.Evaluate(d, bars, lib, q)
    case BullishRsiDivergenceScan(q) => BullishRsiDivergence.Evaluate(d, bars, lib, q)
    case BearishRsiDivergenceScan(q) => BearishRsiDivergence.Evaluate(d, bars, lib, q)
    case BearishRallyFailureScan(q) => BearishRallyFailure.Evaluate(d, bars, lib, q)
    case RsiOversoldScan(q) => RsiOversold.Evaluate(d, bars, lib, q)
    case CanslimScan(q) => Canslim.Evaluate(d, bars, q)
    case LorenzRegimeScan(q) => LorenzRegime.Evaluate(d, bars, lib, q)
    case BbSqueezeBreakoutScan(q) => BbSqueezeBreakout.Evaluate(d, bars, lib, q)
    case BbExtremeReversalScan(q) => BbExtremeReversal.Evaluate(d, bars, lib, q)
  }

  /** A record returned by a fundamental screen, or its exception. */
  function Reported(r: Result<Dict>): (o: Result<Option<Dict>>)
    ensures r.Failure? ==> o == Failure(r.error)
    ensures r.Success? ==> o == Success(Some(r.value))
  {
    match r
    case Failure(e) => Failure(e)
    case Success(x) => Success(Some(x))
  }

  /** The call `self.scan_company(group, company_info)` on the mutable
      record, dispatched to the scanner's own method. */
  method CallScanCompany(s: Scanner, bars: seq<Bar>, lib: Talib, info: CompanyInfo) returns (r: Result<CompanyInfo?>)
    requires info.Valid()
    modifies info
    ensures ScanCompany(s, old(info.Snapshot()), bars, lib).Failure? ==>
              r == Failure(ScanCompany(s, old(info.Snapshot()), bars, lib).error)
    ensures ScanCompany(s, old(info.Snapshot()), bars, lib) == Success(None) ==> r == Success(null)
    ensures ScanCompany(s, old(info.Snapshot()), bars, lib).Success? && ScanCompany(s, old(info.Snapshot()), bars, lib).value.Some? ==>
              r == Success(info) && info.Valid() && info.Snapshot() == ScanCompany(s, old(info.Snapshot()), bars, lib).value.value
  {
    match s
    case BaseOnly => return Success(null);
    case PatternScan(p) => var x := CallDetector(p, bars, lib, info); return Success(x);
    case GenericScan(fs, _) => r := GenericScreener.ScanCompany(bars, lib, fs, info);
    case GarpScan(_) => r := CallFundamentals(info);
    case UndervaluedPbScan(_) => r := CallFundamentals(info);
    case HighDividendYieldScan(_) => r := CallFundamentals(info);
  }

  /** `scan_company` of a chart-pattern scanner on the mutable record: the
      enriched record when the pattern is found, `None` otherwise. */
  method CallDetector(p: Pattern, bars: seq<Bar>, lib: Talib, info: CompanyInfo) returns (r: CompanyInfo?)
    requires info.Valid()
    modifies info
    ensures Detected(p, old(info.Snapshot()), bars, lib).None? ==> r == null
    ensures Detected(p, old(info.Snapshot()), bars, lib).Some? ==>
              r == info && info.Valid() && info.Snapshot() == Detected(p, old(info.Snapshot()), bars, lib).value
  {
    if PriceAction(p) {
      r := CallPriceActionDetector(p, bars, lib, info);
    } else {
      r := CallIndicatorDetector(p, bars, lib, info);
    }
  }

  /** The scanners that look only at prices and volume around a level or a
      moving average, as opposed to an oscillator or a band. */
  predicate PriceAction(p: Pattern)
  {
    p.NewHighsScan? || p.NewLowsScan? || p.GoldenCrossScan? || p.DeathCrossScan? ||
    p.SellingClimaxScan? || p.WyckoffSpringScan? || p.GapAndGoScan?
  }

  method CallPriceActionDetector(p: Pattern, bars: seq<Bar>, lib: Talib, info: CompanyInfo) returns (r: CompanyInfo?)
    requires info.Valid() && PriceAction(p)
    modifies info
    ensures Detected(p, old(info.Snapshot()), bars, lib).None? ==> r == null
    ensures Detected(p, old(info.Snapshot()), bars, lib).Some? ==>
              r == info && info.Valid() && info.Snapshot() == Detected(p, old(info.Snapshot()), bars, lib).value
  {
    match p
    case NewHighsScan(L) => r := NewHighs.Scan(bars, L, info);
    case NewLowsScan(L) => r := NewLows.Scan(bars, L, info);
    case GoldenCrossScan(L, pct) => r := GoldenCross.Scan(bars, lib, L, pct, info);
    case DeathCrossScan(L) => r := DeathCross.Scan(bars, lib, L, info);
    case SellingClimaxScan(q) => r := SellingClimax.Scan(bars, lib, q, info);
    case WyckoffSpringScan(q) => r := WyckoffSpring.Scan(bars, lib, q, info);
    case GapAndGoScan(q) => r := GapAndGo.Scan(bars, lib, q, info);
  }

  method CallIndicatorDetector(p: Pattern, bars: seq<Bar>, lib: Talib, info: CompanyInfo) returns (r: CompanyInfo?)
    requires info.Valid() && !PriceAction(p)
    modifies info
    ensures Detected(p, old(info.Snapshot()), bars, lib).None? ==> r == null
    ensures Detected(p, old(info.Snapshot()), bars, lib).Some? ==>
              r == info && info.Valid() && info.Snapshot() == Detected(p, old(info.Snapshot()), bars, lib).value
  {
    match p
    case BullishRsiDivergenceScan(q) => r := BullishRsiDivergence.Scan(bars, lib, q, info);
    case BearishRsiDivergenceScan(q) => r := BearishRsiDivergence.Scan(bars, lib, q, info);
    case BearishRallyFailureScan(q) => r := BearishRallyFailure.Scan(bars, lib, q, info);
    case RsiOversoldScan(q) => r := RsiOversold.Scan(bars, lib, q, info);
    case CanslimScan(q) => r := Canslim.Scan(bars, q, info);
    case LorenzRegimeScan(q) => r := LorenzRegime.Scan(bars, lib, q, info);
    case BbSqueezeBreakoutScan(q) => r := BbSqueezeBreakout.Scan(bars, lib, q, info);
    case BbExtremeReversalScan(q) => r := BbExtremeReversal.Scan(bars, lib, q, info);
  }

  method CallFundamentals(info: CompanyInfo) returns (r: Result<CompanyInfo?>)
    requires info.Valid()
    modifies info
    ensures Fundamentals.Evaluate(old(info.Snapshot())).Failure? ==>
              r == Failure(Fundamentals.Evaluate(old(info.Snapshot())).error)
    ensures Fundamentals.Evaluate(old(info.Snapshot())).Success? ==>
              r == Success(info) && info.Valid() && info.Snapshot() == Fundamentals.Evaluate(old(info.Snapshot())).value
  {
    var x := Fundamentals.ScanCompany(info);
    if x.Failure? {
      return Failure(x.error);
    }
    return Success(info);
  }

  // ------------------------------------------------------------- the run

  /** `{c.id: object_as_dict(c) for c in candidate_query.all()}`. */
  function CandidateMap(records: map<int, Dict>, exchanges: set<string>, cs: seq<Condition>): (m: map<int, Dict>)
    ensures forall id :: id in m <==> id in records && Candidate(records[id], exchanges, cs)
    ensures forall id :: id in m ==> m[id] == records[id]
  {
    map id | id in records && Candidate(records[id], exchanges, cs) :: records[id]
  }

  /** The split-adjusted history of every candidate that has bars in the
      loaded window; companies without bars do not appear. */
  function Histories(cands: map<int, Dict>, prices: map<int, seq<Bar>>): (h: map<int, seq<Bar>>)
    ensures forall id :: id in h <==> id in cands && id in prices && |prices[id]| > 0
    ensures forall id :: id in h ==> h[id] == SplitAdjust(prices[id])
  {
    map id | id in cands && id in prices && |prices[id]| > 0 :: SplitAdjust(prices[id])
  }

  /** The companies whose latest rolling average volume reaches the floor. */
  function LiquidIds(hist: map<int, seq<Bar>>, window: nat, minAvgVolume: real): (ids: set<int>)
    requires window >= 1
    ensures forall id :: id in ids <==> id in hist && Liquid(hist[id], window, minAvgVolume)
  {
    set id | id in hist && Liquid(hist[id], window, minAvgVolume)
  }

  lemma {:induction false} HasLeast(s: set<int>)
    requires s != {}
    ensures exists m :: m in s && forall x :: x in s ==> m <= x
    decreases |s|
  {
    assert (forall z :: z !in s) ==> s == {};
    var y :| y in s;
    var rest := s - {y};
    if rest != {} {
      HasLeast(rest);
      var m :| m in rest && forall x :: x in rest ==> m <= x;
      var least := if y < m then y else m;
      forall x | x in s ensures least <= x {
        if x != y {
          assert x in rest;
        }
      }
      assert least in s;
    } else {
      assert forall x :: x in s ==> x == y || x in rest;
    }
  }

  function Least(s: set<int>): (m: int)
    requires s != {}
    ensures m in s && forall x :: x in s ==> m <= x
  {
    HasLeast(s);
    var m :| m in s && forall x :: x in s ==> m <= x;
    m
  }

  /** The company ids in the order `groupby('company_id')` visits them. */
  function Ascending(s: set<int>): (r: seq<int>)
    ensures forall x :: x in r <==> x in s
    ensures forall i, j :: 0 <= i < j < |r| ==> r[i] < r[j]
    decreases |s|
  {
    if s == {} then []
    else
      var m := Least(s);
      var rest := Ascending(s - {m});
      var r := [m] + rest;
      assert forall x :: x in r <==> x == m || x in rest;
      assert forall j :: 0 <= j < |rest| ==> m < rest[j] by {
        forall j | 0 <= j < |rest| ensures m < rest[j] {
          assert rest[j] in s - {m};
        }
      }
      assert forall j :: 0 < j < |r| ==> r[j] == rest[j - 1];
      r
  }

  /** `scan_company` of one scanner as a function of the record and the
      bars. */
  function Scan(s: Scanner, lib: Talib): (Dict, seq<Bar>) -> Result<Option<Dict>>
  {
    (d, bars) => ScanCompany(s, d, bars, lib)
  }

  /** The records collected by the loop over `ids`: a company whose record
      is empty is skipped, a falsy result is dropped, and the first
      exception ends the scan. */
  function Collect(scan: (Dict, seq<Bar>) -> Result<Option<Dict>>, cands: map<int, Dict>, hist: map<int, seq<Bar>>,
                   ids: seq<int>): (r: Result<seq<Dict>>)
    requires forall id :: id in ids ==> id in cands && id in hist
    ensures r.Success? ==> |r.value| <= |ids|
    ensures r.Success? ==> forall k :: 0 <= k < |r.value| ==> !IsEmpty(r.value[k])
  {
    if ids == [] then Success([])
    else
      var init := ids[..|ids| - 1];
      var id := ids[|ids| - 1];
      match Collect(scan, cands, hist, init)
      case Failure(e) => Failure(e)
      case Success(acc) =>
        if IsEmpty(cands[id]) then Success(acc) else Add(acc, scan(cands[id], hist[id]))
  }

  /** The rows after one more company's outcome: an exception ends the
      scan, a falsy or empty record is dropped. */
  function Add(acc: seq<Dict>, o: Result<Option<Dict>>): (r: Result<seq<Dict>>)
    ensures o.Failure? ==> r == Failure(o.error)
    ensures Hit(o) ==> r == Success(acc + [o.value.value])
    ensures o.Success? && !Hit(o) ==> r == Success(acc)
  {
    match o
    case Failure(e) => Failure(e)
    case Success(None) => Success(acc)
    case Success(Some(row)) => Success(if IsEmpty(row) then acc else acc + [row])
  }

  /** `Collect` one company further along `ids`. */
  lemma CollectNext(scan: (Dict, seq<Bar>) -> Result<Option<Dict>>, cands: map<int, Dict>, hist: map<int, seq<Bar>>,
                    ids: seq<int>, i: nat, acc: seq<Dict>)
    requires forall id :: id in ids ==> id in cands && id in hist
    requires i < |ids| && Collect(scan, cands, hist, ids[..i]) == Success(acc)
    requires ids[i] in cands && ids[i] in hist
    ensures IsEmpty(cands[ids[i]]) ==> Collect(scan, cands, hist, ids[..i + 1]) == Success(acc)
    ensures !IsEmpty(cands[ids[i]]) ==>
              Collect(scan, cands, hist, ids[..i + 1]) == Add(acc, scan(cands[ids[i]], hist[ids[i]]))
  {
    assert ids[..i + 1][..i] == ids[..i] && ids[..i + 1][i] == ids[i];
  }

  /** The whole template, as a function of its inputs. `records` is the
      company table, `prices` the bars of each company in the loaded date
      window. */
  function Run(s: Scanner, lib: Talib, cfg: Config, records: map<int, Dict>, prices: map<int, seq<Bar>>): Result<Table>
  {
    match QueryOf(s, cfg)
    case Failure(e) => Failure(e)
    case Success(cs) =>
      ScanCandidates(Scan(s, lib), LeadingColumnsOf(s), SortOf(s), cfg, CandidateMap(records, cfg.exchanges, cs), prices)
  }

  /** The template after the candidate query, for any `scan_company`: no
      candidate or no price history gives the empty table; otherwise the
      liquid companies are scanned in id order and the passing records
      formatted. */
  function ScanCandidates(scan: (Dict, seq<Bar>) -> Result<Option<Dict>>, leading: seq<string>, sort: (string, bool),
                          cfg: Config, cands: map<int, Dict>, prices: map<int, seq<Bar>>): Result<Table>
  {
    if |cands| == 0 then Success(EmptyTable)
    else
      var hist := Histories(cands, prices);
      if |hist| == 0 then Success(EmptyTable)
      else if cfg.volumeLookback < 1 then Failure("ValueError")
      else
        var ids := Ascending(LiquidIds(hist, cfg.volumeLookback, cfg.minAvgVolume));
        match Collect(scan, cands, hist, ids)
        case Failure(e) => Failure(e)
        case Success(rows) => Success(Format(rows, leading, sort.0, sort.1))
  }

  lemma {:induction false} CollectFailureSticks(scan: (Dict, seq<Bar>) -> Result<Option<Dict>>, cands: map<int, Dict>, hist: map<int, seq<Bar>>,
                                                ids: seq<int>, i: nat)
    requires forall id :: id in ids ==> id in cands && id in hist
    requires i <= |ids|
    requires Collect(scan, cands, hist, ids[..i]).Failure?
    ensures Collect(scan, cands, hist, ids) == Collect(scan, cands, hist, ids[..i])
    decreases |ids| - i
  {
    if i < |ids| {
      assert ids[..i + 1][..i] == ids[..i];
      CollectFailureSticks(scan, cands, hist, ids, i + 1);
    } else {
      assert ids[..i] == ids;
    }
  }

  /** One company of the loop: a fresh mutable record from the
      candidate's dict, handed to the scanner; the record it returns, if
      any, is read back as a dict. */
  method ScanOne(s: Scanner, lib: Talib, d: Dict, bars: seq<Bar>) returns (r: Result<Option<Dict>>)
    requires WellFormed(d)
    ensures r == ScanCompany(s, d, bars, lib)
  {
    var info := new CompanyInfo(d);
    var result := CallScanCompany(s, bars, lib, info);
    if result.Failure? {
      return Failure(result.error);
    }
    if result.value == null {
      return Success(None);
    }
    return Success(Some(result.value.Snapshot()));
  }

  /** The loop over the liquid companies, in id order. */
  method CollectRows(s: Scanner, lib: Talib, ghost scan: (Dict, seq<Bar>) -> Result<Option<Dict>>,
                     cands: map<int, Dict>, hist: map<int, seq<Bar>>, ids: seq<int>)
      returns (r: Result<seq<Dict>>)
    requires forall d, bars :: scan(d, bars) == ScanCompany(s, d, bars, lib)
    requires forall id :: id in ids ==> id in cands && id in hist
    requires forall id :: id in cands ==> WellFormed(cands[id])
    ensures r == Collect(scan, cands, hist, ids)
  {
    var passing: seq<Dict> := [];
    var i := 0;
    while i < |ids|
      invariant 0 <= i <= |ids|
      invariant Collect(scan, cands, hist, ids[..i]) == Success(passing)
    {
      var next := CollectOne(s, lib, scan, cands, hist, ids, i, passing);
      if next.Failure? {
        return next;
      }
      passing := next.value;
      i := i + 1;
    }
    assert ids[..i] == ids;
    return Success(passing);
  }

  /** One pass of the loop: company `ids[i]` is skipped when its record is
      empty, and otherwise scanned; an exception is the outcome of the
      whole loop. */
  method CollectOne(s: Scanner, lib: Talib, ghost scan: (Dict, seq<Bar>) -> Result<Option<Dict>>,
                    cands: map<int, Dict>, hist: map<int, seq<Bar>>, ids: seq<int>, i: nat, passing: seq<Dict>)
      returns (r: Result<seq<Dict>>)
    requires forall d, bars :: scan(d, bars) == ScanCompany(s, d, bars, lib)
    requires forall id :: id in ids ==> id in cands && id in hist
    requires forall id :: id in cands ==> WellFormed(cands[id])
    requires i < |ids| && Collect(scan, cands, hist, ids[..i]) == Success(passing)
    ensures r.Success? ==> r == Collect(scan, cands, hist, ids[..i + 1])
    ensures r.Failure? ==> r == Collect(scan, cands, hist, ids)
  {
    var id := ids[i];
    assert id in ids;
    CollectNext(scan, cands, hist, ids, i, passing);
    if IsEmpty(cands[id]) {
      return Success(passing);
    }
    var result := ScanOne(s, lib, cands[id], hist[id]);
    r := Add(passing, result);
    if r.Failure? {
      CollectFailureSticks(scan, cands, hist, ids, i + 1);
    }
  }

  /** `run_scan`: the template, step by step. */
  method RunScan(s: Scanner, lib: Talib, cfg: Config, records: map<int, Dict>, prices: map<int, seq<Bar>>)
      returns (r: Result<Table>)
    requires forall id :: id in records ==> WellFormed(records[id])
    ensures r == Run(s, lib, cfg, records, prices)
  {
    var q := QueryOf(s, cfg);
    if q.Failure? {
      return Failure(q.error);
    }
    var cands := CandidateMap(records, cfg.exchanges, q.value);
    r := RunCandidates(s, lib, cfg, cands, prices);
  }

  method RunCandidates(s: Scanner, lib: Talib, cfg: Config, cands: map<int, Dict>, prices: map<int, seq<Bar>>)
      returns (r: Result<Table>)
    requires forall id :: id in cands ==> WellFormed(cands[id])
    ensures r == ScanCandidates(Scan(s, lib), LeadingColumnsOf(s), SortOf(s), cfg, cands, prices)
  {
    if |cands| == 0 {
      return Success(EmptyTable);
    }
    var hist := Histories(cands, prices);
    if |hist| == 0 {
      return Success(EmptyTable);
    }
    if cfg.volumeLookback < 1 {
      return Failure("ValueError");
    }
    var ids := Ascending(LiquidIds(hist, cfg.volumeLookback, cfg.minAvgVolume));
    var rows := CollectRows(s, lib, Scan(s, lib), cands, hist, ids);
    if rows.Failure? {
      return Failure(rows.error);
    }
    var (sortBy, ascending) := SortOf(s);
    return Success(Format(rows.value, LeadingColumnsOf(s), sortBy, ascending));
  }

  // ------------------------------------------------------------ properties

  /** A scan outcome that puts a row in the table. */
  predicate Hit(o: Result<Option<Dict>>)
  {
    o.Success? && o.value.Some? && !IsEmpty(o.value.value)
  }

  /** Every collected record was returned by the scan of a company in
      `ids` whose own record is not empty. */
  lemma {:induction false} CollectSound(scan: (Dict, seq<Bar>) -> Result<Option<Dict>>, cands: map<int, Dict>,
                                        hist: map<int, seq<Bar>>, ids: seq<int>, rows: seq<Dict>)
    requires forall id :: id in ids ==> id in cands && id in hist
    requires Collect(scan, cands, hist, ids) == Success(rows)
    ensures forall row :: row in rows ==>
              exists id :: id in ids && !IsEmpty(cands[id]) && scan(cands[id], hist[id]) == Success(Some(row))
    decreases |ids|
  {
    if ids != [] {
      var init := ids[..|ids| - 1];
      var last := ids[|ids| - 1];
      assert forall x :: x in init ==> x in ids;
      var acc := Collect(scan, cands, hist, init).value;
      CollectSound(scan, cands, hist, init, acc);
      assert forall row :: row in rows ==> row in acc || (!IsEmpty(cands[last]) && scan(cands[last], hist[last]) == Success(Some(row)));
    }
  }

  /** Every company in `ids` whose scan yields a non-empty record has that
      record collected. */
  lemma {:induction false} CollectComplete(scan: (Dict, seq<Bar>) -> Result<Option<Dict>>, cands: map<int, Dict>,
                                           hist: map<int, seq<Bar>>, ids: seq<int>, rows: seq<Dict>)
    requires forall id :: id in ids ==> id in cands && id in hist
    requires Collect(scan, cands, hist, ids) == Success(rows)
    ensures forall id :: id in ids && !IsEmpty(cands[id]) && Hit(scan(cands[id], hist[id])) ==>
              scan(cands[id], hist[id]).value.value in rows
    decreases |ids|
  {
    if ids != [] {
      var init := ids[..|ids| - 1];
      var last := ids[|ids| - 1];
      assert forall x :: x in ids ==> x in init || x == last;
      var acc := Collect(scan, cands, hist, init).value;
      CollectComplete(scan, cands, hist, init, acc);
      assert forall row :: row in acc ==> row in rows;
    }
  }

  /** An exception raised by the scan of any company in `ids` (with a
      non-empty record) ends the loop with an exception. */
  lemma {:induction false} CollectAborts(scan: (Dict, seq<Bar>) -> Result<Option<Dict>>, cands: map<int, Dict>,
                                         hist: map<int, seq<Bar>>, ids: seq<int>, id: int)
    requires forall x :: x in ids ==> x in cands && x in hist
    requires id in ids && !IsEmpty(cands[id]) && scan(cands[id], hist[id]).Failure?
    ensures Collect(scan, cands, hist, ids).Failure?
    decreases |ids|
  {
    var init := ids[..|ids| - 1];
    assert forall x :: x in init ==> x in ids;
    if id != ids[|ids| - 1] {
      assert id in init;
      CollectAborts(scan, cands, hist, init, id);
    }
  }

  /** When no scan returns a record and none raises, nothing is
      collected. */
  lemma {:induction false} CollectQuiet(scan: (Dict, seq<Bar>) -> Result<Option<Dict>>, cands: map<int, Dict>,
                                        hist: map<int, seq<Bar>>, ids: seq<int>)
    requires forall id :: id in ids ==> id in cands && id in hist
    requires forall id :: id in ids ==> scan(cands[id], hist[id]) == Success(None)
    ensures Collect(scan, cands, hist, ids) == Success([])
    decreases |ids|
  {
    if ids != [] {
      var init := ids[..|ids| - 1];
      assert forall x :: x in init ==> x in ids;
      CollectQuiet(scan, cands, hist, init);
    }
  }

  /** Company `id` reaches `scan_company`: it is an active candidate of
      the query, has price history in the window, is liquid after split
      adjustment, and its record is not empty. */
  predicate Scanned(cs: seq<Condition>, cfg: Config, records: map<int, Dict>, prices: map<int, seq<Bar>>, id: int)
  {
    id in records && Candidate(records[id], cfg.exchanges, cs) &&
    id in prices && |prices[id]| > 0 && cfg.volumeLookback >= 1 &&
    Liquid(SplitAdjust(prices[id]), cfg.volumeLookback, cfg.minAvgVolume) && !IsEmpty(records[id])
  }

  /** Without a candidate that has price history, the scan ends with the
      empty table. */
  lemma NothingToScan(scan: (Dict, seq<Bar>) -> Result<Option<Dict>>, leading: seq<string>, sort: (string, bool),
                      cfg: Config, cs: seq<Condition>, records: map<int, Dict>, prices: map<int, seq<Bar>>)
    requires forall id :: id in records && Candidate(records[id], cfg.exchanges, cs) ==> id !in prices || |prices[id]| == 0
    ensures ScanCandidates(scan, leading, sort, cfg, CandidateMap(records, cfg.exchanges, cs), prices) == Success(EmptyTable)
  {
    var hist := Histories(CandidateMap(records, cfg.exchanges, cs), prices);
    assert forall id :: id !in hist;
    assert hist == map[];
  }

  /** Every row of the table is the record `scan_company` returned for a
      company that reached it. */
  lemma RowsComeFromScannedCompanies(scan: (Dict, seq<Bar>) -> Result<Option<Dict>>, leading: seq<string>,
                                     sort: (string, bool), cfg: Config, cs: seq<Condition>,
                                     records: map<int, Dict>, prices: map<int, seq<Bar>>, t: Table)
    requires ScanCandidates(scan, leading, sort, cfg, CandidateMap(records, cfg.exchanges, cs), prices) == Success(t)
    ensures forall row :: row in t.rows ==>
              exists id :: Scanned(cs, cfg, records, prices, id) && scan(records[id], SplitAdjust(prices[id])) == Success(Some(row))
  {
    var cands := CandidateMap(records, cfg.exchanges, cs);
    if t != EmptyTable {
      var hist := Histories(cands, prices);
      var ids := Ascending(LiquidIds(hist, cfg.volumeLookback, cfg.minAvgVolume));
      var rows := Collect(scan, cands, hist, ids).value;
      CollectSound(scan, cands, hist, ids, rows);
      forall row | row in t.rows
        ensures exists id :: Scanned(cs, cfg, records, prices, id) && scan(records[id], SplitAdjust(prices[id])) == Success(Some(row))
      {
        assert row in multiset(t.rows);
        var id :| id in ids && !IsEmpty(cands[id]) && scan(cands[id], hist[id]) == Success(Some(row));
        assert Scanned(cs, cfg, records, prices, id);
      }
    }
  }

  /** Every company that reaches `scan_company` and gets a non-empty
      record back has that record in the table. */
  lemma ScannedHitsAreReported(scan: (Dict, seq<Bar>) -> Result<Option<Dict>>, leading: seq<string>,
                               sort: (string, bool), cfg: Config, cs: seq<Condition>,
                               records: map<int, Dict>, prices: map<int, seq<Bar>>, t: Table, id: int)
    requires ScanCandidates(scan, leading, sort, cfg, CandidateMap(records, cfg.exchanges, cs), prices) == Success(t)
    requires Scanned(cs, cfg, records, prices, id) && Hit(scan(records[id], SplitAdjust(prices[id])))
    ensures scan(records[id], SplitAdjust(prices[id])).value.value in t.rows
  {
    var cands := CandidateMap(records, cfg.exchanges, cs);
    var hist := Histories(cands, prices);
    assert id in hist;
    var ids := Ascending(LiquidIds(hist, cfg.volumeLookback, cfg.minAvgVolume));
    assert id in ids;
    var rows := Collect(scan, cands, hist, ids).value;
    CollectComplete(scan, cands, hist, ids, rows);
    assert scan(records[id], SplitAdjust(prices[id])).value.value in multiset(rows);
  }

  /** An exception raised for any company that reaches `scan_company`
      aborts the whole scan. */
  lemma ExceptionAbortsScan(scan: (Dict, seq<Bar>) -> Result<Option<Dict>>, leading: seq<string>,
                            sort: (string, bool), cfg: Config, cs: seq<Condition>,
                            records: map<int, Dict>, prices: map<int, seq<Bar>>, id: int)
    requires Scanned(cs, cfg, records, prices, id) && scan(records[id], SplitAdjust(prices[id])).Failure?
    ensures ScanCandidates(scan, leading, sort, cfg, CandidateMap(records, cfg.exchanges, cs), prices).Failure?
  {
    var cands := CandidateMap(records, cfg.exchanges, cs);
    var hist := Histories(cands, prices);
    assert id in hist;
    var ids := Ascending(LiquidIds(hist, cfg.volumeLookback, cfg.minAvgVolume));
    assert id in ids;
    CollectAborts(scan, cands, hist, ids, id);
  }

  /** A `scan_company` that never reports a record and never raises gives
      the empty table, whatever the candidates and prices. */
  lemma QuietScanFindsNothing(scan: (Dict, seq<Bar>) -> Result<Option<Dict>>, leading: seq<string>,
                              sort: (string, bool), cfg: Config, cands: map<int, Dict>, prices: map<int, seq<Bar>>)
    requires cfg.volumeLookback >= 1
    requires forall d, bars :: scan(d, bars) == Success(None)
    ensures ScanCandidates(scan, leading, sort, cfg, cands, prices) == Success(EmptyTable)
  {
    var hist := Histories(cands, prices);
    var ids := Ascending(LiquidIds(hist, cfg.volumeLookback, cfg.minAvgVolume));
    CollectQuiet(scan, cands, hist, ids);
  }

  /** The template's own `scan_company` reports nothing: with a valid
      lookback its table is always empty. */
  lemma BaseScannerFindsNothing(lib: Talib, cfg: Config, records: map<int, Dict>, prices: map<int, seq<Bar>>)
    requires cfg.volumeLookback >= 1
    ensures Run(BaseOnly, lib, cfg, records, prices) == Success(EmptyTable)
  {
    var cands := CandidateMap(records, cfg.exchanges, QueryOf(BaseOnly, cfg).value);
    assert forall d, bars :: Scan(BaseOnly, lib)(d, bars) == Success(None);
    QuietScanFindsNothing(Scan(BaseOnly, lib), LeadingColumnsOf(BaseOnly), SortOf(BaseOnly), cfg, cands, prices);
  }

  /** Every row of a GARP scan is the record of an active company on one
      of the market's exchanges that meets every GARP criterion, without
      its `id` and `isactive` fields. */
  lemma GarpRowsAreGarp(p: Garp.Params, lib: Talib, cfg: Config, records: map<int, Dict>,
                        prices: map<int, seq<Bar>>, t: Table)
    requires Run(GarpScan(p), lib, cfg, records, prices) == Success(t)
    ensures forall row :: row in t.rows ==>
              exists id :: id in records && Garp.IsGarp(records[id], p) && Listed(records[id], cfg.exchanges) &&
                           row.vals == records[id].vals - {"id", "isactive"}
  {
    var s := GarpScan(p);
    var cs := Garp.Conditions(p);
    assert QueryOf(s, cfg) == Success(cs);
    RowsComeFromScannedCompanies(Scan(s, lib), LeadingColumnsOf(s), SortOf(s), cfg, cs, records, prices, t);
    forall row | row in t.rows
      ensures exists id :: id in records && Garp.IsGarp(records[id], p) && Listed(records[id], cfg.exchanges) &&
                           row.vals == records[id].vals - {"id", "isactive"}
    {
      var id :| Scanned(cs, cfg, records, prices, id) &&
                Scan(s, lib)(records[id], SplitAdjust(prices[id])) == Success(Some(row));
      GarpHit(p, lib, cfg.exchanges, records[id], SplitAdjust(prices[id]), row);
    }
  }

  /** A GARP candidate whose scan returns a record meets every GARP
      bound, and the record is its own without `id` and `isactive`. */
  lemma GarpHit(p: Garp.Params, lib: Talib, exchanges: set<string>, d: Dict, bars: seq<Bar>, row: Dict)
    requires Candidate(d, exchanges, Garp.Conditions(p))
    requires ScanCompany(GarpScan(p), d, bars, lib) == Success(Some(row))
    ensures Garp.IsGarp(d, p) && Listed(d, exchanges) && row.vals == d.vals - {"id", "isactive"}
  {
    assert ScanCompany(GarpScan(p), d, bars, lib) == Reported(Fundamentals.Evaluate(d));
    Garp.CandidateIff(d, exchanges, p);
  }
}
