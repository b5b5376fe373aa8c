/** Golden cross: the 50-bar average of the close moves above the 200-bar
    average within the last few bars, while the price has not run too far
    above the 50-bar average. */
module GoldenCross {
  import opened Common
  import opened Windows
  import opened Bars
  import opened Records

  const MinBars := 200
  const DefaultCrossoverLookback := 5
  const DefaultMaxExtensionPct := 5.0
  const Drops := ["id", "isactive", "longbusinesssummary"]
  const LeadingColumns := ["symbol", "sma50", "sma200", "crossover_date", "longname", "sector", "marketcap"]
  const SortBy := "marketcap"
  const Ascending := false

  function Fast(bars: seq<Bar>, lib: Talib): Series
  {
    lib(Sma(Close, 50.0), bars)
  }

  function Slow(bars: seq<Bar>, lib: Talib): Series
  {
    lib(Sma(Close, 200.0), bars)
  }

  /** An upward cross at bar -i: the fast average is above the slow one at
      bar -i and was not above it at bar -(i+1). A missing value on either
      bar rules the cross out. */
  predicate CrossUpAt(fast: Series, slow: Series, i: nat)
  {
    1 <= i && |fast| >= i + 1 && |slow| >= i + 1 &&
    Gt(fast[|fast| - i], slow[|slow| - i]) && Le(fast[|fast| - (i + 1)], slow[|slow| - (i + 1)])
  }

  function Crosses(fast: Series, slow: Series): nat -> bool
  {
    (i: nat) => CrossUpAt(fast, slow, i)
  }

  /** `x * (1 + pct / 100)`. */
  function Raised(x: real, pct: real): real
  {
    x * (1.0 + pct / 100.0)
  }

  /** The latest close is below the latest fast average raised by `pct`
      percent; a missing latest average fails the check. */
  predicate NotExtended(bars: seq<Bar>, fast: Series, pct: real)
  {
    |bars| >= 1 && |fast| >= 1 && fast[|fast| - 1].Some? &&
    Back(bars, 1).close < Raised(fast[|fast| - 1].value, pct)
  }

  /** The reported crossover: the most recent cross among offsets 1..L+1,
      provided the price is not extended. Because the extension test does
      not depend on the offset, stopping at the most recent cross loses no
      match: a match exists exactly when some cross in range exists. */
  function Detect(bars: seq<Bar>, lib: Talib, L: int, pct: real): (r: Option<nat>)
    ensures r.Some? ==> |bars| >= MinBars + L && 1 <= r.value <= L + 1 &&
                        CrossUpAt(Fast(bars, lib), Slow(bars, lib), r.value) &&
                        NotExtended(bars, Fast(bars, lib), pct)
    ensures r.Some? ==> forall j :: 1 <= j < r.value ==> !CrossUpAt(Fast(bars, lib), Slow(bars, lib), j)
    ensures r.Some? <==> |bars| >= MinBars + L && NotExtended(bars, Fast(bars, lib), pct) &&
                         exists j :: 1 <= j <= L + 1 && CrossUpAt(Fast(bars, lib), Slow(bars, lib), j)
  {
    var fast, slow := Fast(bars, lib), Slow(bars, lib);
    assert forall j: nat :: Crosses(fast, slow)(j) == CrossUpAt(fast, slow, j);
    if |bars| < MinBars + L then None
    else match FirstMatch(Crosses(fast, slow), 1, Span(L + 1))
      case None => None
      case Some(i) => if NotExtended(bars, fast, pct) then Some(i) else None
  }

  function Fields(bars: seq<Bar>, lib: Talib, i: nat): seq<(string, Value)>
    requires 1 <= i <= |bars|
  {
    var fast, slow := Fast(bars, lib), Slow(bars, lib);
    [("sma50", Num(FromOption(Back(fast, 1)))),
     ("sma200", Num(FromOption(Back(slow, 1)))),
     ("crossover_date", Day(Back(bars, i).date))]
  }

  function Evaluate(d: Dict, bars: seq<Bar>, lib: Talib, L: int, pct: real): Option<Dict>
  {
    match Detect(bars, lib, L, pct)
    case None => None
    case Some(i) => Some(Enriched(d, Drops, Fields(bars, lib, i)))
  }

  method Scan(bars: seq<Bar>, lib: Talib, L: int, pct: real, info: CompanyInfo) returns (r: CompanyInfo?)
    requires info.Valid()
    modifies info
    ensures Evaluate(old(info.Snapshot()), bars, lib, L, pct).None? ==>
              r == null && info.Snapshot() == old(info.Snapshot())
    ensures Evaluate(old(info.Snapshot()), bars, lib, L, pct).Some? ==>
              r == info && info.Valid() &&
              info.Snapshot() == Evaluate(old(info.Snapshot()), bars, lib, L, pct).value
  {
    var n := |bars|;
    if n < MinBars + L {
      return null;
    }
    var sma50 := lib(Sma(Close, 50.0), bars);
    var sma200 := lib(Sma(Close, 200.0), bars);
    assert sma50 == Fast(bars, lib) && sma200 == Slow(bars, lib);
    var i := 1;
    while i <= L + 1
      invariant 1 <= i <= Span(L + 1) + 1
      invariant forall j :: 1 <= j < i ==> !CrossUpAt(sma50, sma200, j)
      invariant info.Valid() && info.Snapshot() == old(info.Snapshot())
    {
      if n < i + 1 || sma50[n - i].None? || sma200[n - i].None? {
        i := i + 1;
        continue;
      }
      if sma50[n - i].value > sma200[n - i].value && Le(sma50[n - (i + 1)], sma200[n - (i + 1)]) {
        FirstMatchIs(Crosses(sma50, sma200), 1, Span(L + 1), i);
        var price := bars[n - 1].close;
        var current := sma50[n - 1];
        if current.Some? && price < Raised(current.value, pct) {
          assert Detect(bars, lib, L, pct) == Some(i);
          info.Enrich(Drops, Fields(bars, lib, i));
          return info;
        }
        assert !NotExtended(bars, sma50, pct);
        assert Detect(bars, lib, L, pct).None?;
        break;
      }
      i := i + 1;
    }
    assert Detect(bars, lib, L, pct).None?;
    return null;
  }
}
