/** Death cross: the 50-bar average of the close moves below the 200-bar
    average within the last few bars, while the price is still below the
    50-bar average. */
module DeathCross {
  import opened Common
  import opened Windows
  import opened Bars
  import opened Records
  import GoldenCross

  const MinBars := 200
  const DefaultCrossoverLookback := 5
  const Drops := ["id", "isactive", "longbusinesssummary"]
  const LeadingColumns := ["symbol", "sma50", "sma200", "crossover_date", "longname", "sector", "marketcap"]
  const SortBy := "marketcap"
  const Ascending := false

  /** A downward cross at bar -i: the fast average is below the slow one at
      bar -i and was not below it at bar -(i+1). A missing value on either
      bar rules the cross out. */
  predicate CrossDownAt(fast: Series, slow: Series, i: nat)
  {
    1 <= i && |fast| >= i + 1 && |slow| >= i + 1 &&
    Lt(fast[|fast| - i], slow[|slow| - i]) && Ge(fast[|fast| - (i + 1)], slow[|slow| - (i + 1)])
  }

  function Crosses(fast: Series, slow: Series): nat -> bool
  {
    (i: nat) => CrossDownAt(fast, slow, i)
  }

  /** The latest close is below the latest fast average; a missing latest
      average fails the check. */
  predicate StillWeak(bars: seq<Bar>, fast: Series)
  {
    |bars| >= 1 && |fast| >= 1 && fast[|fast| - 1].Some? && Back(bars, 1).close < fast[|fast| - 1].value
  }

  /** The reported crossover: the most recent downward cross among offsets
      1..L+1, provided the price is still weak. As for the golden cross, the
      weakness test does not depend on the offset. */
  function Detect(bars: seq<Bar>, lib: Talib, L: int): (r: Option<nat>)
    ensures r.Some? ==> |bars| >= MinBars + L && 1 <= r.value <= L + 1 &&
                        CrossDownAt(GoldenCross.Fast(bars, lib), GoldenCross.Slow(bars, lib), r.value) &&
                        StillWeak(bars, GoldenCross.Fast(bars, lib))
    ensures r.Some? ==> forall j :: 1 <= j < r.value ==>
                          !CrossDownAt(GoldenCross.Fast(bars, lib), GoldenCross.Slow(bars, lib), j)
    ensures r.Some? <==> |bars| >= MinBars + L && StillWeak(bars, GoldenCross.Fast(bars, lib)) &&
                         exists j :: 1 <= j <= L + 1 &&
                           CrossDownAt(GoldenCross.Fast(bars, lib), GoldenCross.Slow(bars, lib), j)
  {
    var fast, slow := GoldenCross.Fast(bars, lib), GoldenCross.Slow(bars, lib);
    assert forall j: nat :: Crosses(fast, slow)(j) == CrossDownAt(fast, slow, j);
    if |bars| < MinBars + L then None
    else match FirstMatch(Crosses(fast, slow), 1, Span(L + 1))
      case None => None
      case Some(i) => if StillWeak(bars, fast) then Some(i) else None
  }

  /** On the same averages no bar is both an upward and a downward cross. */
  lemma NeverBothCrosses(fast: Series, slow: Series, i: nat)
    ensures !(GoldenCross.CrossUpAt(fast, slow, i) && CrossDownAt(fast, slow, i))
  {
  }

  /** The two scanners, given the same bars, never report the same bar: a
      golden cross and a death cross reported together lie at different
      offsets. */
  lemma NeverSameOffset(bars: seq<Bar>, lib: Talib, L: int, pct: real)
    requires GoldenCross.Detect(bars, lib, L, pct).Some? && Detect(bars, lib, L).Some?
    ensures GoldenCross.Detect(bars, lib, L, pct).value != Detect(bars, lib, L).value
  {
    var i := Detect(bars, lib, L).value;
    NeverBothCrosses(GoldenCross.Fast(bars, lib), GoldenCross.Slow(bars, lib), i);
  }

  function Fields(bars: seq<Bar>, lib: Talib, i: nat): seq<(string, Value)>
    requires 1 <= i <= |bars|
  {
    var fast, slow := GoldenCross.Fast(bars, lib), GoldenCross.Slow(bars, lib);
    [("sma50", Num(FromOption(Back(fast, 1)))),
     ("sma200", Num(FromOption(Back(slow, 1)))),
     ("crossover_date", Day(Back(bars, i).date))]
  }

  function Evaluate(d: Dict, bars: seq<Bar>, lib: Talib, L: int): Option<Dict>
  {
    match Detect(bars, lib, L)
    case None => None
    case Some(i) => Some(Enriched(d, Drops, Fields(bars, lib, i)))
  }

  method Scan(bars: seq<Bar>, lib: Talib, L: int, info: CompanyInfo) returns (r: CompanyInfo?)
    requires info.Valid()
    modifies info
    ensures Evaluate(old(info.Snapshot()), bars, lib, L).None? ==>
              r == null && info.Snapshot() == old(info.Snapshot())
    ensures Evaluate(old(info.Snapshot()), bars, lib, L).Some? ==>
              r == info && info.Valid() && info.Snapshot() == Evaluate(old(info.Snapshot()), bars, lib, L).value
  {
    var n := |bars|;
    if n < MinBars + L {
      return null;
    }
    var sma50 := lib(Sma(Close, 50.0), bars);
    var sma200 := lib(Sma(Close, 200.0), bars);
    assert sma50 == GoldenCross.Fast(bars, lib) && sma200 == GoldenCross.Slow(bars, lib);
    var i := 1;
    while i <= L + 1
      invariant 1 <= i <= Span(L + 1) + 1
      invariant forall j :: 1 <= j < i ==> !CrossDownAt(sma50, sma200, j)
      invariant info.Valid() && info.Snapshot() == old(info.Snapshot())
    {
      if n < i + 1 || sma50[n - i].None? || sma200[n - i].None? {
        i := i + 1;
        continue;
      }
      if sma50[n - i].value < sma200[n - i].value && Ge(sma50[n - (i + 1)], sma200[n - (i + 1)]) {
        FirstMatchIs(Crosses(sma50, sma200), 1, Span(L + 1), i);
        var price := bars[n - 1].close;
        var current := sma50[n - 1];
        if current.Some? && price < current.value {
          assert Detect(bars, lib, L) == Some(i);
          info.Enrich(Drops, Fields(bars, lib, i));
          return info;
        }
        assert Detect(bars, lib, L).None?;
        break;
      }
      i := i + 1;
    }
    assert Detect(bars, lib, L).None?;
    return null;
  }
}
