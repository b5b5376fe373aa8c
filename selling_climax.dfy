/** Selling climax: within the last few bars, one bar makes a new low on a
    volume spike but closes in the upper part of its range. */
module SellingClimax {
  import opened Common
  import opened Windows
  import opened Bars
  import opened Records

  const DefaultNewLowPeriod := 20
  const DefaultVolumeSpikeMultiplier := 2.5
  const DefaultCloseReversalPct := 50.0
  const DefaultSetupLookback := 2
  const Drops := ["id", "isactive", "longbusinesssummary"]
  const LeadingColumns := ["symbol", "climax_date", "close_pos_in_range", "longname", "marketcap"]
  const SortBy := "marketcap"
  const Ascending := false

  datatype Params = Params(newLowPeriod: nat, volumeSpike: real, closeReversalPct: real, setupLookback: int)

  /** The 20-bar average volume. */
  function AvgVolume(bars: seq<Bar>, lib: Talib): Series
  {
    lib(Sma(Volume, 20.0), bars)
  }

  /** Bar -i is a selling climax: its 20-bar average volume is known, it has
      a non-zero range, its low is strictly below the low of every one of
      the `newLowPeriod` bars before it (so that window cannot be empty),
      its volume is strictly above the average times the spike multiplier,
      and it closes strictly above `closeReversalPct` percent of its range. */
  predicate ClimaxAt(bars: seq<Bar>, avg: Series, p: Params, i: nat)
  {
    var n := |bars|;
    1 <= i && n >= p.newLowPeriod + i && |avg| == n && avg[n - i].Some? &&
    var b := bars[n - i];
    b.high - b.low != 0.0 &&
    p.newLowPeriod >= 1 &&
    (forall k :: n - (p.newLowPeriod + i) <= k < n - i ==> b.low < bars[k].low) &&
    b.volume > avg[n - i].value * p.volumeSpike &&
    ClosePosition(b) > p.closeReversalPct
  }

  function Matches(bars: seq<Bar>, avg: Series, p: Params): nat -> bool
  {
    (i: nat) => ClimaxAt(bars, avg, p, i)
  }

  /** The reported offset: none without newLowPeriod + 1 + L bars, otherwise
      the smallest offset in 1..L that is a climax. */
  function Detect(bars: seq<Bar>, lib: Talib, p: Params): (r: Option<nat>)
    ensures r.Some? ==> |bars| >= p.newLowPeriod + 1 + p.setupLookback &&
                        1 <= r.value <= p.setupLookback && ClimaxAt(bars, AvgVolume(bars, lib), p, r.value)
    ensures r.Some? ==> forall j :: 1 <= j < r.value ==> !ClimaxAt(bars, AvgVolume(bars, lib), p, j)
    ensures r.None? <==> |bars| < p.newLowPeriod + 1 + p.setupLookback ||
                         forall j :: 1 <= j <= p.setupLookback ==> !ClimaxAt(bars, AvgVolume(bars, lib), p, j)
  {
    var avg := AvgVolume(bars, lib);
    assert forall j: nat :: Matches(bars, avg, p)(j) == ClimaxAt(bars, avg, p, j);
    if |bars| < p.newLowPeriod + 1 + p.setupLookback then None
    else FirstMatch(Matches(bars, avg, p), 1, Span(p.setupLookback))
  }

  /** A climax bar whose close lies within its range has a close position
      above the threshold and at most 100 percent. */
  lemma ClimaxClosePosition(bars: seq<Bar>, lib: Talib, p: Params)
    requires Detect(bars, lib, p).Some?
    requires var b := Back(bars, Detect(bars, lib, p).value); b.low <= b.close <= b.high
    ensures var b := Back(bars, Detect(bars, lib, p).value);
            p.closeReversalPct < ClosePosition(b) <= 100.0
  {
    ClosePositionBounds(Back(bars, Detect(bars, lib, p).value));
  }

  function Fields(bars: seq<Bar>, i: nat): seq<(string, Value)>
    requires 1 <= i <= |bars| && Back(bars, i).high - Back(bars, i).low != 0.0
  {
    [("close_pos_in_range", Real(ClosePosition(Back(bars, i)))),
     ("climax_date", Day(Back(bars, i).date))]
  }

  function Evaluate(d: Dict, bars: seq<Bar>, lib: Talib, p: Params): Option<Dict>
  {
    match Detect(bars, lib, p)
    case None => None
    case Some(i) => Some(Enriched(d, Drops, Fields(bars, i)))
  }

  method Scan(bars: seq<Bar>, lib: Talib, p: Params, info: CompanyInfo) returns (r: CompanyInfo?)
    requires info.Valid()
    modifies info
    ensures Evaluate(old(info.Snapshot()), bars, lib, p).None? ==>
              r == null && info.Snapshot() == old(info.Snapshot())
    ensures Evaluate(old(info.Snapshot()), bars, lib, p).Some? ==>
              r == info && info.Valid() && info.Snapshot() == Evaluate(old(info.Snapshot()), bars, lib, p).value
  {
    var n := |bars|;
    var P := p.newLowPeriod;
    if n < P + 1 + p.setupLookback {
      return null;
    }
    var avg := lib(Sma(Volume, 20.0), bars);
    assert avg == AvgVolume(bars, lib);
    var i := 1;
    while i <= p.setupLookback
      invariant 1 <= i <= Span(p.setupLookback) + 1
      invariant forall j :: 1 <= j < i ==> !ClimaxAt(bars, avg, p, j)
      invariant info.Valid() && info.Snapshot() == old(info.Snapshot())
    {
      if n < P + i || avg[n - i].None? {
        i := i + 1;
        continue;
      }
      var b := bars[n - i];
      var window := Column(bars[n - (P + i) .. n - i], Low);
      var priorLow := MinOrNaN(window);
      var isNewLow := priorLow.Some? && b.low < priorLow.value;
      var isHighVolume := b.volume > avg[n - i].value * p.volumeSpike;
      var barRange := b.high - b.low;
      if barRange == 0.0 {
        i := i + 1;
        continue;
      }
      var closePos := (b.close - b.low) / barRange * 100.0;
      var isReversalClose := closePos > p.closeReversalPct;
      assert isNewLow <==> P >= 1 && forall k :: n - (P + i) <= k < n - i ==> b.low < bars[k].low by {
        if isNewLow {
          forall k | n - (P + i) <= k < n - i ensures b.low < bars[k].low {
            assert window[k - (n - (P + i))] == bars[k].low;
          }
        } else if P >= 1 {
          var m :| 0 <= m < |window| && window[m] == priorLow.value;
          assert bars[n - (P + i) + m].low == window[m];
        }
      }
      if isNewLow && isHighVolume && isReversalClose {
        assert ClimaxAt(bars, avg, p, i);
        FirstMatchIs(Matches(bars, avg, p), 1, Span(p.setupLookback), i);
        info.Enrich(Drops, Fields(bars, i));
        return info;
      }
      i := i + 1;
    }
    return null;
  }
}
