/** One company's daily price history and the technical-analysis library
    that computes indicator series from it. */
module Bars {
  import opened Common
  import Windows

  /** One daily bar. `date` is a day number (its text formatting is not
      modelled); `split` is the split coefficient stored with the bar. */
  datatype Bar = Bar(date: int, open: real, high: real, low: real, close: real,
                     adjclose: real, volume: real, split: real)

  /** An indicator series aligned with the bars; `None` is a NaN. */
  type Series = seq<Option<real>>

  datatype Field = Open | High | Low | Close | Volume

  /** The indicator computations the scanners request. Parameters are kept
      as given by the caller; the library decides what they mean. */
  datatype IndicatorCall =
    | Sma(field: Field, period: real)
    | Ema(period: real)
    | Rsi(period: real)
    | BbUpper(period: real, devUp: real, devDn: real)
    | BbMiddle(period: real, devUp: real, devDn: real)
    | BbLower(period: real, devUp: real, devDn: real)
    | MacdLine(fast: real, slow: real, signal: real)
    | MacdSignal(fast: real, slow: real, signal: real)
    | StochK(fastK: real, slowK: real, slowD: real)
    | StochD(fastK: real, slowK: real, slowD: real)
      /** Rolling quantile of the Bollinger band width (upper - lower) / middle. */
    | WidthQuantile(period: real, window: real, quantile: real)

  /** The external library: every series it returns has one entry per bar. */
  type Talib = f: (IndicatorCall, seq<Bar>) -> Series | forall c, b :: |f(c, b)| == |b|
    witness (c: IndicatorCall, b: seq<Bar>) => seq(|b|, k => None)

  function FieldOf(b: Bar, f: Field): real
  {
    match f
    case Open => b.open
    case High => b.high
    case Low => b.low
    case Close => b.close
    case Volume => b.volume
  }

  /** A column of the price table, as `group[field]`. */
  function Column(bars: seq<Bar>, f: Field): (c: seq<real>)
    ensures |c| == |bars|
    ensures forall k :: 0 <= k < |bars| ==> c[k] == FieldOf(bars[k], f)
  {
    seq(|bars|, k requires 0 <= k < |bars| => FieldOf(bars[k], f))
  }

  /** The first bar of `bars[start..end]` with the lowest low: no bar of
      the window is lower, and every bar before it is strictly higher. */
  lemma LowestInWindow(bars: seq<Bar>, start: nat, end: nat)
    requires start < end <= |bars|
    ensures var r := start + Windows.ArgMin(Column(bars[start..end], Low));
            start <= r < end &&
            (forall k :: start <= k < end ==> bars[r].low <= bars[k].low) &&
            (forall k :: start <= k < r ==> bars[k].low > bars[r].low)
  {
    var lows := Column(bars[start..end], Low);
    var m := Windows.ArgMin(lows);
    assert lows[m] == bars[start + m].low;
    forall k | start <= k < end ensures bars[start + m].low <= bars[k].low {
      assert lows[k - start] == bars[k].low;
    }
    forall k | start <= k < start + m ensures bars[k].low > bars[start + m].low {
      assert lows[k - start] == bars[k].low;
    }
  }

  /** The first bar of `bars[start..end]` with the highest high: no bar of
      the window is higher, and every bar before it is strictly lower. */
  lemma HighestInWindow(bars: seq<Bar>, start: nat, end: nat)
    requires start < end <= |bars|
    ensures var r := start + Windows.ArgMax(Column(bars[start..end], High));
            start <= r < end &&
            (forall k :: start <= k < end ==> bars[k].high <= bars[r].high) &&
            (forall k :: start <= k < r ==> bars[k].high < bars[r].high)
  {
    var highs := Column(bars[start..end], High);
    var m := Windows.ArgMax(highs);
    assert highs[m] == bars[start + m].high;
    forall k | start <= k < end ensures bars[k].high <= bars[start + m].high {
      assert highs[k - start] == bars[k].high;
    }
    forall k | start <= k < start + m ensures bars[k].high < bars[start + m].high {
      assert highs[k - start] == bars[k].high;
    }
  }

  /** Where the close sits within the bar's range, in percent of the range
      from the low: `(close - low) / (high - low) * 100`. */
  function ClosePosition(b: Bar): real
    requires b.high - b.low != 0.0
  {
    (b.close - b.low) / (b.high - b.low) * 100.0
  }

  /** For a well-formed bar (low <= close <= high, non-zero range) the close
      position lies between 0 and 100. */
  lemma ClosePositionBounds(b: Bar)
    requires b.low <= b.close <= b.high && b.high - b.low != 0.0
    ensures 0.0 <= ClosePosition(b) <= 100.0
  {
    Windows.DivideBounds(b.close - b.low, b.high - b.low, 0.0, 1.0);
  }

  /** Python's `s.iloc[-i]`: the i-th element counted from the end. */
  function Back<T>(s: seq<T>, i: nat): T
    requires 1 <= i <= |s|
  {
    s[|s| - i]
  }
}
