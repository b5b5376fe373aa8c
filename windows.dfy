/** Window arithmetic over a company's ordered bars: the extreme of a window
    (pandas `max`/`min`), the first position of the extreme (`idxmax`/`idxmin`
    over a contiguous index), the mean, and the "first offset that matches"
    search that every detector runs over its most recent bars. */
module Windows {
  import opened Common

  /** The largest element of a non-empty sequence. */
  function Max(s: seq<real>): (m: real)
    requires |s| > 0
    ensures m in s
    ensures forall k :: 0 <= k < |s| ==> s[k] <= m
  {
    if |s| == 1 then s[0]
    else
      var rest := Max(s[1..]);
      if s[0] >= rest then s[0] else rest
  }

  /** The smallest element of a non-empty sequence. */
  function Min(s: seq<real>): (m: real)
    requires |s| > 0
    ensures m in s
    ensures forall k :: 0 <= k < |s| ==> m <= s[k]
  {
    if |s| == 1 then s[0]
    else
      var rest := Min(s[1..]);
      if s[0] <= rest then s[0] else rest
  }

  /** `min()` of a pandas window, which is NaN when the window is empty. */
  function MinOrNaN(s: seq<real>): (m: Option<real>)
    ensures m.None? <==> |s| == 0
    ensures m.Some? ==> m.value in s && forall k :: 0 <= k < |s| ==> m.value <= s[k]
  {
    if |s| == 0 then None else Some(Min(s))
  }

  /** `idxmin()`: the first position holding the smallest element. */
  function ArgMin(s: seq<real>): (k: nat)
    requires |s| > 0
    ensures k < |s|
    ensures forall j :: 0 <= j < |s| ==> s[k] <= s[j]
    ensures forall j :: 0 <= j < k ==> s[j] > s[k]
  {
    if |s| == 1 then 0
    else
      var rest := 1 + ArgMin(s[1..]);
      if s[0] <= s[rest] then 0 else rest
  }

  /** `idxmax()`: the first position holding the largest element. */
  function ArgMax(s: seq<real>): (k: nat)
    requires |s| > 0
    ensures k < |s|
    ensures forall j :: 0 <= j < |s| ==> s[j] <= s[k]
    ensures forall j :: 0 <= j < k ==> s[j] < s[k]
  {
    if |s| == 1 then 0
    else
      var rest := 1 + ArgMax(s[1..]);
      if s[0] >= s[rest] then 0 else rest
  }

  function Sum(s: seq<real>): real
  {
    if |s| == 0 then 0.0 else Sum(s[..|s| - 1]) + s[|s| - 1]
  }

  function Mean(s: seq<real>): real
    requires |s| > 0
  {
    Sum(s) / (|s| as real)
  }

  /** A sum of values that are each at least `lo` (at most `hi`) is at least
      |s| * lo (at most |s| * hi). */
  lemma {:induction false} SumBounds(s: seq<real>, lo: real, hi: real)
    requires forall k :: 0 <= k < |s| ==> lo <= s[k] <= hi
    ensures (|s| as real) * lo <= Sum(s) <= (|s| as real) * hi
  {
    if |s| > 0 {
      var init := s[..|s| - 1];
      forall k | 0 <= k < |init| ensures lo <= init[k] <= hi {
        assert init[k] == s[k];
      }
      SumBounds(init, lo, hi);
      var m := |init| as real;
      assert Sum(s) == Sum(init) + s[|s| - 1];
      assert (|s| as real) * lo == m * lo + lo && (|s| as real) * hi == m * hi + hi;
    }
  }

  /** The mean of a window lies within any bounds that hold of each of its
      elements. */
  lemma MeanWithin(s: seq<real>, lo: real, hi: real)
    requires |s| > 0
    requires forall k :: 0 <= k < |s| ==> lo <= s[k] <= hi
    ensures lo <= Mean(s) <= hi
  {
    SumBounds(s, lo, hi);
    DivideBounds(Sum(s), |s| as real, lo, hi);
  }

  lemma DivideBounds(total: real, n: real, lo: real, hi: real)
    requires n > 0.0 && n * lo <= total <= n * hi
    ensures lo <= total / n <= hi
  {
    var q := total / n;
    assert q * n == total;
  }

  /** How many offsets `range(1, L + 1)` visits. */
  function Span(L: int): nat
  {
    if L < 0 then 0 else L
  }

  /** A Python slice bound `start` on a sequence of length n, normalised to
      an index: a negative bound counts from the end, and both kinds are
      clamped to [0, n]. */
  function SliceBound(n: nat, start: int): (r: nat)
    ensures r <= n
    ensures 0 <= start <= n ==> r == start
    ensures -(n as int) <= start < 0 ==> r == n + start
  {
    if start < 0 then (if n + start < 0 then 0 else n + start)
    else if start > n then n
    else start
  }

  /** The first offset in [i, last] satisfying `p`, searching from the bar
      closest to the present (offset 1) backwards. */
  function FirstMatch(p: nat -> bool, i: nat, last: nat): (r: Option<nat>)
    decreases last + 1 - i
    ensures r.Some? ==> i <= r.value <= last && p(r.value)
    ensures r.Some? ==> forall j :: i <= j < r.value ==> !p(j)
    ensures r.None? ==> forall j :: i <= j <= last ==> !p(j)
  {
    if i > last then None
    else if p(i) then Some(i)
    else FirstMatch(p, i + 1, last)
  }

  /** The search result is determined by the first offset that matches. */
  lemma FirstMatchIs(p: nat -> bool, i: nat, last: nat, k: nat)
    requires i <= k <= last && p(k)
    requires forall j :: i <= j < k ==> !p(j)
    ensures FirstMatch(p, i, last) == Some(k)
  {
  }

  /** Widening the searched range towards the past never changes a match
      already found closer to the present. */
  lemma {:induction false} FirstMatchStable(p: nat -> bool, i: nat, last: nat, last': nat)
    requires last <= last'
    requires FirstMatch(p, i, last).Some?
    ensures FirstMatch(p, i, last') == FirstMatch(p, i, last)
  {
    var k := FirstMatch(p, i, last).value;
    FirstMatchIs(p, i, last', k);
  }
}
