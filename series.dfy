/** Price-series arithmetic shared by the browser's moving average (`calculateSMA`),
    the backend's `rolling(n).mean()`, and the chart axis ranges. */
module Series {
  import opened Common

  /** A close on a date: one row of a price history as the endpoints and the charts
      carry it. */
  datatype DatedClose = DatedClose(date: string, close: real)

  function Closes(rows: seq<DatedClose>): (xs: seq<real>)
    ensures |xs| == |rows|
    ensures forall i :: 0 <= i < |rows| ==> xs[i] == rows[i].close
  {
    seq(|rows|, i requires 0 <= i < |rows| => rows[i].close)
  }

  /** Left-to-right sum, the order of `reduce((a, b) => a + b, 0)`. */
  function Sum(s: seq<real>): real {
    if |s| == 0 then 0.0 else Sum(s[..|s| - 1]) + s[|s| - 1]
  }

  lemma {:induction false} SumAppend(a: seq<real>, b: seq<real>)
    ensures Sum(a + b) == Sum(a) + Sum(b)
  {
    if |b| == 0 {
      assert a + b == a;
    } else {
      assert (a + b)[..|a + b| - 1] == a + b[..|b| - 1];
      SumAppend(a, b[..|b| - 1]);
    }
  }

  lemma {:induction false} SumSingleton(x: real)
    ensures Sum([x]) == x
  {
    assert [x][..0] == [];
  }

  /** Arithmetic mean of a non-empty window. */
  function Mean(s: seq<real>): real
    requires |s| > 0
  {
    Sum(s) / |s| as real
  }

  /** The mean of the `w` values ending at index `i`, or None while fewer than `w`
      values have accumulated (pandas' NaN, JavaScript's `null`). */
  function TrailingMean(xs: seq<real>, i: nat, w: nat): (r: Option<real>)
    requires i < |xs| && w >= 1
    ensures r.None? <==> i + 1 < w
    ensures r.Some? ==> r.value == Mean(xs[i + 1 - w..i + 1])
  {
    if i + 1 < w then None else Some(Sum(xs[i + 1 - w..i + 1]) / w as real)
  }

  /** Moving the window one step adds the entering value and drops the leaving one. */
  lemma {:induction false} TrailingSumSlides(xs: seq<real>, i: nat, w: nat)
    requires w >= 1 && w <= i + 1 && i + 1 < |xs|
    ensures Sum(xs[i + 2 - w..i + 2]) == Sum(xs[i + 1 - w..i + 1]) - xs[i + 1 - w] + xs[i + 1]
  {
    var lo := i + 1 - w;
    assert xs[lo..i + 1] == [xs[lo]] + xs[lo + 1..i + 1];
    assert xs[lo + 1..i + 2] == xs[lo + 1..i + 1] + [xs[i + 1]];
    SumAppend([xs[lo]], xs[lo + 1..i + 1]);
    SumAppend(xs[lo + 1..i + 1], [xs[i + 1]]);
    SumSingleton(xs[lo]);
    SumSingleton(xs[i + 1]);
  }

  /** `Math.min(...s)` / `min(s)` of a non-empty sequence. */
  function SeqMin(s: seq<real>): (m: real)
    requires |s| > 0
    ensures m in s
    ensures forall k :: 0 <= k < |s| ==> m <= s[k]
  {
    if |s| == 1 then s[0]
    else
      var m' := SeqMin(s[..|s| - 1]);
      if s[|s| - 1] < m' then s[|s| - 1] else m'
  }

  /** `Math.max(...s)` / `max(s)` of a non-empty sequence. */
  function SeqMax(s: seq<real>): (m: real)
    requires |s| > 0
    ensures m in s
    ensures forall k :: 0 <= k < |s| ==> s[k] <= m
  {
    if |s| == 1 then s[0]
    else
      var m' := SeqMax(s[..|s| - 1]);
      if s[|s| - 1] > m' then s[|s| - 1] else m'
  }

  lemma {:induction false} SumBounds(s: seq<real>, lo: real, hi: real)
    requires forall k :: 0 <= k < |s| ==> lo <= s[k] <= hi
    ensures |s| as real * lo <= Sum(s) <= |s| as real * hi
  {
    if |s| > 0 {
      var p := s[..|s| - 1];
      SumBounds(p, lo, hi);
      assert |s| as real * lo == |p| as real * lo + lo;
      assert |s| as real * hi == |p| as real * hi + hi;
    }
  }

  lemma DivideBounds(a: real, n: real, lo: real, hi: real)
    requires n > 0.0 && n * lo <= a <= n * hi
    ensures lo <= a / n <= hi
  {
    var q := a / n;
    assert q * n == a;
  }

  /** A moving average never leaves the range of the closes in its window. */
  lemma {:induction false} MeanWithinWindow(s: seq<real>)
    requires |s| > 0
    ensures SeqMin(s) <= Mean(s) <= SeqMax(s)
  {
    MeanBounds(s, SeqMin(s), SeqMax(s));
  }

  lemma MeanBounds(s: seq<real>, lo: real, hi: real)
    requires |s| > 0
    requires forall k :: 0 <= k < |s| ==> lo <= s[k] <= hi
    ensures lo <= Mean(s) <= hi
  {
    SumBounds(s, lo, hi);
    DivideBounds(Sum(s), |s| as real, lo, hi);
  }

  /** `s.slice(-n)` / `s[-n:]`: the last `n` entries, or all of them when there are fewer. */
  function Last<T>(s: seq<T>, n: nat): (r: seq<T>)
    requires n >= 1
    ensures |r| == if |s| < n then |s| else n
    ensures forall k :: 0 <= k < |r| ==> r[k] == s[|s| - |r| + k]
    ensures |s| > 0 ==> |r| > 0 && r[|r| - 1] == s[|s| - 1]
  {
    if |s| < n then s else s[|s| - n..]
  }

  /** An axis range `[low, high]`. */
  datatype Range = Range(low: real, high: real)

  /** The padded axis range `[lo * min, hi * max]` of a non-empty series. */
  function PaddedRange(s: seq<real>, lo: real, hi: real): (r: Range)
    requires |s| > 0
  {
    Pad(SeqMin(s), SeqMax(s), lo, hi)
  }

  function Pad(mn: real, mx: real, lo: real, hi: real): Range {
    Range(lo * mn, hi * mx)
  }

  lemma PaddingKeeps(x: real, mn: real, mx: real, lo: real, hi: real)
    requires 0.0 < mn <= x <= mx
    requires 0.0 <= lo <= 1.0 <= hi
    ensures Pad(mn, mx, lo, hi).low <= x <= Pad(mn, mx, lo, hi).high
  {
    assert mn - lo * mn == (1.0 - lo) * mn;
    assert hi * mx - mx == (hi - 1.0) * mx;
  }

  /** With positive values, a padding below 1 at the bottom and above 1 at the top
      keeps every value of the series on the axis. */
  lemma {:induction false} PaddedRangeContains(s: seq<real>, lo: real, hi: real, k: nat)
    requires k < |s|
    requires forall j :: 0 <= j < |s| ==> s[j] > 0.0
    requires 0.0 <= lo <= 1.0 <= hi
    ensures PaddedRange(s, lo, hi).low <= s[k] <= PaddedRange(s, lo, hi).high
  {
    MinPositive(s);
    PaddingKeeps(s[k], SeqMin(s), SeqMax(s), lo, hi);
  }

  /** The minimum of positive values is positive. */
  lemma MinPositive(s: seq<real>)
    requires |s| > 0
    requires forall j :: 0 <= j < |s| ==> s[j] > 0.0
    ensures SeqMin(s) > 0.0
  {
    var j :| 0 <= j < |s| && s[j] == SeqMin(s);
  }
}
