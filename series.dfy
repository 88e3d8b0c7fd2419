/**
 * Whole-column operations as pandas performs them on a numeric Series: `shift`,
 * element-wise comparisons that are false whenever a NaN takes part, element-wise
 * boolean `&`, and the trailing and centred rolling windows the core uses.
 */
module Series {
  import opened Common

  /** A float column with no NaN, lifted to a column of optional values. */
  function Values(s: seq<real>): (r: seq<Option<real>>)
    ensures |r| == |s|
    ensures forall i {:trigger r[i]} :: 0 <= i < |s| ==> r[i] == Some(s[i])
  {
    seq(|s|, i requires 0 <= i < |s| => Some(s[i]))
  }

  /** `s.shift(k)`: row i holds row i-k, and the first k rows hold NaN. */
  function Shift(s: seq<Option<real>>, k: nat): (r: seq<Option<real>>)
    ensures |r| == |s|
  {
    seq(|s|, i requires 0 <= i < |s| => if i >= k then s[i - k] else None)
  }

  /** `b.shift(1)` of a boolean column used under `&`: the NaN of row 0 acts as false. */
  function ShiftFlag(b: seq<bool>): (r: seq<bool>)
    ensures |r| == |b|
  {
    seq(|b|, i requires 0 <= i < |b| => i >= 1 && b[i - 1])
  }

  function LtCol(a: seq<Option<real>>, b: seq<Option<real>>): (r: seq<bool>)
    requires |a| == |b|
    ensures |r| == |a|
  {
    seq(|a|, i requires 0 <= i < |a| => Lt(a[i], b[i]))
  }

  function GtCol(a: seq<Option<real>>, b: seq<Option<real>>): (r: seq<bool>)
    requires |a| == |b|
    ensures |r| == |a|
  {
    seq(|a|, i requires 0 <= i < |a| => Gt(a[i], b[i]))
  }

  function AndCol(a: seq<bool>, b: seq<bool>): (r: seq<bool>)
    requires |a| == |b|
    ensures |r| == |a|
  {
    seq(|a|, i requires 0 <= i < |a| => a[i] && b[i])
  }

  // pandas `rolling(window=w, center=True)` with the default `min_periods=w`: the label
  // of row i gets the window that a trailing window ending at row i + (w-1)/2 would have,
  // and any window that runs past either end of the column has too few rows and is NaN.

  function CenteredStart(i: int, w: nat): int { i + (w - 1) / 2 + 1 - w }
  function CenteredEnd(i: int, w: nat): int { i + (w - 1) / 2 + 1 }

  /** `x[len(x)//2] == min(x)` over the centred window of row i, NaN counting as false. */
  predicate IsLocalMin(s: seq<real>, w: nat, i: int)
    requires w > 0
  {
    && 0 <= CenteredStart(i, w)
    && CenteredEnd(i, w) <= |s|
    && s[CenteredStart(i, w) + w / 2] == MinOf(s[CenteredStart(i, w)..CenteredEnd(i, w)])
  }

  /** `x[len(x)//2] == max(x)` over the centred window of row i, NaN counting as false. */
  predicate IsLocalMax(s: seq<real>, w: nat, i: int)
    requires w > 0
  {
    && 0 <= CenteredStart(i, w)
    && CenteredEnd(i, w) <= |s|
    && s[CenteredStart(i, w) + w / 2] == MaxOf(s[CenteredStart(i, w)..CenteredEnd(i, w)])
  }

  function LocalMinFlags(s: seq<real>, w: nat): (r: seq<bool>)
    requires w > 0
    ensures |r| == |s|
  {
    seq(|s|, i requires 0 <= i < |s| => IsLocalMin(s, w, i))
  }

  function LocalMaxFlags(s: seq<real>, w: nat): (r: seq<bool>)
    requires w > 0
    ensures |r| == |s|
  {
    seq(|s|, i requires 0 <= i < |s| => IsLocalMax(s, w, i))
  }

  /** The element `x[len(x)//2]` of a centred window is the labelled row itself,
      for even and odd widths alike. */
  lemma CentreIsLabelledRow(i: int, w: nat)
    requires w > 0
    ensures CenteredStart(i, w) + w / 2 == i
    ensures CenteredEnd(i, w) - CenteredStart(i, w) == w
  {
  }

  /** Row i is a local minimum exactly when the whole centred window lies inside the
      column and no row of it is lower than row i (ties flag every tied centre). */
  lemma LocalMinIff(s: seq<real>, w: nat, i: int)
    requires w > 0 && 0 <= i < |s|
    ensures LocalMinFlags(s, w)[i] <==>
      (0 <= CenteredStart(i, w) && CenteredEnd(i, w) <= |s| &&
       forall j :: CenteredStart(i, w) <= j < CenteredEnd(i, w) ==> s[i] <= s[j])
  {
    CentreIsLabelledRow(i, w);
    var lo, hi := CenteredStart(i, w), CenteredEnd(i, w);
    if 0 <= lo && hi <= |s| {
      var win := s[lo..hi];
      assert win[i - lo] == s[i];
      if forall j :: lo <= j < hi ==> s[i] <= s[j] {
        var m := MinOf(win);
        var k :| 0 <= k < |win| && win[k] == m;
        assert s[i] <= s[lo + k];
      }
      if s[i] == MinOf(win) {
        forall j | lo <= j < hi ensures s[i] <= s[j] {
          assert win[j - lo] == s[j];
        }
      }
    }
  }

  /** Mirror of LocalMinIff for local maxima. */
  lemma LocalMaxIff(s: seq<real>, w: nat, i: int)
    requires w > 0 && 0 <= i < |s|
    ensures LocalMaxFlags(s, w)[i] <==>
      (0 <= CenteredStart(i, w) && CenteredEnd(i, w) <= |s| &&
       forall j :: CenteredStart(i, w) <= j < CenteredEnd(i, w) ==> s[j] <= s[i])
  {
    CentreIsLabelledRow(i, w);
    var lo, hi := CenteredStart(i, w), CenteredEnd(i, w);
    if 0 <= lo && hi <= |s| {
      var win := s[lo..hi];
      assert win[i - lo] == s[i];
      if forall j :: lo <= j < hi ==> s[j] <= s[i] {
        var m := MaxOf(win);
        var k :| 0 <= k < |win| && win[k] == m;
        assert s[lo + k] <= s[i];
      }
      if s[i] == MaxOf(win) {
        forall j | lo <= j < hi ensures s[j] <= s[i] {
          assert win[j - lo] == s[j];
        }
      }
    }
  }

  /** `s.rolling(window=w).min()`: NaN until w rows are available. */
  function RollingMin(s: seq<real>, w: nat): (r: seq<Option<real>>)
    requires w > 0
    ensures |r| == |s|
  {
    seq(|s|, i requires 0 <= i < |s| => if i + 1 >= w then Some(MinOf(s[i + 1 - w..i + 1])) else None)
  }

  /** `s.rolling(window=w).max()`: NaN until w rows are available. */
  function RollingMax(s: seq<real>, w: nat): (r: seq<Option<real>>)
    requires w > 0
    ensures |r| == |s|
  {
    seq(|s|, i requires 0 <= i < |s| => if i + 1 >= w then Some(MaxOf(s[i + 1 - w..i + 1])) else None)
  }

  /** The trailing rolling minimum at row i is the least of rows i-w+1..i, and has no
      value before row w-1. */
  lemma RollingMinAt(s: seq<real>, w: nat, i: nat)
    requires w > 0 && i < |s|
    ensures RollingMin(s, w)[i].None? <==> i + 1 < w
    ensures RollingMin(s, w)[i].Some? ==>
      (forall j :: i + 1 - w <= j <= i ==> RollingMin(s, w)[i].value <= s[j]) &&
      (exists j :: i + 1 - w <= j <= i && RollingMin(s, w)[i].value == s[j])
  {
    if i + 1 >= w {
      var win := s[i + 1 - w..i + 1];
      var m := MinOf(win);
      forall j | i + 1 - w <= j <= i ensures m <= s[j] {
        assert win[j - (i + 1 - w)] == s[j];
      }
      var k :| 0 <= k < |win| && win[k] == m;
      assert s[i + 1 - w + k] == m;
    }
  }

  /** Mirror of RollingMinAt for the trailing rolling maximum. */
  lemma RollingMaxAt(s: seq<real>, w: nat, i: nat)
    requires w > 0 && i < |s|
    ensures RollingMax(s, w)[i].None? <==> i + 1 < w
    ensures RollingMax(s, w)[i].Some? ==>
      (forall j :: i + 1 - w <= j <= i ==> s[j] <= RollingMax(s, w)[i].value) &&
      (exists j :: i + 1 - w <= j <= i && RollingMax(s, w)[i].value == s[j])
  {
    if i + 1 >= w {
      var win := s[i + 1 - w..i + 1];
      var m := MaxOf(win);
      forall j | i + 1 - w <= j <= i ensures s[j] <= m {
        assert win[j - (i + 1 - w)] == s[j];
      }
      var k :| 0 <= k < |win| && win[k] == m;
      assert s[i + 1 - w + k] == m;
    }
  }
}
