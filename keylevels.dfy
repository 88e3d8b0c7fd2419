/**
 * bot.py's `identify_key_levels`: support and resistance candidates from the local
 * extrema of the last 100 rows, counted by touches within 0.5%, the last broken levels
 * added as dynamic levels, then a stable sort by touches and the top three of each side.
 */
module KeyLevels {
  import opened Common
  import opened Indicators

  datatype KeyLevel = KeyLevel(price: real, touches: nat)

  /** Which list is being built: supports are read from lows, resistances from highs. */
  datatype Side = SupportSide | ResistanceSide

  /** `df.iloc[-100:]`. */
  const RecentRows: nat := 100
  /** Candidates skip the first and last five rows of the recent window. */
  const EdgeRows: nat := 5
  /** Half-width of the touch band, as a fraction of the level's price. */
  const TouchBand: real := 0.005
  const MinTouches: nat := 2
  const MaxLevels: nat := 3

  /** The last 100 rows of the frame, or all of them when there are fewer. */
  function Recent(frame: seq<Row>): (r: seq<Row>)
    ensures |r| == if |frame| <= RecentRows then |frame| else RecentRows
    ensures r == frame[|frame| - |r|..]
  {
    if |frame| <= RecentRows then frame else frame[|frame| - RecentRows..]
  }

  function Price(row: Row, side: Side): real
  {
    if side == SupportSide then row.candle.low else row.candle.high
  }

  predicate Flagged(row: Row, side: Side)
  {
    if side == SupportSide then row.isSupport else row.isResistance
  }

  /** `abs(x - p) < p * 0.005`: a strict band, empty when p is not positive. */
  predicate Touching(x: real, p: real)
  {
    Abs(x - p) < p * TouchBand
  }

  /** `sum(abs(recent[col] - p) < p * 0.005)`. */
  function Touches(rows: seq<Row>, side: Side, p: real): (n: nat)
    ensures n <= |rows|
  {
    if rows == [] then 0
    else Touches(rows[..|rows| - 1], side, p) + (if Touching(Price(rows[|rows| - 1], side), p) then 1 else 0)
  }

  /** The candidate of row i, if that row is flagged and has at least two touches. */
  function CandidateAt(recent: seq<Row>, side: Side, i: nat): seq<KeyLevel>
    requires i < |recent|
  {
    var p := Price(recent[i], side);
    var t := Touches(recent, side, p);
    if Flagged(recent[i], side) && t >= MinTouches then [KeyLevel(p, t)] else []
  }

  /** What the `for i in range(5, hi)` loop has appended. */
  function Candidates(recent: seq<Row>, side: Side, hi: int): seq<KeyLevel>
    requires hi <= EdgeRows || hi <= |recent|
    decreases hi
  {
    if hi <= EdgeRows then [] else Candidates(recent, side, hi - 1) + CandidateAt(recent, side, hi - 1)
  }

  /** The candidates of the whole loop `range(5, len(recent) - 5)`. */
  function Detected(recent: seq<Row>, side: Side): seq<KeyLevel>
  {
    Candidates(recent, side, |recent| - EdgeRows)
  }

  /** `any(abs(s[0] - p) < p * 0.005 for s in levels)`. */
  predicate NearAny(levels: seq<KeyLevel>, p: real)
  {
    exists k :: 0 <= k < |levels| && Touching(levels[k].price, p)
  }

  /** The dynamic level, appended with one touch when it has a value and no listed level
      lies within 0.5% of it. */
  function WithDynamic(levels: seq<KeyLevel>, dynamic: Option<real>): (r: seq<KeyLevel>)
    ensures r == levels || (dynamic.Some? && r == levels + [KeyLevel(dynamic.value, 1)])
    ensures r != levels <==> dynamic.Some? && !NearAny(levels, dynamic.value)
  {
    if dynamic.Some? && !NearAny(levels, dynamic.value) then levels + [KeyLevel(dynamic.value, 1)] else levels
  }

  // ---- Python's stable `list.sort(key=touches, reverse=True)` --------------------------

  predicate SortedByTouches(s: seq<KeyLevel>)
  {
    forall i, j :: 0 <= i < j < |s| ==> s[i].touches >= s[j].touches
  }

  /** Puts x after every element with at least as many touches, so that among equal
      counts the element inserted later stays later. */
  function InsertByTouches(sorted: seq<KeyLevel>, x: KeyLevel): (r: seq<KeyLevel>)
    ensures |r| == |sorted| + 1
  {
    if sorted == [] then [x]
    else if sorted[0].touches >= x.touches then
      assert sorted == [sorted[0]] + sorted[1..];
      [sorted[0]] + InsertByTouches(sorted[1..], x)
    else [x] + sorted
  }

  /** Insertion sort, element by element from the left. */
  function SortByTouches(s: seq<KeyLevel>): (r: seq<KeyLevel>)
    ensures |r| == |s|
  {
    if s == [] then []
    else
      InsertByTouches(SortByTouches(s[..|s| - 1]), s[|s| - 1])
  }

  /** `levels[:3]` after sorting. */
  function TopLevels(levels: seq<KeyLevel>): seq<KeyLevel>
  {
    var sorted := SortByTouches(levels);
    if |sorted| <= MaxLevels then sorted else sorted[..MaxLevels]
  }

  /** The pair `(supports, resistances)` that `identify_key_levels` returns. */
  function KeyLevelsOf(frame: seq<Row>): (seq<KeyLevel>, seq<KeyLevel>)
    requires |frame| > 0
  {
    var recent := Recent(frame);
    var last := recent[|recent| - 1];
    (TopLevels(WithDynamic(Detected(recent, SupportSide), last.lastBrokeResistance)),
     TopLevels(WithDynamic(Detected(recent, ResistanceSide), last.lastBrokeSupport)))
  }

  /** One of the two scanning loops: rows 5 .. len(recent)-6, each flagged row whose
      price has at least two touches appended as a candidate. */
  method ScanCandidates(recent: seq<Row>, side: Side) returns (levels: seq<KeyLevel>)
    ensures levels == Detected(recent, side)
  {
    levels := [];
    var i := EdgeRows;
    while i < |recent| - EdgeRows
      invariant EdgeRows <= i
      invariant i <= |recent| - EdgeRows || i == EdgeRows
      invariant levels == Candidates(recent, side, i)
    {
      if Flagged(recent[i], side) {
        var price := Price(recent[i], side);
        var touches := Touches(recent, side, price);
        if touches >= MinTouches {
          levels := levels + [KeyLevel(price, touches)];
        }
      }
      i := i + 1;
    }
  }

  /** `levels.sort(key=lambda x: x[1], reverse=True)` done in place: an insertion sort that
      shifts every element with fewer touches than the new one a slot to the right, so a
      later element never overtakes an earlier one with as many touches. */
  method SortInPlace(a: array<KeyLevel>)
    modifies a
    ensures a[..] == SortByTouches(old(a[..]))
    ensures SortedByTouches(a[..]) && multiset(a[..]) == multiset(old(a[..]))
  {
    ghost var input := a[..];
    var i := 0;
    while i < a.Length
      invariant 0 <= i <= a.Length
      invariant a[..i] == SortByTouches(input[..i])
      invariant a[i..] == input[i..]
    {
      SortIsStable(input[..i]);
      assert a[i] == input[i];
      InsertNext(a, i);
      assert input[..i + 1][..i] == input[..i];
      i := i + 1;
    }
    assert input[..a.Length] == input;
    SortIsStable(input);
    SortIsPermutation(input);
  }

  /** One pass of the insertion sort: a[i] moves left past every element with fewer
      touches into the sorted a[..i]. */
  method InsertNext(a: array<KeyLevel>, i: nat)
    requires i < a.Length && SortedByTouches(a[..i])
    modifies a
    ensures a[..i + 1] == InsertByTouches(old(a[..i]), old(a[i]))
    ensures a[i + 1..] == old(a[i + 1..])
  {
    ghost var sorted := a[..i];
    var x := a[i];
    var j := i;
    while j > 0 && a[j - 1].touches < x.touches
      invariant 0 <= j <= i
      invariant forall k :: 0 <= k < j ==> a[k] == sorted[k]
      invariant forall k :: j < k <= i ==> a[k] == sorted[k - 1]
      invariant a[i + 1..] == old(a[i + 1..])
      invariant forall k :: j <= k < i ==> sorted[k].touches < x.touches
      decreases j
    {
      a[j] := a[j - 1];
      j := j - 1;
    }
    a[j] := x;
    assert forall k :: 0 <= k < j ==> sorted[k].touches >= x.touches by {
      if j > 0 {
        assert sorted[j - 1].touches >= x.touches;
      }
    }
    InsertAt(sorted, x, j);
    Spliced(a[..i + 1], sorted, x, j);
  }

  /** A list that holds s[..j], then x, then s[j..], element by element, is that list. */
  lemma Spliced(b: seq<KeyLevel>, s: seq<KeyLevel>, x: KeyLevel, j: nat)
    requires |b| == |s| + 1 && j <= |s|
    requires forall k :: 0 <= k < j ==> b[k] == s[k]
    requires b[j] == x
    requires forall k :: j < k <= |s| ==> b[k] == s[k - 1]
    ensures b == s[..j] + [x] + s[j..]
  {
  }

  /** Inserting x into a list at the first position j whose element has fewer touches,
      every element before j having at least as many. */
  lemma {:induction false} InsertAt(s: seq<KeyLevel>, x: KeyLevel, j: nat)
    requires j <= |s|
    requires forall k :: 0 <= k < j ==> s[k].touches >= x.touches
    requires j < |s| ==> s[j].touches < x.touches
    ensures InsertByTouches(s, x) == s[..j] + [x] + s[j..]
    decreases j
  {
    if j > 0 {
      InsertAt(s[1..], x, j - 1);
      assert s[..j] == [s[0]] + s[1..][..j - 1];
      assert s[j..] == s[1..][j - 1..];
    }
  }

  /** `if levels: levels.sort(...); levels = levels[:3]`: the three levels with the most
      touches, most first, ties in detection order. */
  method KeepTop(levels: seq<KeyLevel>) returns (r: seq<KeyLevel>)
    ensures r == TopLevels(levels)
    ensures |r| == if |levels| <= MaxLevels then |levels| else MaxLevels
    ensures SortedByTouches(r) && multiset(r) <= multiset(levels)
  {
    r := levels;
    if |r| > 0 {
      var a := new KeyLevel[|r|](k requires 0 <= k < |r| => r[k]);
      assert a[..] == r;
      SortInPlace(a);
      r := if a.Length <= MaxLevels then a[..] else a[..MaxLevels];
    }
    TopLevelsShape(levels);
    TopLevelsAreBest(levels);
  }

  /** The detector as the source runs it: the scan for supports, the scan for resistances,
      the two dynamic levels, then sort and slice. An empty frame fails at `iloc[-1]`. */
  method IdentifyKeyLevels(frame: seq<Row>) returns (r: Result<(seq<KeyLevel>, seq<KeyLevel>)>)
    ensures |frame| == 0 ==> r == Err(IndexOutOfRange)
    ensures |frame| > 0 ==> r == Ok(KeyLevelsOf(frame))
  {
    var recent := Recent(frame);
    var supports := ScanCandidates(recent, SupportSide);
    var resistances := ScanCandidates(recent, ResistanceSide);
    if |recent| == 0 {
      return Err(IndexOutOfRange);
    }
    var last := recent[|recent| - 1];
    // The last broken resistance becomes a support, the last broken support a resistance,
    // unless a listed level already lies within 0.5% of it.
    if last.lastBrokeResistance.Some? {
      var price := last.lastBrokeResistance.value;
      if !NearAny(supports, price) {
        supports := supports + [KeyLevel(price, 1)];
      }
    }
    if last.lastBrokeSupport.Some? {
      var price := last.lastBrokeSupport.value;
      if !NearAny(resistances, price) {
        resistances := resistances + [KeyLevel(price, 1)];
      }
    }
    supports := KeepTop(supports);
    resistances := KeepTop(resistances);
    r := Ok((supports, resistances));
  }

  // ---- Where candidates come from --------------------------------------------------

  /** Level e is the price of a flagged row i with lo <= i < hi, with that price's touch
      count. */
  predicate FromFlaggedRow(recent: seq<Row>, side: Side, lo: int, hi: int, e: KeyLevel)
  {
    exists i :: 0 <= lo <= i < hi <= |recent| && Flagged(recent[i], side) &&
      e == KeyLevel(Price(recent[i], side), Touches(recent, side, Price(recent[i], side)))
  }

  /** Every candidate comes from a flagged row i with 5 <= i < hi, carries the touch count
      of its price, and has at least two touches. */
  lemma {:induction false} CandidatesSound(recent: seq<Row>, side: Side, hi: int)
    requires hi <= EdgeRows || hi <= |recent|
    ensures forall k :: 0 <= k < |Candidates(recent, side, hi)| ==>
      Candidates(recent, side, hi)[k].touches >= MinTouches &&
      FromFlaggedRow(recent, side, EdgeRows, hi, Candidates(recent, side, hi)[k])
    decreases hi
  {
    if hi > EdgeRows {
      CandidatesSound(recent, side, hi - 1);
      var before := Candidates(recent, side, hi - 1);
      var here := CandidateAt(recent, side, hi - 1);
      var all := Candidates(recent, side, hi);
      assert all == before + here;
      forall k | 0 <= k < |all|
        ensures all[k].touches >= MinTouches && FromFlaggedRow(recent, side, EdgeRows, hi, all[k])
      {
        if k < |before| {
          assert all[k] == before[k];
          assert FromFlaggedRow(recent, side, EdgeRows, hi - 1, before[k]);
        } else {
          assert all[k] == here[0];
          var i := hi - 1;
          assert Flagged(recent[i], side) &&
            all[k] == KeyLevel(Price(recent[i], side), Touches(recent, side, Price(recent[i], side)));
        }
      }
    }
  }

  /** Conversely, every flagged row i with 5 <= i < hi and at least two touches yields a
      candidate. */
  lemma {:induction false} CandidatesComplete(recent: seq<Row>, side: Side, hi: int, i: nat)
    requires hi <= |recent|
    requires EdgeRows <= i < hi && Flagged(recent[i], side)
    requires Touches(recent, side, Price(recent[i], side)) >= MinTouches
    ensures KeyLevel(Price(recent[i], side), Touches(recent, side, Price(recent[i], side))) in Candidates(recent, side, hi)
    decreases hi
  {
    if i < hi - 1 {
      CandidatesComplete(recent, side, hi - 1, i);
    }
  }

  /** A level at a non-positive price is never touched, since the band is strict. */
  lemma {:induction false} NoTouchesAtNonPositivePrice(rows: seq<Row>, side: Side, p: real)
    requires p <= 0.0
    ensures Touches(rows, side, p) == 0
  {
    if rows != [] {
      NoTouchesAtNonPositivePrice(rows[..|rows| - 1], side, p);
    }
  }

  /** At a positive price the candidate's own row is one of its touches, so two touches
      mean at least one other row within the band. */
  lemma {:induction false} OwnRowTouches(rows: seq<Row>, side: Side, i: nat)
    requires i < |rows| && Price(rows[i], side) > 0.0
    ensures Touches(rows, side, Price(rows[i], side)) >= 1
  {
    if i < |rows| - 1 {
      OwnRowTouches(rows[..|rows| - 1], side, i);
    }
  }

  // ---- The stable sort ---------------------------------------------------------------

  predicate AllAtLeast(s: seq<KeyLevel>, b: nat)
  {
    forall k :: 0 <= k < |s| ==> s[k].touches >= b
  }

  predicate AllAtMost(s: seq<KeyLevel>, b: nat)
  {
    forall k :: 0 <= k < |s| ==> s[k].touches <= b
  }

  lemma {:induction false} InsertKeepsBounds(sorted: seq<KeyLevel>, x: KeyLevel, lo: nat, hi: nat)
    ensures AllAtLeast(sorted, lo) && x.touches >= lo ==> AllAtLeast(InsertByTouches(sorted, x), lo)
    ensures AllAtMost(sorted, hi) && x.touches <= hi ==> AllAtMost(InsertByTouches(sorted, x), hi)
  {
    if sorted != [] && sorted[0].touches >= x.touches {
      InsertKeepsBounds(sorted[1..], x, lo, hi);
    }
  }

  lemma {:induction false} SortKeepsLowerBound(s: seq<KeyLevel>, lo: nat)
    requires AllAtLeast(s, lo)
    ensures AllAtLeast(SortByTouches(s), lo)
  {
    if s != [] {
      SortKeepsLowerBound(s[..|s| - 1], lo);
      InsertKeepsBounds(SortByTouches(s[..|s| - 1]), s[|s| - 1], lo, 0);
    }
  }

  lemma {:induction false} InsertKeepsSorted(sorted: seq<KeyLevel>, x: KeyLevel)
    requires SortedByTouches(sorted)
    ensures SortedByTouches(InsertByTouches(sorted, x))
  {
    if sorted != [] && sorted[0].touches >= x.touches {
      var tail := sorted[1..];
      InsertKeepsSorted(tail, x);
      assert AllAtMost(tail, sorted[0].touches) by {
        forall k | 0 <= k < |tail| ensures tail[k].touches <= sorted[0].touches {
          assert tail[k] == sorted[k + 1];
        }
      }
      InsertKeepsBounds(tail, x, 0, sorted[0].touches);
    }
  }

  /** The elements with exactly t touches, in their order. */
  function WithTouches(s: seq<KeyLevel>, t: nat): seq<KeyLevel>
  {
    if s == [] then []
    else WithTouches(s[..|s| - 1], t) + (if s[|s| - 1].touches == t then [s[|s| - 1]] else [])
  }

  lemma {:induction false} WithTouchesAppend(a: seq<KeyLevel>, b: seq<KeyLevel>, t: nat)
    ensures WithTouches(a + b, t) == WithTouches(a, t) + WithTouches(b, t)
    decreases |b|
  {
    if b == [] {
      assert a + b == a;
    } else {
      assert (a + b)[..|a + b| - 1] == a + b[..|b| - 1];
      WithTouchesAppend(a, b[..|b| - 1], t);
    }
  }

  lemma WithTouchesSingle(x: KeyLevel, t: nat)
    ensures WithTouches([x], t) == if x.touches == t then [x] else []
  {
    assert [x][..0] == [];
  }

  lemma {:induction false} WithTouchesNone(s: seq<KeyLevel>, t: nat)
    requires forall k :: 0 <= k < |s| ==> s[k].touches != t
    ensures WithTouches(s, t) == []
  {
    if s != [] {
      WithTouchesNone(s[..|s| - 1], t);
    }
  }

  lemma {:induction false} InsertKeepsTieOrder(sorted: seq<KeyLevel>, x: KeyLevel, t: nat)
    requires SortedByTouches(sorted)
    ensures WithTouches(InsertByTouches(sorted, x), t) == WithTouches(sorted, t) + (if x.touches == t then [x] else [])
  {
    WithTouchesSingle(x, t);
    if sorted == [] {
    } else if sorted[0].touches >= x.touches {
      var head, tail := sorted[0], sorted[1..];
      assert sorted == [head] + tail;
      assert SortedByTouches(tail) by {
        forall i, j | 0 <= i < j < |tail| ensures tail[i].touches >= tail[j].touches {
          assert tail[i] == sorted[i + 1] && tail[j] == sorted[j + 1];
        }
      }
      var rest := InsertByTouches(tail, x);
      assert InsertByTouches(sorted, x) == [head] + rest;
      InsertKeepsTieOrder(tail, x, t);
      WithTouchesAppend([head], rest, t);
      WithTouchesAppend([head], tail, t);
      var h, xs := WithTouches([head], t), (if x.touches == t then [x] else []);
      assert WithTouches([head] + rest, t) == h + (WithTouches(tail, t) + xs);
      assert h + (WithTouches(tail, t) + xs) == (h + WithTouches(tail, t)) + xs;
    } else {
      assert InsertByTouches(sorted, x) == [x] + sorted;
      WithTouchesAppend([x], sorted, t);
      if x.touches == t {
        forall k | 0 <= k < |sorted| ensures sorted[k].touches != t {
          assert k == 0 || sorted[0].touches >= sorted[k].touches;
        }
        WithTouchesNone(sorted, t);
      }
    }
  }

  /** The sort orders by non-increasing touches, and among equal touch counts keeps the
      order of detection: the elements with t touches are the same, in the same order. */
  lemma {:induction false} SortIsStable(s: seq<KeyLevel>)
    ensures SortedByTouches(SortByTouches(s))
    ensures forall t :: WithTouches(SortByTouches(s), t) == WithTouches(s, t)
  {
    if s != [] {
      var init, x := s[..|s| - 1], s[|s| - 1];
      SortIsStable(init);
      InsertKeepsSorted(SortByTouches(init), x);
      forall t ensures WithTouches(SortByTouches(s), t) == WithTouches(s, t) {
        InsertKeepsTieOrder(SortByTouches(init), x, t);
      }
    }
  }

  lemma {:induction false} InsertIsPermutation(sorted: seq<KeyLevel>, x: KeyLevel)
    ensures multiset(InsertByTouches(sorted, x)) == multiset(sorted) + multiset{x}
  {
    if sorted != [] && sorted[0].touches >= x.touches {
      InsertIsPermutation(sorted[1..], x);
      assert sorted == [sorted[0]] + sorted[1..];
    }
  }

  /** The sort neither loses nor invents a level. */
  lemma {:induction false} SortIsPermutation(s: seq<KeyLevel>)
    ensures multiset(SortByTouches(s)) == multiset(s)
  {
    if s != [] {
      SortIsPermutation(s[..|s| - 1]);
      InsertIsPermutation(SortByTouches(s[..|s| - 1]), s[|s| - 1]);
      assert s == s[..|s| - 1] + [s[|s| - 1]];
    }
  }

  /** The levels the slice `[:3]` drops, in sorted order. */
  function Dropped(levels: seq<KeyLevel>): seq<KeyLevel>
  {
    var sorted := SortByTouches(levels);
    if |sorted| <= MaxLevels then [] else sorted[MaxLevels..]
  }

  /** At most three levels are kept, sorted by touches, and they are the front of the
      stable sort. */
  lemma TopLevelsShape(levels: seq<KeyLevel>)
    ensures |TopLevels(levels)| == if |levels| <= MaxLevels then |levels| else MaxLevels
    ensures SortedByTouches(TopLevels(levels))
    ensures SortByTouches(levels) == TopLevels(levels) + Dropped(levels)
  {
    SortIsStable(levels);
  }

  /** Kept and dropped levels together are exactly the input, and no dropped level has
      more touches than any kept one. */
  lemma TopLevelsAreBest(levels: seq<KeyLevel>)
    ensures multiset(TopLevels(levels)) + multiset(Dropped(levels)) == multiset(levels)
    ensures forall k, m :: 0 <= k < |TopLevels(levels)| && 0 <= m < |Dropped(levels)| ==>
      Dropped(levels)[m].touches <= TopLevels(levels)[k].touches
  {
    TopLevelsShape(levels);
    SortIsStable(levels);
    SortIsPermutation(levels);
    var sorted := SortByTouches(levels);
    var top, rest := TopLevels(levels), Dropped(levels);
    assert multiset(sorted) == multiset(top) + multiset(rest);
    forall k, m | 0 <= k < |top| && 0 <= m < |rest| ensures rest[m].touches <= top[k].touches {
      assert sorted[|top| + m] == rest[m] && sorted[k] == top[k];
    }
  }

  // ---- The dynamic level after sorting and truncation --------------------------------

  lemma {:induction false} InsertBelowAll(sorted: seq<KeyLevel>, x: KeyLevel)
    requires AllAtLeast(sorted, x.touches)
    ensures InsertByTouches(sorted, x) == sorted + [x]
  {
    if sorted != [] {
      InsertBelowAll(sorted[1..], x);
    }
  }

  lemma SortAppendSmallest(s: seq<KeyLevel>, x: KeyLevel)
    requires AllAtLeast(s, x.touches)
    ensures SortByTouches(s + [x]) == SortByTouches(s) + [x]
  {
    assert (s + [x])[..|s + [x]| - 1] == s;
    SortKeepsLowerBound(s, x.touches);
    InsertBelowAll(SortByTouches(s), x);
  }

  /** Every detected level has at least two touches, and so does every sorted one. */
  lemma DetectedHaveTwoTouches(recent: seq<Row>, side: Side)
    ensures AllAtLeast(Detected(recent, side), MinTouches)
    ensures AllAtLeast(SortByTouches(Detected(recent, side)), MinTouches)
  {
    CandidatesSound(recent, side, |recent| - EdgeRows);
    SortKeepsLowerBound(Detected(recent, side), MinTouches);
  }

  /** The returned list of one side contains a one-touch level exactly when the dynamic
      level has a value, no detected level lies within 0.5% of it, and fewer than three
      levels were detected; the list is then the sorted detected levels followed by it. */
  lemma DynamicKeptIff(recent: seq<Row>, side: Side, dyn: Option<real>)
    ensures var top := TopLevels(WithDynamic(Detected(recent, side), dyn));
      (exists k :: 0 <= k < |top| && top[k].touches == 1) <==>
        (dyn.Some? && !NearAny(Detected(recent, side), dyn.value) && |Detected(recent, side)| < MaxLevels)
    ensures var top := TopLevels(WithDynamic(Detected(recent, side), dyn));
      (dyn.Some? && !NearAny(Detected(recent, side), dyn.value) && |Detected(recent, side)| < MaxLevels) ==>
        top == SortByTouches(Detected(recent, side)) + [KeyLevel(dyn.value, 1)]
  {
    var found := Detected(recent, side);
    DetectedHaveTwoTouches(recent, side);
    var sortedFound := SortByTouches(found);
    var top := TopLevels(WithDynamic(found, dyn));
    if dyn.Some? && !NearAny(found, dyn.value) {
      var x := KeyLevel(dyn.value, 1);
      SortAppendSmallest(found, x);
      if |found| < MaxLevels {
        assert top == sortedFound + [x];
        assert top[|top| - 1].touches == 1;
      } else {
        assert top == sortedFound[..MaxLevels];
        assert AllAtLeast(top, MinTouches);
      }
    } else {
      assert AllAtLeast(top, MinTouches);
    }
  }

  /** DynamicKeptIff for the supports, whose dynamic level is the last broken resistance. */
  lemma DynamicSupportKeptIff(frame: seq<Row>)
    requires |frame| > 0
    ensures var recent := Recent(frame);
      var dyn := recent[|recent| - 1].lastBrokeResistance;
      var supports := KeyLevelsOf(frame).0;
      ((exists k :: 0 <= k < |supports| && supports[k].touches == 1) <==>
        (dyn.Some? && !NearAny(Detected(recent, SupportSide), dyn.value) &&
         |Detected(recent, SupportSide)| < MaxLevels)) &&
      ((dyn.Some? && !NearAny(Detected(recent, SupportSide), dyn.value) &&
        |Detected(recent, SupportSide)| < MaxLevels) ==>
        supports == SortByTouches(Detected(recent, SupportSide)) + [KeyLevel(dyn.value, 1)])
  {
    var recent := Recent(frame);
    DynamicKeptIff(recent, SupportSide, recent[|recent| - 1].lastBrokeResistance);
  }

  /** DynamicKeptIff for the resistances, whose dynamic level is the last broken support. */
  lemma DynamicResistanceKeptIff(frame: seq<Row>)
    requires |frame| > 0
    ensures var recent := Recent(frame);
      var dyn := recent[|recent| - 1].lastBrokeSupport;
      var resistances := KeyLevelsOf(frame).1;
      ((exists k :: 0 <= k < |resistances| && resistances[k].touches == 1) <==>
        (dyn.Some? && !NearAny(Detected(recent, ResistanceSide), dyn.value) &&
         |Detected(recent, ResistanceSide)| < MaxLevels)) &&
      ((dyn.Some? && !NearAny(Detected(recent, ResistanceSide), dyn.value) &&
        |Detected(recent, ResistanceSide)| < MaxLevels) ==>
        resistances == SortByTouches(Detected(recent, ResistanceSide)) + [KeyLevel(dyn.value, 1)])
  {
    var recent := Recent(frame);
    DynamicKeptIff(recent, ResistanceSide, recent[|recent| - 1].lastBrokeSupport);
  }
}
