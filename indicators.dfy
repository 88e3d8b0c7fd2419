/**
 * The derived-column stage of bot.py's `apply_technical_indicators`: everything it
 * computes without the indicator library. The library columns (SMA, RSI, MACD, ADX/DI,
 * Bollinger, volume SMA, Ichimoku lines) arrive as one `TaRow` per candle.
 */
module Indicators {
  import opened Common
  import opened Series

  datatype Candle = Candle(timestamp: int, open: real, high: real, low: real, close: real, volume: real)

  /** The indicator-library columns of one row, each possibly NaN. */
  datatype TaRow = TaRow(
    smaFast: Option<real>, smaSlow: Option<real>,
    rsi: Option<real>,
    macd: Option<real>, macdSignal: Option<real>, macdHistogram: Option<real>,
    adx: Option<real>, diPlus: Option<real>, diMinus: Option<real>,
    bollingerHigh: Option<real>, bollingerMid: Option<real>, bollingerLow: Option<real>,
    volumeSma: Option<real>,
    ichimokuConversion: Option<real>, ichimokuBase: Option<real>,
    ichimokuA: Option<real>, ichimokuB: Option<real>)

  datatype Trend = Bullish | Bearish | Neutral

  /** One row of the annotated frame. */
  datatype Row = Row(
    candle: Candle,
    ta: TaRow,
    volumeRatio: Option<real>,
    volumeIncreasing: bool,
    volumeDecreasingTrend: bool,
    aboveCloud: bool,
    belowCloud: bool,
    inCloud: bool,
    futureCloudBullish: bool,
    futureCloudBearish: bool,
    isSupport: bool,
    isResistance: bool,
    supportLevel: real,
    resistanceLevel: real,
    brokeResistance: bool,
    brokeSupport: bool,
    lastBrokeResistance: Option<real>,
    lastBrokeSupport: Option<real>,
    trend: Trend)

  /** Width of the centred window for local extrema. */
  const ExtremaWindow: nat := 20
  /** The Ichimoku spans are compared with the values of 26 rows earlier. */
  const CloudShift: nat := 26

  function Closes(c: seq<Candle>): (r: seq<real>)
    ensures |r| == |c| && forall i {:trigger r[i]} :: 0 <= i < |c| ==> r[i] == c[i].close
  { seq(|c|, i requires 0 <= i < |c| => c[i].close) }

  function Highs(c: seq<Candle>): (r: seq<real>)
    ensures |r| == |c| && forall i {:trigger r[i]} :: 0 <= i < |c| ==> r[i] == c[i].high
  { seq(|c|, i requires 0 <= i < |c| => c[i].high) }

  function Lows(c: seq<Candle>): (r: seq<real>)
    ensures |r| == |c| && forall i {:trigger r[i]} :: 0 <= i < |c| ==> r[i] == c[i].low
  { seq(|c|, i requires 0 <= i < |c| => c[i].low) }

  function Volumes(c: seq<Candle>): (r: seq<real>)
    ensures |r| == |c| && forall i {:trigger r[i]} :: 0 <= i < |c| ==> r[i] == c[i].volume
  { seq(|c|, i requires 0 <= i < |c| => c[i].volume) }

  function SpanA(t: seq<TaRow>): (r: seq<Option<real>>)
    ensures |r| == |t| && forall i {:trigger r[i]} :: 0 <= i < |t| ==> r[i] == t[i].ichimokuA
  { seq(|t|, i requires 0 <= i < |t| => t[i].ichimokuA) }

  function SpanB(t: seq<TaRow>): (r: seq<Option<real>>)
    ensures |r| == |t| && forall i {:trigger r[i]} :: 0 <= i < |t| ==> r[i] == t[i].ichimokuB
  { seq(|t|, i requires 0 <= i < |t| => t[i].ichimokuB) }

  // ---- Volume analysis -------------------------------------------------------------

  /** `volume / volume_sma`; a NaN average gives NaN, and so does a zero average, which
      with non-negative volumes means a zero volume (0/0). */
  function VolumeRatio(volume: real, sma: Option<real>): (r: Option<real>)
    ensures r.Some? <==> sma.Some? && sma.value != 0.0
    ensures r.Some? ==> r.value * sma.value == volume
  {
    if sma.Some? && sma.value != 0.0 then Some(volume / sma.value) else None
  }

  /** `volume > volume.shift(1)`. */
  function VolumeIncreasingColumn(v: seq<real>): (r: seq<bool>)
    ensures |r| == |v|
  {
    GtCol(Values(v), Shift(Values(v), 1))
  }

  /** `(v < v.shift(1)) & (v.shift(1) < v.shift(2)) & (v.shift(2) < v.shift(3))`. */
  function VolumeDecreasingTrendColumn(v: seq<real>): (r: seq<bool>)
    ensures |r| == |v|
  {
    var s0, s1, s2, s3 := Values(v), Shift(Values(v), 1), Shift(Values(v), 2), Shift(Values(v), 3);
    AndCol(AndCol(LtCol(s0, s1), LtCol(s1, s2)), LtCol(s2, s3))
  }

  // ---- Ichimoku cloud position --------------------------------------------------------

  /** `(close > a.shift(26)) & (close > b.shift(26))`. */
  function AboveCloudColumn(close: seq<real>, a: seq<Option<real>>, b: seq<Option<real>>): (r: seq<bool>)
    requires |a| == |close| && |b| == |close|
    ensures |r| == |close|
  {
    AndCol(GtCol(Values(close), Shift(a, CloudShift)), GtCol(Values(close), Shift(b, CloudShift)))
  }

  /** `(close < a.shift(26)) & (close < b.shift(26))`. */
  function BelowCloudColumn(close: seq<real>, a: seq<Option<real>>, b: seq<Option<real>>): (r: seq<bool>)
    requires |a| == |close| && |b| == |close|
    ensures |r| == |close|
  {
    AndCol(LtCol(Values(close), Shift(a, CloudShift)), LtCol(Values(close), Shift(b, CloudShift)))
  }

  // ---- Quartile levels ---------------------------------------------------------------

  /** `low.min() + (high.max() - low.min()) * 0.25` and `... * 0.75`, one scalar per frame. */
  function QuartileLevels(c: seq<Candle>): (r: (real, real))
    requires |c| > 0
  {
    var lo, hi := MinOf(Lows(c)), MaxOf(Highs(c));
    (lo + (hi - lo) * 0.25, lo + (hi - lo) * 0.75)
  }

  /** A candle whose close lies within its range, between its low and its high. */
  predicate WellFormed(k: Candle) { k.low <= k.close <= k.high }

  /** For well-formed candles the two quartile levels lie inside the traded range of the
      whole frame and in order: lowest low <= q1 <= q3 <= highest high. */
  lemma QuartileLevelsOrdered(c: seq<Candle>)
    requires |c| > 0
    requires forall i :: 0 <= i < |c| ==> WellFormed(c[i])
    ensures MinOf(Lows(c)) <= QuartileLevels(c).0 <= QuartileLevels(c).1 <= MaxOf(Highs(c))
  {
    assert MinOf(Lows(c)) <= Lows(c)[0] <= Highs(c)[0] <= MaxOf(Highs(c));
  }

  // ---- Breaks and the last broken level -----------------------------------------------

  /** `(close > close.shift(1)) & is_resistance.shift(1) & (close > high.shift(1))`. */
  function BrokeResistanceColumn(c: seq<Candle>, isResistance: seq<bool>): (r: seq<bool>)
    requires |isResistance| == |c|
    ensures |r| == |c|
  {
    var cl := Values(Closes(c));
    AndCol(AndCol(GtCol(cl, Shift(cl, 1)), ShiftFlag(isResistance)), GtCol(cl, Shift(Values(Highs(c)), 1)))
  }

  /** `(close < close.shift(1)) & is_support.shift(1) & (close < low.shift(1))`. */
  function BrokeSupportColumn(c: seq<Candle>, isSupport: seq<bool>): (r: seq<bool>)
    requires |isSupport| == |c|
    ensures |r| == |c|
  {
    var cl := Values(Closes(c));
    AndCol(AndCol(LtCol(cl, Shift(cl, 1)), ShiftFlag(isSupport)), LtCol(cl, Shift(Values(Lows(c)), 1)))
  }

  /** `df.index[flags][-1]` when that index list is non-empty: the last flagged row. */
  function LastIndexOf(flags: seq<bool>): (r: Option<nat>)
    ensures r.Some? ==> r.value < |flags| && flags[r.value]
    ensures r.Some? ==> forall j :: r.value < j < |flags| ==> !flags[j]
    ensures r.None? <==> forall j :: 0 <= j < |flags| ==> !flags[j]
  {
    if |flags| == 0 then None
    else if flags[|flags| - 1] then Some(|flags| - 1)
    else LastIndexOf(flags[..|flags| - 1])
  }

  /** The column `df[col] = None; df.loc[k:, col] = price[k]` for the last flagged row k. */
  function LastBrokeColumn(breaks: seq<bool>, price: seq<real>): (r: seq<Option<real>>)
    requires |price| == |breaks|
    ensures |r| == |breaks|
  {
    var last := LastIndexOf(breaks);
    seq(|breaks|, j requires 0 <= j < |breaks| =>
      if last.Some? && j >= last.value then Some(price[last.value]) else None)
  }

  /** The in-place form of lines 139-152: blank the column, find the last break, and fill
      the column from that row to the end with the price of the break candle. */
  method MarkLastBreak(col: array<Option<real>>, breaks: seq<bool>, price: seq<real>)
    requires col.Length == |breaks| && |price| == |breaks|
    modifies col
    ensures col[..] == LastBrokeColumn(breaks, price)
  {
    var n := col.Length;
    for j := 0 to n
      invariant forall q :: 0 <= q < j ==> col[q] == None
    {
      col[j] := None;
    }
    var found := false;
    var last := 0;
    for j := 0 to n
      invariant found ==> last < j && breaks[last] && forall q :: last < q < j ==> !breaks[q]
      invariant !found ==> forall q :: 0 <= q < j ==> !breaks[q]
    {
      if breaks[j] {
        found, last := true, j;
      }
    }
    if found {
      var p := price[last];
      for j := last to n
        invariant forall q :: 0 <= q < last ==> col[q] == None
        invariant forall q :: last <= q < j ==> col[q] == Some(p)
        invariant forall q :: j <= q < n ==> col[q] == None
      {
        col[j] := Some(p);
      }
    }
    assert LastIndexOf(breaks) == (if found then Some(last) else None);
  }

  /** The carried value that a reader of the column's description might expect: each break
      replaces the value carried so far, and rows without a break keep it. */
  function Ratchet(breaks: seq<bool>, price: seq<real>): (r: seq<Option<real>>)
    requires |price| == |breaks|
    ensures |r| == |breaks|
  {
    if |breaks| == 0 then []
    else
      var n := |breaks| - 1;
      var before := Ratchet(breaks[..n], price[..n]);
      before + [if breaks[n] then Some(price[n]) else if n == 0 then None else before[n - 1]]
  }

  /** The code fills only from the last break, so earlier rows may differ from a carried
      ratchet; on the last row, the only row later stages read, the two agree. */
  lemma {:induction false} LastRowMatchesRatchet(breaks: seq<bool>, price: seq<real>)
    requires |price| == |breaks| > 0
    ensures LastBrokeColumn(breaks, price)[|breaks| - 1] == Ratchet(breaks, price)[|breaks| - 1]
  {
    var n := |breaks| - 1;
    if !breaks[n] && n > 0 {
      LastRowMatchesRatchet(breaks[..n], price[..n]);
      assert LastIndexOf(breaks) == LastIndexOf(breaks[..n]);
    }
  }

  // ---- Trend label -------------------------------------------------------------------

  /** `np.where(close > sma_slow, 'BULLISH', np.where(close < sma_slow, 'BEARISH', 'NEUTRAL'))`. */
  function TrendOf(close: real, smaSlow: Option<real>): Trend
  {
    if Gt(Some(close), smaSlow) then Bullish
    else if Lt(Some(close), smaSlow) then Bearish
    else Neutral
  }

  // ---- The whole stage ---------------------------------------------------------------

  /** The derived columns of a whole frame, before they are laid out row by row. */
  datatype Columns = Columns(
    volumeIncreasing: seq<bool>,
    volumeDecreasingTrend: seq<bool>,
    aboveCloud: seq<bool>,
    belowCloud: seq<bool>,
    isSupport: seq<bool>,
    isResistance: seq<bool>,
    brokeResistance: seq<bool>,
    brokeSupport: seq<bool>,
    lastBrokeResistance: seq<Option<real>>,
    lastBrokeSupport: seq<Option<real>>,
    supportLevel: real,
    resistanceLevel: real)

  predicate Fits(cols: Columns, n: nat)
  {
    && |cols.volumeIncreasing| == n && |cols.volumeDecreasingTrend| == n
    && |cols.aboveCloud| == n && |cols.belowCloud| == n
    && |cols.isSupport| == n && |cols.isResistance| == n
    && |cols.brokeResistance| == n && |cols.brokeSupport| == n
    && |cols.lastBrokeResistance| == n && |cols.lastBrokeSupport| == n
  }

  /** Every column of lines 73-152 and the two quartile levels; an empty frame has no row
      to hold the levels, so they are irrelevant there. */
  function DerivedColumns(c: seq<Candle>, ta: seq<TaRow>): (cols: Columns)
    requires |ta| == |c|
    ensures Fits(cols, |c|)
  {
    var isRes := LocalMaxFlags(Highs(c), ExtremaWindow);
    var isSup := LocalMinFlags(Lows(c), ExtremaWindow);
    var brokeRes := BrokeResistanceColumn(c, isRes);
    var brokeSup := BrokeSupportColumn(c, isSup);
    var q := if |c| > 0 then QuartileLevels(c) else (0.0, 0.0);
    Columns(
      VolumeIncreasingColumn(Volumes(c)),
      VolumeDecreasingTrendColumn(Volumes(c)),
      AboveCloudColumn(Closes(c), SpanA(ta), SpanB(ta)),
      BelowCloudColumn(Closes(c), SpanA(ta), SpanB(ta)),
      isSup, isRes, brokeRes, brokeSup,
      LastBrokeColumn(brokeRes, Highs(c)),
      LastBrokeColumn(brokeSup, Lows(c)),
      q.0, q.1)
  }

  /** Row i of the frame: the candle, its library columns, the derived columns, the
      volume ratio, the Ichimoku booleans of the same row and the trend label. */
  function MakeRow(k: Candle, t: TaRow, cols: Columns, i: nat): Row
    requires i < |cols.isSupport| && Fits(cols, |cols.isSupport|)
  {
    var above, below := cols.aboveCloud[i], cols.belowCloud[i];
    Row(k, t,
        VolumeRatio(k.volume, t.volumeSma),
        cols.volumeIncreasing[i], cols.volumeDecreasingTrend[i],
        above, below, !(above || below),
        Gt(t.ichimokuA, t.ichimokuB), Lt(t.ichimokuA, t.ichimokuB),
        cols.isSupport[i], cols.isResistance[i],
        cols.supportLevel, cols.resistanceLevel,
        cols.brokeResistance[i], cols.brokeSupport[i],
        cols.lastBrokeResistance[i], cols.lastBrokeSupport[i],
        TrendOf(k.close, t.smaSlow))
  }

  /** The frame after `apply_technical_indicators`, one row per candle. */
  function ApplyIndicators(c: seq<Candle>, ta: seq<TaRow>): (rows: seq<Row>)
    requires |ta| == |c|
    ensures |rows| == |c|
    ensures forall i {:trigger rows[i]} :: 0 <= i < |c| ==>
      rows[i] == MakeRow(c[i], ta[i], DerivedColumns(c, ta), i)
  {
    var cols := DerivedColumns(c, ta);
    seq(|c|, i requires 0 <= i < |c| => MakeRow(c[i], ta[i], cols, i))
  }

  /** Row i of a frame holds the candle and library columns of candle i. */
  lemma RowCarriesInput(c: seq<Candle>, ta: seq<TaRow>, i: nat)
    requires |ta| == |c| && i < |c|
    ensures ApplyIndicators(c, ta)[i].candle == c[i] && ApplyIndicators(c, ta)[i].ta == ta[i]
  {
  }

  // ---- What the derived columns mean, row by row ---------------------------------------

  lemma VolumeColumnsOf(c: seq<Candle>, ta: seq<TaRow>)
    requires |ta| == |c|
    ensures DerivedColumns(c, ta).volumeIncreasing == VolumeIncreasingColumn(Volumes(c))
    ensures DerivedColumns(c, ta).volumeDecreasingTrend == VolumeDecreasingTrendColumn(Volumes(c))
  {
  }

  lemma VolumeDecreasingTrendColumnAt(v: seq<real>, i: nat)
    requires i < |v|
    ensures VolumeDecreasingTrendColumn(v)[i] <==> i >= 3 && v[i] < v[i - 1] < v[i - 2] < v[i - 3]
  {
  }

  /** Three consecutive strict decreases ending at row i; never before row 3. */
  lemma VolumeDecreasingTrendIff(c: seq<Candle>, ta: seq<TaRow>, i: nat)
    requires |ta| == |c| && i < |c|
    ensures ApplyIndicators(c, ta)[i].volumeDecreasingTrend <==>
      i >= 3 && c[i].volume < c[i - 1].volume < c[i - 2].volume < c[i - 3].volume
  {
    var v := Volumes(c);
    var col := VolumeDecreasingTrendColumn(v);
    assert ApplyIndicators(c, ta)[i].volumeDecreasingTrend == col[i] by {
      VolumeColumnsOf(c, ta);
      assert ApplyIndicators(c, ta)[i] == MakeRow(c[i], ta[i], DerivedColumns(c, ta), i);
    }
    VolumeDecreasingTrendColumnAt(v, i);
  }

  lemma VolumeIncreasingColumnAt(v: seq<real>, i: nat)
    requires i < |v|
    ensures VolumeIncreasingColumn(v)[i] <==> i >= 1 && v[i] > v[i - 1]
  {
  }

  /** The volume is increasing at row i iff i > 0 and it exceeds the previous volume. */
  lemma VolumeIncreasingIff(c: seq<Candle>, ta: seq<TaRow>, i: nat)
    requires |ta| == |c| && i < |c|
    ensures ApplyIndicators(c, ta)[i].volumeIncreasing <==> i >= 1 && c[i].volume > c[i - 1].volume
  {
    var v := Volumes(c);
    var col := VolumeIncreasingColumn(v);
    assert ApplyIndicators(c, ta)[i].volumeIncreasing == col[i] by {
      VolumeColumnsOf(c, ta);
      assert ApplyIndicators(c, ta)[i] == MakeRow(c[i], ta[i], DerivedColumns(c, ta), i);
    }
    VolumeIncreasingColumnAt(v, i);
  }

  lemma CloudColumnsAt(close: seq<real>, a: seq<Option<real>>, b: seq<Option<real>>, i: nat)
    requires |a| == |close| && |b| == |close| && i < |close|
    ensures AboveCloudColumn(close, a, b)[i] <==>
      i >= CloudShift && Gt(Some(close[i]), a[i - CloudShift]) && Gt(Some(close[i]), b[i - CloudShift])
    ensures BelowCloudColumn(close, a, b)[i] <==>
      i >= CloudShift && Lt(Some(close[i]), a[i - CloudShift]) && Lt(Some(close[i]), b[i - CloudShift])
  {
  }

  /** Above the cloud iff the close exceeds both spans of 26 rows earlier (so never in the
      first 26 rows, nor when a span has no value); below mirrors it; in the cloud iff
      neither, and never both above and below. */
  lemma CloudPositionIff(c: seq<Candle>, ta: seq<TaRow>, i: nat)
    requires |ta| == |c| && i < |c|
    ensures var r := ApplyIndicators(c, ta)[i];
      r.aboveCloud <==>
        i >= CloudShift && Gt(Some(c[i].close), ta[i - CloudShift].ichimokuA) && Gt(Some(c[i].close), ta[i - CloudShift].ichimokuB)
    ensures var r := ApplyIndicators(c, ta)[i];
      r.belowCloud <==>
        i >= CloudShift && Lt(Some(c[i].close), ta[i - CloudShift].ichimokuA) && Lt(Some(c[i].close), ta[i - CloudShift].ichimokuB)
    ensures var r := ApplyIndicators(c, ta)[i];
      !(r.aboveCloud && r.belowCloud) && (r.inCloud <==> !r.aboveCloud && !r.belowCloud)
  {
    assert ApplyIndicators(c, ta)[i] == MakeRow(c[i], ta[i], DerivedColumns(c, ta), i);
    CloudColumnsAt(Closes(c), SpanA(ta), SpanB(ta), i);
  }

  lemma SupportFlagsAt(c: seq<Candle>, i: nat)
    requires i < |c|
    ensures LocalMinFlags(Lows(c), ExtremaWindow)[i] <==>
      (10 <= i && i + 10 <= |c| && forall j :: i - 10 <= j < i + 10 ==> c[i].low <= c[j].low)
  {
    var lows := Lows(c);
    assert forall j :: 0 <= j < |c| ==> lows[j] == c[j].low;
    LocalMinIff(lows, ExtremaWindow, i);
    assert CenteredStart(i, ExtremaWindow) == i - 10 && CenteredEnd(i, ExtremaWindow) == i + 10;
  }

  lemma ResistanceFlagsAt(c: seq<Candle>, i: nat)
    requires i < |c|
    ensures LocalMaxFlags(Highs(c), ExtremaWindow)[i] <==>
      (10 <= i && i + 10 <= |c| && forall j :: i - 10 <= j < i + 10 ==> c[j].high <= c[i].high)
  {
    var highs := Highs(c);
    assert forall j :: 0 <= j < |c| ==> highs[j] == c[j].high;
    LocalMaxIff(highs, ExtremaWindow, i);
    assert CenteredStart(i, ExtremaWindow) == i - 10 && CenteredEnd(i, ExtremaWindow) == i + 10;
  }

  /** `is_support` holds iff the full 20-row window i-10..i+9 exists and no low in it is
      below row i's low; rows within 10 of the start or 9 of the end are never flagged. */
  lemma IsSupportIff(c: seq<Candle>, ta: seq<TaRow>, i: nat)
    requires |ta| == |c| && i < |c|
    ensures ApplyIndicators(c, ta)[i].isSupport <==>
      (10 <= i && i + 10 <= |c| && forall j :: i - 10 <= j < i + 10 ==> c[i].low <= c[j].low)
  {
    assert ApplyIndicators(c, ta)[i] == MakeRow(c[i], ta[i], DerivedColumns(c, ta), i);
    SupportFlagsAt(c, i);
  }

  /** `is_resistance` holds iff the full 20-row window i-10..i+9 exists and no high in it
      is above row i's high. */
  lemma IsResistanceIff(c: seq<Candle>, ta: seq<TaRow>, i: nat)
    requires |ta| == |c| && i < |c|
    ensures ApplyIndicators(c, ta)[i].isResistance <==>
      (10 <= i && i + 10 <= |c| && forall j :: i - 10 <= j < i + 10 ==> c[j].high <= c[i].high)
  {
    assert ApplyIndicators(c, ta)[i] == MakeRow(c[i], ta[i], DerivedColumns(c, ta), i);
    ResistanceFlagsAt(c, i);
  }

  lemma BreakColumnsAt(c: seq<Candle>, flags: seq<bool>, i: nat)
    requires |flags| == |c| && i < |c|
    ensures BrokeResistanceColumn(c, flags)[i] <==>
      i >= 1 && c[i].close > c[i - 1].close && flags[i - 1] && c[i].close > c[i - 1].high
    ensures BrokeSupportColumn(c, flags)[i] <==>
      i >= 1 && c[i].close < c[i - 1].close && flags[i - 1] && c[i].close < c[i - 1].low
  {
  }

  /** A resistance break at row i needs a rising close, a resistance flag on row i-1, and
      a close above row i-1's high; a support break mirrors it with lows. */
  lemma BreakIff(c: seq<Candle>, ta: seq<TaRow>, i: nat)
    requires |ta| == |c| && i < |c|
    ensures ApplyIndicators(c, ta)[i].brokeResistance <==>
      i >= 1 && c[i].close > c[i - 1].close && ApplyIndicators(c, ta)[i - 1].isResistance && c[i].close > c[i - 1].high
    ensures ApplyIndicators(c, ta)[i].brokeSupport <==>
      i >= 1 && c[i].close < c[i - 1].close && ApplyIndicators(c, ta)[i - 1].isSupport && c[i].close < c[i - 1].low
  {
    var rows := ApplyIndicators(c, ta);
    assert rows[i] == MakeRow(c[i], ta[i], DerivedColumns(c, ta), i);
    BreakColumnsAt(c, LocalMaxFlags(Highs(c), ExtremaWindow), i);
    BreakColumnsAt(c, LocalMinFlags(Lows(c), ExtremaWindow), i);
    if i >= 1 {
      assert rows[i - 1] == MakeRow(c[i - 1], ta[i - 1], DerivedColumns(c, ta), i - 1);
    }
  }

  /** Row k holds the last break of the column. */
  predicate IsLastBreak(flags: seq<bool>, k: int)
  {
    0 <= k < |flags| && flags[k] && forall q :: k < q < |flags| ==> !flags[q]
  }

  /** With no break a last-break column never has a value; otherwise, for the last break
      k, it has no value before row k and the price of row k from row k on. */
  lemma LastBrokeColumnAt(breaks: seq<bool>, price: seq<real>, j: nat)
    requires |price| == |breaks| && j < |breaks|
    ensures (forall k :: 0 <= k < |breaks| ==> !breaks[k]) ==> LastBrokeColumn(breaks, price)[j] == None
    ensures forall k :: IsLastBreak(breaks, k) ==>
      LastBrokeColumn(breaks, price)[j] == if j >= k then Some(price[k]) else None
  {
    var last := LastIndexOf(breaks);
    forall k | IsLastBreak(breaks, k) ensures last == Some(k) {
      assert last.Some?;
    }
  }

  /** The `broke_resistance` column of a frame. */
  function ResistanceBreaks(rows: seq<Row>): (r: seq<bool>)
    ensures |r| == |rows|
  {
    seq(|rows|, i requires 0 <= i < |rows| => rows[i].brokeResistance)
  }

  /** The `broke_support` column of a frame. */
  function SupportBreaks(rows: seq<Row>): (r: seq<bool>)
    ensures |r| == |rows|
  {
    seq(|rows|, i requires 0 <= i < |rows| => rows[i].brokeSupport)
  }

  lemma ResistanceBreaksAreColumn(c: seq<Candle>, ta: seq<TaRow>)
    requires |ta| == |c|
    ensures ResistanceBreaks(ApplyIndicators(c, ta)) == DerivedColumns(c, ta).brokeResistance
  {
    var rows, cols := ApplyIndicators(c, ta), DerivedColumns(c, ta);
    forall q | 0 <= q < |c| ensures ResistanceBreaks(rows)[q] == cols.brokeResistance[q] {
      assert rows[q] == MakeRow(c[q], ta[q], cols, q);
    }
  }

  lemma SupportBreaksAreColumn(c: seq<Candle>, ta: seq<TaRow>)
    requires |ta| == |c|
    ensures SupportBreaks(ApplyIndicators(c, ta)) == DerivedColumns(c, ta).brokeSupport
  {
    var rows, cols := ApplyIndicators(c, ta), DerivedColumns(c, ta);
    forall q | 0 <= q < |c| ensures SupportBreaks(rows)[q] == cols.brokeSupport[q] {
      assert rows[q] == MakeRow(c[q], ta[q], cols, q);
    }
  }

  /** `last_broke_resistance` never has a value when no resistance was broken; otherwise,
      for the last break k, it has no value before row k and the break candle's `high[k]`
      from row k on. */
  lemma LastBrokeResistanceAt(c: seq<Candle>, ta: seq<TaRow>, j: nat)
    requires |ta| == |c| && j < |c|
    ensures var rows := ApplyIndicators(c, ta);
      (forall k :: 0 <= k < |c| ==> !rows[k].brokeResistance) ==> rows[j].lastBrokeResistance == None
    ensures var rows := ApplyIndicators(c, ta);
      forall k :: IsLastBreak(ResistanceBreaks(rows), k) ==>
        rows[j].lastBrokeResistance == if j >= k then Some(c[k].high) else None
  {
    var rows := ApplyIndicators(c, ta);
    var breaks := ResistanceBreaks(rows);
    LastBrokeResistanceIsColumn(c, ta, j);
    LastBrokeColumnAt(breaks, Highs(c), j);
    if forall k :: 0 <= k < |c| ==> !rows[k].brokeResistance {
      assert forall k :: 0 <= k < |breaks| ==> !breaks[k];
    }
    forall k | IsLastBreak(breaks, k)
      ensures rows[j].lastBrokeResistance == if j >= k then Some(c[k].high) else None
    {
      assert Highs(c)[k] == c[k].high;
    }
  }

  lemma LastBrokeResistanceIsColumn(c: seq<Candle>, ta: seq<TaRow>, j: nat)
    requires |ta| == |c| && j < |c|
    ensures var rows := ApplyIndicators(c, ta);
      rows[j].lastBrokeResistance == LastBrokeColumn(ResistanceBreaks(rows), Highs(c))[j]
  {
    var rows, cols := ApplyIndicators(c, ta), DerivedColumns(c, ta);
    ResistanceBreaksAreColumn(c, ta);
    assert rows[j] == MakeRow(c[j], ta[j], cols, j);
  }

  /** Mirror of LastBrokeResistanceAt with support breaks and lows. */
  lemma LastBrokeSupportAt(c: seq<Candle>, ta: seq<TaRow>, j: nat)
    requires |ta| == |c| && j < |c|
    ensures var rows := ApplyIndicators(c, ta);
      (forall k :: 0 <= k < |c| ==> !rows[k].brokeSupport) ==> rows[j].lastBrokeSupport == None
    ensures var rows := ApplyIndicators(c, ta);
      forall k :: IsLastBreak(SupportBreaks(rows), k) ==>
        rows[j].lastBrokeSupport == if j >= k then Some(c[k].low) else None
  {
    var rows := ApplyIndicators(c, ta);
    var breaks := SupportBreaks(rows);
    LastBrokeSupportIsColumn(c, ta, j);
    LastBrokeColumnAt(breaks, Lows(c), j);
    if forall k :: 0 <= k < |c| ==> !rows[k].brokeSupport {
      assert forall k :: 0 <= k < |breaks| ==> !breaks[k];
    }
    forall k | IsLastBreak(breaks, k)
      ensures rows[j].lastBrokeSupport == if j >= k then Some(c[k].low) else None
    {
      assert Lows(c)[k] == c[k].low;
    }
  }

  lemma LastBrokeSupportIsColumn(c: seq<Candle>, ta: seq<TaRow>, j: nat)
    requires |ta| == |c| && j < |c|
    ensures var rows := ApplyIndicators(c, ta);
      rows[j].lastBrokeSupport == LastBrokeColumn(SupportBreaks(rows), Lows(c))[j]
  {
    var rows, cols := ApplyIndicators(c, ta), DerivedColumns(c, ta);
    SupportBreaksAreColumn(c, ta);
    assert rows[j] == MakeRow(c[j], ta[j], cols, j);
  }

  /** BULLISH iff close > sma_slow, BEARISH iff close < sma_slow, NEUTRAL otherwise,
      including the rows where sma_slow has no value. */
  lemma TrendIff(close: real, smaSlow: Option<real>)
    ensures TrendOf(close, smaSlow) == Bullish <==> smaSlow.Some? && close > smaSlow.value
    ensures TrendOf(close, smaSlow) == Bearish <==> smaSlow.Some? && close < smaSlow.value
    ensures TrendOf(close, smaSlow) == Neutral <==> smaSlow.None? || close == smaSlow.value
  {
  }
}
