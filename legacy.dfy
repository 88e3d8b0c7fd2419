/**
 * The older analyzer of main.py: `apply_technical_indicators` adds a trailing 20-row
 * support (lowest low) and resistance (highest high) to the library columns, and
 * `analyze_signals` runs five if/elif blocks over the last two rows, each appending at
 * most one message labelled "LONG:" or "SHORT:".
 */
module Legacy {
  import opened Common
  import opened Series
  import opened Indicators

  /** Width of the trailing window of `support` and `resistance`. */
  const LevelWindow: nat := 20
  /** main.py's own RSI thresholds (it does not read initial_config.py). */
  const Oversold: real := 30.0
  const Overbought: real := 70.0

  /** One row of main.py's frame: the candle, the library columns and the two levels. */
  datatype LegacyRow = LegacyRow(candle: Candle, ta: TaRow, support: Option<real>, resistance: Option<real>)

  /** The frame after main.py's `apply_technical_indicators`. */
  function LegacyIndicators(c: seq<Candle>, ta: seq<TaRow>): (rows: seq<LegacyRow>)
    requires |ta| == |c|
    ensures |rows| == |c|
    ensures forall i {:trigger rows[i]} :: 0 <= i < |c| ==> rows[i].candle == c[i] && rows[i].ta == ta[i]
  {
    var support, resistance := RollingMin(Lows(c), LevelWindow), RollingMax(Highs(c), LevelWindow);
    seq(|c|, i requires 0 <= i < |c| => LegacyRow(c[i], ta[i], support[i], resistance[i]))
  }

  /** `support[i]` has no value for the first 19 rows; after that it is the lowest low of
      rows i-19..i, and `resistance[i]` the highest high of the same rows. */
  lemma LevelsAt(c: seq<Candle>, ta: seq<TaRow>, i: nat)
    requires |ta| == |c| && i < |c|
    ensures var row := LegacyIndicators(c, ta)[i];
      (row.support.None? <==> i < LevelWindow - 1) && (row.resistance.None? <==> i < LevelWindow - 1)
    ensures var row := LegacyIndicators(c, ta)[i];
      row.support.Some? ==>
        (forall j :: i + 1 - LevelWindow <= j <= i ==> row.support.value <= c[j].low) &&
        (exists j :: i + 1 - LevelWindow <= j <= i && row.support.value == c[j].low)
    ensures var row := LegacyIndicators(c, ta)[i];
      row.resistance.Some? ==>
        (forall j :: i + 1 - LevelWindow <= j <= i ==> c[j].high <= row.resistance.value) &&
        (exists j :: i + 1 - LevelWindow <= j <= i && row.resistance.value == c[j].high)
  {
    var row := LegacyIndicators(c, ta)[i];
    var lows, highs := Lows(c), Highs(c);
    assert row.support == RollingMin(lows, LevelWindow)[i];
    assert row.resistance == RollingMax(highs, LevelWindow)[i];
    RollingMinAt(lows, LevelWindow, i);
    RollingMaxAt(highs, LevelWindow, i);
    forall j | 0 <= j < |c| ensures lows[j] == c[j].low && highs[j] == c[j].high {
    }
  }

  /** What each appended message reports; the RSI messages carry the RSI they print. */
  datatype LegacyReason =
    | SmaCrossUp | SmaCrossDown
    | RsiExitsOversold(rsi: real) | RsiExitsOverbought(rsi: real)
    | MacdCrossUp | MacdCrossDown
    | BelowLowerBand | AboveUpperBand
    | SupportBreak | ResistanceBreak

  function DirectionOf(r: LegacyReason): Direction
  {
    match r
    case SmaCrossUp => Long
    case SmaCrossDown => Short
    case RsiExitsOversold(_) => Long
    case RsiExitsOverbought(_) => Short
    case MacdCrossUp => Long
    case MacdCrossDown => Short
    case BelowLowerBand => Long
    case AboveUpperBand => Short
    case SupportBreak => Short
    case ResistanceBreak => Long
  }

  function Label(d: Direction): string
  {
    if d == Long then "LONG" else "SHORT"
  }

  /** The text after the label; the RSI value's two-decimal rendering is not modelled. */
  function Describe(r: LegacyReason): string
  {
    match r
    case SmaCrossUp => "Cruce alcista de medias móviles"
    case SmaCrossDown => "Cruce bajista de medias móviles"
    case RsiExitsOversold(_) => "RSI saliendo de sobreventa"
    case RsiExitsOverbought(_) => "RSI saliendo de sobrecompra"
    case MacdCrossUp => "Cruce alcista MACD"
    case MacdCrossDown => "Cruce bajista MACD"
    case BelowLowerBand => "Precio por debajo de banda inferior de Bollinger"
    case AboveUpperBand => "Precio por encima de banda superior de Bollinger"
    case SupportBreak => "Ruptura de soporte"
    case ResistanceBreak => "Ruptura de resistencia"
  }

  /** The string `analyze_signals` appends for a reason. */
  function Message(r: LegacyReason): string
  {
    Label(DirectionOf(r)) + ": " + Describe(r)
  }

  function Messages(rs: seq<LegacyReason>): (ms: seq<string>)
    ensures |ms| == |rs|
    ensures forall i {:trigger ms[i]} :: 0 <= i < |rs| ==> ms[i] == Message(rs[i])
  {
    seq(|rs|, i requires 0 <= i < |rs| => Message(rs[i]))
  }

  // ---- The five blocks --------------------------------------------------------------

  function SmaBlock(prev: LegacyRow, last: LegacyRow): seq<LegacyReason>
  {
    if Le(prev.ta.smaFast, prev.ta.smaSlow) && Gt(last.ta.smaFast, last.ta.smaSlow) then [SmaCrossUp]
    else if Ge(prev.ta.smaFast, prev.ta.smaSlow) && Lt(last.ta.smaFast, last.ta.smaSlow) then [SmaCrossDown]
    else []
  }

  function RsiBlock(prev: LegacyRow, last: LegacyRow): seq<LegacyReason>
  {
    if Lt(prev.ta.rsi, Some(Oversold)) && Gt(last.ta.rsi, Some(Oversold)) then [RsiExitsOversold(last.ta.rsi.value)]
    else if Gt(prev.ta.rsi, Some(Overbought)) && Lt(last.ta.rsi, Some(Overbought)) then [RsiExitsOverbought(last.ta.rsi.value)]
    else []
  }

  function MacdBlock(prev: LegacyRow, last: LegacyRow): seq<LegacyReason>
  {
    if Le(prev.ta.macd, prev.ta.macdSignal) && Gt(last.ta.macd, last.ta.macdSignal) then [MacdCrossUp]
    else if Ge(prev.ta.macd, prev.ta.macdSignal) && Lt(last.ta.macd, last.ta.macdSignal) then [MacdCrossDown]
    else []
  }

  function BandBlock(last: LegacyRow): seq<LegacyReason>
  {
    var close := Some(last.candle.close);
    if Lt(close, last.ta.bollingerLow) then [BelowLowerBand]
    else if Gt(close, last.ta.bollingerHigh) then [AboveUpperBand]
    else []
  }

  function BreakBlock(prev: LegacyRow, last: LegacyRow): seq<LegacyReason>
  {
    var before, now := Some(prev.candle.close), Some(last.candle.close);
    if Gt(before, last.support) && Lt(now, last.support) then [SupportBreak]
    else if Lt(before, last.resistance) && Gt(now, last.resistance) then [ResistanceBreak]
    else []
  }

  /** The reasons of one call, block by block in source order. */
  function LegacyReasons(prev: LegacyRow, last: LegacyRow): seq<LegacyReason>
  {
    SmaBlock(prev, last) + RsiBlock(prev, last) + MacdBlock(prev, last) + BandBlock(last) + BreakBlock(prev, last)
  }

  // ---- The imperative analyzer --------------------------------------------------------

  // Each of the five blocks as a step that appends messages one by one, as the source
  // does. A step repeats the if/elif chain of its block function so that it can be proved
  // to append exactly that block's messages; the rule properties are proved once, about
  // the block functions and `LegacyReasons`.

  /** Appends one message, keeping the reasons it reports alongside. */
  method Append(signals: seq<string>, reasons: seq<LegacyReason>, x: LegacyReason)
    returns (signals': seq<string>, reasons': seq<LegacyReason>)
    requires signals == Messages(reasons)
    ensures reasons' == reasons + [x] && signals' == Messages(reasons')
  {
    signals', reasons' := signals + [Message(x)], reasons + [x];
  }

  method SmaStep(prev: LegacyRow, last: LegacyRow, signals: seq<string>, reasons: seq<LegacyReason>)
    returns (signals': seq<string>, reasons': seq<LegacyReason>)
    requires signals == Messages(reasons)
    ensures reasons' == reasons + SmaBlock(prev, last) && signals' == Messages(reasons')
  {
    signals', reasons' := signals, reasons;
    if Le(prev.ta.smaFast, prev.ta.smaSlow) && Gt(last.ta.smaFast, last.ta.smaSlow) {
      signals', reasons' := Append(signals', reasons', SmaCrossUp);
    } else if Ge(prev.ta.smaFast, prev.ta.smaSlow) && Lt(last.ta.smaFast, last.ta.smaSlow) {
      signals', reasons' := Append(signals', reasons', SmaCrossDown);
    }
  }

  method RsiStep(prev: LegacyRow, last: LegacyRow, signals: seq<string>, reasons: seq<LegacyReason>)
    returns (signals': seq<string>, reasons': seq<LegacyReason>)
    requires signals == Messages(reasons)
    ensures reasons' == reasons + RsiBlock(prev, last) && signals' == Messages(reasons')
  {
    signals', reasons' := signals, reasons;
    if Lt(prev.ta.rsi, Some(Oversold)) && Gt(last.ta.rsi, Some(Oversold)) {
      signals', reasons' := Append(signals', reasons', RsiExitsOversold(last.ta.rsi.value));
    } else if Gt(prev.ta.rsi, Some(Overbought)) && Lt(last.ta.rsi, Some(Overbought)) {
      signals', reasons' := Append(signals', reasons', RsiExitsOverbought(last.ta.rsi.value));
    }
  }

  method MacdStep(prev: LegacyRow, last: LegacyRow, signals: seq<string>, reasons: seq<LegacyReason>)
    returns (signals': seq<string>, reasons': seq<LegacyReason>)
    requires signals == Messages(reasons)
    ensures reasons' == reasons + MacdBlock(prev, last) && signals' == Messages(reasons')
  {
    signals', reasons' := signals, reasons;
    if Le(prev.ta.macd, prev.ta.macdSignal) && Gt(last.ta.macd, last.ta.macdSignal) {
      signals', reasons' := Append(signals', reasons', MacdCrossUp);
    } else if Ge(prev.ta.macd, prev.ta.macdSignal) && Lt(last.ta.macd, last.ta.macdSignal) {
      signals', reasons' := Append(signals', reasons', MacdCrossDown);
    }
  }

  method BandStep(last: LegacyRow, signals: seq<string>, reasons: seq<LegacyReason>)
    returns (signals': seq<string>, reasons': seq<LegacyReason>)
    requires signals == Messages(reasons)
    ensures reasons' == reasons + BandBlock(last) && signals' == Messages(reasons')
  {
    signals', reasons' := signals, reasons;
    if Lt(Some(last.candle.close), last.ta.bollingerLow) {
      signals', reasons' := Append(signals', reasons', BelowLowerBand);
    } else if Gt(Some(last.candle.close), last.ta.bollingerHigh) {
      signals', reasons' := Append(signals', reasons', AboveUpperBand);
    }
  }

  method BreakStep(prev: LegacyRow, last: LegacyRow, signals: seq<string>, reasons: seq<LegacyReason>)
    returns (signals': seq<string>, reasons': seq<LegacyReason>)
    requires signals == Messages(reasons)
    ensures reasons' == reasons + BreakBlock(prev, last) && signals' == Messages(reasons')
  {
    signals', reasons' := signals, reasons;
    if Gt(Some(prev.candle.close), last.support) && Lt(Some(last.candle.close), last.support) {
      signals', reasons' := Append(signals', reasons', SupportBreak);
    } else if Lt(Some(prev.candle.close), last.resistance) && Gt(Some(last.candle.close), last.resistance) {
      signals', reasons' := Append(signals', reasons', ResistanceBreak);
    }
  }

  /** `analyze_signals(df)`: positional access to the last two rows fails on a frame with
      fewer than two rows; otherwise the five blocks append their messages in order. */
  method LegacyAnalyze(frame: seq<LegacyRow>) returns (r: Result<seq<string>>)
    ensures |frame| < 2 ==> r == Err(IndexOutOfRange)
    ensures |frame| >= 2 ==> r == Ok(Messages(LegacyReasons(frame[|frame| - 2], frame[|frame| - 1])))
  {
    if |frame| < 2 {
      return Err(IndexOutOfRange);
    }
    var last, prev := frame[|frame| - 1], frame[|frame| - 2];
    var signals: seq<string> := [];
    var reasons: seq<LegacyReason> := [];
    signals, reasons := SmaStep(prev, last, signals, reasons);
    signals, reasons := RsiStep(prev, last, signals, reasons);
    signals, reasons := MacdStep(prev, last, signals, reasons);
    signals, reasons := BandStep(last, signals, reasons);
    signals, reasons := BreakStep(prev, last, signals, reasons);
    assert [] + SmaBlock(prev, last) == SmaBlock(prev, last);
    return Ok(signals);
  }

  // ---- Properties ---------------------------------------------------------------------

  /** Every message starts with its direction's label and a colon; a LONG message never
      starts with "SHORT:" and a SHORT message never with "LONG:". */
  lemma MessageLabel(r: LegacyReason)
    ensures "LONG:" <= Message(r) <==> DirectionOf(r) == Long
    ensures "SHORT:" <= Message(r) <==> DirectionOf(r) == Short
  {
    var m, t := Message(r), Describe(r);
    assert m == Label(DirectionOf(r)) + ": " + t;
    hide Message, Describe;
    if DirectionOf(r) == Long {
      assert m[..5] == "LONG:";
      assert m[0] == 'L';
    } else {
      assert m[..6] == "SHORT:";
      assert m[0] == 'S';
    }
  }

  /** Each string returned starts with "LONG:" or "SHORT:". */
  lemma MessagesAreLabelled(rs: seq<LegacyReason>)
    ensures forall m :: m in Messages(rs) ==> "LONG:" <= m || "SHORT:" <= m
  {
    forall m | m in Messages(rs) ensures "LONG:" <= m || "SHORT:" <= m {
      var i :| 0 <= i < |rs| && Messages(rs)[i] == m;
      MessageLabel(rs[i]);
    }
  }

  /** Each block appends at most one message, so a block never yields both directions,
      and one call returns at most five messages. */
  lemma AtMostFive(prev: LegacyRow, last: LegacyRow)
    ensures |SmaBlock(prev, last)| <= 1 && |RsiBlock(prev, last)| <= 1 && |MacdBlock(prev, last)| <= 1
    ensures |BandBlock(last)| <= 1 && |BreakBlock(prev, last)| <= 1
    ensures |LegacyReasons(prev, last)| <= 5
  {
  }

  /** The moving-average and MACD crosses fire exactly under their `<=`/`>` and `>=`/`<`
      comparisons of the previous and the last row, the upward cross taking precedence. */
  lemma CrossIff(prev: LegacyRow, last: LegacyRow)
    ensures var e := LegacyReasons(prev, last);
      var up := Le(prev.ta.smaFast, prev.ta.smaSlow) && Gt(last.ta.smaFast, last.ta.smaSlow);
      (SmaCrossUp in e <==> up) &&
      (SmaCrossDown in e <==> !up && Ge(prev.ta.smaFast, prev.ta.smaSlow) && Lt(last.ta.smaFast, last.ta.smaSlow))
    ensures var e := LegacyReasons(prev, last);
      var up := Le(prev.ta.macd, prev.ta.macdSignal) && Gt(last.ta.macd, last.ta.macdSignal);
      (MacdCrossUp in e <==> up) &&
      (MacdCrossDown in e <==> !up && Ge(prev.ta.macd, prev.ta.macdSignal) && Lt(last.ta.macd, last.ta.macdSignal))
  {
    var s, r, m, b, k := SmaBlock(prev, last), RsiBlock(prev, last), MacdBlock(prev, last), BandBlock(last), BreakBlock(prev, last);
    assert LegacyReasons(prev, last) == s + r + m + b + k;
  }

  /** The RSI rule fires on a strict upward crossing of 30, reporting the last RSI, or
      failing that on a strict downward crossing of 70. */
  lemma RsiIff(prev: LegacyRow, last: LegacyRow)
    ensures var e := LegacyReasons(prev, last);
      var up := Lt(prev.ta.rsi, Some(Oversold)) && Gt(last.ta.rsi, Some(Oversold));
      ((exists x :: RsiExitsOversold(x) in e) <==> up) &&
      (up ==> RsiExitsOversold(last.ta.rsi.value) in e) &&
      ((exists x :: RsiExitsOverbought(x) in e) <==>
        !up && Gt(prev.ta.rsi, Some(Overbought)) && Lt(last.ta.rsi, Some(Overbought)))
  {
    var s, r, m, b, k := SmaBlock(prev, last), RsiBlock(prev, last), MacdBlock(prev, last), BandBlock(last), BreakBlock(prev, last);
    var e := LegacyReasons(prev, last);
    assert e == s + r + m + b + k;
    if r != [] {
      assert r[0] in e;
    }
    forall x | x in e && (x.RsiExitsOversold? || x.RsiExitsOverbought?) ensures x in r {
    }
  }

  /** The band rule fires on a close strictly below the lower Bollinger band or, failing
      that, strictly above the upper one. */
  lemma BandIff(prev: LegacyRow, last: LegacyRow)
    ensures var e := LegacyReasons(prev, last);
      var below := Lt(Some(last.candle.close), last.ta.bollingerLow);
      (BelowLowerBand in e <==> below) &&
      (AboveUpperBand in e <==> !below && Gt(Some(last.candle.close), last.ta.bollingerHigh))
  {
    var s, r, m, b, k := SmaBlock(prev, last), RsiBlock(prev, last), MacdBlock(prev, last), BandBlock(last), BreakBlock(prev, last);
    assert LegacyReasons(prev, last) == s + r + m + b + k;
  }

  /** Both trailing windows include the last candle, so for a well-formed last candle
      (low <= close <= high) neither break rule can ever fire. */
  lemma BreakNeverFires(c: seq<Candle>, ta: seq<TaRow>, i: nat)
    requires |ta| == |c| && 1 <= i < |c|
    requires WellFormed(c[i])
    ensures var rows := LegacyIndicators(c, ta);
      BreakBlock(rows[i - 1], rows[i]) == [] &&
      SupportBreak !in LegacyReasons(rows[i - 1], rows[i]) &&
      ResistanceBreak !in LegacyReasons(rows[i - 1], rows[i])
  {
    var rows := LegacyIndicators(c, ta);
    var prev, last := rows[i - 1], rows[i];
    LevelsAt(c, ta, i);
    if last.support.Some? {
      assert last.support.value <= c[i].low;
    }
    if last.resistance.Some? {
      assert c[i].high <= last.resistance.value;
    }
    assert BreakBlock(prev, last) == [];
    var s, r, m, b := SmaBlock(prev, last), RsiBlock(prev, last), MacdBlock(prev, last), BandBlock(last);
    assert LegacyReasons(prev, last) == s + r + m + b;
  }
}
