/**
 * bot.py's `analyze_signals` and the recommendation of `generate_terminal_analysis`: a
 * fixed table of rule blocks over the last two rows of the annotated frame. Every block
 * appends a vote together with the reason for it; one kind of reason (a high-volume
 * confirmation) carries no vote. The majority rule then turns the vote counts into a
 * LONG, SHORT or NEUTRAL recommendation.
 */
module Signals {
  import opened Common
  import opened Indicators
  import opened KeyLevels

  /** The explanation of one rule that fired; the text itself is not modelled. */
  datatype Reason =
    | MaCrossUp | MaCrossDown
    | RsiLeavesOversold | RsiLeavesOverbought
    | MacdCrossUp | MacdCrossDown
    | StrongAdxUp | StrongAdxDown
    | BelowBollinger | AboveBollinger
    | HighVolumeConfirmsLong | HighVolumeConfirmsShort
    | HighVolumeBreakoutUp | HighVolumeBreakoutDown
    | ExhaustionInUptrend | ExhaustionInDowntrend
    | AboveCloudTkCross | BelowCloudTkCross
    | FutureCloudTurnsBullish | FutureCloudTurnsBearish
    | AtSupport(support: KeyLevel) | AtResistance(resistance: KeyLevel)

  /** The vote appended together with a reason; the two confirmations append none.
      Exhaustion votes against the trend it is found in. */
  function Vote(r: Reason): Option<Direction>
  {
    match r
    case MaCrossUp | RsiLeavesOversold | MacdCrossUp | StrongAdxUp | BelowBollinger
      | HighVolumeBreakoutUp | ExhaustionInDowntrend | AboveCloudTkCross
      | FutureCloudTurnsBullish | AtSupport(_) => Some(Long)
    case MaCrossDown | RsiLeavesOverbought | MacdCrossDown | StrongAdxDown | AboveBollinger
      | HighVolumeBreakoutDown | ExhaustionInUptrend | BelowCloudTkCross
      | FutureCloudTurnsBearish | AtResistance(_) => Some(Short)
    case HighVolumeConfirmsLong | HighVolumeConfirmsShort => None
  }

  function VoteList(r: Reason): seq<Direction>
  {
    if Vote(r).Some? then [Vote(r).value] else []
  }

  /** The `signals` list that goes with a list of explanations. */
  function VotesOf(es: seq<Reason>): (vs: seq<Direction>)
    ensures |vs| <= |es|
  {
    if es == [] then [] else VotesOf(es[..|es| - 1]) + VoteList(es[|es| - 1])
  }

  lemma VotesOfSnoc(es: seq<Reason>, r: Reason)
    ensures VotesOf(es + [r]) == VotesOf(es) + VoteList(r)
  {
    assert (es + [r])[..|es|] == es;
  }

  lemma {:induction false} VotesOfAppend(a: seq<Reason>, b: seq<Reason>)
    ensures VotesOf(a + b) == VotesOf(a) + VotesOf(b)
    decreases |b|
  {
    if b == [] {
      assert a + b == a;
    } else {
      var init := b[..|b| - 1];
      assert a + b == (a + init) + [b[|b| - 1]];
      VotesOfSnoc(a + init, b[|b| - 1]);
      VotesOfAppend(a, init);
    }
  }

  lemma AppendAssoc(a: seq<Reason>, b: seq<Reason>, c: seq<Reason>)
    ensures (a + b) + c == a + (b + c)
  {
  }

  lemma AppendEmptyLeft(a: seq<Reason>)
    ensures [] + a == a
  {
  }

  lemma AppendEmptyRight(a: seq<Reason>)
    ensures a + [] == a
  {
  }

  // ---- The rule blocks, in the order the source evaluates them ---------------------

  function MaBlock(prev: Row, last: Row): seq<Reason>
  {
    if Le(prev.ta.smaFast, prev.ta.smaSlow) && Gt(last.ta.smaFast, last.ta.smaSlow) then [MaCrossUp]
    else if Ge(prev.ta.smaFast, prev.ta.smaSlow) && Lt(last.ta.smaFast, last.ta.smaSlow) then [MaCrossDown]
    else []
  }

  function RsiBlock(prev: Row, last: Row, cfg: Config): seq<Reason>
  {
    if Lt(prev.ta.rsi, Some(cfg.rsiOversold)) && Gt(last.ta.rsi, Some(cfg.rsiOversold)) then [RsiLeavesOversold]
    else if Gt(prev.ta.rsi, Some(cfg.rsiOverbought)) && Lt(last.ta.rsi, Some(cfg.rsiOverbought)) then [RsiLeavesOverbought]
    else []
  }

  function MacdBlock(prev: Row, last: Row): seq<Reason>
  {
    if Le(prev.ta.macd, prev.ta.macdSignal) && Gt(last.ta.macd, last.ta.macdSignal) then [MacdCrossUp]
    else if Ge(prev.ta.macd, prev.ta.macdSignal) && Lt(last.ta.macd, last.ta.macdSignal) then [MacdCrossDown]
    else []
  }

  function AdxBlock(last: Row, cfg: Config): seq<Reason>
  {
    if !Gt(last.ta.adx, Some(cfg.adxThreshold)) then []
    else if Gt(last.ta.diPlus, last.ta.diMinus) then [StrongAdxUp]
    else if Gt(last.ta.diMinus, last.ta.diPlus) then [StrongAdxDown]
    else []
  }

  function BollingerBlock(last: Row): seq<Reason>
  {
    if Lt(Some(last.candle.close), last.ta.bollingerLow) then [BelowBollinger]
    else if Gt(Some(last.candle.close), last.ta.bollingerHigh) then [AboveBollinger]
    else []
  }

  /** `volume_ratio > VOLUME_THRESHOLD`, false when the ratio is NaN. */
  predicate HighVolume(last: Row, cfg: Config)
  {
    Gt(last.volumeRatio, Some(cfg.volumeThreshold))
  }

  /** With high volume, a vote already cast is confirmed (LONG first), and otherwise a
      close more than 1% above or below the previous close is a breakout vote. */
  function VolumeBlock(prev: Row, last: Row, cfg: Config, votes: seq<Direction>): seq<Reason>
  {
    if !HighVolume(last, cfg) then []
    else if Long in votes then [HighVolumeConfirmsLong]
    else if Short in votes then [HighVolumeConfirmsShort]
    else if last.candle.close > prev.candle.close * 1.01 then [HighVolumeBreakoutUp]
    else if last.candle.close < prev.candle.close * 0.99 then [HighVolumeBreakoutDown]
    else []
  }

  function ExhaustionBlock(last: Row): seq<Reason>
  {
    if !last.volumeDecreasingTrend then []
    else if last.trend == Bullish then [ExhaustionInUptrend]
    else if last.trend == Bearish then [ExhaustionInDowntrend]
    else []
  }

  function CloudBlock(last: Row): seq<Reason>
  {
    if last.aboveCloud then
      (if Gt(last.ta.ichimokuConversion, last.ta.ichimokuBase) then [AboveCloudTkCross] else [])
    else if last.belowCloud then
      (if Lt(last.ta.ichimokuConversion, last.ta.ichimokuBase) then [BelowCloudTkCross] else [])
    else []
  }

  function FutureCloudBlock(prev: Row, last: Row): seq<Reason>
  {
    if last.futureCloudBullish && !prev.futureCloudBullish then [FutureCloudTurnsBullish]
    else if last.futureCloudBearish && !prev.futureCloudBearish then [FutureCloudTurnsBearish]
    else []
  }

  /** `0.99 * p <= price <= 1.01 * p`: an inclusive band. */
  predicate NearLevel(price: real, p: real)
  {
    0.99 * p <= price <= 1.01 * p
  }

  predicate SupportHolds(last: Row, level: KeyLevel)
  {
    NearLevel(last.candle.close, level.price) &&
    (last.trend == Bullish || Gt(last.ta.macdHistogram, Some(0.0)))
  }

  predicate ResistanceHolds(last: Row, level: KeyLevel)
  {
    NearLevel(last.candle.close, level.price) &&
    (last.trend == Bearish || Lt(last.ta.macdHistogram, Some(0.0)))
  }

  /** One LONG per support, in list order, that the price sits at with an upward bias. */
  function SupportHits(supports: seq<KeyLevel>, last: Row): seq<Reason>
  {
    if supports == [] then []
    else
      var level := supports[|supports| - 1];
      SupportHits(supports[..|supports| - 1], last) + (if SupportHolds(last, level) then [AtSupport(level)] else [])
  }

  /** One SHORT per resistance, in list order, that the price sits at with a downward bias. */
  function ResistanceHits(resistances: seq<KeyLevel>, last: Row): seq<Reason>
  {
    if resistances == [] then []
    else
      var level := resistances[|resistances| - 1];
      ResistanceHits(resistances[..|resistances| - 1], last) + (if ResistanceHolds(last, level) then [AtResistance(level)] else [])
  }

  function KeyLevelBlock(last: Row, keyLevels: Option<(seq<KeyLevel>, seq<KeyLevel>)>): seq<Reason>
  {
    if keyLevels.None? then []
    else SupportHits(keyLevels.value.0, last) + ResistanceHits(keyLevels.value.1, last)
  }

  // ---- The blocks in order ------------------------------------------------------------

  /** The rule block each reason comes from. */
  datatype Rule = MaRule | RsiRule | MacdRule | AdxRule | BollingerRule | VolumeRule
    | ExhaustionRule | CloudRule | FutureCloudRule | KeyLevelRule

  const RuleCount: nat := 10

  /** Where each block stands in the order of evaluation. */
  function Position(rule: Rule): (p: nat)
    ensures p < RuleCount
  {
    match rule
    case MaRule => 0
    case RsiRule => 1
    case MacdRule => 2
    case AdxRule => 3
    case BollingerRule => 4
    case VolumeRule => 5
    case ExhaustionRule => 6
    case CloudRule => 7
    case FutureCloudRule => 8
    case KeyLevelRule => 9
  }

  /** The block evaluated at position i. */
  function RuleAt(i: nat): (rule: Rule)
    requires i < RuleCount
    ensures Position(rule) == i
  {
    if i == 0 then MaRule
    else if i == 1 then RsiRule
    else if i == 2 then MacdRule
    else if i == 3 then AdxRule
    else if i == 4 then BollingerRule
    else if i == 5 then VolumeRule
    else if i == 6 then ExhaustionRule
    else if i == 7 then CloudRule
    else if i == 8 then FutureCloudRule
    else KeyLevelRule
  }

  function RuleOf(r: Reason): Rule
  {
    match r
    case MaCrossUp | MaCrossDown => MaRule
    case RsiLeavesOversold | RsiLeavesOverbought => RsiRule
    case MacdCrossUp | MacdCrossDown => MacdRule
    case StrongAdxUp | StrongAdxDown => AdxRule
    case BelowBollinger | AboveBollinger => BollingerRule
    case HighVolumeConfirmsLong | HighVolumeConfirmsShort | HighVolumeBreakoutUp | HighVolumeBreakoutDown => VolumeRule
    case ExhaustionInUptrend | ExhaustionInDowntrend => ExhaustionRule
    case AboveCloudTkCross | BelowCloudTkCross => CloudRule
    case FutureCloudTurnsBullish | FutureCloudTurnsBearish => FutureCloudRule
    case AtSupport(_) | AtResistance(_) => KeyLevelRule
  }

  /** The explanations of the five indicator blocks that precede the volume block. */
  function BeforeVolume(prev: Row, last: Row, cfg: Config): seq<Reason>
  {
    MaBlock(prev, last) + RsiBlock(prev, last, cfg) + MacdBlock(prev, last) +
    AdxBlock(last, cfg) + BollingerBlock(last)
  }

  /** The votes the first five blocks cast, which the volume block reads. */
  function OpeningVotes(prev: Row, last: Row, cfg: Config): seq<Direction>
  {
    VotesOf(BeforeVolume(prev, last, cfg))
  }

  /** What one block appends. The volume block reads the votes cast before it, which are
      those of the first five blocks. */
  function BlockOf(rule: Rule, prev: Row, last: Row, keyLevels: Option<(seq<KeyLevel>, seq<KeyLevel>)>, cfg: Config, votes: seq<Direction>): seq<Reason>
  {
    match rule
    case MaRule => MaBlock(prev, last)
    case RsiRule => RsiBlock(prev, last, cfg)
    case MacdRule => MacdBlock(prev, last)
    case AdxRule => AdxBlock(last, cfg)
    case BollingerRule => BollingerBlock(last)
    case VolumeRule => VolumeBlock(prev, last, cfg, votes)
    case ExhaustionRule => ExhaustionBlock(last)
    case CloudRule => CloudBlock(last)
    case FutureCloudRule => FutureCloudBlock(prev, last)
    case KeyLevelRule => KeyLevelBlock(last, keyLevels)
  }

  /** The explanations once the first n blocks have run. */
  function Stage(n: nat, prev: Row, last: Row, keyLevels: Option<(seq<KeyLevel>, seq<KeyLevel>)>, cfg: Config, votes: seq<Direction>): seq<Reason>
    requires n <= RuleCount
  {
    if n == 0 then [] else Stage(n - 1, prev, last, keyLevels, cfg, votes) + BlockOf(RuleAt(n - 1), prev, last, keyLevels, cfg, votes)
  }

  /** Every explanation the analyzer produces for the rows `prev` and `last`, in order. */
  function Explain(prev: Row, last: Row, keyLevels: Option<(seq<KeyLevel>, seq<KeyLevel>)>, cfg: Config): seq<Reason>
  {
    Stage(RuleCount, prev, last, keyLevels, cfg, OpeningVotes(prev, last, cfg))
  }

  // ---- The analyzer as the source runs it -----------------------------------------

  /** Appends `reason` and the vote it carries. */
  method Emit(signals: seq<Direction>, explanations: seq<Reason>, reason: Reason)
    returns (signals': seq<Direction>, explanations': seq<Reason>)
    requires signals == VotesOf(explanations)
    ensures explanations' == explanations + [reason]
    ensures signals' == VotesOf(explanations')
  {
    VotesOfSnoc(explanations, reason);
    signals' := signals + VoteList(reason);
    explanations' := explanations + [reason];
  }

  // Each rule block as a step that appends to `signals` and `explanations`, in the
  // source's append-by-append form. A step repeats the if/elif chain of its block
  // function so that it can be proved to append exactly that block while keeping the
  // pairing `signals == VotesOf(explanations)`; the rule properties are proved once,
  // about the block functions and `Explain`.

  method MaStep(prev: Row, last: Row, signals: seq<Direction>, explanations: seq<Reason>)
    returns (signals': seq<Direction>, explanations': seq<Reason>)
    requires signals == VotesOf(explanations)
    ensures explanations' == explanations + MaBlock(prev, last) && signals' == VotesOf(explanations')
  {
    signals', explanations' := signals, explanations;
    if Le(prev.ta.smaFast, prev.ta.smaSlow) && Gt(last.ta.smaFast, last.ta.smaSlow) {
      signals', explanations' := Emit(signals, explanations, MaCrossUp);
    } else if Ge(prev.ta.smaFast, prev.ta.smaSlow) && Lt(last.ta.smaFast, last.ta.smaSlow) {
      signals', explanations' := Emit(signals, explanations, MaCrossDown);
    }
  }

  method RsiStep(prev: Row, last: Row, cfg: Config, signals: seq<Direction>, explanations: seq<Reason>)
    returns (signals': seq<Direction>, explanations': seq<Reason>)
    requires signals == VotesOf(explanations)
    ensures explanations' == explanations + RsiBlock(prev, last, cfg) && signals' == VotesOf(explanations')
  {
    signals', explanations' := signals, explanations;
    if Lt(prev.ta.rsi, Some(cfg.rsiOversold)) && Gt(last.ta.rsi, Some(cfg.rsiOversold)) {
      signals', explanations' := Emit(signals, explanations, RsiLeavesOversold);
    } else if Gt(prev.ta.rsi, Some(cfg.rsiOverbought)) && Lt(last.ta.rsi, Some(cfg.rsiOverbought)) {
      signals', explanations' := Emit(signals, explanations, RsiLeavesOverbought);
    }
  }

  method MacdStep(prev: Row, last: Row, signals: seq<Direction>, explanations: seq<Reason>)
    returns (signals': seq<Direction>, explanations': seq<Reason>)
    requires signals == VotesOf(explanations)
    ensures explanations' == explanations + MacdBlock(prev, last) && signals' == VotesOf(explanations')
  {
    signals', explanations' := signals, explanations;
    if Le(prev.ta.macd, prev.ta.macdSignal) && Gt(last.ta.macd, last.ta.macdSignal) {
      signals', explanations' := Emit(signals, explanations, MacdCrossUp);
    } else if Ge(prev.ta.macd, prev.ta.macdSignal) && Lt(last.ta.macd, last.ta.macdSignal) {
      signals', explanations' := Emit(signals, explanations, MacdCrossDown);
    }
  }

  method AdxStep(last: Row, cfg: Config, signals: seq<Direction>, explanations: seq<Reason>)
    returns (signals': seq<Direction>, explanations': seq<Reason>)
    requires signals == VotesOf(explanations)
    ensures explanations' == explanations + AdxBlock(last, cfg) && signals' == VotesOf(explanations')
  {
    signals', explanations' := signals, explanations;
    if Gt(last.ta.adx, Some(cfg.adxThreshold)) {
      if Gt(last.ta.diPlus, last.ta.diMinus) {
        signals', explanations' := Emit(signals, explanations, StrongAdxUp);
      } else if Gt(last.ta.diMinus, last.ta.diPlus) {
        signals', explanations' := Emit(signals, explanations, StrongAdxDown);
      }
    }
  }

  method BollingerStep(last: Row, signals: seq<Direction>, explanations: seq<Reason>)
    returns (signals': seq<Direction>, explanations': seq<Reason>)
    requires signals == VotesOf(explanations)
    ensures explanations' == explanations + BollingerBlock(last) && signals' == VotesOf(explanations')
  {
    signals', explanations' := signals, explanations;
    if Lt(Some(last.candle.close), last.ta.bollingerLow) {
      signals', explanations' := Emit(signals, explanations, BelowBollinger);
    } else if Gt(Some(last.candle.close), last.ta.bollingerHigh) {
      signals', explanations' := Emit(signals, explanations, AboveBollinger);
    }
  }

  method VolumeStep(prev: Row, last: Row, cfg: Config, signals: seq<Direction>, explanations: seq<Reason>)
    returns (signals': seq<Direction>, explanations': seq<Reason>)
    requires signals == VotesOf(explanations)
    ensures explanations' == explanations + VolumeBlock(prev, last, cfg, signals) && signals' == VotesOf(explanations')
  {
    signals', explanations' := signals, explanations;
    var price := last.candle.close;
    if Gt(last.volumeRatio, Some(cfg.volumeThreshold)) {
      if Long in signals {
        signals', explanations' := Emit(signals, explanations, HighVolumeConfirmsLong);
      } else if Short in signals {
        signals', explanations' := Emit(signals, explanations, HighVolumeConfirmsShort);
      } else if price > prev.candle.close * 1.01 {
        signals', explanations' := Emit(signals, explanations, HighVolumeBreakoutUp);
      } else if price < prev.candle.close * 0.99 {
        signals', explanations' := Emit(signals, explanations, HighVolumeBreakoutDown);
      }
    }
  }

  method ExhaustionStep(last: Row, signals: seq<Direction>, explanations: seq<Reason>)
    returns (signals': seq<Direction>, explanations': seq<Reason>)
    requires signals == VotesOf(explanations)
    ensures explanations' == explanations + ExhaustionBlock(last) && signals' == VotesOf(explanations')
  {
    signals', explanations' := signals, explanations;
    if last.volumeDecreasingTrend {
      if last.trend == Bullish {
        signals', explanations' := Emit(signals, explanations, ExhaustionInUptrend);
      } else if last.trend == Bearish {
        signals', explanations' := Emit(signals, explanations, ExhaustionInDowntrend);
      }
    }
  }

  method CloudStep(last: Row, signals: seq<Direction>, explanations: seq<Reason>)
    returns (signals': seq<Direction>, explanations': seq<Reason>)
    requires signals == VotesOf(explanations)
    ensures explanations' == explanations + CloudBlock(last) && signals' == VotesOf(explanations')
  {
    signals', explanations' := signals, explanations;
    if last.aboveCloud {
      if Gt(last.ta.ichimokuConversion, last.ta.ichimokuBase) {
        signals', explanations' := Emit(signals, explanations, AboveCloudTkCross);
      }
    } else if last.belowCloud {
      if Lt(last.ta.ichimokuConversion, last.ta.ichimokuBase) {
        signals', explanations' := Emit(signals, explanations, BelowCloudTkCross);
      }
    }
  }

  method FutureCloudStep(prev: Row, last: Row, signals: seq<Direction>, explanations: seq<Reason>)
    returns (signals': seq<Direction>, explanations': seq<Reason>)
    requires signals == VotesOf(explanations)
    ensures explanations' == explanations + FutureCloudBlock(prev, last) && signals' == VotesOf(explanations')
  {
    signals', explanations' := signals, explanations;
    if last.futureCloudBullish && !prev.futureCloudBullish {
      signals', explanations' := Emit(signals, explanations, FutureCloudTurnsBullish);
    } else if last.futureCloudBearish && !prev.futureCloudBearish {
      signals', explanations' := Emit(signals, explanations, FutureCloudTurnsBearish);
    }
  }

  lemma SupportHitsStep(supports: seq<KeyLevel>, last: Row, j: nat)
    requires j < |supports|
    ensures SupportHits(supports[..j + 1], last) ==
      SupportHits(supports[..j], last) + (if SupportHolds(last, supports[j]) then [AtSupport(supports[j])] else [])
  {
    assert supports[..j + 1][..j] == supports[..j];
  }

  lemma ResistanceHitsStep(resistances: seq<KeyLevel>, last: Row, j: nat)
    requires j < |resistances|
    ensures ResistanceHits(resistances[..j + 1], last) ==
      ResistanceHits(resistances[..j], last) + (if ResistanceHolds(last, resistances[j]) then [AtResistance(resistances[j])] else [])
  {
    assert resistances[..j + 1][..j] == resistances[..j];
  }

  /** One support level: a close within 1% of its price votes when the trend is
      bullish or the MACD histogram is positive. */
  method CheckSupport(level: KeyLevel, last: Row, signals: seq<Direction>, explanations: seq<Reason>)
    returns (signals': seq<Direction>, explanations': seq<Reason>)
    requires signals == VotesOf(explanations)
    ensures explanations' == explanations + (if SupportHolds(last, level) then [AtSupport(level)] else [])
    ensures signals' == VotesOf(explanations')
  {
    signals', explanations' := signals, explanations;
    var price := last.candle.close;
    if 0.99 * level.price <= price <= 1.01 * level.price {
      if last.trend == Bullish || Gt(last.ta.macdHistogram, Some(0.0)) {
        signals', explanations' := Emit(signals', explanations', AtSupport(level));
      }
    }
  }

  /** The loop over supports: a LONG for each one the price sits at with upward bias. */
  method SupportStep(supports: seq<KeyLevel>, last: Row, signals: seq<Direction>, explanations: seq<Reason>)
    returns (signals': seq<Direction>, explanations': seq<Reason>)
    requires signals == VotesOf(explanations)
    ensures explanations' == explanations + SupportHits(supports, last) && signals' == VotesOf(explanations')
  {
    signals', explanations' := signals, explanations;
    var j := 0;
    while j < |supports|
      invariant j <= |supports|
      invariant explanations' == explanations + SupportHits(supports[..j], last)
      invariant signals' == VotesOf(explanations')
    {
      SupportHitsStep(supports, last, j);
      ghost var hit := if SupportHolds(last, supports[j]) then [AtSupport(supports[j])] else [];
      AppendAssoc(explanations, SupportHits(supports[..j], last), hit);
      signals', explanations' := CheckSupport(supports[j], last, signals', explanations');
      j := j + 1;
    }
    assert supports[..j] == supports;
  }

  /** One resistance level: a close within 1% of its price votes when the trend is
      bearish or the MACD histogram is negative. */
  method CheckResistance(level: KeyLevel, last: Row, signals: seq<Direction>, explanations: seq<Reason>)
    returns (signals': seq<Direction>, explanations': seq<Reason>)
    requires signals == VotesOf(explanations)
    ensures explanations' == explanations + (if ResistanceHolds(last, level) then [AtResistance(level)] else [])
    ensures signals' == VotesOf(explanations')
  {
    signals', explanations' := signals, explanations;
    var price := last.candle.close;
    if 0.99 * level.price <= price <= 1.01 * level.price {
      if last.trend == Bearish || Lt(last.ta.macdHistogram, Some(0.0)) {
        signals', explanations' := Emit(signals', explanations', AtResistance(level));
      }
    }
  }

  /** The loop over resistances: a SHORT for each one the price sits at with downward bias. */
  method ResistanceStep(resistances: seq<KeyLevel>, last: Row, signals: seq<Direction>, explanations: seq<Reason>)
    returns (signals': seq<Direction>, explanations': seq<Reason>)
    requires signals == VotesOf(explanations)
    ensures explanations' == explanations + ResistanceHits(resistances, last) && signals' == VotesOf(explanations')
  {
    signals', explanations' := signals, explanations;
    var j := 0;
    while j < |resistances|
      invariant j <= |resistances|
      invariant explanations' == explanations + ResistanceHits(resistances[..j], last)
      invariant signals' == VotesOf(explanations')
    {
      ResistanceHitsStep(resistances, last, j);
      ghost var hit := if ResistanceHolds(last, resistances[j]) then [AtResistance(resistances[j])] else [];
      AppendAssoc(explanations, ResistanceHits(resistances[..j], last), hit);
      signals', explanations' := CheckResistance(resistances[j], last, signals', explanations');
      j := j + 1;
    }
    assert resistances[..j] == resistances;
  }

  /** `analyze_signals(df, key_levels)`: the votes and explanations of the last two rows.
      A frame with fewer than two rows fails at `iloc[-2]`. */
  method AnalyzeSignals(frame: seq<Row>, keyLevels: Option<(seq<KeyLevel>, seq<KeyLevel>)>, cfg: Config)
    returns (r: Result<(seq<Direction>, seq<Reason>)>)
    ensures |frame| < 2 ==> r == Err(IndexOutOfRange)
    ensures |frame| >= 2 ==>
      r == Ok((VotesOf(Explain(frame[|frame| - 2], frame[|frame| - 1], keyLevels, cfg)),
               Explain(frame[|frame| - 2], frame[|frame| - 1], keyLevels, cfg)))
  {
    if |frame| < 2 {
      return Err(IndexOutOfRange);
    }
    var last, prev := frame[|frame| - 1], frame[|frame| - 2];
    var signals: seq<Direction> := [];
    var explanations: seq<Reason> := [];
    ghost var votes := OpeningVotes(prev, last, cfg);
    signals, explanations := MaStep(prev, last, signals, explanations);
    assert explanations == Stage(1, prev, last, keyLevels, cfg, votes);
    signals, explanations := RsiStep(prev, last, cfg, signals, explanations);
    assert explanations == Stage(2, prev, last, keyLevels, cfg, votes);
    signals, explanations := MacdStep(prev, last, signals, explanations);
    assert explanations == Stage(3, prev, last, keyLevels, cfg, votes);
    signals, explanations := AdxStep(last, cfg, signals, explanations);
    assert explanations == Stage(4, prev, last, keyLevels, cfg, votes);
    signals, explanations := BollingerStep(last, signals, explanations);
    assert explanations == Stage(5, prev, last, keyLevels, cfg, votes);
    AppendEmptyLeft(MaBlock(prev, last));
    assert explanations == BeforeVolume(prev, last, cfg);
    signals, explanations := VolumeStep(prev, last, cfg, signals, explanations);
    assert explanations == Stage(6, prev, last, keyLevels, cfg, votes);
    signals, explanations := ExhaustionStep(last, signals, explanations);
    assert explanations == Stage(7, prev, last, keyLevels, cfg, votes);
    signals, explanations := CloudStep(last, signals, explanations);
    assert explanations == Stage(8, prev, last, keyLevels, cfg, votes);
    signals, explanations := FutureCloudStep(prev, last, signals, explanations);
    assert explanations == Stage(9, prev, last, keyLevels, cfg, votes);
    var beforeLevels := explanations;
    if keyLevels.Some? {
      signals, explanations := SupportStep(keyLevels.value.0, last, signals, explanations);
      signals, explanations := ResistanceStep(keyLevels.value.1, last, signals, explanations);
      AppendAssoc(beforeLevels, SupportHits(keyLevels.value.0, last), ResistanceHits(keyLevels.value.1, last));
    } else {
      AppendEmptyRight(beforeLevels);
    }
    assert explanations == Stage(10, prev, last, keyLevels, cfg, votes);
    r := Ok((signals, explanations));
  }

  // ---- Properties of the analyzer ----------------------------------------------------

  lemma {:induction false} SupportHitsShape(supports: seq<KeyLevel>, last: Row)
    ensures |SupportHits(supports, last)| <= |supports|
    ensures forall k :: 0 <= k < |SupportHits(supports, last)| ==>
      SupportHits(supports, last)[k].AtSupport? && SupportHits(supports, last)[k].support in supports
  {
    if supports != [] {
      SupportHitsShape(supports[..|supports| - 1], last);
    }
  }

  lemma {:induction false} ResistanceHitsShape(resistances: seq<KeyLevel>, last: Row)
    ensures |ResistanceHits(resistances, last)| <= |resistances|
    ensures forall k :: 0 <= k < |ResistanceHits(resistances, last)| ==>
      ResistanceHits(resistances, last)[k].AtResistance? && ResistanceHits(resistances, last)[k].resistance in resistances
  {
    if resistances != [] {
      ResistanceHitsShape(resistances[..|resistances| - 1], last);
    }
  }

  /** A support is reported exactly when it is in the list and the price sits at it with
      an upward bias. */
  lemma {:induction false} SupportHitsIff(supports: seq<KeyLevel>, last: Row, level: KeyLevel)
    ensures AtSupport(level) in SupportHits(supports, last) <==> level in supports && SupportHolds(last, level)
  {
    if supports != [] {
      SupportHitsIff(supports[..|supports| - 1], last, level);
      assert supports == supports[..|supports| - 1] + [supports[|supports| - 1]];
    }
  }

  /** A resistance is reported exactly when it is in the list and the price sits at it
      with a downward bias. */
  lemma {:induction false} ResistanceHitsIff(resistances: seq<KeyLevel>, last: Row, level: KeyLevel)
    ensures AtResistance(level) in ResistanceHits(resistances, last) <==> level in resistances && ResistanceHolds(last, level)
  {
    if resistances != [] {
      ResistanceHitsIff(resistances[..|resistances| - 1], last, level);
      assert resistances == resistances[..|resistances| - 1] + [resistances[|resistances| - 1]];
    }
  }

  lemma KeyLevelBlockRules(last: Row, keyLevels: Option<(seq<KeyLevel>, seq<KeyLevel>)>)
    ensures forall x :: x in KeyLevelBlock(last, keyLevels) ==> RuleOf(x) == KeyLevelRule
  {
    if keyLevels.Some? {
      SupportHitsShape(keyLevels.value.0, last);
      ResistanceHitsShape(keyLevels.value.1, last);
    }
  }

  /** Every reason a block produces names that block. */
  lemma BlockRules(rule: Rule, prev: Row, last: Row, keyLevels: Option<(seq<KeyLevel>, seq<KeyLevel>)>, cfg: Config, votes: seq<Direction>)
    ensures forall x :: x in BlockOf(rule, prev, last, keyLevels, cfg, votes) ==> RuleOf(x) == rule
  {
    match rule
    case VolumeRule => VolumeBlockRules(prev, last, cfg, votes);
    case KeyLevelRule => KeyLevelBlockRules(last, keyLevels);
    case _ =>
  }

  lemma VolumeBlockRules(prev: Row, last: Row, cfg: Config, votes: seq<Direction>)
    ensures forall x :: x in VolumeBlock(prev, last, cfg, votes) ==> RuleOf(x) == VolumeRule
  {
  }

  /** A reason is among the first n blocks' explanations exactly when its own block is
      one of them and produced it. */
  lemma {:induction false} InStage(n: nat, prev: Row, last: Row, keyLevels: Option<(seq<KeyLevel>, seq<KeyLevel>)>,
                                   cfg: Config, votes: seq<Direction>, r: Reason)
    requires n <= RuleCount
    ensures r in Stage(n, prev, last, keyLevels, cfg, votes) <==>
      Position(RuleOf(r)) < n && r in BlockOf(RuleOf(r), prev, last, keyLevels, cfg, votes)
  {
    if n > 0 {
      var rule := RuleAt(n - 1);
      var before, block := Stage(n - 1, prev, last, keyLevels, cfg, votes), BlockOf(rule, prev, last, keyLevels, cfg, votes);
      assert Stage(n, prev, last, keyLevels, cfg, votes) == before + block;
      hide Stage, BlockOf;
      InStage(n - 1, prev, last, keyLevels, cfg, votes, r);
      BlockRules(rule, prev, last, keyLevels, cfg, votes);
      PositionIsInjective(RuleOf(r), rule);
    }
  }

  lemma PositionIsInjective(a: Rule, b: Rule)
    ensures Position(a) == Position(b) <==> a == b
  {
  }

  /** Each reason can only come from its own block. */
  lemma ReasonFromItsBlock(prev: Row, last: Row, keyLevels: Option<(seq<KeyLevel>, seq<KeyLevel>)>, cfg: Config, r: Reason)
    ensures r in Explain(prev, last, keyLevels, cfg) <==> r in BlockOf(RuleOf(r), prev, last, keyLevels, cfg, OpeningVotes(prev, last, cfg))
  {
    InStage(RuleCount, prev, last, keyLevels, cfg, OpeningVotes(prev, last, cfg), r);
  }

  // ReasonFromItsBlock once per block, with the block written out: each Iff lemma below
  // combines one of these with what its block does.

  lemma FromMaBlock(prev: Row, last: Row, keyLevels: Option<(seq<KeyLevel>, seq<KeyLevel>)>, cfg: Config, r: Reason)
    requires RuleOf(r) == MaRule
    ensures r in Explain(prev, last, keyLevels, cfg) <==> r in MaBlock(prev, last)
  {
    ReasonFromItsBlock(prev, last, keyLevels, cfg, r);
  }

  lemma FromRsiBlock(prev: Row, last: Row, keyLevels: Option<(seq<KeyLevel>, seq<KeyLevel>)>, cfg: Config, r: Reason)
    requires RuleOf(r) == RsiRule
    ensures r in Explain(prev, last, keyLevels, cfg) <==> r in RsiBlock(prev, last, cfg)
  {
    ReasonFromItsBlock(prev, last, keyLevels, cfg, r);
  }

  lemma FromMacdBlock(prev: Row, last: Row, keyLevels: Option<(seq<KeyLevel>, seq<KeyLevel>)>, cfg: Config, r: Reason)
    requires RuleOf(r) == MacdRule
    ensures r in Explain(prev, last, keyLevels, cfg) <==> r in MacdBlock(prev, last)
  {
    ReasonFromItsBlock(prev, last, keyLevels, cfg, r);
  }

  lemma FromAdxBlock(prev: Row, last: Row, keyLevels: Option<(seq<KeyLevel>, seq<KeyLevel>)>, cfg: Config, r: Reason)
    requires RuleOf(r) == AdxRule
    ensures r in Explain(prev, last, keyLevels, cfg) <==> r in AdxBlock(last, cfg)
  {
    ReasonFromItsBlock(prev, last, keyLevels, cfg, r);
  }

  lemma FromBollingerBlock(prev: Row, last: Row, keyLevels: Option<(seq<KeyLevel>, seq<KeyLevel>)>, cfg: Config, r: Reason)
    requires RuleOf(r) == BollingerRule
    ensures r in Explain(prev, last, keyLevels, cfg) <==> r in BollingerBlock(last)
  {
    ReasonFromItsBlock(prev, last, keyLevels, cfg, r);
  }

  lemma FromVolumeBlock(prev: Row, last: Row, keyLevels: Option<(seq<KeyLevel>, seq<KeyLevel>)>, cfg: Config, r: Reason)
    requires RuleOf(r) == VolumeRule
    ensures r in Explain(prev, last, keyLevels, cfg) <==> r in VolumeBlock(prev, last, cfg, OpeningVotes(prev, last, cfg))
  {
    ReasonFromItsBlock(prev, last, keyLevels, cfg, r);
  }

  lemma FromExhaustionBlock(prev: Row, last: Row, keyLevels: Option<(seq<KeyLevel>, seq<KeyLevel>)>, cfg: Config, r: Reason)
    requires RuleOf(r) == ExhaustionRule
    ensures r in Explain(prev, last, keyLevels, cfg) <==> r in ExhaustionBlock(last)
  {
    ReasonFromItsBlock(prev, last, keyLevels, cfg, r);
  }

  lemma FromCloudBlock(prev: Row, last: Row, keyLevels: Option<(seq<KeyLevel>, seq<KeyLevel>)>, cfg: Config, r: Reason)
    requires RuleOf(r) == CloudRule
    ensures r in Explain(prev, last, keyLevels, cfg) <==> r in CloudBlock(last)
  {
    ReasonFromItsBlock(prev, last, keyLevels, cfg, r);
  }

  lemma FromFutureCloudBlock(prev: Row, last: Row, keyLevels: Option<(seq<KeyLevel>, seq<KeyLevel>)>, cfg: Config, r: Reason)
    requires RuleOf(r) == FutureCloudRule
    ensures r in Explain(prev, last, keyLevels, cfg) <==> r in FutureCloudBlock(prev, last)
  {
    ReasonFromItsBlock(prev, last, keyLevels, cfg, r);
  }

  lemma FromKeyLevelBlock(prev: Row, last: Row, keyLevels: Option<(seq<KeyLevel>, seq<KeyLevel>)>, cfg: Config, r: Reason)
    requires RuleOf(r) == KeyLevelRule
    ensures r in Explain(prev, last, keyLevels, cfg) <==> r in KeyLevelBlock(last, keyLevels)
  {
    ReasonFromItsBlock(prev, last, keyLevels, cfg, r);
  }

  /** Moving-average cross: LONG iff the fast average was at or below the slow one and is
      now above it; SHORT iff not that, and it was at or above and is now below. */
  lemma MaCrossIff(prev: Row, last: Row, keyLevels: Option<(seq<KeyLevel>, seq<KeyLevel>)>, cfg: Config)
    ensures var e := Explain(prev, last, keyLevels, cfg);
      var up := Le(prev.ta.smaFast, prev.ta.smaSlow) && Gt(last.ta.smaFast, last.ta.smaSlow);
      (MaCrossUp in e <==> up) &&
      (MaCrossDown in e <==> !up && Ge(prev.ta.smaFast, prev.ta.smaSlow) && Lt(last.ta.smaFast, last.ta.smaSlow))
  {
    hide Explain;
    var e, b := Explain(prev, last, keyLevels, cfg), MaBlock(prev, last);
    assert MaCrossUp in e <==> MaCrossUp in b by {
      FromMaBlock(prev, last, keyLevels, cfg, MaCrossUp);
    }
    assert MaCrossDown in e <==> MaCrossDown in b by {
      FromMaBlock(prev, last, keyLevels, cfg, MaCrossDown);
    }
  }

  /** RSI: LONG iff it rises from strictly below the oversold threshold to strictly above
      it; SHORT iff not that, and it falls from strictly above the overbought threshold
      to strictly below it. */
  lemma RsiIff(prev: Row, last: Row, keyLevels: Option<(seq<KeyLevel>, seq<KeyLevel>)>, cfg: Config)
    ensures var e := Explain(prev, last, keyLevels, cfg);
      var up := Lt(prev.ta.rsi, Some(cfg.rsiOversold)) && Gt(last.ta.rsi, Some(cfg.rsiOversold));
      (RsiLeavesOversold in e <==> up) &&
      (RsiLeavesOverbought in e <==>
        !up && Gt(prev.ta.rsi, Some(cfg.rsiOverbought)) && Lt(last.ta.rsi, Some(cfg.rsiOverbought)))
  {
    hide Explain;
    var e, b := Explain(prev, last, keyLevels, cfg), RsiBlock(prev, last, cfg);
    assert RsiLeavesOversold in e <==> RsiLeavesOversold in b by {
      FromRsiBlock(prev, last, keyLevels, cfg, RsiLeavesOversold);
    }
    assert RsiLeavesOverbought in e <==> RsiLeavesOverbought in b by {
      FromRsiBlock(prev, last, keyLevels, cfg, RsiLeavesOverbought);
    }
  }

  /** MACD cross against its signal line, with the same comparisons as the MA cross. */
  lemma MacdCrossIff(prev: Row, last: Row, keyLevels: Option<(seq<KeyLevel>, seq<KeyLevel>)>, cfg: Config)
    ensures var e := Explain(prev, last, keyLevels, cfg);
      var up := Le(prev.ta.macd, prev.ta.macdSignal) && Gt(last.ta.macd, last.ta.macdSignal);
      (MacdCrossUp in e <==> up) &&
      (MacdCrossDown in e <==> !up && Ge(prev.ta.macd, prev.ta.macdSignal) && Lt(last.ta.macd, last.ta.macdSignal))
  {
    hide Explain;
    var e, b := Explain(prev, last, keyLevels, cfg), MacdBlock(prev, last);
    assert MacdCrossUp in e <==> MacdCrossUp in b by {
      FromMacdBlock(prev, last, keyLevels, cfg, MacdCrossUp);
    }
    assert MacdCrossDown in e <==> MacdCrossDown in b by {
      FromMacdBlock(prev, last, keyLevels, cfg, MacdCrossDown);
    }
  }

  /** ADX: with ADX strictly above its threshold, the larger directional index votes;
      equal (or missing) indices vote nothing. */
  lemma AdxIff(prev: Row, last: Row, keyLevels: Option<(seq<KeyLevel>, seq<KeyLevel>)>, cfg: Config)
    ensures var e := Explain(prev, last, keyLevels, cfg);
      var strong := Gt(last.ta.adx, Some(cfg.adxThreshold));
      (StrongAdxUp in e <==> strong && Gt(last.ta.diPlus, last.ta.diMinus)) &&
      (StrongAdxDown in e <==> strong && Gt(last.ta.diMinus, last.ta.diPlus))
  {
    hide Explain;
    var e, b := Explain(prev, last, keyLevels, cfg), AdxBlock(last, cfg);
    assert StrongAdxUp in e <==> StrongAdxUp in b by {
      FromAdxBlock(prev, last, keyLevels, cfg, StrongAdxUp);
    }
    assert StrongAdxDown in e <==> StrongAdxDown in b by {
      FromAdxBlock(prev, last, keyLevels, cfg, StrongAdxDown);
    }
  }

  /** Bollinger: LONG iff the close is strictly below the lower band; SHORT iff not, and it
      is strictly above the upper band. */
  lemma BollingerIff(prev: Row, last: Row, keyLevels: Option<(seq<KeyLevel>, seq<KeyLevel>)>, cfg: Config)
    ensures var e := Explain(prev, last, keyLevels, cfg);
      var below := Lt(Some(last.candle.close), last.ta.bollingerLow);
      (BelowBollinger in e <==> below) &&
      (AboveBollinger in e <==> !below && Gt(Some(last.candle.close), last.ta.bollingerHigh))
  {
    hide Explain;
    var e, b := Explain(prev, last, keyLevels, cfg), BollingerBlock(last);
    assert BelowBollinger in e <==> BelowBollinger in b by {
      FromBollingerBlock(prev, last, keyLevels, cfg, BelowBollinger);
    }
    assert AboveBollinger in e <==> AboveBollinger in b by {
      FromBollingerBlock(prev, last, keyLevels, cfg, AboveBollinger);
    }
  }

  /** The volume block on any list of earlier votes. */
  lemma VolumeBlockIff(prev: Row, last: Row, cfg: Config, votes: seq<Direction>)
    ensures var b := VolumeBlock(prev, last, cfg, votes);
      var high := HighVolume(last, cfg);
      (HighVolumeConfirmsLong in b <==> high && Long in votes) &&
      (HighVolumeConfirmsShort in b <==> high && Long !in votes && Short in votes) &&
      (HighVolumeBreakoutUp in b <==> high && votes == [] && last.candle.close > prev.candle.close * 1.01) &&
      (HighVolumeBreakoutDown in b <==>
        high && votes == [] && !(last.candle.close > prev.candle.close * 1.01) && last.candle.close < prev.candle.close * 0.99)
  {
    NoVotesMeansEmpty(votes);
  }

  /** Volume: with a ratio strictly above the threshold, a LONG among the first five
      blocks' votes is confirmed, else a SHORT is, and only with no vote at all does a
      move of more than 1% from the previous close vote. */
  lemma VolumeConfirmsIff(prev: Row, last: Row, keyLevels: Option<(seq<KeyLevel>, seq<KeyLevel>)>, cfg: Config)
    ensures var e := Explain(prev, last, keyLevels, cfg);
      var votes := OpeningVotes(prev, last, cfg);
      var high := HighVolume(last, cfg);
      (HighVolumeConfirmsLong in e <==> high && Long in votes) &&
      (HighVolumeConfirmsShort in e <==> high && Long !in votes && Short in votes)
  {
    hide Explain, OpeningVotes;
    var e, b := Explain(prev, last, keyLevels, cfg), VolumeBlock(prev, last, cfg, OpeningVotes(prev, last, cfg));
    VolumeBlockIff(prev, last, cfg, OpeningVotes(prev, last, cfg));
    assert HighVolumeConfirmsLong in e <==> HighVolumeConfirmsLong in b by {
      FromVolumeBlock(prev, last, keyLevels, cfg, HighVolumeConfirmsLong);
    }
    assert HighVolumeConfirmsShort in e <==> HighVolumeConfirmsShort in b by {
      FromVolumeBlock(prev, last, keyLevels, cfg, HighVolumeConfirmsShort);
    }
  }

  lemma VolumeBreakoutIff(prev: Row, last: Row, keyLevels: Option<(seq<KeyLevel>, seq<KeyLevel>)>, cfg: Config)
    ensures var e := Explain(prev, last, keyLevels, cfg);
      var votes := OpeningVotes(prev, last, cfg);
      var high := HighVolume(last, cfg);
      (HighVolumeBreakoutUp in e <==> high && votes == [] && last.candle.close > prev.candle.close * 1.01) &&
      (HighVolumeBreakoutDown in e <==>
        high && votes == [] && !(last.candle.close > prev.candle.close * 1.01) && last.candle.close < prev.candle.close * 0.99)
  {
    hide Explain, OpeningVotes;
    var e, b := Explain(prev, last, keyLevels, cfg), VolumeBlock(prev, last, cfg, OpeningVotes(prev, last, cfg));
    VolumeBlockIff(prev, last, cfg, OpeningVotes(prev, last, cfg));
    assert HighVolumeBreakoutUp in e <==> HighVolumeBreakoutUp in b by {
      FromVolumeBlock(prev, last, keyLevels, cfg, HighVolumeBreakoutUp);
    }
    assert HighVolumeBreakoutDown in e <==> HighVolumeBreakoutDown in b by {
      FromVolumeBlock(prev, last, keyLevels, cfg, HighVolumeBreakoutDown);
    }
  }

  lemma NoVotesMeansEmpty(votes: seq<Direction>)
    ensures Long !in votes && Short !in votes <==> votes == []
  {
    if votes != [] {
      assert votes[0] in votes;
      assert votes[0] == Long || votes[0] == Short;
    }
  }

  /** Exhaustion: with a falling volume trend, SHORT in a bullish trend and LONG in a
      bearish one. */
  lemma ExhaustionIff(prev: Row, last: Row, keyLevels: Option<(seq<KeyLevel>, seq<KeyLevel>)>, cfg: Config)
    ensures var e := Explain(prev, last, keyLevels, cfg);
      (ExhaustionInUptrend in e <==> last.volumeDecreasingTrend && last.trend == Bullish) &&
      (ExhaustionInDowntrend in e <==> last.volumeDecreasingTrend && last.trend == Bearish)
  {
    hide Explain;
    var e, b := Explain(prev, last, keyLevels, cfg), ExhaustionBlock(last);
    assert ExhaustionInUptrend in e <==> ExhaustionInUptrend in b by {
      FromExhaustionBlock(prev, last, keyLevels, cfg, ExhaustionInUptrend);
    }
    assert ExhaustionInDowntrend in e <==> ExhaustionInDowntrend in b by {
      FromExhaustionBlock(prev, last, keyLevels, cfg, ExhaustionInDowntrend);
    }
  }

  /** Ichimoku: above the cloud a conversion line strictly above the base line votes LONG;
      only when not above, below the cloud with the conversion line strictly below votes
      SHORT. */
  lemma CloudIff(prev: Row, last: Row, keyLevels: Option<(seq<KeyLevel>, seq<KeyLevel>)>, cfg: Config)
    ensures var e := Explain(prev, last, keyLevels, cfg);
      (AboveCloudTkCross in e <==> last.aboveCloud && Gt(last.ta.ichimokuConversion, last.ta.ichimokuBase)) &&
      (BelowCloudTkCross in e <==>
        !last.aboveCloud && last.belowCloud && Lt(last.ta.ichimokuConversion, last.ta.ichimokuBase))
  {
    hide Explain;
    var e, b := Explain(prev, last, keyLevels, cfg), CloudBlock(last);
    assert AboveCloudTkCross in e <==> AboveCloudTkCross in b by {
      FromCloudBlock(prev, last, keyLevels, cfg, AboveCloudTkCross);
    }
    assert BelowCloudTkCross in e <==> BelowCloudTkCross in b by {
      FromCloudBlock(prev, last, keyLevels, cfg, BelowCloudTkCross);
    }
  }

  /** Future cloud: LONG iff it has just turned bullish; SHORT iff not that, and it has
      just turned bearish. */
  lemma FutureCloudIff(prev: Row, last: Row, keyLevels: Option<(seq<KeyLevel>, seq<KeyLevel>)>, cfg: Config)
    ensures var e := Explain(prev, last, keyLevels, cfg);
      var bull := last.futureCloudBullish && !prev.futureCloudBullish;
      (FutureCloudTurnsBullish in e <==> bull) &&
      (FutureCloudTurnsBearish in e <==> !bull && last.futureCloudBearish && !prev.futureCloudBearish)
  {
    hide Explain;
    var e, b := Explain(prev, last, keyLevels, cfg), FutureCloudBlock(prev, last);
    assert FutureCloudTurnsBullish in e <==> FutureCloudTurnsBullish in b by {
      FromFutureCloudBlock(prev, last, keyLevels, cfg, FutureCloudTurnsBullish);
    }
    assert FutureCloudTurnsBearish in e <==> FutureCloudTurnsBearish in b by {
      FromFutureCloudBlock(prev, last, keyLevels, cfg, FutureCloudTurnsBearish);
    }
  }

  /** The key-level block reports a level exactly when it is in its list and holds. */
  lemma KeyLevelBlockIff(last: Row, keyLevels: Option<(seq<KeyLevel>, seq<KeyLevel>)>, level: KeyLevel)
    ensures var b := KeyLevelBlock(last, keyLevels);
      (AtSupport(level) in b <==> keyLevels.Some? && level in keyLevels.value.0 && SupportHolds(last, level)) &&
      (AtResistance(level) in b <==> keyLevels.Some? && level in keyLevels.value.1 && ResistanceHolds(last, level))
  {
    if keyLevels.Some? {
      SupportHitsIff(keyLevels.value.0, last, level);
      ResistanceHitsIff(keyLevels.value.1, last, level);
      ResistanceHitsShape(keyLevels.value.1, last);
      SupportHitsShape(keyLevels.value.0, last);
    }
  }

  /** Key levels: a support is reported iff key levels were given, it is among the
      supports, the close lies in its inclusive 1% band and the bias is upward; mirrored
      for resistances. */
  lemma KeyLevelIff(prev: Row, last: Row, keyLevels: Option<(seq<KeyLevel>, seq<KeyLevel>)>, cfg: Config, level: KeyLevel)
    ensures var e := Explain(prev, last, keyLevels, cfg);
      (AtSupport(level) in e <==> keyLevels.Some? && level in keyLevels.value.0 && SupportHolds(last, level)) &&
      (AtResistance(level) in e <==> keyLevels.Some? && level in keyLevels.value.1 && ResistanceHolds(last, level))
  {
    KeyLevelBlockIff(last, keyLevels, level);
    hide Explain;
    var e, b := Explain(prev, last, keyLevels, cfg), KeyLevelBlock(last, keyLevels);
    assert AtSupport(level) in e <==> AtSupport(level) in b by {
      FromKeyLevelBlock(prev, last, keyLevels, cfg, AtSupport(level));
    }
    assert AtResistance(level) in e <==> AtResistance(level) in b by {
      FromKeyLevelBlock(prev, last, keyLevels, cfg, AtResistance(level));
    }
  }

  // ---- Votes and explanations --------------------------------------------------------

  predicate AllVote(es: seq<Reason>)
  {
    forall k :: 0 <= k < |es| ==> Vote(es[k]).Some?
  }

  lemma {:induction false} AllVoteCounts(es: seq<Reason>)
    requires AllVote(es)
    ensures |VotesOf(es)| == |es|
  {
    if es != [] {
      AllVoteCounts(es[..|es| - 1]);
    }
  }

  /** A block of at most one reason, each carrying a vote, has a vote per reason. */
  lemma SmallBlockCounts(b: seq<Reason>)
    requires |b| <= 1 && forall x :: x in b ==> Vote(x).Some?
    ensures |VotesOf(b)| == |b|
  {
    if |b| == 1 {
      assert b[0] in b;
      assert [] + [b[0]] == b;
      VotesOfSnoc([], b[0]);
    }
  }

  /** The volume block, on any earlier votes, appends one reason without a vote exactly
      when the volume is high and some vote was already cast. */
  lemma VotesOfSingle(r: Reason)
    ensures VotesOf([r]) == VoteList(r)
  {
    assert [r][..0] == [];
  }

  lemma VolumeSurplus(prev: Row, last: Row, cfg: Config, votes: seq<Direction>)
    ensures var b := VolumeBlock(prev, last, cfg, votes);
      |b| == |VotesOf(b)| + (if HighVolume(last, cfg) && |votes| > 0 then 1 else 0)
  {
    var b := VolumeBlock(prev, last, cfg, votes);
    NoVotesMeansEmpty(votes);
    if b != [] {
      assert b == [b[0]];
      VotesOfSingle(b[0]);
    }
  }

  lemma KeyLevelSurplus(last: Row, keyLevels: Option<(seq<KeyLevel>, seq<KeyLevel>)>)
    ensures |VotesOf(KeyLevelBlock(last, keyLevels))| == |KeyLevelBlock(last, keyLevels)|
  {
    var b := KeyLevelBlock(last, keyLevels);
    KeyLevelBlockRules(last, keyLevels);
    assert AllVote(b) by {
      forall k | 0 <= k < |b| ensures Vote(b[k]).Some? {
        assert b[k] in b;
      }
    }
    AllVoteCounts(b);
  }

  /** The confirmation case of the volume block. */
  predicate Confirms(last: Row, cfg: Config, votes: seq<Direction>)
  {
    HighVolume(last, cfg) && |votes| > 0
  }

  /** Only the volume block can append a reason without a vote: its confirmation, when
      the volume is high and the first five blocks have already voted. */
  lemma BlockSurplus(rule: Rule, prev: Row, last: Row, keyLevels: Option<(seq<KeyLevel>, seq<KeyLevel>)>, cfg: Config, votes: seq<Direction>)
    ensures var b := BlockOf(rule, prev, last, keyLevels, cfg, votes);
      |b| == |VotesOf(b)| + (if rule == VolumeRule && Confirms(last, cfg, votes) then 1 else 0)
  {
    match rule
    case MaRule => SmallBlockCounts(MaBlock(prev, last));
    case RsiRule => SmallBlockCounts(RsiBlock(prev, last, cfg));
    case MacdRule => SmallBlockCounts(MacdBlock(prev, last));
    case AdxRule => SmallBlockCounts(AdxBlock(last, cfg));
    case BollingerRule => SmallBlockCounts(BollingerBlock(last));
    case VolumeRule => VolumeSurplus(prev, last, cfg, votes);
    case ExhaustionRule => SmallBlockCounts(ExhaustionBlock(last));
    case CloudRule => SmallBlockCounts(CloudBlock(last));
    case FutureCloudRule => SmallBlockCounts(FutureCloudBlock(prev, last));
    case KeyLevelRule => KeyLevelSurplus(last, keyLevels);
  }

  lemma AppendSurplus(a: seq<Reason>, b: seq<Reason>, ka: nat, kb: nat)
    requires |a| == |VotesOf(a)| + ka && |b| == |VotesOf(b)| + kb
    ensures |a + b| == |VotesOf(a + b)| + ka + kb
  {
    VotesOfAppend(a, b);
  }

  lemma {:induction false} StageSurplus(n: nat, prev: Row, last: Row, keyLevels: Option<(seq<KeyLevel>, seq<KeyLevel>)>, cfg: Config, votes: seq<Direction>)
    requires n <= RuleCount
    ensures var e := Stage(n, prev, last, keyLevels, cfg, votes);
      |e| == |VotesOf(e)| + (if n > Position(VolumeRule) && Confirms(last, cfg, votes) then 1 else 0)
  {
    if n > 0 {
      var rule := RuleAt(n - 1);
      var confirms := Confirms(last, cfg, votes);
      var ka := if n - 1 > Position(VolumeRule) && confirms then 1 else 0;
      var kb := if rule == VolumeRule && confirms then 1 else 0;
      var before, block := Stage(n - 1, prev, last, keyLevels, cfg, votes), BlockOf(rule, prev, last, keyLevels, cfg, votes);
      assert Stage(n, prev, last, keyLevels, cfg, votes) == before + block;
      hide Stage, BlockOf;
      assert |before| == |VotesOf(before)| + ka by {
        StageSurplus(n - 1, prev, last, keyLevels, cfg, votes);
      }
      assert |block| == |VotesOf(block)| + kb by {
        BlockSurplus(rule, prev, last, keyLevels, cfg, votes);
      }
      assert ka + kb == if n > Position(VolumeRule) && confirms then 1 else 0 by {
        PositionIsInjective(rule, VolumeRule);
      }
      AppendSurplus(before, block, ka, kb);
    }
  }

  /** There is exactly one more explanation than votes when the volume is high and the
      first five blocks already voted (the confirmation), and as many otherwise. */
  lemma ExplanationSurplus(prev: Row, last: Row, keyLevels: Option<(seq<KeyLevel>, seq<KeyLevel>)>, cfg: Config)
    ensures var e := Explain(prev, last, keyLevels, cfg);
      |e| == |VotesOf(e)| +
        (if HighVolume(last, cfg) && |OpeningVotes(prev, last, cfg)| > 0 then 1 else 0)
  {
    StageSurplus(RuleCount, prev, last, keyLevels, cfg, OpeningVotes(prev, last, cfg));
  }

  lemma BlockBound(rule: Rule, prev: Row, last: Row, keyLevels: Option<(seq<KeyLevel>, seq<KeyLevel>)>, cfg: Config, votes: seq<Direction>)
    ensures rule != KeyLevelRule ==> |BlockOf(rule, prev, last, keyLevels, cfg, votes)| <= 1
    ensures rule == KeyLevelRule ==>
      |BlockOf(rule, prev, last, keyLevels, cfg, votes)| <= if keyLevels.Some? then |keyLevels.value.0| + |keyLevels.value.1| else 0
  {
    if rule == KeyLevelRule && keyLevels.Some? {
      SupportHitsShape(keyLevels.value.0, last);
      ResistanceHitsShape(keyLevels.value.1, last);
    }
  }

  lemma {:induction false} StageBound(n: nat, prev: Row, last: Row, keyLevels: Option<(seq<KeyLevel>, seq<KeyLevel>)>, cfg: Config, votes: seq<Direction>)
    requires n < RuleCount
    ensures |Stage(n, prev, last, keyLevels, cfg, votes)| <= n
  {
    if n > 0 {
      StageBound(n - 1, prev, last, keyLevels, cfg, votes);
      BlockBound(RuleAt(n - 1), prev, last, keyLevels, cfg, votes);
    }
  }

  /** Nine blocks add at most one explanation each, and the key-level block at most one
      per level. */
  lemma ExplanationBound(prev: Row, last: Row, keyLevels: Option<(seq<KeyLevel>, seq<KeyLevel>)>, cfg: Config)
    ensures |VotesOf(Explain(prev, last, keyLevels, cfg))| <= |Explain(prev, last, keyLevels, cfg)|
    ensures |Explain(prev, last, keyLevels, cfg)| <=
      RuleCount - 1 + (if keyLevels.Some? then |keyLevels.value.0| + |keyLevels.value.1| else 0)
  {
    var votes := OpeningVotes(prev, last, cfg);
    var before, block := Stage(RuleCount - 1, prev, last, keyLevels, cfg, votes), BlockOf(KeyLevelRule, prev, last, keyLevels, cfg, votes);
    assert Explain(prev, last, keyLevels, cfg) == before + block;
    hide Explain, Stage, BlockOf;
    StageBound(RuleCount - 1, prev, last, keyLevels, cfg, votes);
    BlockBound(KeyLevelRule, prev, last, keyLevels, cfg, votes);
  }

  // ---- The recommendation --------------------------------------------------------------

  datatype Recommendation = GoLong | GoShort | StayNeutral

  /** `generate_terminal_analysis`'s final call from the vote counts. */
  function Recommend(signals: seq<Direction>): Recommendation
  {
    var longs, shorts := Count(signals, Long), Count(signals, Short);
    if longs > shorts && longs >= 2 then GoLong
    else if shorts > longs && shorts >= 2 then GoShort
    else StayNeutral
  }

  /** A direction is recommended exactly when it holds a strict majority of all votes and
      at least two of them; hence a single vote never decides. */
  lemma RecommendIsStrictMajority(signals: seq<Direction>)
    ensures Recommend(signals) == GoLong <==> 2 * Count(signals, Long) > |signals| && Count(signals, Long) >= 2
    ensures Recommend(signals) == GoShort <==> 2 * Count(signals, Short) > |signals| && Count(signals, Short) >= 2
    ensures Recommend(signals) != StayNeutral ==> |signals| >= 2
  {
    CountsPartitionVotes(signals);
  }

  function Opposite(d: Direction): Direction
  {
    if d == Long then Short else Long
  }

  function Flip(signals: seq<Direction>): (r: seq<Direction>)
    ensures |r| == |signals|
  {
    if signals == [] then [] else Flip(signals[..|signals| - 1]) + [Opposite(signals[|signals| - 1])]
  }

  lemma {:induction false} FlipSwapsCounts(signals: seq<Direction>, d: Direction)
    ensures Count(Flip(signals), d) == Count(signals, Opposite(d))
  {
    if signals != [] {
      FlipSwapsCounts(signals[..|signals| - 1], d);
      assert Flip(signals)[..|signals| - 1] == Flip(signals[..|signals| - 1]);
    }
  }

  /** The rule treats the two directions alike: reversing every vote reverses the call. */
  lemma RecommendIsSymmetric(signals: seq<Direction>)
    ensures Recommend(Flip(signals)) ==
      match Recommend(signals) case GoLong => GoShort case GoShort => GoLong case StayNeutral => StayNeutral
  {
    FlipSwapsCounts(signals, Long);
    FlipSwapsCounts(signals, Short);
  }

  /** Two LONG votes against one SHORT give LONG; one each gives NEUTRAL. */
  lemma RecommendExamples()
    ensures Recommend([Long, Long, Short]) == GoLong
    ensures Recommend([Long, Short]) == StayNeutral
    ensures Recommend([Short]) == StayNeutral
  {
    assert [Long, Long, Short][..2] == [Long, Long];
    assert [Long, Long][..1] == [Long];
    assert [Long, Short][..1] == [Long];
  }
}
