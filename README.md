# Crypto-Signals-BOT core, modelled in Dafny

This project models the analysis core of the Crypto-Signals-BOT trading bot. The bot reads a
series of OHLCV candles (timestamp, open, high, low and close prices, and volume). It then goes
through four stages:

- **Indicators.** It adds indicator columns to every candle.
- **Key levels.** It finds ranked support and resistance levels in the last 100 candles.
- **Signals.** It fuses the last two indicator rows and the key levels into LONG/SHORT votes, each
  with an explanation.
- **Recommendation.** A strict-majority count of the votes turns them into a LONG, SHORT or
  NEUTRAL recommendation.

A backtest replays this pipeline over a historical series. At every index it looks only at the
prefix of candles up to that index. Each strong call is scored with the closes of the next ten
candles, and success statistics are tallied per direction. An older variant of the analyser
(`main.py`) uses its own rolling support and resistance and five simple rules that produce
labelled messages.

Modules, in dependency order:

- `Common`: candles, optional values, directions and the bot's thresholds. It also holds the
  minimum, maximum and vote-counting helpers. A pandas "no value" (NaN) is written `None`, and a
  comparison involving `None` is false, as it is in pandas.
- `Series`: pandas-style helpers: shifts, element-wise comparisons, centred rolling extrema and
  trailing rolling min/max.
- `Indicators`: the columns `apply_technical_indicators` derives itself in `bot.py`. The columns
  computed by the `ta` library are an input row (`TaRow`) per candle.
- `KeyLevels`: `identify_key_levels`, with three parts:
  - the candidate scan with touch counting;
  - the dynamic level taken from the last break;
  - the stable sort by touches, cut to the top three.
- `Signals`: `analyze_signals` of `bot.py`, rule block by rule block, and the vote count of the
  terminal report.
- `Legacy`: rolling support and resistance and `analyze_signals` of `main.py`.
- `Backtest`: `run_backtest`:
  - the date filter;
  - the replay loop over prefixes;
  - outcome scoring;
  - the counters and the statistics.

The imperative parts of the source are Dafny methods with loops or step-by-step appends. Each is
proved equal to a specification function, and the properties are proved about those functions:

- the key-level scans and the in-place sort of the levels (done on an array);
- the rule blocks of both analysers;
- the last-break fill (done on an array);
- the backtest loop with its counter maps.

## Model

| member | source | states |
|---|---|---|
| Common.MinOf | bot.py:126-128 | The minimum is one of the values and no value is below it |
| Common.MaxOf | bot.py:126 | The maximum is one of the values and no value exceeds it |
| Common.Count | bot.py:437-438 | The number of votes for a direction is at most the number of votes, and it is zero exactly when that direction was never voted |
| Common.CountsPartitionVotes | bot.py:437-438 | The number of LONG votes plus the number of SHORT votes is the number of votes |
| Common.CountAppend | backtest.py:54-55 | Vote counts add up over concatenated vote lists |
| Series.LocalMinIff | bot.py:121-123 | A value is flagged as a centred local minimum exactly when its whole centred window lies inside the series and no value in that window is smaller. Windows cut by either edge give false |
| Series.LocalMaxIff | bot.py:116-118 | A value is flagged as a centred local maximum exactly when its whole centred window lies inside the series and no value in that window is larger |
| Series.CentreIsLabelledRow | bot.py:116-117 | The centre element of a centred window of width w is the labelled row, and the window holds exactly w rows |
| Series.RollingMinAt | main.py:101 | A trailing rolling minimum has no value for the first w-1 rows. After that it is a value of the last w rows and no value among them is smaller |
| Series.RollingMaxAt | main.py:102 | A trailing rolling maximum has no value for the first w-1 rows. After that it is a value of the last w rows and no value among them is larger |
| Indicators.VolumeRatio | bot.py:75 | The ratio exists exactly when the volume SMA exists and is non-zero. The ratio times the SMA gives back the volume |
| Indicators.VolumeDecreasingTrendIff | bot.py:78-82 | The decreasing-volume flag holds exactly when the volume fell strictly on each of the last three steps, so it is false for the first three rows |
| Indicators.VolumeIncreasingIff | bot.py:76 | The increasing-volume flag holds exactly when the volume is above the previous candle's. It is false on the first row |
| Indicators.CloudPositionIff | bot.py:103-106 | A row is above (below) the cloud exactly when its close is above (below) both spans shifted 26 rows back, with both spans present. It is never both, and it is in the cloud exactly when it is neither |
| Indicators.IsSupportIff | bot.py:120-123 | The support flag holds exactly when rows i-10..i+9 all exist and no low among them is below the low of row i |
| Indicators.IsResistanceIff | bot.py:115-118 | The resistance flag holds exactly when rows i-10..i+9 all exist and no high among them is above the high of row i |
| Indicators.QuartileLevelsOrdered | bot.py:125-130 | For well-formed candles the two quartile levels satisfy lowest low <= 25% level <= 75% level <= highest high |
| Indicators.BreakIff | bot.py:133-136 | A resistance break at row i means three things: the close rose, the previous row was a resistance, and the close is above the previous high. Support breaks mirror this with lows |
| Indicators.MarkLastBreak | bot.py:139-152 | The in-place fill leaves the column equal to its specification. There is no value before the last break, and the break price from that row on |
| Indicators.LastBrokeResistanceAt | bot.py:143-146 | With no resistance break there is no value anywhere. Otherwise row j holds the high of the last break row when j is at or after it, and no value before it |
| Indicators.LastBrokeSupportAt | bot.py:149-152 | The same for support breaks and the low of the last break row |
| Indicators.LastRowMatchesRatchet | bot.py:139-152 | On the last row, the only one read downstream, filling from the last break agrees with a carry-forward of the most recent break |
| Indicators.TrendIff | bot.py:155-156 | The trend is BULLISH exactly when the close is above the slow SMA, and BEARISH exactly when it is below. It is NEUTRAL when they are equal or the SMA has no value |
| Indicators.RowCarriesInput | bot.py:73-156 | Every output row keeps its candle and its library indicator values unchanged |
| KeyLevels.Recent | bot.py:163 | The recent window is the last min(100, n) rows of the frame |
| KeyLevels.ScanCandidates | bot.py:170-185 | The candidate loop returns exactly the specified candidates, scanned in order |
| KeyLevels.CandidatesSound | bot.py:170-185 | Every candidate has at least two touches. It comes from a flagged row at position 5..len-6 and carries that row's price |
| KeyLevels.CandidatesComplete | bot.py:170-185 | Every flagged row at position 5..len-6 whose price has at least two touches gives a candidate with that price and touch count |
| KeyLevels.OwnRowTouches | bot.py:174 | A positive candidate price always touches its own row, so detection counts the row itself |
| KeyLevels.NoTouchesAtNonPositivePrice | bot.py:174 | A price of zero or less touches no row, since the strict band around it is empty |
| KeyLevels.WithDynamic | bot.py:191-202 | The dynamic level is appended with one touch exactly when it has a value and no listed level lies strictly within 0.5% of it. Otherwise the list is unchanged |
| KeyLevels.SortInPlace | bot.py:206 | The in-place insertion sort leaves the array sorted by touches, most first, as a permutation of its old contents, and equal to the stable sort, so ties keep their detection order |
| KeyLevels.InsertNext | bot.py:206 | One insertion pass places a[i] into the sorted prefix after every element with at least as many touches, and leaves the rest of the array unchanged |
| KeyLevels.KeepTop | bot.py:205-211 | Sorting in place and slicing keeps min(3, n) levels, sorted by touches, all taken from the input, and exactly the top levels of the stable sort |
| KeyLevels.SortIsStable | bot.py:206 | The sort orders the levels by touches, non-increasing, and keeps the original order among ties |
| KeyLevels.SortIsPermutation | bot.py:206 | The sort is a permutation of its input |
| KeyLevels.TopLevelsShape | bot.py:205-211 | The result has min(3, n) levels, is sorted by touches, and is a prefix of the sorted list |
| KeyLevels.TopLevelsAreBest | bot.py:205-211 | The kept and dropped levels together are the input, and no dropped level has more touches than a kept one |
| KeyLevels.DetectedHaveTwoTouches | bot.py:175-176 | Every detected level has at least two touches, before and after sorting |
| KeyLevels.DynamicSupportKeptIff | bot.py:188-207 | A one-touch support is returned exactly when the dynamic support is added and fewer than three levels were detected. It then comes last, after the sorted detected levels |
| KeyLevels.DynamicResistanceKeptIff | bot.py:198-211 | The same for the dynamic resistance taken from the last support break |
| KeyLevels.IdentifyKeyLevels | bot.py:161-213 | An empty frame is an index error. Otherwise the two scans, the two dynamic-level steps and the sort-and-slice return exactly the specified supports and resistances, whose properties the lemmas above state |
| Signals.AnalyzeSignals | bot.py:216-338 | Fewer than two rows is an index error. Otherwise the explanations are the specified rule output and the votes are exactly the votes those explanations carry, in order |
| Signals.MaCrossIff | bot.py:226-231 | A moving-average cross-up is reported exactly when fast <= slow on the previous row and fast > slow on the last. A cross-down is reported exactly when the cross-up is not and the mirrored comparisons hold |
| Signals.RsiIff | bot.py:234-239 | Leaving oversold is reported exactly when the RSI rose through the oversold threshold. Leaving overbought is reported exactly when it did not, and the RSI fell through the overbought threshold |
| Signals.MacdCrossIff | bot.py:242-247 | MACD cross-up and cross-down fire exactly under the stated non-strict/strict comparisons, cross-up taking precedence |
| Signals.AdxIff | bot.py:250-256 | A strong-trend vote fires exactly when the ADX exceeds its threshold. It goes up when DI+ > DI- and down when DI- > DI+ |
| Signals.BollingerIff | bot.py:259-264 | A vote fires below the lower band exactly when the close is below it. A vote fires above the upper band exactly when the close is not below the lower band and is above the upper one |
| Signals.VolumeConfirmsIff | bot.py:267-277 | The vote-less volume confirmation is reported exactly when the volume ratio exceeds its threshold and an earlier rule already voted. It names LONG when any LONG vote exists, SHORT otherwise |
| Signals.VolumeBreakoutIff | bot.py:267-291 | A volume breakout vote fires exactly when the volume is high, no earlier rule voted, and the close moved more than 1% away from the previous close (up first, then down) |
| Signals.ExhaustionIff | bot.py:294-300 | An exhaustion vote fires exactly when the volume fell three times in a row in a bullish (bearish) trend |
| Signals.CloudIff | bot.py:303-310 | A cloud vote fires above the cloud with conversion > base, or below it with conversion < base, the first taking precedence |
| Signals.FutureCloudIff | bot.py:313-318 | A future-cloud vote fires exactly when the bullish (bearish) flag turned on between the previous and the last row, bullish taking precedence |
| Signals.KeyLevelIff | bot.py:321-336 | A level yields a vote exactly when levels were given, the level is one of them, and the close lies within the inclusive 1% band around it. This is one vote per such level |
| Signals.ExplanationSurplus | bot.py:226-336 | There is exactly one explanation more than votes when the volume is high and an earlier rule voted; otherwise there are exactly as many |
| Signals.ExplanationBound | bot.py:226-336 | There are never more votes than explanations. There are at most nine explanations plus one per key level |
| Signals.BlockRules | bot.py:226-336 | Each rule block only produces explanations of its own rule |
| Signals.SupportStep | bot.py:321-328 | The loop over supports appends exactly the supports the close is near, in list order, each one with its vote |
| Signals.ResistanceStep | bot.py:330-336 | The loop over resistances appends exactly the resistances the close is near, in list order, each one with its vote |
| Signals.RecommendIsStrictMajority | bot.py:437-445 | The recommendation is LONG exactly when LONG votes outnumber SHORT votes and there are at least two, mirrored for SHORT, so both are never chosen. Any recommendation needs at least two votes |
| Signals.RecommendIsSymmetric | bot.py:440-445 | Swapping every vote's direction swaps the LONG and SHORT recommendations and keeps NEUTRAL |
| Signals.RecommendExamples | bot.py:440-445 | Two LONG against one SHORT gives LONG. One against one, or a single vote, gives NEUTRAL |
| Legacy.LevelsAt | main.py:101-102 | The rolling support (resistance) has no value for the first 19 rows. After that it is the lowest low (highest high) of the last 20 candles |
| Legacy.LegacyAnalyze | main.py:107-144 | Fewer than two rows is an index error. Otherwise the messages are those of the five rule blocks, in order |
| Legacy.MessagesAreLabelled | main.py:115-142 | Every returned message starts with "LONG:" or "SHORT:" |
| Legacy.MessageLabel | main.py:115-142 | A message starts with "LONG:" exactly when its rule votes LONG, and with "SHORT:" exactly when it votes SHORT |
| Legacy.AtMostFive | main.py:115-142 | Each of the five blocks adds at most one message, so at most five are returned |
| Legacy.CrossIff | main.py:115-130 | The SMA and MACD crosses fire exactly under their <=/> and >=/< comparisons, the upward cross taking precedence |
| Legacy.RsiIff | main.py:121-124 | Leaving oversold (overbought) fires exactly when the RSI crossed 30 upwards (70 downwards), the first taking precedence. The oversold message carries the last RSI value |
| Legacy.BandIff | main.py:133-136 | The lower-band message fires exactly when the close is below the lower band. The upper-band message fires exactly when it is not and the close is above the upper band |
| Legacy.BreakNeverFires | main.py:101-142 | For a well-formed last candle (low <= close <= high), neither the support-break nor the resistance-break message can ever be produced, because both rolling windows include that candle |
| Backtest.InRangeIff | backtest.py:29 | A candle is kept exactly when it is in the data and its timestamp lies within both inclusive bounds |
| Backtest.InRangeKeepsOrder | backtest.py:29 | Filtering keeps the candles in increasing timestamp order |
| Backtest.NoLookAhead | backtest.py:41-51 | The call at index i depends only on candles 0..i. Two series with the same prefix give the same call |
| Backtest.StrongCallIsRecommendation | backtest.py:54-88 | The backtest's strong call is LONG, SHORT or none exactly when the terminal recommendation is LONG, SHORT or NEUTRAL |
| Backtest.FutureCloses | backtest.py:64-90 | The outcome window is exactly the ten closes at i+1..i+10 |
| Backtest.LongSuccessIff | backtest.py:64-79 | A LONG succeeds exactly when some future close reaches 1.01 times the entry. For a positive entry it succeeds exactly when the profit potential is at least 1% |
| Backtest.ShortSuccessIff | backtest.py:89-104 | A SHORT succeeds exactly when some future close falls to 0.99 times the entry. For a positive entry it succeeds exactly when the profit potential is at least 1%, and the profit is non-negative exactly when the minimum is at most the entry |
| Backtest.End | backtest.py:41-64 | Every evaluated index i satisfies i + 10 < len, so the guard always holds inside the loop |
| Backtest.TradesBound | backtest.py:41-106 | Indices 100..n-1 produce at most one record each |
| Backtest.TradeDates | backtest.py:74-100 | Every record is dated with the timestamp of an evaluated candle |
| Backtest.TradesInDateOrder | backtest.py:41-106 | On a series with increasing timestamps the records appear in strictly increasing date order |
| Backtest.CallAt | backtest.py:42-58 | One pass over the prefix returns the strong call of that prefix's votes |
| Backtest.Record | backtest.py:58-106 | Recording a call increments its direction's counter, and the success counter when it succeeds. It appends exactly the scored record, and the counters keep matching the records |
| Backtest.Replay | backtest.py:36-106 | The loop appends exactly the specified records. The counter maps hold, per direction, the number of records and of successful records |
| Backtest.SuccessesAtMostSignals | backtest.py:37-94 | In each direction the successful signals never outnumber the signals |
| Backtest.SignalsPartitionTrades | backtest.py:111 | The LONG and SHORT signal counts add up to the number of records |
| Backtest.RateBounds | backtest.py:114-118 | A rate lies in [0, 100]. It is 100 exactly when all signals succeeded and 0 exactly when none did, including the case with no signals |
| Backtest.ReportIsConsistent | backtest.py:111-118 | In the report, successes never exceed signals, the signal counts add up to the number of records, and all three rates lie in [0, 100] |
| Backtest.Summarize | backtest.py:111-120 | Statistics computed from the counters equal the report specified from the records |
| Backtest.RunBacktest | backtest.py:29-120 | No report when the filtered range gives no records. Otherwise the report of exactly those records |

## Left out

- Library indicators: the `ta` library indicators are inputs, not computations:
  - SMA, RSI, MACD, ADX/DI, Bollinger bands and the Ichimoku lines and spans (`bot.py` 48-101,
    `main.py` 82-98);
  - in the analysers, a `TaRow` per candle;
  - in the backtest, a function from a candle prefix to its rows, applied afresh to every prefix.
    That function is only required to give one row per candle.
- The 20-period volume SMA comes from the library too. Only the ratio computed from it is modelled.
- Network I/O: exchange access and the paginated fetch (`ccxt`). The candle series is an input.
- Presentation: Telegram delivery, charts, the Flask webhook, logging, `print` and the coloured
  terminal text. The strict-majority vote count of the terminal report is kept.
- Process loops: the infinite loops with `sleep` and the catch-all exception handlers. The index
  errors pandas raises on frames that are too short are modelled as `Err` results.
- The text of the explanation strings, including the `:.2f` float formatting. An explanation is a
  reason tag. Tags that carry a price or a ratio keep it as a real number.
- Floating point: prices are real numbers, so rounding in the 1%, 0.5% and quartile computations is
  not modelled.
- Indicators.VolumeRatio: a zero volume SMA gives `None`. NumPy would give infinity or NaN, and an
  infinite ratio would pass the threshold.
- Series-type checks: the `isinstance(..., pd.Series)` test at `bot.py:73` is always true, so the
  model computes the volume columns. The one at `bot.py:279-284` is always false, because a row
  element is a scalar, so the model follows the scalar comparison with the previous row's close at
  `bot.py:286-291`.
- Signals.ExhaustionIff: the `isinstance(..., bool)` guard at `bot.py:294` is taken as true, so the
  model reads the decreasing-volume flag as a plain boolean. In pandas the flag read from a row is
  most likely a NumPy boolean, which is not a Python `bool`. If so, the guard is always false and
  the bot never casts exhaustion votes, while the model does. The guard's real outcome is not
  modelled.
- Backtest.ProfitPotential: gives `None` for a zero entry price, where NumPy gives infinity or NaN.
- Backtest.AverageProfit: gives `None` as soon as one profit is `None`, whereas pandas' `mean`
  skips NaN.
- Indicators.LastBrokeColumn: follows the code, filling from the last break only. Row j therefore
  carries the price of the last break and not of the most recent break at or before j, which is
  what a carry-forward would hold. `LastRowMatchesRatchet` shows the two agree on the last row,
  the only one read downstream.
- Timestamps stay integers: the conversion with `pd.to_datetime` and the DataFrame index are not
  modelled. A record's date is its candle's timestamp.
- Backtest output: the printing of the statistics and the returned DataFrame are left out. The
  backtest returns its report, or nothing when there are no records.
