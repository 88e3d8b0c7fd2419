/**
 * backtest.py's `run_backtest`: keep the candles of a date range, replay the bot.py
 * analyzer on every prefix that leaves 100 rows of history and 20 rows of margin, and
 * score each strong call against the next 10 closes with a 1% target.
 */
module Backtest {
  import opened Common
  import opened Indicators
  import opened KeyLevels
  import opened Signals

  /** The first evaluated index: rows of history the indicators are given. */
  const Warmup: nat := 100
  /** Rows left unevaluated at the end of the frame. */
  const Margin: nat := 20
  /** How many closes after the entry the outcome looks at. */
  const Horizon: nat := 10

  // ---- The date range -----------------------------------------------------------------

  /** The list comprehension keeping candles with `start <= timestamp <= end`. */
  function InRange(candles: seq<Candle>, start: int, end: int): seq<Candle>
  {
    if candles == [] then []
    else
      var c := candles[|candles| - 1];
      InRange(candles[..|candles| - 1], start, end) + (if start <= c.timestamp <= end then [c] else [])
  }

  /** A candle is kept exactly when it is in the input and inside the range, both bounds
      inclusive. */
  lemma {:induction false} InRangeIff(candles: seq<Candle>, start: int, end: int)
    ensures |InRange(candles, start, end)| <= |candles|
    ensures forall c :: c in InRange(candles, start, end) <==> c in candles && start <= c.timestamp <= end
  {
    if candles != [] {
      var init := candles[..|candles| - 1];
      InRangeIff(init, start, end);
      assert candles == init + [candles[|candles| - 1]];
    }
  }

  predicate Increasing(candles: seq<Candle>)
  {
    forall i, j :: 0 <= i < j < |candles| ==> candles[i].timestamp < candles[j].timestamp
  }

  /** Filtering keeps the order of the input. */
  lemma {:induction false} InRangeKeepsOrder(candles: seq<Candle>, start: int, end: int)
    requires Increasing(candles)
    ensures Increasing(InRange(candles, start, end))
  {
    if candles != [] {
      var init, c := candles[..|candles| - 1], candles[|candles| - 1];
      var kept := InRange(init, start, end);
      assert Increasing(init) by {
        forall i, j | 0 <= i < j < |init| ensures init[i].timestamp < init[j].timestamp {
          assert init[i] == candles[i] && init[j] == candles[j];
        }
      }
      InRangeKeepsOrder(init, start, end);
      InRangeIff(init, start, end);
      forall k | 0 <= k < |kept| ensures kept[k].timestamp < c.timestamp {
        assert kept[k] in init;
        var q :| 0 <= q < |init| && init[q] == kept[k];
        assert candles[q] == kept[k];
      }
    }
  }

  // ---- One replayed call ----------------------------------------------------------------

  /** The indicator library applied to a frame of candles: one row of columns per candle. */
  type Library = seq<Candle> -> seq<TaRow>

  ghost predicate Fitting(ind: Library)
  {
    forall c: seq<Candle> :: |ind(c)| == |c|
  }

  /** `apply_technical_indicators(df.iloc[:i+1].copy())`. */
  function FrameAt(candles: seq<Candle>, ind: Library, i: nat): (rows: seq<Row>)
    requires Fitting(ind) && i < |candles|
    ensures |rows| == i + 1
  {
    var prefix := candles[..i + 1];
    ApplyIndicators(prefix, ind(prefix))
  }

  /** The votes `analyze_signals` casts on that frame, with its key levels. */
  function VotesAt(candles: seq<Candle>, ind: Library, cfg: Config, i: nat): seq<Direction>
    requires Fitting(ind) && 1 <= i < |candles|
  {
    var rows := FrameAt(candles, ind, i);
    VotesOf(Explain(rows[i - 1], rows[i], Some(KeyLevelsOf(rows)), cfg))
  }

  /** The if/elif on the two counts: a call needs at least two votes and more than the
      other side. */
  function StrongCall(votes: seq<Direction>): Option<Direction>
  {
    var longs, shorts := Count(votes, Long), Count(votes, Short);
    if longs >= 2 && longs > shorts then Some(Long)
    else if shorts >= 2 && shorts > longs then Some(Short)
    else None
  }

  /** The backtest's strong call and the terminal recommendation agree on every vote list. */
  lemma StrongCallIsRecommendation(votes: seq<Direction>)
    ensures StrongCall(votes) == Some(Long) <==> Recommend(votes) == GoLong
    ensures StrongCall(votes) == Some(Short) <==> Recommend(votes) == GoShort
    ensures StrongCall(votes) == None <==> Recommend(votes) == StayNeutral
  {
  }

  /** The call at index i depends on candles 0..i only. */
  lemma NoLookAhead(a: seq<Candle>, b: seq<Candle>, ind: Library, cfg: Config, i: nat)
    requires Fitting(ind) && 1 <= i < |a| && i < |b|
    requires a[..i + 1] == b[..i + 1]
    ensures StrongCall(VotesAt(a, ind, cfg, i)) == StrongCall(VotesAt(b, ind, cfg, i))
  {
    assert FrameAt(a, ind, i) == FrameAt(b, ind, i);
  }

  // ---- Scoring ------------------------------------------------------------------------

  /** One entry of `results`: `extreme` is `max_future_price` for a LONG and
      `min_future_price` for a SHORT. `profit` has no value when the entry price is 0,
      where the division gives no finite number. */
  datatype Trade = Trade(date: int, signal: Direction, entry: real, extreme: real, profit: Option<real>, success: bool)

  /** `df['close'].iloc[i+1:i+11]`. */
  function FutureCloses(candles: seq<Candle>, i: nat): (r: seq<real>)
    requires i + Horizon < |candles|
    ensures |r| == Horizon
    ensures forall k {:trigger r[k]} :: 0 <= k < Horizon ==> r[k] == candles[i + 1 + k].close
  {
    Closes(candles[i + 1..i + 1 + Horizon])
  }

  function ProfitPotential(gain: real, entry: real): Option<real>
  {
    if entry == 0.0 then None else Some(gain / entry * 100.0)
  }

  function ScoreLong(date: int, entry: real, future: seq<real>): Trade
    requires |future| > 0
  {
    var top := MaxOf(future);
    Trade(date, Long, entry, top, ProfitPotential(top - entry, entry), top >= entry * 1.01)
  }

  function ScoreShort(date: int, entry: real, future: seq<real>): Trade
    requires |future| > 0
  {
    var bottom := MinOf(future);
    Trade(date, Short, entry, bottom, ProfitPotential(entry - bottom, entry), bottom <= entry * 0.99)
  }

  /** A LONG succeeds iff some later close reaches 1.01 x entry; for a positive entry that
      is a profit potential of at least 1%. */
  lemma LongSuccessIff(date: int, entry: real, future: seq<real>)
    requires |future| > 0
    ensures var t := ScoreLong(date, entry, future);
      t.signal == Long &&
      (t.success <==> exists k :: 0 <= k < |future| && future[k] >= entry * 1.01) &&
      (entry > 0.0 ==> t.profit.Some? && (t.success <==> t.profit.value >= 1.0))
  {
    var top := MaxOf(future);
    if entry > 0.0 {
      ScaledAtLeast(top - entry, entry, 0.01);
    }
  }

  /** A SHORT succeeds iff some later close falls to 0.99 x entry; for a positive entry
      that is a profit potential of at least 1%, and the potential is non-negative iff
      the lowest close does not exceed the entry. */
  lemma ShortSuccessIff(date: int, entry: real, future: seq<real>)
    requires |future| > 0
    ensures var t := ScoreShort(date, entry, future);
      t.signal == Short &&
      (t.success <==> exists k :: 0 <= k < |future| && future[k] <= entry * 0.99) &&
      (entry > 0.0 ==> t.profit.Some? && (t.success <==> t.profit.value >= 1.0) &&
                       (t.profit.value >= 0.0 <==> t.extreme <= entry))
  {
    var bottom := MinOf(future);
    if entry > 0.0 {
      ScaledAtLeast(entry - bottom, entry, 0.01);
      ScaledAtLeast(entry - bottom, entry, 0.0);
    }
  }

  /** For a positive entry, gain / entry x 100 >= 100 x q exactly when gain >= q x entry. */
  lemma ScaledAtLeast(gain: real, entry: real, q: real)
    requires entry > 0.0
    ensures gain / entry * 100.0 >= q * 100.0 <==> gain >= q * entry
  {
    var ratio := gain / entry;
    assert ratio * entry == gain;
    if ratio >= q {
      assert ratio * entry >= q * entry;
    } else {
      assert ratio * entry < q * entry;
    }
  }

  /** The record made at index i for a call: none without a strong call, else the entry
      scored against the next ten closes. */
  function Score(candles: seq<Candle>, i: nat, call: Option<Direction>): Option<Trade>
    requires i + Horizon < |candles|
  {
    match call
    case None => None
    case Some(d) =>
      var date, entry, future := candles[i].timestamp, candles[i].close, FutureCloses(candles, i);
      Some(if d == Long then ScoreLong(date, entry, future) else ScoreShort(date, entry, future))
  }

  /** The record made at index i, if the call there is strong. */
  function TradeAt(candles: seq<Candle>, ind: Library, cfg: Config, i: nat): Option<Trade>
    requires Fitting(ind) && 1 <= i && i + Horizon < |candles|
  {
    Score(candles, i, StrongCall(VotesAt(candles, ind, cfg, i)))
  }

  /** One past the last evaluated index: `range(100, len(df) - 20)`, empty when the frame
      has fewer than 120 rows. */
  function End(candles: seq<Candle>): (n: nat)
    ensures n >= Warmup
    ensures n > Warmup ==> n - 1 + Horizon < |candles|
  {
    if |candles| >= Warmup + Margin then |candles| - Margin else Warmup
  }

  /** The records of the indices Warmup..n-1, in index order. */
  function TradesUpTo(candles: seq<Candle>, ind: Library, cfg: Config, n: nat): seq<Trade>
    requires Fitting(ind) && Warmup <= n <= End(candles)
  {
    if n == Warmup then []
    else
      TradesUpTo(candles, ind, cfg, n - 1) + Added(candles, ind, cfg, n - 1)
  }

  /** What index i appends to `results`: its record, if any. */
  function Added(candles: seq<Candle>, ind: Library, cfg: Config, i: nat): seq<Trade>
    requires Fitting(ind) && 1 <= i && i + Horizon < |candles|
  {
    match TradeAt(candles, ind, cfg, i) case None => [] case Some(t) => [t]
  }

  function Trades(candles: seq<Candle>, ind: Library, cfg: Config): seq<Trade>
    requires Fitting(ind)
  {
    TradesUpTo(candles, ind, cfg, End(candles))
  }

  // ---- Counters and rates -------------------------------------------------------------

  function SignalCount(trades: seq<Trade>, d: Direction): (n: nat)
    ensures n <= |trades|
  {
    if trades == [] then 0
    else SignalCount(trades[..|trades| - 1], d) + (if trades[|trades| - 1].signal == d then 1 else 0)
  }

  function SuccessCount(trades: seq<Trade>, d: Direction): nat
  {
    if trades == [] then 0
    else
      var t := trades[|trades| - 1];
      SuccessCount(trades[..|trades| - 1], d) + (if t.signal == d && t.success then 1 else 0)
  }

  /** `successful_signals[d] <= signals_count[d]`. */
  lemma {:induction false} SuccessesAtMostSignals(trades: seq<Trade>, d: Direction)
    ensures SuccessCount(trades, d) <= SignalCount(trades, d)
  {
    if trades != [] {
      SuccessesAtMostSignals(trades[..|trades| - 1], d);
    }
  }

  /** Every record is counted under exactly one direction. */
  lemma {:induction false} SignalsPartitionTrades(trades: seq<Trade>)
    ensures SignalCount(trades, Long) + SignalCount(trades, Short) == |trades|
  {
    if trades != [] {
      SignalsPartitionTrades(trades[..|trades| - 1]);
    }
  }

  /** `k / n * 100` when `n > 0`, else 0. */
  function Rate(k: nat, n: nat): real
  {
    if n > 0 then (k as real / n as real) * 100.0 else 0.0
  }

  /** A rate of k successes out of n signals lies in [0, 100]; it is 100 only when all
      succeeded and 0 exactly when none did or there were none. */
  lemma RateBounds(k: nat, n: nat)
    requires k <= n
    ensures 0.0 <= Rate(k, n) <= 100.0
    ensures Rate(k, n) == 100.0 <==> n > 0 && k == n
    ensures Rate(k, n) == 0.0 <==> k == 0
  {
    if n > 0 {
      var kr, nr := k as real, n as real;
      var q := kr / nr;
      assert q * nr == kr;
      if q < 0.0 {
        PositiveProduct(-q, nr);
      }
      if q > 1.0 {
        PositiveProduct(q - 1.0, nr);
      }
      assert 0.0 <= q <= 1.0;
      if q == 1.0 {
        assert kr == nr;
      }
      if k == n {
        assert q == 1.0;
      }
    }
  }

  lemma PositiveProduct(a: real, b: real)
    requires a > 0.0 && b > 0.0
    ensures a * b > 0.0
  {
  }

  function SumProfits(trades: seq<Trade>): Option<real>
  {
    if trades == [] then Some(0.0)
    else
      match (SumProfits(trades[..|trades| - 1]), trades[|trades| - 1].profit)
      case (Some(s), Some(p)) => Some(s + p)
      case _ => None
  }

  /** `results_df['profit_potential'].mean()`; no value once a record has none. */
  function AverageProfit(trades: seq<Trade>): Option<real>
    requires trades != []
  {
    match SumProfits(trades)
    case None => None
    case Some(s) => Some(s / |trades| as real)
  }

  /** What `run_backtest` reports when it made at least one record. */
  datatype Report = Report(
    trades: seq<Trade>,
    signalsCount: map<Direction, nat>,
    successful: map<Direction, nat>,
    successRate: real,
    longRate: real,
    shortRate: real,
    averageProfit: Option<real>)

  /** `signals_count`: the records per direction. */
  function SignalTally(trades: seq<Trade>): map<Direction, nat>
  {
    map[Long := SignalCount(trades, Long), Short := SignalCount(trades, Short)]
  }

  /** `successful_signals`: the successful records per direction. */
  function SuccessTally(trades: seq<Trade>): map<Direction, nat>
  {
    map[Long := SuccessCount(trades, Long), Short := SuccessCount(trades, Short)]
  }

  /** The two counters of the loop hold the tallies of the records made so far. */
  predicate Tallied(signalsCount: map<Direction, nat>, successfulSignals: map<Direction, nat>, trades: seq<Trade>)
  {
    && Long in signalsCount && Short in signalsCount
    && Long in successfulSignals && Short in successfulSignals
    && signalsCount[Long] == SignalCount(trades, Long) && signalsCount[Short] == SignalCount(trades, Short)
    && successfulSignals[Long] == SuccessCount(trades, Long) && successfulSignals[Short] == SuccessCount(trades, Short)
  }

  /** The counters are then exactly the tallies. */
  lemma TalliedIsTally(signalsCount: map<Direction, nat>, successfulSignals: map<Direction, nat>, trades: seq<Trade>)
    requires Tallied(signalsCount, successfulSignals, trades)
    ensures signalsCount == SignalTally(trades) && successfulSignals == SuccessTally(trades)
  {
    BothDirections(signalsCount);
    BothDirections(successfulSignals);
  }

  function ReportOf(trades: seq<Trade>): Report
    requires trades != []
  {
    var total := SignalCount(trades, Long) + SignalCount(trades, Short);
    var won := SuccessCount(trades, Long) + SuccessCount(trades, Short);
    Report(trades, SignalTally(trades), SuccessTally(trades),
           Rate(won, total),
           Rate(SuccessCount(trades, Long), SignalCount(trades, Long)),
           Rate(SuccessCount(trades, Short), SignalCount(trades, Short)),
           AverageProfit(trades))
  }

  /** Every rate of a report lies in [0, 100], and each direction's successes are at most
      its signals, which add up to the number of records. */
  lemma ReportIsConsistent(trades: seq<Trade>)
    requires trades != []
    ensures var r := ReportOf(trades);
      && r.successful[Long] <= r.signalsCount[Long]
      && r.successful[Short] <= r.signalsCount[Short]
      && r.signalsCount[Long] + r.signalsCount[Short] == |trades|
      && 0.0 <= r.successRate <= 100.0 && 0.0 <= r.longRate <= 100.0 && 0.0 <= r.shortRate <= 100.0
  {
    hide Rate, AverageProfit;
    SuccessesAtMostSignals(trades, Long);
    SuccessesAtMostSignals(trades, Short);
    SignalsPartitionTrades(trades);
    RateBounds(SuccessCount(trades, Long) + SuccessCount(trades, Short), SignalCount(trades, Long) + SignalCount(trades, Short));
    RateBounds(SuccessCount(trades, Long), SignalCount(trades, Long));
    RateBounds(SuccessCount(trades, Short), SignalCount(trades, Short));
  }

  // ---- Properties of the replay ----------------------------------------------------------

  /** At most one record per evaluated index, and no record without a strong call. */
  lemma {:induction false} TradesBound(candles: seq<Candle>, ind: Library, cfg: Config, n: nat)
    requires Fitting(ind) && Warmup <= n <= End(candles)
    ensures |TradesUpTo(candles, ind, cfg, n)| <= n - Warmup
  {
    hide Added;
    if n > Warmup {
      AddedDated(candles, ind, cfg, n - 1);
      TradesBound(candles, ind, cfg, n - 1);
    }
  }

  predicate DatesIncreasing(trades: seq<Trade>)
  {
    forall i, j :: 0 <= i < j < |trades| ==> trades[i].date < trades[j].date
  }

  /** Each record of the indices below n is dated by the candle of its index. */
  lemma {:induction false} TradeDates(candles: seq<Candle>, ind: Library, cfg: Config, n: nat)
    requires Fitting(ind) && Warmup <= n <= End(candles)
    ensures forall t :: t in TradesUpTo(candles, ind, cfg, n) ==>
      exists i :: Warmup <= i < n && t.date == candles[i].timestamp
  {
    hide Added;
    if n > Warmup {
      TradesUpToNext(candles, ind, cfg, n - 1);
      AddedDated(candles, ind, cfg, n - 1);
      TradeDates(candles, ind, cfg, n - 1);
      AppendDated(TradesUpTo(candles, ind, cfg, n - 1), Added(candles, ind, cfg, n - 1), candles, n - 1);
    }
  }

  /** Appending records dated by candle n to records dated by candles Warmup..n-1. */
  lemma AppendDated(before: seq<Trade>, added: seq<Trade>, candles: seq<Candle>, n: nat)
    requires Warmup <= n < |candles|
    requires forall t :: t in before ==> exists i :: Warmup <= i < n && t.date == candles[i].timestamp
    requires forall t :: t in added ==> t.date == candles[n].timestamp
    ensures forall t :: t in before + added ==> exists i :: Warmup <= i < n + 1 && t.date == candles[i].timestamp
  {
    forall t | t in before + added ensures exists i :: Warmup <= i < n + 1 && t.date == candles[i].timestamp {
      if t in before {
        var i :| Warmup <= i < n && t.date == candles[i].timestamp;
      }
    }
  }

  /** Index i appends at most one record, dated by candle i. */
  lemma AddedDated(candles: seq<Candle>, ind: Library, cfg: Config, i: nat)
    requires Fitting(ind) && 1 <= i && i + Horizon < |candles|
    ensures |Added(candles, ind, cfg, i)| <= 1
    ensures forall t :: t in Added(candles, ind, cfg, i) ==> t.date == candles[i].timestamp
  {
    hide VotesAt, StrongCall;
  }

  /** With increasing timestamps the records come out in increasing date order. */
  lemma {:induction false} TradesInDateOrder(candles: seq<Candle>, ind: Library, cfg: Config, n: nat)
    requires Fitting(ind) && Warmup <= n <= End(candles)
    requires Increasing(candles)
    ensures DatesIncreasing(TradesUpTo(candles, ind, cfg, n))
  {
    hide Added;
    if n > Warmup {
      TradesUpToNext(candles, ind, cfg, n - 1);
      AddedDated(candles, ind, cfg, n - 1);
      TradesInDateOrder(candles, ind, cfg, n - 1);
      TradeDates(candles, ind, cfg, n - 1);
      AppendLater(TradesUpTo(candles, ind, cfg, n - 1), Added(candles, ind, cfg, n - 1), candles, n - 1);
    }
  }

  /** Appending at most one record dated by candle n keeps the dates increasing when the
      earlier records are dated by earlier candles. */
  lemma AppendLater(before: seq<Trade>, added: seq<Trade>, candles: seq<Candle>, n: nat)
    requires n < |candles| && Increasing(candles) && |added| <= 1
    requires DatesIncreasing(before)
    requires forall t :: t in before ==> exists i :: Warmup <= i < n && t.date == candles[i].timestamp
    requires forall t :: t in added ==> t.date == candles[n].timestamp
    ensures DatesIncreasing(before + added)
  {
    if added != [] {
      assert added[0] in added;
      forall k | 0 <= k < |before| ensures before[k].date < candles[n].timestamp {
        assert before[k] in before;
        var i :| Warmup <= i < n && before[k].date == candles[i].timestamp;
      }
      var all := before + added;
      forall i, j | 0 <= i < j < |all| ensures all[i].date < all[j].date {
        if j < |before| {
          assert all[i] == before[i] && all[j] == before[j];
        } else {
          assert all[i] == before[i] && all[j] == added[0];
        }
      }
    } else {
      assert before + added == before;
    }
  }

  // ---- The imperative replay ------------------------------------------------------------

  /** One pass of the loop body up to the count: the analyzer run on the prefix, as bot.py
      runs it, and the strong call taken from its votes. */
  method CallAt(candles: seq<Candle>, ind: Library, cfg: Config, i: nat) returns (call: Option<Direction>)
    requires Fitting(ind) && Warmup <= i < |candles|
    ensures call == StrongCall(VotesAt(candles, ind, cfg, i))
  {
    hide Explain, KeyLevelsOf, ApplyIndicators, MakeRow, DerivedColumns;
    var prefix := candles[..i + 1];
    var rows := ApplyIndicators(prefix, ind(prefix));
    var levels := IdentifyKeyLevels(rows);
    var analysis := AnalyzeSignals(rows, Some(levels.value), cfg);
    var signals := analysis.value.0;
    assert rows == FrameAt(candles, ind, i);
    assert |rows| == i + 1;
    assert levels == Ok(KeyLevelsOf(rows));
    var e := Explain(rows[i - 1], rows[i], Some(KeyLevelsOf(rows)), cfg);
    assert analysis == Ok((VotesOf(e), e));
    assert VotesAt(candles, ind, cfg, i) == VotesOf(e);
    assert signals == VotesAt(candles, ind, cfg, i);
    hide VotesAt, VotesOf, FrameAt;
    var longCount, shortCount := Count(signals, Long), Count(signals, Short);
    if longCount >= 2 && longCount > shortCount {
      call := Some(Long);
    } else if shortCount >= 2 && shortCount > longCount {
      call := Some(Short);
    } else {
      call := None;
    }
  }

  /** The loop body of `run_backtest` after the call at index i: for a strong call, the
      counter updates and the record scored against the next ten closes. */
  method Record(candles: seq<Candle>, i: nat, call: Option<Direction>, results: seq<Trade>,
                signalsCount: map<Direction, nat>, successfulSignals: map<Direction, nat>)
    returns (results': seq<Trade>, signalsCount': map<Direction, nat>, successfulSignals': map<Direction, nat>)
    requires i + Margin < |candles|
    requires Tallied(signalsCount, successfulSignals, results)
    ensures results' == results + match Score(candles, i, call) case None => [] case Some(t) => [t]
    ensures Tallied(signalsCount', successfulSignals', results')
  {
    results', signalsCount', successfulSignals' := results, signalsCount, successfulSignals;
    if call == Some(Long) {
      signalsCount' := signalsCount'[Long := signalsCount'[Long] + 1];
      var entryPrice := candles[i].close;
      if i + Horizon < |candles| {
        var futurePrices := FutureCloses(candles, i);
        var maxPrice := MaxOf(futurePrices);
        var success := maxPrice >= entryPrice * 1.01;
        if success {
          successfulSignals' := successfulSignals'[Long := successfulSignals'[Long] + 1];
        }
        var t := Trade(candles[i].timestamp, Long, entryPrice, maxPrice,
                       ProfitPotential(maxPrice - entryPrice, entryPrice), success);
        assert Score(candles, i, call) == Some(t);
        CountsAppend(results', t);
        results' := results' + [t];
      }
    } else if call == Some(Short) {
      signalsCount' := signalsCount'[Short := signalsCount'[Short] + 1];
      var entryPrice := candles[i].close;
      if i + Horizon < |candles| {
        var futurePrices := FutureCloses(candles, i);
        var minPrice := MinOf(futurePrices);
        var success := minPrice <= entryPrice * 0.99;
        if success {
          successfulSignals' := successfulSignals'[Short := successfulSignals'[Short] + 1];
        }
        var t := Trade(candles[i].timestamp, Short, entryPrice, minPrice,
                       ProfitPotential(entryPrice - minPrice, entryPrice), success);
        assert Score(candles, i, call) == Some(t);
        CountsAppend(results', t);
        results' := results' + [t];
      }
    }
  }

  lemma TradesUpToNext(candles: seq<Candle>, ind: Library, cfg: Config, n: nat)
    requires Fitting(ind) && Warmup <= n < End(candles)
    ensures TradesUpTo(candles, ind, cfg, n + 1) == TradesUpTo(candles, ind, cfg, n) + Added(candles, ind, cfg, n)
  {
    hide Added;
  }

  /** Appending a record adds one to its direction's signal count, and one to its
      direction's success count when it succeeded. */
  lemma CountsAppend(results: seq<Trade>, t: Trade)
    ensures forall d :: SignalCount(results + [t], d) == SignalCount(results, d) + (if t.signal == d then 1 else 0)
    ensures forall d :: SuccessCount(results + [t], d) == SuccessCount(results, d) + (if t.signal == d && t.success then 1 else 0)
  {
    forall d: Direction ensures SignalCount(results + [t], d) == SignalCount(results, d) + (if t.signal == d then 1 else 0) {
      SignalCountAppend(results, t, d);
    }
    forall d: Direction ensures SuccessCount(results + [t], d) == SuccessCount(results, d) + (if t.signal == d && t.success then 1 else 0) {
      SuccessCountAppend(results, t, d);
    }
  }

  lemma SignalCountAppend(results: seq<Trade>, t: Trade, d: Direction)
    ensures SignalCount(results + [t], d) == SignalCount(results, d) + (if t.signal == d then 1 else 0)
  {
    assert (results + [t])[..|results|] == results;
  }

  lemma SuccessCountAppend(results: seq<Trade>, t: Trade, d: Direction)
    ensures SuccessCount(results + [t], d) == SuccessCount(results, d) + (if t.signal == d && t.success then 1 else 0)
  {
    assert (results + [t])[..|results|] == results;
  }

  /** A map over both directions is the display of its two entries. */
  lemma BothDirections(m: map<Direction, nat>)
    requires Long in m && Short in m
    ensures m == map[Long := m[Long], Short := m[Short]]
  {
    assert forall d :: d in m <==> d == Long || d == Short;
  }

  /** The loop of `run_backtest`: `range(100, len(df) - 20)`, one step per index. */
  method Replay(candles: seq<Candle>, ind: Library, cfg: Config)
    returns (results: seq<Trade>, signalsCount: map<Direction, nat>, successfulSignals: map<Direction, nat>)
    requires Fitting(ind)
    ensures results == Trades(candles, ind, cfg)
    ensures Tallied(signalsCount, successfulSignals, results)
  {
    hide VotesAt, StrongCall, Score;
    results := [];
    signalsCount := map[Long := 0, Short := 0];
    successfulSignals := map[Long := 0, Short := 0];
    var i := Warmup;
    while i < |candles| - Margin
      invariant Warmup <= i <= End(candles)
      invariant results == TradesUpTo(candles, ind, cfg, i)
      invariant Tallied(signalsCount, successfulSignals, results)
    {
      var call := CallAt(candles, ind, cfg, i);
      TradesUpToNext(candles, ind, cfg, i);
      results, signalsCount, successfulSignals := Record(candles, i, call, results, signalsCount, successfulSignals);
      i := i + 1;
    }
  }

  /** `run_backtest` after the fetch: the candles of the range, replayed index by index;
      no report when no record was made. */
  method RunBacktest(data: seq<Candle>, start: int, end: int, ind: Library, cfg: Config) returns (r: Option<Report>)
    requires Fitting(ind)
    ensures var trades := Trades(InRange(data, start, end), ind, cfg);
      (r.None? <==> trades == []) && (r.Some? ==> r.value == ReportOf(trades))
  {
    var candles := InRange(data, start, end);
    var results, signalsCount, successfulSignals := Replay(candles, ind, cfg);
    if results == [] {
      return None;
    }
    var report := Summarize(results, signalsCount, successfulSignals);
    r := Some(report);
  }

  /** The statistics `run_backtest` computes from the loop's counters and records. */
  method Summarize(results: seq<Trade>, signalsCount: map<Direction, nat>, successfulSignals: map<Direction, nat>)
    returns (report: Report)
    requires results != [] && Tallied(signalsCount, successfulSignals, results)
    ensures report == ReportOf(results)
  {
    var totalSignals := signalsCount[Long] + signalsCount[Short];
    var totalSuccessful := successfulSignals[Long] + successfulSignals[Short];
    var successRate := if totalSignals > 0 then (totalSuccessful as real / totalSignals as real) * 100.0 else 0.0;
    var longRate := if signalsCount[Long] > 0 then (successfulSignals[Long] as real / signalsCount[Long] as real) * 100.0 else 0.0;
    var shortRate := if signalsCount[Short] > 0 then (successfulSignals[Short] as real / signalsCount[Short] as real) * 100.0 else 0.0;
    assert successRate == Rate(totalSuccessful, totalSignals);
    assert longRate == Rate(successfulSignals[Long], signalsCount[Long]);
    assert shortRate == Rate(successfulSignals[Short], signalsCount[Short]);
    TalliedIsTally(signalsCount, successfulSignals, results);
    hide Rate, SignalCount, SuccessCount, AverageProfit, Tallied;
    report := Report(results, signalsCount, successfulSignals, successRate, longRate, shortRate, AverageProfit(results));
  }
}
