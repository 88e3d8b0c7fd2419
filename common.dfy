/**
 * Shared vocabulary of the trading-signal core: optional values (pandas NaN/None),
 * results for the IndexError paths, vote directions, the configuration thresholds,
 * NaN-aware comparisons and small numeric helpers over sequences of prices.
 */
module Common {

  /** `None` stands for a pandas NaN / Python None cell: "no value". */
  datatype Option<T> = None | Some(value: T)

  /** The only failure the core raises on its own: a positional row access
      (`iloc[-1]`, `iloc[-2]`) on a frame that has too few rows. */
  datatype Error = IndexOutOfRange

  datatype Result<T> = Ok(value: T) | Err(error: Error)

  /** A directional vote. */
  datatype Direction = Long | Short

  /** The thresholds and windows of initial_config.py. The window lengths only feed the
      indicator library, which this model takes as input; they are kept so that a
      configuration object carries every option the program reads. */
  datatype Config = Config(
    fastMa: nat, slowMa: nat,
    rsiPeriod: nat, rsiOverbought: real, rsiOversold: real,
    macdFast: nat, macdSlow: nat, macdSignal: nat,
    adxPeriod: nat, adxThreshold: real,
    volumeThreshold: real)

  const DefaultConfig: Config :=
    Config(9, 21, 14, 70.0, 30.0, 12, 26, 9, 14, 25.0, 1.5)

  // Comparisons as pandas evaluates them: any comparison with NaN is false.

  predicate Lt(a: Option<real>, b: Option<real>) { a.Some? && b.Some? && a.value < b.value }
  predicate Le(a: Option<real>, b: Option<real>) { a.Some? && b.Some? && a.value <= b.value }
  predicate Gt(a: Option<real>, b: Option<real>) { a.Some? && b.Some? && a.value > b.value }
  predicate Ge(a: Option<real>, b: Option<real>) { a.Some? && b.Some? && a.value >= b.value }

  function Abs(x: real): (r: real)
    ensures r >= 0.0
    ensures r == x || r == -x
  {
    if x < 0.0 then -x else x
  }

  /** Python's `min` over a non-empty list of prices. */
  function MinOf(s: seq<real>): (m: real)
    requires |s| > 0
    ensures m in s
    ensures forall k :: 0 <= k < |s| ==> m <= s[k]
  {
    if |s| == 1 then s[0]
    else
      var rest := MinOf(s[1..]);
      if s[0] <= rest then s[0] else rest
  }

  /** Python's `max` over a non-empty list of prices. */
  function MaxOf(s: seq<real>): (m: real)
    requires |s| > 0
    ensures m in s
    ensures forall k :: 0 <= k < |s| ==> s[k] <= m
  {
    if |s| == 1 then s[0]
    else
      var rest := MaxOf(s[1..]);
      if s[0] >= rest then s[0] else rest
  }

  /** `sum(1 for s in signals if s == d)`. */
  function Count(signals: seq<Direction>, d: Direction): (n: nat)
    ensures n <= |signals|
    ensures n == 0 <==> d !in signals
  {
    if signals == [] then 0
    else Count(signals[..|signals| - 1], d) + (if signals[|signals| - 1] == d then 1 else 0)
  }

  /** Every vote is either LONG or SHORT, so the two counts add up to the number of votes. */
  lemma {:induction false} CountsPartitionVotes(signals: seq<Direction>)
    ensures Count(signals, Long) + Count(signals, Short) == |signals|
  {
    if signals != [] {
      CountsPartitionVotes(signals[..|signals| - 1]);
    }
  }

  lemma {:induction false} CountAppend(a: seq<Direction>, b: seq<Direction>, d: Direction)
    ensures Count(a + b, d) == Count(a, d) + Count(b, d)
    decreases |b|
  {
    if b == [] {
      assert a + b == a;
    } else {
      assert (a + b)[..|a + b| - 1] == a + b[..|b| - 1];
      CountAppend(a, b[..|b| - 1], d);
    }
  }
}
