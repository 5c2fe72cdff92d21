/**
 * Shared vocabulary of the stock analysis core: optional values (pandas NaN
 * and Python None), points in time, OHLCV bars, and the comparison rules
 * Python applies when one side of a comparison is NaN.
 */
module Common {

  /** A value that may be missing: `None` stands for Python's None and for a NaN float. */
  datatype Option<+T> = None | Some(value: T) {
    /** `x if x is not None else default` */
    function GetOr(default: T): T {
      if Some? then value else default
    }
  }

  /** A point in time, counted in seconds from an epoch (a Python datetime). */
  type Instant = int

  const SECONDS_PER_DAY: int := 86400

  /** `t + timedelta(days=d)` */
  function AddDays(t: Instant, d: int): Instant {
    t + d * SECONDS_PER_DAY
  }

  /** One row of an OHLCV price history. */
  datatype Bar = Bar(date: Instant, open: real, high: real, low: real, close: real, volume: int)

  /** A derived column aligned with the bars; `None` where pandas holds NaN. */
  type Series = seq<Option<real>>

  // Python's ordering on floats: every comparison with a NaN operand is False.

  predicate Lt(a: Option<real>, b: Option<real>) {
    a.Some? && b.Some? && a.value < b.value
  }

  predicate Gt(a: Option<real>, b: Option<real>) {
    a.Some? && b.Some? && a.value > b.value
  }

  predicate Le(a: Option<real>, b: Option<real>) {
    a.Some? && b.Some? && a.value <= b.value
  }

  predicate Ge(a: Option<real>, b: Option<real>) {
    a.Some? && b.Some? && a.value >= b.value
  }

  function Abs(x: real): real {
    if x < 0.0 then -x else x
  }

  /** A positive factor cancels from both sides of an equation. */
  lemma CancelPositive(x: real, y: real, t: real)
    requires t > 0.0 && x * t == y * t
    ensures x == y
  {
  }

  /** `s.iloc[-1]` on a non-empty column. */
  function Last<T>(s: seq<T>): T
    requires |s| > 0
  {
    s[|s| - 1]
  }

  /** `sum(xs)` */
  function Sum(xs: seq<real>): real {
    if xs == [] then 0.0 else Sum(xs[..|xs| - 1]) + Last(xs)
  }

  /** The arithmetic mean of a non-empty list. */
  function Mean(xs: seq<real>): real
    requires xs != []
  {
    Sum(xs) / (|xs| as real)
  }

  /** `s.tail(n)`: the last `n` elements, or all of them when there are fewer. */
  function Tail<T>(s: seq<T>, n: nat): (t: seq<T>)
    ensures |t| == if n < |s| then n else |s|
    ensures forall i :: 0 <= i < |t| ==> t[i] == s[|s| - |t| + i]
  {
    if n < |s| then s[|s| - n..] else s
  }
}
