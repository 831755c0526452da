/** OHLCV candles as fetched from the exchange, oldest first, and the two ways
    the handler looks at the end of the series: the last row and the trailing
    `k` rows (`df.tail(k)`). */
module Candles {

  /** One kline row after `astype(float)`: open time in milliseconds, open,
      high, low, close and volume. Every column is a float, the time too. */
  datatype Candle = Candle(t: real, o: real, h: real, l: real, c: real, v: real)

  function Min(a: int, b: int): int {
    if a <= b then a else b
  }

  /** A candle whose low does not lie above its high. */
  predicate WellFormed(x: Candle) {
    x.l <= x.h
  }

  /** The most recent row (`iloc[-1]`). */
  function Last(s: seq<Candle>): (x: Candle)
    requires |s| > 0
    ensures x in s
    ensures x == s[|s| - 1]
  {
    s[|s| - 1]
  }

  /** `tail(k)`: the last `k` rows, or all of them when there are fewer, in their
      original order. */
  function Tail<T>(s: seq<T>, k: nat): (r: seq<T>)
    ensures |r| == Min(k, |s|)
    ensures forall i :: 0 <= i < |r| ==> r[i] == s[|s| - |r| + i]
  {
    if |s| <= k then s else s[|s| - k..]
  }
}
