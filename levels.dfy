/** Support and resistance over the trailing window of candles, and the
    stop-loss / take-profit pair the handler derives from them and the signal. */
module Levels {
  import opened Candles
  import opened Signals

  datatype Option<T> = None | Some(value: T)

  /** Number of trailing candles the levels are taken over (`tail(20)`). */
  const WINDOW: nat := 20

  /** The lowest `l` of a non-empty run of candles (`.min()`). */
  function LowestLow(s: seq<Candle>): (r: real)
    requires |s| > 0
    ensures forall i :: 0 <= i < |s| ==> r <= s[i].l
    ensures exists i :: 0 <= i < |s| && r == s[i].l
  {
    if |s| == 1 then s[0].l
    else
      var m := LowestLow(s[1..]);
      if s[0].l <= m then s[0].l else m
  }

  /** The highest `h` of a non-empty run of candles (`.max()`). */
  function HighestHigh(s: seq<Candle>): (r: real)
    requires |s| > 0
    ensures forall i :: 0 <= i < |s| ==> s[i].h <= r
    ensures exists i :: 0 <= i < |s| && r == s[i].h
  {
    if |s| == 1 then s[0].h
    else
      var m := HighestHigh(s[1..]);
      if s[0].h >= m then s[0].h else m
  }

  /** Index of the first candle of the trailing window: the window holds the
      last `min(20, n)` candles. */
  function WindowStart(candles: seq<Candle>): (k: nat)
    ensures k <= |candles|
    ensures |candles| - k == Min(WINDOW, |candles|)
  {
    |candles| - Min(WINDOW, |candles|)
  }

  /** Support: the lowest low of the last `min(20, n)` candles, attained by one of them. */
  function Support(candles: seq<Candle>): (r: real)
    requires |candles| > 0
    ensures forall i :: WindowStart(candles) <= i < |candles| ==> r <= candles[i].l
    ensures exists i :: WindowStart(candles) <= i < |candles| && r == candles[i].l
  {
    var w := Tail(candles, WINDOW);
    assert w == candles[WindowStart(candles)..];
    LowestLow(w)
  }

  /** Resistance: the highest high of the same window, attained by one of them. */
  function Resistance(candles: seq<Candle>): (r: real)
    requires |candles| > 0
    ensures forall i :: WindowStart(candles) <= i < |candles| ==> candles[i].h <= r
    ensures exists i :: WindowStart(candles) <= i < |candles| && r == candles[i].h
  {
    var w := Tail(candles, WINDOW);
    assert w == candles[WindowStart(candles)..];
    HighestHigh(w)
  }

  /** When every candle of the window has its low at or below its high, support
      does not lie above resistance. */
  lemma SupportBelowResistance(candles: seq<Candle>)
    requires |candles| > 0
    requires forall i :: WindowStart(candles) <= i < |candles| ==> WellFormed(candles[i])
    ensures Support(candles) <= Resistance(candles)
  {
  }

  /** Stop-loss and take-profit: none for WAIT; for BUY stop at support and take
      profit at resistance; for SELL the other way round. */
  function StopLevels(sig: Signal, support: real, resistance: real): (r: (Option<real>, Option<real>))
    ensures r.0.None? <==> sig == Wait
    ensures r.1.None? <==> sig == Wait
    ensures sig == Buy ==> r.0 == Some(support) && r.1 == Some(resistance)
    ensures sig == Sell ==> r.0 == Some(resistance) && r.1 == Some(support)
  {
    match sig
    case Buy => (Some(support), Some(resistance))
    case Sell => (Some(resistance), Some(support))
    case Wait => (None, None)
  }

  /** With ordered levels the stop sits on the losing side of the target: below
      it for a long (BUY), above it for a short (SELL). */
  lemma StopOnLosingSide(sig: Signal, support: real, resistance: real)
    requires support <= resistance
    requires sig != Wait
    ensures var (sl, tp) := StopLevels(sig, support, resistance);
      sl.Some? && tp.Some? &&
      (sig == Buy ==> sl.value <= tp.value) &&
      (sig == Sell ==> sl.value >= tp.value)
  {
  }
}
