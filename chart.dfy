/** The candle view sent to the chart: the last 80 rows, oldest first, each
    reduced to its time in whole seconds and its four prices. */
module Chart {
  import opened Candles

  /** Number of trailing candles shown (`tail(80)`). */
  const DISPLAY_COUNT: nat := 80

  datatype CandleView = CandleView(time: int, open: real, high: real, low: real, close: real)

  /** Python's `int()` on a float: drops the fraction, rounding toward zero. */
  function Trunc(x: real): (r: int)
    ensures 0.0 <= x ==> 0 <= r && r as real <= x < r as real + 1.0
    ensures x < 0.0 ==> r <= 0 && r as real - 1.0 < x <= r as real
  {
    if x >= 0.0 then x.Floor else -((-x).Floor)
  }

  /** Truncation never reverses the order of two values. */
  lemma TruncMonotone(x: real, y: real)
    requires x <= y
    ensures Trunc(x) <= Trunc(y)
  {
  }

  /** One chart entry: prices copied, volume dropped, and the time is the open
      time in whole seconds, rounded toward zero. */
  function View(x: Candle): (e: CandleView)
    ensures e.open == x.o && e.high == x.h && e.low == x.l && e.close == x.c
    ensures 0.0 <= x.t ==> e.time as real * 1000.0 <= x.t < (e.time as real + 1.0) * 1000.0
    ensures x.t < 0.0 ==> (e.time as real - 1.0) * 1000.0 < x.t <= e.time as real * 1000.0
  {
    CandleView(Trunc(x.t / 1000.0), x.o, x.h, x.l, x.c)
  }

  /** For a whole number of milliseconds `t`, `int(t / 1000)` is integer
      division rounding toward zero. */
  lemma MillisToSeconds(t: int)
    ensures Trunc(t as real / 1000.0) == if t >= 0 then t / 1000 else -((-t) / 1000)
  {
  }

  /** The chart series: the last `min(80, n)` candles, in their original order,
      each turned into its view. */
  function Trim(candles: seq<Candle>): (r: seq<CandleView>)
    ensures |r| == Min(DISPLAY_COUNT, |candles|)
    ensures forall i :: 0 <= i < |r| ==> r[i] == View(candles[|candles| - |r| + i])
  {
    var w := Tail(candles, DISPLAY_COUNT);
    seq(|w|, i requires 0 <= i < |w| => View(w[i]))
  }

  /** Input sorted by open time gives a chart series sorted by time. */
  lemma TrimSorted(candles: seq<Candle>)
    requires forall i, j :: 0 <= i < j < |candles| ==> candles[i].t <= candles[j].t
    ensures forall i, j :: 0 <= i < j < |Trim(candles)| ==> Trim(candles)[i].time <= Trim(candles)[j].time
  {
    var r := Trim(candles);
    var d := |candles| - |r|;
    forall i, j | 0 <= i < j < |r|
      ensures r[i].time <= r[j].time
    {
      assert candles[d + i].t <= candles[d + j].t;
      TruncMonotone(candles[d + i].t / 1000.0, candles[d + j].t / 1000.0);
    }
  }
}
