# Trading-signal engine: a Dafny model

This project models the decision logic behind the `/signal` endpoint of a small trading helper (`backend.py`). It takes a list of OHLCV candles, oldest first, together with the latest RSI(14), EMA(20) and EMA(50) values, and from them computes:

- a BUY / SELL / WAIT signal, by comparing the last close with the two EMAs and checking the RSI;
- support and resistance: the lowest low and the highest high of the last 20 candles;
- stop-loss and take-profit levels, set from support and resistance according to the signal;
- a confidence score between 50 and 95;
- the chart series: the last 80 candles, with each time in whole seconds and volume dropped.

Modules:

- `Candles`: the candle record, the last row, and the trailing `k` rows (`tail(k)`).
- `Signals`: the classifier from `signal_logic`.
- `Levels`: support, resistance, stop-loss and take-profit.
- `Chart`: the trimmed candle view, including Python's truncating `int()`.
- `Report`: the confidence score, and the handler body as the method `BuildReport`. That method sets its locals step by step, as the handler does. It is proved equal to the specification functions, and it keeps the report invariants.

Prices and indicator values are Dafny `real`. Times are reals in milliseconds, because the source converts every column to float.

A BUY or SELL scores 80. It scores 95 only when the RSI is also extreme: below 30 for a BUY, above 70 for a SELL. `Report.ConfidenceOfSignal` states this.

## Model

| member | source | states |
|---|---|---|
| `Candles.Last` | backend.py:25 | `iloc[-1]` is the last row of the candle list |
| `Candles.Tail` | backend.py:38-39 | `tail(k)` has length `min(k, n)` and is the input's suffix in its original order |
| `Signals.Label` | backend.py:28-31 | the signal is always one of the strings "BUY", "SELL", "WAIT"; each signal maps to its own string |
| `Signals.Classify` | backend.py:27-31 | BUY exactly when price > ema20 > ema50 (both strict) and rsi < 70; SELL exactly when price < ema20 < ema50 and rsi > 30, with no need to say that the BUY test failed; WAIT exactly when neither holds; the rsi is returned unchanged in every branch |
| `Signals.OrderIrrelevant` | backend.py:27-31 | testing SELL before BUY gives the same result for every input, because the two tests exclude each other |
| `Signals.MomentumBounds` | backend.py:27-30 | a BUY always has rsi < 70 and a SELL rsi > 30; an rsi of exactly 70 is never BUY, and exactly 30 is never SELL |
| `Signals.FlatTrendWaits` | backend.py:27-31 | equal EMAs always give WAIT |
| `Levels.LowestLow` | backend.py:38 | `.min()` of the lows is at most every low and equals one of them |
| `Levels.HighestHigh` | backend.py:39 | `.max()` of the highs is at least every high and equals one of them |
| `Levels.WindowStart` | backend.py:38-39 | the window that `tail(20)` selects starts so that it holds the last `min(20, n)` candles |
| `Levels.Support` | backend.py:38 | support is at most the low of each of the last `min(20, n)` candles, and it equals one of those lows |
| `Levels.Resistance` | backend.py:39 | resistance is at least the high of each of the last `min(20, n)` candles, and it equals one of those highs |
| `Levels.SupportBelowResistance` | backend.py:38-39 | if every candle in the window has low ≤ high, then support ≤ resistance |
| `Levels.StopLevels` | backend.py:41-45 | sl is None exactly for WAIT, and so is tp; BUY gives sl = support and tp = resistance; SELL swaps them |
| `Levels.StopOnLosingSide` | backend.py:41-45 | if support ≤ resistance, a BUY's stop is at or below its target and a SELL's stop is at or above its target |
| `Chart.Trunc` | backend.py:53 | `int()` rounds toward zero: the result lies within 1 of its argument, on the zero side |
| `Chart.TruncMonotone` | backend.py:53 | truncation never reverses the order of two values |
| `Chart.View` | backend.py:53 | a chart entry copies open/high/low/close unchanged; its time is the open time in whole seconds, rounded toward zero |
| `Chart.MillisToSeconds` | backend.py:53 | for an open time that is a whole number of milliseconds, `int(t/1000)` is integer division that rounds toward zero |
| `Chart.Trim` | backend.py:52-55 | the chart series has length `min(80, n)`; entry i is the view of input row `n - min(80, n) + i`, so it is the suffix of the input in its original order |
| `Chart.TrimSorted` | backend.py:52-55 | if the input is sorted by open time, the chart series is sorted by time |
| `Report.SignalLogic` | backend.py:21-31 | classifies the close of the last candle against the given indicators, and returns the given rsi unchanged |
| `Report.Confidence` | backend.py:47-50 | confidence lies in [50, 95] and is one of 50, 65, 80, 95; it always equals the uncapped sum, so the `min(…, 95)` cap never changes it |
| `Report.ConfidenceDecodes` | backend.py:47-50 | confidence ≥ 80 exactly when the signal is not WAIT; it is 65 or 95 exactly when the rsi is extreme |
| `Report.BoundaryRsiEarnsNoBonus` | backend.py:49 | an rsi of exactly 30 or 70 earns no +15 |
| `Report.ConfidenceOfSignal` | backend.py:27-31 | for each classifier outcome, the possible scores; a BUY earns the bonus only when rsi < 30, and a SELL only when rsi > 70 |
| `Report.BuildReport` | backend.py:34-66 | the handler's step-by-step body gives each field as the functions above do; WAIT, sl = None and tp = None coincide; confidence lies in [50, 95]; support ≤ resistance when the window's candles are well formed |

## Left out

- Market-data fetch (`get_df`, lines 10-19): an HTTP request plus DataFrame construction. The candles are an input here.
- RSI and EMA computation (lines 22-24): calls into an external indicator library whose formulas are not in this repository. Their last values are inputs (`Report.Indicators`).
- `round(…, 2)` on support, resistance and rsi (lines 38-39, 60): decimal rounding of floats. The model reports the unrounded values. Rounding is monotone, so support ≤ resistance would still hold after it.
- Float behaviour: NaN indicators on short series (every comparison with NaN is false, which gives WAIT and confidence 50), and the binary rounding in `t/1000`. Prices are exact reals.
- An empty candle frame (`.min()` or `iloc[-1]` on no rows): excluded by a precondition that the candle list is non-empty.
- JSON framing, FastAPI routing, the HTML/JS page (`home`, lines 68-147) and server start-up (lines 149-151).
- `Levels.SupportBelowResistance`: holds only when the window's candles have low ≤ high. The code never checks this, so it is a precondition.
