/** The `/signal` handler's computation: classify the latest close against the
    indicators, take support and resistance, set stop-loss and take-profit,
    score the confidence and trim the candles for the chart. Fetching the
    candles and computing RSI/EMA happen outside and arrive as arguments. */
module Report {
  import opened Candles
  import opened Signals
  import opened Levels
  import opened Chart

  /** The last values of RSI(14), EMA(20) and EMA(50) over the closes, as the
      indicator library reports them. */
  datatype Indicators = Indicators(rsi: real, ema20: real, ema50: real)

  datatype SignalReport = SignalReport(
    signal: Signal,
    confidence: int,
    rsi: real,
    support: real,
    resistance: real,
    sl: Option<real>,
    tp: Option<real>,
    candles: seq<CandleView>)

  const BASE_CONFIDENCE: int := 50
  const SIGNAL_BONUS: int := 30
  const EXTREME_BONUS: int := 15
  const MAX_CONFIDENCE: int := 95

  /** `signal_logic`: the price it classifies is the close of the last candle. */
  function SignalLogic(candles: seq<Candle>, ind: Indicators): (r: (Signal, real))
    requires |candles| > 0
    ensures r.1 == ind.rsi
    ensures r.0 == Buy <==> BuyCondition(Last(candles).c, ind.ema20, ind.ema50, ind.rsi)
    ensures r.0 == Sell <==> SellCondition(Last(candles).c, ind.ema20, ind.ema50, ind.rsi)
  {
    Classify(Last(candles).c, ind.ema20, ind.ema50, ind.rsi)
  }

  /** Strictly oversold or strictly overbought; 30 and 70 themselves are not. */
  predicate Extreme(rsi: real) {
    rsi < OVERSOLD || rsi > OVERBOUGHT
  }

  /** Confidence: 50, plus 30 for a BUY or SELL, plus 15 for an extreme RSI,
      capped at 95. The cap never bites: the result is always the plain sum,
      so it is one of 50, 65, 80 and 95. */
  function Confidence(sig: Signal, rsi: real): (r: int)
    ensures BASE_CONFIDENCE <= r <= MAX_CONFIDENCE
    ensures r == 50 || r == 65 || r == 80 || r == 95
    ensures r == BASE_CONFIDENCE + (if sig != Wait then SIGNAL_BONUS else 0) + (if Extreme(rsi) then EXTREME_BONUS else 0)
  {
    var c := BASE_CONFIDENCE
      + (if sig != Wait then SIGNAL_BONUS else 0)
      + (if rsi < OVERSOLD || rsi > OVERBOUGHT then EXTREME_BONUS else 0);
    Min(c, MAX_CONFIDENCE)
  }

  /** The score can be read back: it is at least 80 exactly for a BUY or SELL,
      and it is 65 or 95 exactly when the RSI is extreme. */
  lemma ConfidenceDecodes(sig: Signal, rsi: real)
    ensures Confidence(sig, rsi) >= 80 <==> sig != Wait
    ensures (Confidence(sig, rsi) == 65 || Confidence(sig, rsi) == 95) <==> Extreme(rsi)
  {
  }

  /** An RSI of exactly 30 or 70 earns no bonus. */
  lemma BoundaryRsiEarnsNoBonus(sig: Signal, rsi: real)
    requires rsi == OVERSOLD || rsi == OVERBOUGHT
    ensures Confidence(sig, rsi) == if sig == Wait then 50 else 80
  {
  }

  /** The score each classifier outcome can get. A BUY earns the RSI bonus only
      from the oversold side (its RSI is below 70), a SELL only from the
      overbought side (its RSI is above 30). */
  lemma ConfidenceOfSignal(price: real, ema20: real, ema50: real, rsi: real)
    ensures var sig := Classify(price, ema20, ema50, rsi).0;
      (sig == Buy ==> Confidence(sig, rsi) == if rsi < OVERSOLD then 95 else 80) &&
      (sig == Sell ==> Confidence(sig, rsi) == if rsi > OVERBOUGHT then 95 else 80) &&
      (sig == Wait ==> Confidence(sig, rsi) == if Extreme(rsi) then 65 else 50)
  {
  }

  /** The report invariants: stop-loss, take-profit and WAIT coincide, and the
      confidence lies in its range. */
  predicate Consistent(rep: SignalReport) {
    && (rep.signal == Wait <==> rep.sl.None?)
    && (rep.sl.None? <==> rep.tp.None?)
    && BASE_CONFIDENCE <= rep.confidence <= MAX_CONFIDENCE
  }

  /** The handler body: each field as the specification functions give it, the
      report invariants, and support not above resistance whenever the window's
      candles are well formed. */
  method BuildReport(candles: seq<Candle>, ind: Indicators) returns (rep: SignalReport)
    requires |candles| > 0
    ensures rep.signal == SignalLogic(candles, ind).0 && rep.rsi == ind.rsi
    ensures rep.support == Support(candles) && rep.resistance == Resistance(candles)
    ensures rep.sl == StopLevels(rep.signal, rep.support, rep.resistance).0
    ensures rep.tp == StopLevels(rep.signal, rep.support, rep.resistance).1
    ensures rep.confidence == Confidence(rep.signal, rep.rsi)
    ensures rep.candles == Trim(candles)
    ensures Consistent(rep)
    ensures (forall i :: WindowStart(candles) <= i < |candles| ==> WellFormed(candles[i])) ==>
      rep.support <= rep.resistance
  {
    var classified := SignalLogic(candles, ind);
    var sig, rsi := classified.0, classified.1;

    var support := Support(candles);
    var resistance := Resistance(candles);

    var sl: Option<real>, tp: Option<real> := None, None;
    if sig == Buy {
      sl, tp := Some(support), Some(resistance);
    } else if sig == Sell {
      sl, tp := Some(resistance), Some(support);
    }

    var confidence := BASE_CONFIDENCE;
    if sig != Wait {
      confidence := confidence + SIGNAL_BONUS;
    }
    if rsi < OVERSOLD || rsi > OVERBOUGHT {
      confidence := confidence + EXTREME_BONUS;
    }
    confidence := Min(confidence, MAX_CONFIDENCE);

    rep := SignalReport(sig, confidence, rsi, support, resistance, sl, tp, Trim(candles));

    if forall i :: WindowStart(candles) <= i < |candles| ==> WellFormed(candles[i]) {
      SupportBelowResistance(candles);
    }
  }
}
