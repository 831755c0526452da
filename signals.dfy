/** The three-way classifier of `signal_logic`: latest close, EMA(20), EMA(50)
    and RSI(14) in, one of BUY, SELL or WAIT out, together with the RSI it was
    given. The indicator values themselves come from an external library and
    are inputs here. */
module Signals {

  datatype Signal = Buy | Sell | Wait

  /** RSI level above which the market counts as overbought. */
  const OVERBOUGHT: real := 70.0
  /** RSI level below which the market counts as oversold. */
  const OVERSOLD: real := 30.0

  /** The strings the handler compares against and reports. */
  function Label(s: Signal): (r: string)
    ensures r == "BUY" || r == "SELL" || r == "WAIT"
    ensures s == Buy <==> r == "BUY"
    ensures s == Sell <==> r == "SELL"
  {
    match s
    case Buy => "BUY"
    case Sell => "SELL"
    case Wait => "WAIT"
  }

  /** Price above a short EMA which is above the long EMA (the chained comparison
      is two strict inequalities), and momentum not yet overbought. */
  predicate BuyCondition(price: real, ema20: real, ema50: real, rsi: real) {
    price > ema20 && ema20 > ema50 && rsi < OVERBOUGHT
  }

  /** The mirror image: price below a falling short EMA, momentum not yet oversold. */
  predicate SellCondition(price: real, ema20: real, ema50: real, rsi: real) {
    price < ema20 && ema20 < ema50 && rsi > OVERSOLD
  }

  /** First match wins: the BUY test, then the SELL test, else WAIT. Because the
      two tests can never both hold, SELL is exactly the SELL test, with no need
      to mention that the BUY test failed. The RSI is handed back unchanged. */
  function Classify(price: real, ema20: real, ema50: real, rsi: real): (r: (Signal, real))
    ensures r.1 == rsi
    ensures r.0 == Buy <==> BuyCondition(price, ema20, ema50, rsi)
    ensures r.0 == Sell <==> SellCondition(price, ema20, ema50, rsi)
    ensures r.0 == Wait <==> !BuyCondition(price, ema20, ema50, rsi) && !SellCondition(price, ema20, ema50, rsi)
  {
    if price > ema20 && ema20 > ema50 && rsi < OVERBOUGHT then (Buy, rsi)
    else if price < ema20 && ema20 < ema50 && rsi > OVERSOLD then (Sell, rsi)
    else (Wait, rsi)
  }

  /** The same tests taken in the opposite order: SELL first, then BUY. */
  function ClassifySellFirst(price: real, ema20: real, ema50: real, rsi: real): (Signal, real) {
    if SellCondition(price, ema20, ema50, rsi) then (Sell, rsi)
    else if BuyCondition(price, ema20, ema50, rsi) then (Buy, rsi)
    else (Wait, rsi)
  }

  /** The order of the two tests never changes the outcome. */
  lemma OrderIrrelevant(price: real, ema20: real, ema50: real, rsi: real)
    ensures Classify(price, ema20, ema50, rsi) == ClassifySellFirst(price, ema20, ema50, rsi)
  {
  }

  /** A BUY always has RSI strictly below 70 and a SELL strictly above 30, so an
      RSI of exactly 70 never yields BUY and exactly 30 never yields SELL. */
  lemma MomentumBounds(price: real, ema20: real, ema50: real, rsi: real)
    ensures Classify(price, ema20, ema50, rsi).0 == Buy ==> rsi < OVERBOUGHT
    ensures Classify(price, ema20, ema50, rsi).0 == Sell ==> rsi > OVERSOLD
    ensures rsi == OVERBOUGHT ==> Classify(price, ema20, ema50, rsi).0 != Buy
    ensures rsi == OVERSOLD ==> Classify(price, ema20, ema50, rsi).0 != Sell
  {
  }

  /** With equal EMAs there is no trend and the answer is always WAIT. */
  lemma FlatTrendWaits(price: real, ema: real, rsi: real)
    ensures Classify(price, ema, ema, rsi).0 == Wait
  {
  }
}
