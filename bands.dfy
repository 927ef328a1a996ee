/** What the three Bollinger-band strategies (the ones in `pruebas/pruebas.py`,
    `EstrategiaBotFinal.py` and `strategy.py`) read on a bar, and the signals
    they compute from it. Each strategy keeps its own thresholds; only the
    shape of the signals is shared. */
module Bands {
  import opened Market

  /** The current close and the current values of the indicators, as
      backtrader evaluates line comparisons inside `next`: at index 0. */
  datatype Snapshot = Snapshot(close: real, top: real, bot: real, rsi: real, macd: real, signal: real)

  /** What one call of `next` does: nothing, ask the library for an order, or
      stop with Python's `ZeroDivisionError` while sizing a buy at a zero close. */
  datatype Decision = Pass | Place(order: Order) | ZeroDivision

  /** Entry signal, written with Python's precedence:
      `bollinger_buy and rsi_buy or bollinger_buy and macd_buy`. */
  predicate Entry(b: Snapshot, oversold: real)
  {
    var bollingerBuy := b.close < b.bot;
    var rsiBuy := b.rsi < oversold;
    var macdBuy := b.macd > b.signal;
    (bollingerBuy && rsiBuy) || (bollingerBuy && macdBuy)
  }

  /** Exit signal: `bollinger_sell and rsi_sell or bollinger_sell and (not macd_buy)`. */
  predicate Exit(b: Snapshot, overbought: real)
  {
    var bollingerSell := b.close > b.top;
    var rsiSell := b.rsi > overbought;
    var macdBuy := b.macd > b.signal;
    (bollingerSell && rsiSell) || (bollingerSell && !macdBuy)
  }

  /** The buy a Bollinger strategy requests once its entry signal fires,
      sized from `funds`. */
  function BuyFrom(funds: real, close: real): (d: Decision)
    ensures d.ZeroDivision? <==> close == 0.0
    ensures d.Place? ==> d.order.side == Buy && FundedSize(funds, close) == Some(d.order.size)
  {
    match FundedSize(funds, close)
    case None => ZeroDivision
    case Some(size) => Place(Order(Buy, size))
  }
}
