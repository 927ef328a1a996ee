/** The strategy of `pruebas/pruebas.py`: Bollinger bands with RSI 30/70 and
    MACD, buys sized from free cash, and the driver that runs it over several
    date windows. */
module Pruebas {
  import opened Market
  import opened Bands

  const Oversold: real := 30.0
  const Overbought: real := 70.0

  /** One call of `next` given whether an order is pending, the position size,
      the bar and the broker. */
  function Decide(pending: bool, position: int, b: Snapshot, acct: Account): (d: Decision)
    // A pending order blocks every new order.
    ensures pending ==> d == Pass
    // Flat: something happens exactly when the close is under the lower band
    // and either the RSI is under 30 or the MACD is above its signal.
    ensures !pending && position == 0 ==>
      (d != Pass <==> b.close < b.bot && (b.rsi < 30.0 || b.macd > b.signal))
    // Holding: something happens exactly when the close is over the upper
    // band and either the RSI is over 70 or the MACD is not above its signal.
    ensures !pending && position != 0 ==>
      (d != Pass <==> b.close > b.top && (b.rsi > 70.0 || b.macd <= b.signal))
    // Buying and selling are selected by the position alone.
    ensures d.Place? ==> (d.order.side == Buy <==> position == 0)
    // The exit sells the whole position.
    ensures d.Place? && position != 0 ==> d.order.size == position
    // The buy takes as many whole shares as nine tenths of the cash pays for.
    ensures d.Place? && position == 0 && b.close > 0.0 ==>
      d.order.size as real * b.close <= 0.9 * acct.cash < (d.order.size as real + 1.0) * b.close
    ensures d.Place? && position == 0 && b.close > 0.0 && acct.cash >= 0.0 ==> d.order.size >= 0
    // Sizing at a zero close divides by zero.
    ensures d.ZeroDivision? <==> !pending && position == 0 && b.close == 0.0 && b.close < b.bot
                                 && (b.rsi < 30.0 || b.macd > b.signal)
  {
    if pending then Pass
    else if position == 0 then
      if Entry(b, Oversold) then BuyFrom(acct.cash, b.close) else Pass
    else
      if Exit(b, Overbought) then Place(Order(Sell, position)) else Pass
  }

  class MyStrategy {
    var order: Option<Order>
    var buyPrice: Option<real>
    var buyComm: Option<real>

    function Tracked(): Tracking
      reads this
    {
      Tracking(order, buyPrice, buyComm)
    }

    ghost predicate Valid()
      reads this
    {
      Paired(Tracked())
    }

    constructor ()
      ensures Valid() && Tracked() == Untracked
    {
      order, buyPrice, buyComm := None, None, None;
    }

    /** `next`. The library answers a buy or sell request with an order or
        with none; `returned` says which, and `order` takes that answer. */
    method Next(position: int, b: Snapshot, acct: Account, returned: bool) returns (d: Decision)
      requires Valid()
      modifies this`order
      ensures Valid()
      ensures d == Decide(old(order).Some?, position, b, acct)
      ensures order == if d.Place? then (if returned then Some(d.order) else None) else old(order)
    {
      if order.Some? {
        return Pass;
      }
      var bollingerBuy := b.close < b.bot;
      var bollingerSell := b.close > b.top;
      var rsiBuy := b.rsi < Oversold;
      var rsiSell := b.rsi > Overbought;
      var macdBuy := b.macd > b.signal;
      if position == 0 {
        if (bollingerBuy && rsiBuy) || (bollingerBuy && macdBuy) {
          var cashToSpend := acct.cash * SpendFraction;
          if b.close == 0.0 {
            return ZeroDivision;
          }
          var size := (cashToSpend / b.close).Floor;
          d := Place(Order(Buy, size));
          order := if returned then Some(d.order) else None;
        } else {
          d := Pass;
        }
      } else {
        if (bollingerSell && rsiSell) || (bollingerSell && !macdBuy) {
          d := Place(Order(Sell, position));
          order := if returned then Some(d.order) else None;
        } else {
          d := Pass;
        }
      }
    }

    /** `notify_order`. */
    method NotifyOrder(n: Notice)
      requires Valid()
      modifies this
      ensures Valid()
      ensures Tracked() == Notify(old(Tracked()), n)
    {
      if n.status in {Submitted, Accepted} {
        return;
      }
      if n.status == Completed {
        if n.isBuy {
          buyPrice := Some(n.executedPrice);
          buyComm := Some(n.executedComm);
        }
      }
      order := None;
    }
  }

  /** A calendar date, as `datetime.datetime(year, month, day)`. */
  datatype Date = Date(year: int, month: int, day: int)

  const D95: Date := Date(1995, 12, 30)
  const D00: Date := Date(2000, 12, 30)
  const D05: Date := Date(2005, 12, 30)
  const D10: Date := Date(2010, 12, 30)
  const D14: Date := Date(2014, 12, 30)
  const D04: Date := Date(2004, 12, 30)

  /** The windows' first and last dates, paired by position. */
  const DatesFrom: seq<Date> := [D95, D00, D05, D10, D95, D00, D04]
  const DatesUntil: seq<Date> := [D00, D05, D10, D14, D05, D10, D14]

  /** The cash the broker is reset to before each window. */
  const StartingCash: real := 1000.0

  /** The broker's portfolio value and free cash once a backtest has run. */
  datatype RunResult = RunResult(value: real, cash: real)

  /** The "cash rest" reported for a window: nothing when the portfolio is
      all cash, the cash otherwise. */
  function CashRest(value: real, cash: real): (r: real)
    ensures r == 0.0 <==> value == cash || cash == 0.0
    ensures r != 0.0 ==> r == cash
  {
    if value == cash then 0.0 else cash
  }

  /** The window loop of `run_strategy`. `backtest(from, until, cash)` stands
      for one run of the library over the bars between the two dates starting
      from `cash`. */
  method RunWindows(datesFrom: seq<Date>, datesUntil: seq<Date>, backtest: (Date, Date, real) -> RunResult)
    returns (portfolio: seq<real>, restoCash: seq<real>)
    requires |datesFrom| <= |datesUntil|
    ensures |portfolio| == |datesFrom| && |restoCash| == |datesFrom|
    ensures forall i :: 0 <= i < |datesFrom| ==>
      portfolio[i] == backtest(datesFrom[i], datesUntil[i], StartingCash).value
    ensures forall i :: 0 <= i < |datesFrom| ==>
      restoCash[i] == CashRest(portfolio[i], backtest(datesFrom[i], datesUntil[i], StartingCash).cash)
  {
    portfolio, restoCash := [], [];
    var i := 0;
    while i < |datesFrom|
      invariant 0 <= i <= |datesFrom|
      invariant |portfolio| == i && |restoCash| == i
      invariant forall k :: 0 <= k < i ==>
        portfolio[k] == backtest(datesFrom[k], datesUntil[k], StartingCash).value
      invariant forall k :: 0 <= k < i ==>
        restoCash[k] == CashRest(portfolio[k], backtest(datesFrom[k], datesUntil[k], StartingCash).cash)
    {
      var cash := StartingCash;
      var run := backtest(datesFrom[i], datesUntil[i], cash);
      var pfVal, walletVal := run.value, run.cash;
      portfolio := portfolio + [pfVal];
      if pfVal == walletVal {
        restoCash := restoCash + [0.0];
      } else {
        restoCash := restoCash + [walletVal];
      }
      i := i + 1;
    }
  }

  /** `run_strategy` over its seven configured windows. */
  method RunStrategy(backtest: (Date, Date, real) -> RunResult)
    returns (portfolio: seq<real>, restoCash: seq<real>)
    ensures |portfolio| == 7 && |restoCash| == 7
    ensures forall i :: 0 <= i < 7 ==>
      portfolio[i] == backtest(DatesFrom[i], DatesUntil[i], StartingCash).value
    ensures portfolio[0] == backtest(Date(1995, 12, 30), Date(2000, 12, 30), 1000.0).value
    ensures portfolio[6] == backtest(Date(2004, 12, 30), Date(2014, 12, 30), 1000.0).value
    ensures forall i :: 0 <= i < 7 ==>
      restoCash[i] == CashRest(portfolio[i], backtest(DatesFrom[i], DatesUntil[i], StartingCash).cash)
  {
    portfolio, restoCash := RunWindows(DatesFrom, DatesUntil, backtest);
  }
}
