/** The strategy of `strategy.py`, the one `main.py` runs: the same Bollinger,
    RSI 35/65 and MACD rule as `EstrategiaBotFinal.py`, buys sized from the
    portfolio value, with its methods laid out in another order. */
module Strategy {
  import opened Market
  import opened Bands
  import EstrategiaBotFinal

  const Oversold: real := 35.0
  const Overbought: real := 65.0

  /** One call of `next` given whether an order is pending, the position size,
      the bar and the broker. */
  function Decide(pending: bool, position: int, b: Snapshot, acct: Account): (d: Decision)
    // A pending order blocks every new order.
    ensures pending ==> d == Pass
    // Flat: something happens exactly when the close is under the lower band
    // and either the RSI is under 35 or the MACD is above its signal.
    ensures !pending && position == 0 ==>
      (d != Pass <==> b.close < b.bot && (b.rsi < 35.0 || b.macd > b.signal))
    // Holding: something happens exactly when the close is over the upper
    // band and either the RSI is over 65 or the MACD is not above its signal.
    ensures !pending && position != 0 ==>
      (d != Pass <==> b.close > b.top && (b.rsi > 65.0 || b.macd <= b.signal))
    // Buying and selling are selected by the position alone.
    ensures d.Place? ==> (d.order.side == Buy <==> position == 0)
    // The exit sells the whole position.
    ensures d.Place? && position != 0 ==> d.order.size == position
    // The buy takes as many whole shares as nine tenths of the portfolio value pays for.
    ensures d.Place? && position == 0 && b.close > 0.0 ==>
      d.order.size as real * b.close <= 0.9 * acct.value < (d.order.size as real + 1.0) * b.close
    ensures d.Place? && position == 0 && b.close > 0.0 && acct.value >= 0.0 ==> d.order.size >= 0
    // Sizing at a zero close divides by zero.
    ensures d.ZeroDivision? <==> !pending && position == 0 && b.close == 0.0 && b.close < b.bot
                                 && (b.rsi < 35.0 || b.macd > b.signal)
  {
    if pending then Pass
    else if position == 0 then
      if Entry(b, Oversold) then BuyFrom(acct.value, b.close) else Pass
    else
      if Exit(b, Overbought) then Place(Order(Sell, position)) else Pass
  }

  class MyStrategy {
    var order: Option<Order>
    var buyPrice: Option<real>
    var buyComm: Option<real>

    function Tracked(): Tracking
      reads this
    {
      Tracking(order, buyPrice, buyComm)
    }

    ghost predicate Valid()
      reads this
    {
      Paired(Tracked())
    }

    constructor ()
      ensures Valid() && Tracked() == Untracked
    {
      order, buyPrice, buyComm := None, None, None;
    }

    /** `next`. The library answers a buy or sell request with an order or
        with none; `returned` says which, and `order` takes that answer. */
    method Next(position: int, b: Snapshot, acct: Account, returned: bool) returns (d: Decision)
      requires Valid()
      modifies this`order
      ensures Valid()
      ensures d == Decide(old(order).Some?, position, b, acct)
      ensures order == if d.Place? then (if returned then Some(d.order) else None) else old(order)
    {
      if order.Some? {
        return Pass;
      }
      var bollingerBuy := b.close < b.bot;
      var bollingerSell := b.close > b.top;
      var rsiBuy := b.rsi < Oversold;
      var rsiSell := b.rsi > Overbought;
      var macdBuy := b.macd > b.signal;
      if position == 0 {
        if (bollingerBuy && rsiBuy) || (bollingerBuy && macdBuy) {
          var cashToSpend := acct.value * SpendFraction;
          if b.close == 0.0 {
            return ZeroDivision;
          }
          var size := (cashToSpend / b.close).Floor;
          d := Place(Order(Buy, size));
          order := if returned then Some(d.order) else None;
        } else {
          d := Pass;
        }
      } else {
        if (bollingerSell && rsiSell) || (bollingerSell && !macdBuy) {
          d := Place(Order(Sell, position));
          order := if returned then Some(d.order) else None;
        } else {
          d := Pass;
        }
      }
    }

    /** `notify_order`. */
    method NotifyOrder(n: Notice)
      requires Valid()
      modifies this
      ensures Valid()
      ensures Tracked() == Notify(old(Tracked()), n)
    {
      if n.status in {Submitted, Accepted} {
        return;
      }
      if n.status == Completed {
        if n.isBuy {
          buyPrice := Some(n.executedPrice);
          buyComm := Some(n.executedComm);
        }
      }
      order := None;
    }
  }

  /** The two files decide alike on every input. */
  lemma SameRuleAsBotFinal(pending: bool, position: int, b: Snapshot, acct: Account)
    ensures Decide(pending, position, b, acct) == EstrategiaBotFinal.Decide(pending, position, b, acct)
  {
  }
}
