/** The strategy of `st1.py`: weighted moving averages, an On-Balance-Volume
    accumulator kept by the strategy itself, Bollinger bands and RSI 30/70,
    with every order sized by the fixed-stake sizer. */
module St1 {
  import opened Market

  /** What `next` reads on a bar: the close and the previous bar's close, the
      volume, and the current values of the indicators. */
  datatype Bar = Bar(
    close: real, prevClose: real, volume: real,
    shortWma: real, longWma: real, top: real, bot: real, rsi: real)

  /** The stake of the `FixedSize` sizer the script installs; `buy()` and
      `sell()` are called without a size, so both take it. */
  const Stake: int := 100

  const Oversold: real := 30.0
  const Overbought: real := 70.0

  predicate Rising(b: Bar) { b.close > b.prevClose }

  predicate Falling(b: Bar) { b.close < b.prevClose }

  /** The change one bar makes to the accumulator. */
  function ObvStep(b: Bar): real
  {
    if b.close > b.prevClose then b.volume
    else if b.close < b.prevClose then -b.volume
    else 0.0
  }

  /** The accumulator after `next` has seen `bars`, starting from zero. */
  function ObvOf(bars: seq<Bar>): real
    decreases |bars|
  {
    if bars == [] then 0.0 else ObvOf(bars[..|bars| - 1]) + ObvStep(bars[|bars| - 1])
  }

  /** Volume of the bars that closed higher than the bar before. */
  function UpVolume(bars: seq<Bar>): real
    decreases |bars|
  {
    if bars == [] then 0.0 else (if Rising(bars[0]) then bars[0].volume else 0.0) + UpVolume(bars[1..])
  }

  /** Volume of the bars that closed lower than the bar before. */
  function DownVolume(bars: seq<Bar>): real
    decreases |bars|
  {
    if bars == [] then 0.0 else (if Falling(bars[0]) then bars[0].volume else 0.0) + DownVolume(bars[1..])
  }

  function TotalVolume(bars: seq<Bar>): real
    decreases |bars|
  {
    if bars == [] then 0.0 else bars[0].volume + TotalVolume(bars[1..])
  }

  predicate NonNegativeVolumes(bars: seq<Bar>)
  {
    forall i :: 0 <= i < |bars| ==> bars[i].volume >= 0.0
  }

  /** The accumulator over two stretches of bars is the sum over each. */
  lemma {:induction false} ObvConcat(a: seq<Bar>, c: seq<Bar>)
    ensures ObvOf(a + c) == ObvOf(a) + ObvOf(c)
    decreases |c|
  {
    if c == [] {
      assert a + c == a;
    } else {
      var init := c[..|c| - 1];
      ObvConcat(a, init);
      assert (a + c)[..|a + c| - 1] == a + init;
      assert (a + c)[|a + c| - 1] == c[|c| - 1];
    }
  }

  /** The accumulator is the volume of the rising bars less the volume of the
      falling ones; bars that closed level count for nothing. */
  lemma {:induction false} ObvSplit(bars: seq<Bar>)
    ensures ObvOf(bars) == UpVolume(bars) - DownVolume(bars)
    decreases |bars|
  {
    if bars != [] {
      ObvSplit(bars[1..]);
      ObvConcat([bars[0]], bars[1..]);
      assert [bars[0]] + bars[1..] == bars;
      assert [bars[0]][..0] == [];
    }
  }

  /** Rising and falling volume are shares of the total volume. */
  lemma {:induction false} VolumeShares(bars: seq<Bar>)
    requires NonNegativeVolumes(bars)
    ensures 0.0 <= UpVolume(bars) && 0.0 <= DownVolume(bars)
    ensures UpVolume(bars) + DownVolume(bars) <= TotalVolume(bars)
    decreases |bars|
  {
    if bars != [] {
      assert NonNegativeVolumes(bars[1..]) by {
        forall i | 0 <= i < |bars[1..]| ensures bars[1..][i].volume >= 0.0 {
          assert bars[1..][i] == bars[i + 1];
        }
      }
      VolumeShares(bars[1..]);
      assert bars[0].volume >= 0.0;
    }
  }

  /** With non-negative volumes the accumulator never leaves the band of
      plus or minus the total volume seen. */
  lemma ObvBounded(bars: seq<Bar>)
    requires NonNegativeVolumes(bars)
    ensures -TotalVolume(bars) <= ObvOf(bars) <= TotalVolume(bars)
  {
    ObvSplit(bars);
    VolumeShares(bars);
  }

  /** An unbroken run of rising bars with positive volume leaves a positive
      accumulator. */
  lemma {:induction false} RisingRunPositive(bars: seq<Bar>)
    requires |bars| > 0
    requires forall i :: 0 <= i < |bars| ==> Rising(bars[i]) && bars[i].volume > 0.0
    ensures ObvOf(bars) > 0.0
    decreases |bars|
  {
    var init := bars[..|bars| - 1];
    if init != [] {
      RisingRunPositive(init);
    }
  }

  /** One call of `next` given whether an order is pending, the position size,
      the bar and the accumulator after this bar's update. */
  function Decide(pending: bool, position: int, b: Bar, obv: real): (r: Option<Order>)
    // A pending order blocks every new order.
    ensures pending ==> r == None
    // Flat: buy exactly when the short average is above the long one with a
    // positive accumulator, or the close is under the lower band with the RSI
    // under 30.
    ensures !pending && position == 0 ==>
      (r == Some(Order(Buy, Stake)) <==> (b.shortWma > b.longWma && obv > 0.0) || (b.close < b.bot && b.rsi < 30.0))
    // Holding: sell exactly when the short average is below the long one with
    // a negative accumulator, or the close is over the upper band with the
    // RSI over 70.
    ensures !pending && position != 0 ==>
      (r == Some(Order(Sell, Stake)) <==> (b.shortWma < b.longWma && obv < 0.0) || (b.close > b.top && b.rsi > 70.0))
    // Every order is the fixed stake, a buy exactly when flat.
    ensures r.Some? ==> r.value.size == Stake && (r.value.side == Buy <==> position == 0)
  {
    if pending then None
    else if position == 0 then
      if (b.shortWma > b.longWma && obv > 0.0) || (b.close < b.bot && b.rsi < Oversold) then Some(Order(Buy, Stake))
      else None
    else
      if (b.shortWma < b.longWma && obv < 0.0) || (b.close > b.top && b.rsi > Overbought) then Some(Order(Sell, Stake))
      else None
  }

  /** A flat strategy with an up-trend in the averages buys on a rising bar
      with volume, once the accumulator it carried in was not negative. */
  lemma TrendBuys(position: int, b: Bar, obvBefore: real)
    requires position == 0 && b.shortWma > b.longWma
    requires obvBefore >= 0.0 && Rising(b) && b.volume > 0.0
    ensures Decide(false, position, b, obvBefore + ObvStep(b)) == Some(Order(Buy, Stake))
  {
  }

  class MyStrategy {
    var order: Option<Order>
    var buyPrice: Option<real>
    var buyComm: Option<real>
    var obv: real
    /** The bars `next` has seen, in order. */
    ghost var Bars: seq<Bar>

    function Tracked(): Tracking
      reads this
    {
      Tracking(order, buyPrice, buyComm)
    }

    ghost predicate Valid()
      reads this
    {
      Paired(Tracked()) && obv == ObvOf(Bars)
    }

    constructor ()
      ensures Valid() && Tracked() == Untracked
      ensures Bars == [] && obv == 0.0
    {
      order, buyPrice, buyComm := None, None, None;
      obv := 0.0;
      Bars := [];
    }

    /** `next`. The accumulator moves on every bar, before the pending-order
        check. The library answers a buy or sell request with an order or with
        none; `returned` says which, and `order` takes that answer. */
    method Next(position: int, b: Bar, returned: bool) returns (r: Option<Order>)
      requires Valid()
      modifies this`order, this`obv, this`Bars
      ensures Valid()
      ensures Bars == old(Bars) + [b]
      ensures obv == old(obv) + ObvStep(b)
      ensures r == Decide(old(order).Some?, position, b, obv)
      ensures order == if r.Some? then (if returned then r else None) else old(order)
    {
      if b.close > b.prevClose {
        obv := obv + b.volume;
      } else if b.close < b.prevClose {
        obv := obv - b.volume;
      }
      ghost var seen := Bars;
      Bars := Bars + [b];
      assert ObvOf(Bars) == obv by {
        assert Bars[..|Bars| - 1] == seen;
        assert Bars[|Bars| - 1] == b;
      }
      var rsiV := b.rsi;
      if order.Some? {
        return None;
      }
      if position == 0 {
        if (b.shortWma > b.longWma && obv > 0.0) || (b.close < b.bot && rsiV < Oversold) {
          r := Some(Order(Buy, Stake));
          order := if returned then r else None;
        } else {
          r := None;
        }
      } else {
        if (b.shortWma < b.longWma && obv < 0.0) || (b.close > b.top && rsiV > Overbought) {
          r := Some(Order(Sell, Stake));
          order := if returned then r else None;
        } else {
          r := None;
        }
      }
    }

    /** `notify_order`. */
    method NotifyOrder(n: Notice)
      requires Valid()
      modifies this`order, this`buyPrice, this`buyComm
      ensures Valid()
      ensures Tracked() == Notify(old(Tracked()), n)
    {
      if n.status in {Submitted, Accepted} {
        return;
      }
      if n.status == Completed {
        if n.isBuy {
          buyPrice := Some(n.executedPrice);
          buyComm := Some(n.executedComm);
        }
      }
      order := None;
    }
  }
}
