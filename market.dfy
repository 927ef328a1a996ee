/** The boundary between the strategies and the backtesting library: the order
    a strategy asks for, the statuses the library reports back, the broker
    figures a strategy reads, and the order tracking that every strategy
    variant keeps in the same three fields. */
module Market {

  datatype Option<+T> = None | Some(value: T)

  datatype Side = Buy | Sell

  /** An order as the strategy requests it from the library. */
  datatype Order = Order(side: Side, size: int)

  /** The library's order statuses. */
  datatype Status =
    | Created | Submitted | Accepted | Partial | Completed
    | Canceled | Expired | Margin | Rejected

  /** What `notify_order` is handed: the order's status, its direction and
      the price and commission it executed at. */
  datatype Notice = Notice(status: Status, isBuy: bool, executedPrice: real, executedComm: real)

  /** The broker figures a strategy reads when it sizes a buy: free cash and
      portfolio value. */
  datatype Account = Account(cash: real, value: real)

  /** The fields `order`, `buyprice` and `buycomm` of a strategy; `None` is
      Python's `None`. */
  datatype Tracking = Tracking(order: Option<Order>, buyPrice: Option<real>, buyComm: Option<real>)

  /** The tracking fields as `__init__` leaves them. */
  const Untracked: Tracking := Tracking(None, None, None)

  /** Buy price and buy commission are only ever recorded together. */
  predicate Paired(t: Tracking)
  {
    t.buyPrice.Some? == t.buyComm.Some?
  }

  /** Statuses on which `notify_order` returns before touching anything. */
  predicate InFlight(s: Status)
  {
    s == Submitted || s == Accepted
  }

  /** A notice that reports a completed buy. */
  predicate CompletedBuy(n: Notice)
  {
    n.status == Completed && n.isBuy
  }

  /** `notify_order`, identical in all four strategy files: in-flight statuses
      change nothing; a completed buy records its price and commission; every
      other status, including the ones no branch names, forgets the pending
      order. */
  function Notify(t: Tracking, n: Notice): (r: Tracking)
    ensures InFlight(n.status) ==> r == t
    ensures !InFlight(n.status) ==> r.order == None
    ensures CompletedBuy(n) ==> r.buyPrice == Some(n.executedPrice) && r.buyComm == Some(n.executedComm)
    ensures !CompletedBuy(n) ==> r.buyPrice == t.buyPrice && r.buyComm == t.buyComm
    ensures Paired(t) ==> Paired(r)
  {
    if n.status in {Submitted, Accepted} then
      t
    else if n.status == Completed then
      if n.isBuy then Tracking(None, Some(n.executedPrice), Some(n.executedComm))
      else Tracking(None, t.buyPrice, t.buyComm)
    else
      Tracking(None, t.buyPrice, t.buyComm)
  }

  /** Hearing the same notice twice has the effect of hearing it once. */
  lemma NotifyIdempotent(t: Tracking, n: Notice)
    ensures Notify(Notify(t, n), n) == Notify(t, n)
  {
  }

  /** Once a notice has settled the pending order, no later notice brings it
      back: `notify_order` never sets `order`. */
  lemma NotifyNeverPends(t: Tracking, ns: seq<Notice>)
    requires t.order == None
    ensures NotifyAll(t, ns).order == None
    ensures Paired(t) ==> Paired(NotifyAll(t, ns))
    decreases |ns|
  {
    if ns != [] {
      NotifyNeverPends(Notify(t, ns[0]), ns[1..]);
    }
  }

  /** A run of notices applied in order. */
  function NotifyAll(t: Tracking, ns: seq<Notice>): Tracking
    decreases |ns|
  {
    if ns == [] then t else NotifyAll(Notify(t, ns[0]), ns[1..])
  }

  /** Python's `int(x // y)` on floats: the floor of the quotient, or
      `ZeroDivisionError` (here `None`) when `y` is zero. */
  function FloorDiv(x: real, y: real): (r: Option<int>)
    ensures r.None? <==> y == 0.0
    ensures r.Some? ==> r.value as real <= x / y < r.value as real + 1.0
  {
    if y == 0.0 then None else Some((x / y).Floor)
  }

  /** Share of the funds a buy may spend. */
  const SpendFraction: real := 0.9

  /** `int(funds * 0.9 // close)`: the largest whole number of shares whose
      price at `close` fits in nine tenths of `funds`. */
  function FundedSize(funds: real, close: real): (r: Option<int>)
    ensures r.None? <==> close == 0.0
    ensures close > 0.0 ==> r.Some? && r.value as real * close <= SpendFraction * funds
    ensures close > 0.0 ==> SpendFraction * funds < (r.value as real + 1.0) * close
    ensures close > 0.0 && funds >= 0.0 ==> r.value >= 0
  {
    var r := FloorDiv(funds * SpendFraction, close);
    if close > 0.0 then
      FloorDivScaled(funds * SpendFraction, close, r.value);
      r
    else
      r
  }

  /** Multiplying the floor bounds of `x / y` back by a positive `y`. */
  lemma FloorDivScaled(x: real, y: real, n: int)
    requires y > 0.0
    requires n as real <= x / y < n as real + 1.0
    ensures n as real * y <= x
    ensures x < (n as real + 1.0) * y
  {
    var q, m := x / y, n as real + 1.0;
    assert x == q * y;
    assert (q - n as real) * y >= 0.0;
    assert m - q > 0.0;
    var gap := (m - q) * y;
    assert gap > 0.0;
    assert gap == m * y - q * y;
  }
}
