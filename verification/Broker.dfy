// The vocabulary the platform shares with its brokers: order statuses, the
// frozen order snapshot a broker returns, and Python's `x or y` on prices.

module Broker {

  datatype Option<+T> = None | Some(value: T)

  datatype OrderStatus = Pending | Open | Complete | Rejected | Cancelled | Error {
    predicate Terminal() {
      Complete? || Rejected? || Cancelled? || Error?
    }
  }

  datatype Side = Buy | Sell

  /** A broker's view of one order. An empty `tag` or `id` stands for "absent". */
  datatype BrokerOrder = BrokerOrder(
    id: string, tag: string, status: OrderStatus, quantity: nat, filled: nat, price: Option<real>)

  /** `a or b` on optional prices: a missing price and a zero price are both falsy. */
  function Or(a: Option<real>, b: Option<real>): Option<real> {
    if a.Some? && a.value != 0.0 then a else b
  }

  /** `a or b or Decimal("0")`. */
  function PriceOr(a: Option<real>, b: Option<real>): real {
    match Or(a, b)
    case Some(p) => p
    case None => 0.0
  }
}
