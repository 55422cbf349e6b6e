/** Trade signals, account balances and the failures that escape an operation
    as a Python exception would. */
module Signals {
  import opened Wrappers

  const Buy: string := "BUY"
  const Sell: string := "SELL"

  /** A signal dictionary. The keys `strategy`, `symbol`, `side`, `quantity`
      and `timestamp` are always present; `price`, `stop_loss`,
      `take_profit` and `confidence` may be missing (None). Open trades and
      open positions are dictionaries of the same shape. */
  datatype Signal = Signal(
    strategy: string,
    symbol: string,
    side: string,
    price: Option<real>,
    quantity: real,
    stopLoss: Option<real>,
    takeProfit: Option<real>,
    timestamp: int,
    confidence: Option<real>)

  /** One asset's entry in the exchange's balance dictionary. */
  datatype Balance = Balance(free: real, locked: real, total: real)

  /** An exception that leaves the operation that raised it. */
  datatype Fault =
    | ZeroDivision            // a division by a zero price
    | IndexOutOfRange         // `iloc` past the start of a frame
    | KeyMissing(key: string) // a dictionary lookup of an absent key
    | Raised(message: string) // any other exception, e.g. from a strategy not modelled here
}
