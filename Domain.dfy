/**
 * The records of the trading domain (internal/domain/types.go). Identifiers
 * that the source draws from uuid.New() are natural numbers here; money and
 * quantities, which the source keeps in float64, are exact reals.
 */
module Domain {
  import opened Wrappers

  type Symbol = string
  type PortfolioId = nat
  type OrderId = nat

  /** Order sides and order types travel as free strings, as in the source. */
  const SideBuy: string := "buy"
  const SideSell: string := "sell"

  const TypeMarket: string := "market"
  const TypeLimit: string := "limit"
  const TypeStop: string := "stop"
  const TypeStopLimit: string := "stop_limit"

  datatype OrderStatus = Pending | Filled | PartiallyFilled | Cancelled | Rejected

  datatype EntryType = Deposit | Withdrawal | TradeBuy | TradeSell | Fee

  /** What a caller submits: the fields the REST layer copies into a fresh order. */
  datatype OrderRequest = OrderRequest(
    portfolioId: PortfolioId,
    symbol: Symbol,
    side: string,
    orderType: string,
    quantity: real,
    limitPrice: Option<real>)

  datatype Order = Order(
    id: OrderId,
    portfolioId: PortfolioId,
    symbol: Symbol,
    side: string,
    orderType: string,
    quantity: real,
    limitPrice: Option<real>,
    fillPrice: Option<real>,
    filledQty: real,
    status: OrderStatus,
    rejectReason: Option<string>)

  /** A holding of one symbol in one portfolio. */
  datatype Position = Position(quantity: real, avgCost: real)

  /** One row of the append-only ledger; `amount` is signed. */
  datatype LedgerEntry = LedgerEntry(
    portfolioId: PortfolioId,
    orderId: Option<OrderId>,
    entryType: EntryType,
    amount: real,
    balanceAfter: real)

  /** A price observation; the timestamp is a count of nanoseconds. */
  datatype PriceTick = PriceTick(symbol: Symbol, price: real, size: real, timestamp: int)

  /** The cash every newly registered user's portfolio is opened with. */
  const StartingCash: real := 100000.0
}
