/** The static configuration defaults the core reads (environment loading is not modelled). */
module Config {
  const IbkrHost: string := "127.0.0.1"
  const IbkrPort: int := 7497
  const IbkrClientId: int := 1
  const ContractSymbol: string := "ES"
  const ContractMonth: string := "20251219"
  const ContractExchange: string := "CME"
  const ContractCurrency: string := "USD"
}

/** The records the bot hands back to its callers. */
module Models {
  import opened Wrappers

  /** An open position as the futures bot reports it; quantity is signed (negative = short). */
  datatype Position = Position(
    symbol: string,
    quantity: int,
    averagePrice: real,
    marketValue: real,
    unrealizedPnl: real,
    realizedPnl: real)

  /** The outcome of one order ticket (the timestamp field is not modelled). */
  datatype TradeResult = TradeResult(
    success: bool,
    message: string,
    orderId: Option<int>,
    filledQuantity: Option<int>,
    averagePrice: Option<real>)

  /** A failed outcome built from an exception message, with no order id. */
  function Failed(message: string): (r: TradeResult)
    ensures !r.success && r.message == message
    ensures r.orderId.None? && r.filledQuantity.None? && r.averagePrice.None?
  {
    TradeResult(false, message, None, None, None)
  }
}
