/** Quote records as the quote provider returns them, and the fixed symbol list. */
module Quotes {

  /** One field of a JSON object: the key is missing, present with `null`, or present with a value. */
  datatype Field<T> = Absent | Null | Present(value: T)

  type Symbol = string

  /** One record of the provider's reply (a JSON object), with the fields the bot reads or writes. */
  datatype Stock = Stock(
    symbol: Field<string>,
    name: Field<string>,
    price: Field<real>,
    previousClose: Field<real>,
    changePercent: Field<real>)

  /** The outcome of one quote request: the HTTP status and the decoded JSON array. */
  datatype Response = Response(status: int, body: seq<Stock>)

  /** Python truthiness of a numeric field: `None` (missing or null) and zero are false. */
  predicate Truthy(f: Field<real>) {
    f.Present? && f.value != 0.0
  }

  function Min(a: int, b: int): int {
    if a <= b then a else b
  }

  /** The fixed ticker list the bot watches. */
  const Sp500Symbols: seq<Symbol> := [
    "AAPL", "MSFT", "AMZN", "GOOGL", "META", "TSLA", "NVDA", "BRK.B", "JPM", "JNJ",
    "V", "PG", "XOM", "UNH", "MA", "HD", "CVX", "ABBV", "LLY", "PEP", "KO", "MRK",
    "AVGO", "BAC", "TMO", "DIS", "PFE", "CSCO", "ADBE", "WMT", "CRM", "CMCSA", "ABT",
    "MCD", "NFLX", "ACN", "DHR", "NKE", "INTC", "COST", "VZ", "TXN", "NEE", "LIN",
    "BMY", "MDT", "UNP", "HON", "AMGN"
  ]
}
