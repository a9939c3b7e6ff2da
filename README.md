# Market bot: fetch, rank and notify, in Dafny

A model of the data-handling core of a small market bot. The bot fetches quotes for a fixed
list of tickers in batches of at most 100 symbols. It annotates each quote with its percent
change since the previous close and ranks the quotes by that change. It then posts two chat
messages: the top 5 gainers and the top 5 losers. When no quote could be fetched it posts a
single warning instead. The market-open and market-close routines post a status line first.

Modules, one per component of `main.py`:

- `Quotes` (quotes.dfy): quote records, where each JSON field is absent, null or present; the
  per-request `Response`; the 49-ticker symbol list.
- `BatchFetch` (batch_fetch.dfy): `get_batch_stock_data` as a method with a loop. The HTTP GET
  is a parameter `fetch(k, batch)`, the answer to the k-th request. The method also returns the
  batches it requested, so the number and contents of the requests can be stated.
- `Movers` (movers.dfy): the `changePercent` rule and `get_top_movers`. The annotation loop
  updates the records of an array in place. `sorted(..., reverse=True)` is a stable insertion
  sort (a function), and the `[:5]` / `[-5:]` slices are functions.
- `Format` (format.dfy): `format_movers_message` as a method that appends one line per mover.
  The `:.2f` rendering of a number is a parameter `num`.
- `Notify` (notify.dfy): a `MarketBot` class whose `outbox` receives every posted message, and
  the open/close/top-movers routines as methods on it.

Behaviour of the code that the model states explicitly:

- Ties in the sort: Python's `sorted` is stable even with `reverse=True`, so records with equal
  change keep their input order. The model proves this (`SortStable`, `SortUnique`).
- Symbols of returned records: the code never checks the provider's records against the
  requested symbols, so the model promises nothing about them.
- Name field: the message line uses "N/A" for a missing `name` key and "None" for a null one.
  This follows `stock.get('name', 'N/A')`.

## Model

| member | source | states |
|---|---|---|
| `BatchFetch.GetBatchStockData` | main.py:31-40 | the requests issued are exactly `Batches(symbols)`, and the result is the concatenation, in request order, of what each answer contributes |
| `BatchFetch.BatchesCount` | main.py:33-34 | for N symbols there are ceil(N / 100) requests |
| `BatchFetch.BatchAt` | main.py:34-35 | the k-th request asks for `symbols[100k : 100k + 100]`, holds between 1 and 100 symbols, and starts inside the list |
| `BatchFetch.BatchesFlatten` | main.py:34-35 | the batches, concatenated in order, give back the symbol list |
| `BatchFetch.CollectedSnoc` | main.py:38-39 | one more batch appends exactly its answer's records when the status is 200, and nothing otherwise |
| `BatchFetch.CollectedMember` | main.py:37-40 | a record is in the result if and only if some batch was answered with status 200 and carried it |
| `BatchFetch.CollectedAllFailed` | main.py:32-40 | when no batch is answered with status 200 the result is empty |
| `BatchFetch.CollectedAllOk` | main.py:37-40 | when every batch is answered with status 200 the result is all the answers' records, in batch order |
| `BatchFetch.Sp500OneBatch` | main.py:10-16 | the bot's own list has 49 tickers and goes out as a single batch |
| `Movers.ChangePercent` | main.py:44-50 | 0 unless both previous close and price are present and non-zero; otherwise the change satisfies previousClose + change × previousClose / 100 = price |
| `Movers.ChangePercentSign` | main.py:46-47 | with a positive previous close, the change is positive exactly when the price rose and negative exactly when it fell |
| `Movers.ChangePercentExamples` | main.py:44-50 | 100→110 and 50→55 give 10, 80→72 gives −10, a zero price, a zero previous close or a null previous close give 0 |
| `Movers.AnnotateAllFields` | main.py:43-50 | annotation keeps length and order, writes `changePercent` into every record and leaves every other field as it was |
| `Movers.GetTopMovers` | main.py:42-55 | every record of the list is annotated in place, and the result is the first and last min(5, n) of the stable descending sort of the annotated records |
| `Movers.Insert` | main.py:52 | inserting into a sorted list keeps it sorted and adds exactly that record |
| `Movers.SortDesc` | main.py:52 | the sorted list is a permutation of its input and is non-increasing in `changePercent` |
| `Movers.SortStable` | main.py:52 | for every change value, the records with that value come out in their input order |
| `Movers.SortUnique` | main.py:52 | any list that is non-increasing and keeps each value's records in input order equals the sort's result |
| `Movers.MoversSlices` | main.py:53-54 | gainers are the first and losers the last min(5, n) sorted records; each gainer's change is at least that of every record after the gainers; each loser's is at most that of every record before the losers; with n ≥ 10 the list is gainers, then the middle, then losers; with 0 < n < 10 the losers start inside the gainers |
| `Movers.TopMoversFromInput` | main.py:43-55 | every gainer and loser is an annotated input record with a numeric `changePercent` |
| `Format.FormatMoversMessage` | main.py:57-64 | the message built by appending line by line is the header line followed by one line per mover |
| `Format.LinesSnoc` | main.py:59-63 | appending a mover appends its line and a newline |
| `Format.SplitAfterLine` | main.py:58-63 | a newline-free line followed by a newline splits off as one piece |
| `Format.SplitLinesOfMovers` | main.py:59-63 | split at newlines, the mover lines give one piece per mover, in order, then an empty piece |
| `Format.MessageLayout` | main.py:57-64 | split at newlines, the message is the header "{emoji} {title}", one line per mover in order, then an empty piece; with no movers it is the header line alone |
| `Format.LineDefaults` | main.py:60-63 | a missing name prints "N/A" and a missing percentage prints as 0 |
| `Notify.TopMoversMessages` | main.py:66-77 | nothing fetched gives the one warning; otherwise exactly two messages, the gainers message (starting with its header line) before the losers message |
| `Notify.TriggerMessages` | main.py:23-29 | a trigger posts its status line first, then the warning alone or the two mover messages; the warning is never posted when records were fetched |
| `Notify.TwoStockScenario` | main.py:42-77 | quotes A (50 → 55) and B (80 → 72) give +10% and −10%, and both messages list A's line before B's |
| `Notify.MarketBot.SendTelegramMessage` | main.py:18-21 | posting appends the message to the outbox and changes nothing else |
| `Notify.MarketBot.SendSp500TopMovers` | main.py:66-77 | the outbox grows by exactly the messages for the fetched records |
| `Notify.MarketBot.SendMarketOpenMessage` | main.py:23-25 | the outbox grows by "🟢 Market Open!" and then the top-movers messages |
| `Notify.MarketBot.SendMarketCloseMessage` | main.py:27-29 | the outbox grows by "🔴 Market Close!" and then the top-movers messages |

## Left out

- HTTP: the GET to the quote provider, the URL built from the comma-joined batch and API key, and JSON decoding. Each request is the abstract answer `fetch(k, batch)`.
- The POST to the messaging endpoint, the bot token and the chat id (environment variables). Posting is an append to `outbox`; the response of the POST is not read, as in the source.
- Exceptions and hangs of the HTTP calls: the GET and the POST are made with no `try` and no timeout, so in the source a transport error aborts the trigger and later messages (including the warning) are not sent, and a call can block for ever. The model's `fetch` always answers and every post completes.
- The weekly schedule (`schedule` registrations), the polling loop with `time.sleep`, and `keep_alive`. These are wall-clock scheduling, a third-party library and a separate server with no shared state.
- Floating point: the percent change is an exact `real`, and the `:.2f` rendering is the parameter `num`. Only the line structure around it is stated.
- JSON fields the bot never reads are not part of a record. A numeric field holding a non-number (a string, say) is not modelled.
- Object identity: Python's records are dicts shared between the list, the sorted list and the slices. The model annotates array elements in place and then works on values. Nothing mutates a record after annotation, so the results are the same; aliasing itself is not captured.
- Format.FormatMoversMessage: requires that no mover has a null `changePercent`, where Python would raise a TypeError. Its only caller passes annotated records, and annotation always writes a number.

