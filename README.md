# Stock allocation service: a Dafny model of the `/api/stocks` pipeline

The service has a fixed table of 25 Indian equity and REIT tickers. Each has a
display label and a target percentage. `GET /api/stocks?investment=<n>` looks
up a price for every ticker. It then returns one record per ticker, in table
order. When an investment is given and a ticker's price is a number, its
record also carries a rounded currency amount and a share quantity. For a
positive price, the quantity is the least whole number of shares whose cost
covers that amount. When there is no investment, or the price is 'N/A' or
NaN, both are null.

This project models that pipeline as pure functions over exact reals:

- `Quotes`: the per-ticker price fallback. A lookup outcome becomes a quoted
  number or the `'N/A'` marker, and the fallback never throws.
- `Stocks`: the constant instrument table. It also holds the index-wise join of
  the table with the prices (`fetchAllStockPrices`).
- `JsNumbers`: the two JavaScript number operations that the arithmetic uses.
  These are `+(x).toFixed(0)`, following Number.prototype.toFixed in section
  21.1.3.3 of ECMA-262, and `Math.ceil`.
- `Allocation`: the `map` closure that adds `allocated_amount` and
  `allocated_quantity` to each record.
- `Endpoint`: validation of the `investment` query parameter, and the handler
  as one function. It maps the parameter and one quote outcome per ticker to
  the response.

The network lookup is not modelled. Its outcome for `Table[i]` is the input
`outcomes[i]`. The lookup result is abstracted as a quote that may lack
`regularMarketPrice`, or as a thrown error. `parseFloat` is also abstracted:
its result arrives with the query text as `Num(v)` or `NaN`. The model's
functions have no hidden state, so calling them twice with the same inputs
gives the same result.

## Model

| member | source | states |
|---|---|---|
| `JsNumbers.ToFixed0` | index.js:88 | for x >= 0 the result lies in (x - 1/2, x + 1/2], so it is a nearest integer and ties go up; for x < 0 it lies in [x - 1/2, x + 1/2), so ties go away from zero |
| `JsNumbers.ToFixed0IsNearest` | index.js:88 | no integer is nearer to x than `ToFixed0(x)`; any other integer just as near has a smaller magnitude |
| `JsNumbers.Ceil` | index.js:89 | `Math.ceil(x)` is an integer n with x <= n < x + 1 |
| `JsNumbers.CeilIsLeast` | index.js:89 | every integer at or above x is at least `Ceil(x)` |
| `JsNumbers.CeilDivCovers` | index.js:89 | with a positive price, `Ceil(amount / price)` shares cost at least `amount`, and one share fewer costs less than `amount` |
| `Quotes.FetchStockPrice` | index.js:37-46 | the result is `'N/A'` exactly when the lookup threw, the quote is nullish or its `regularMarketPrice` is nullish; otherwise it is that price unchanged, including 0 and NaN |
| `Quotes.FoundPricePassesThrough` | index.js:41 | a present `regularMarketPrice` is returned as it is |
| `Stocks.Merge` | index.js:53-58 | one record per stock, in table order; record i has stocks[i]'s label as `stock_name`, its ticker as `stock_ticker`, its percentage, and prices[i] as `last_traded_price` |
| `Stocks.FetchAllStockPrices` | index.js:48-58 | one record per configured stock, in table order; record i carries stock i's fields and the fallback price of lookup i, whatever order the lookups complete in |
| `Stocks.FailedLookupOnlyDegradesItsRecord` | index.js:42-58 | for any instrument list, a lookup that throws for stock j changes only record j of the join, whose price becomes `'N/A'`; every other record is unchanged |
| `Stocks.TableTickersDistinct` | index.js:9-35 | the configured tickers are pairwise distinct |
| `Stocks.TablePercentagesInRange` | index.js:9-35 | every configured percentage lies in (0, 100] |
| `Stocks.TableTotalPercentage` | index.js:9-35 | the configured percentages sum to 101.07, not 100; nothing normalises them |
| `Allocation.EnrichStock` | index.js:81-107 | the four input fields are copied unchanged; the amount is set exactly when there is a truthy investment and a price that is neither `'N/A'` nor NaN; the quantity is set exactly when the amount is; for a non-negative share (the validated investment and every configured weight are positive), a set amount is within 1/2 of investment × percentage / 100, with ties up; with a positive price, quantity × price >= amount > (quantity − 1) × price |
| `Allocation.Enrich` | index.js:81-107 | one output record per input record, in order; record i depends only on input record i and the shared investment |
| `Allocation.NoInvestmentNoAllocation` | index.js:82-90 | without a truthy investment every record has both allocations null |
| `Allocation.EnrichIsPointwise` | index.js:81-107 | changing one input record changes only the output record at that index; there is no cross-instrument normalisation |
| `Endpoint.ValidateInvestment` | index.js:67-76 | an absent or empty parameter means no investment and no error; a present value that parses to NaN or to <= 0 gives the client error "Investment amount must be a positive number"; otherwise the parsed positive value is the investment |
| `Endpoint.GetStocks` | index.js:65-114 | the response is a 400 exactly when validation rejects the parameter; otherwise it is a 200 with the validated investment and one record per configured stock, in table order; each record has that stock's fields and the price of its own lookup; its allocations are set together, and only when the investment and price allow; each record equals `EnrichStock` of its own stock and price with the shared investment, so the rounding and ceiling-safety bounds hold for the values returned |
| `Endpoint.InvalidInvestmentSkipsLookups` | index.js:68-78 | for any two lists of lookup outcomes, a rejected investment produces the same 400 response, so the price fetch is not reached |
| `Endpoint.NoInvestmentAcceptsAnyQuotes` | index.js:68-90 | an absent or empty investment gives a 200 with no investment for any lookup outcomes, a quoted 0 included, and every allocation is null |
| `Endpoint.FailedLookupIsIsolated` | index.js:42-44 | a lookup that throws for one ticker makes only that record `'N/A'` with null allocations; every other record is unchanged |
| `Endpoint.WorkedExample` | index.js:88-89 | investment 100000, percentage 4.4 and price 1503.25 give an amount of 4400 and a quantity of 3 |

## Left out

- Express setup, CORS, routing, the health check, `app.listen` and port handling (index.js:1-7, index.js:123-130). These are HTTP plumbing. `cors` is used at index.js:7 but never required.
- The `yahooFinance.quote` network call and the `Promise.all` fan-out and fan-in (index.js:40, index.js:50-51). These are a foreign library and concurrency. Their outcomes are inputs to the model.
- Logging (`console.log`, `console.error`) and the `timestamp` field of the response (index.js:93-100, index.js:113). These are side effects, and the timestamp reads a clock.
- The 500 response and the rethrow in `fetchAllStockPrices` (index.js:59-61, index.js:115-120). `fetchStockPrice` catches every lookup error, so the model's `Response` has no server-error case. The catch block reads `error.message`, though. A lookup that rejects with `null` or `undefined` therefore throws a TypeError from inside the catch (index.js:43), which becomes the 500 response. `Threw(message)` cannot express such a rejection.
- `parseFloat`'s string parsing, including prefix parsing of inputs such as "12abc". The parsed result is an input. A query parameter given more than once, which Express turns into an array, is not modelled.
- IEEE-754 detail. Arithmetic is exact over reals, so the model leaves out binary rounding of products such as 4.4 / 100 and the tie cases of `toFixed` that it shifts. It also leaves out the exponent notation `toFixed` uses at or above 1e21, an `Infinity` investment passing validation, and negative zero.
- Allocation.EnrichStock: requires that a usable price it divides by is not zero. A quoted price of 0 passes the `??` fallback, and JavaScript then returns `Infinity` or `NaN` for the quantity; the model does not represent those values.
- Endpoint.GetStocks: requires, through `DivisibleQuotes`, that no price it divides by is zero. That applies only when the investment is accepted and present and the price is usable. A rejected or absent investment places no requirement on the lookups.
- Allocation.EnrichStock: states ceiling safety only for a positive price. The source does not guard against a negative price, and for one the model computes the same `Math.ceil` but proves no bound.

One might expect every price to be a positive number. The code passes any non-nullish `regularMarketPrice` through, including 0 and NaN. Only the allocation guard filters out NaN. The model follows the code.
