# Virtual-currency holdings: ledger and pricing service in Dafny

This project models the core of a browser-extension popup that records holdings
of eight virtual currencies (BTC, ETH, BNB, SOL, ADA, XRP, DOT, DOGE) and values
them in USD. It proves properties of that model. The core has two parts.

- **The ledger** (`dao.js`, module `Dao` in `dao.dfy`). Each balance lives in
  the browser's localStorage under its symbol. `add` and `remove` read the old
  value, compute the new one, write it, and read it back. `remove` clamps at 0.
  `getAmount` reads an absent or empty entry as 0. `total` adds
  `amount * rate` over the held symbols and asks `getRate` once per held symbol.
- **The pricing service** (`service.js`, module `Pricing` in `service.dfy`).
  `fetchWithRetry` is a bounded retry. `getRate` does a guarded single-symbol
  USD lookup. `getHoldings` builds the holdings view from a rate cache: a fresh
  cache is reused, a stale one is refreshed, and the old cache is the fallback
  when a refresh throws.

Supporting modules:

- `Numbers` (`numbers.dfy`): JavaScript numbers as reals or NaN, with `+`, `-`,
  `Math.max`, `>`, `===` and truthiness as JavaScript defines them for NaN.
- `Results` (`results.dfy`): `Option`, `Result` and `Outcome`.
- `Scenarios` (`scenarios.dfy`): clients of the operations. They cover
  usage examples, cache reuse within the freshness window, the
  stale-cache fallback, and the no-rates case.

How the environment is modelled:

- localStorage is the class `Dao.LocalStorage`. Its field `items` maps each key
  to an `Item`. An `Item` is the empty string, or a non-empty string paired
  with the number `parseFloat` reads from it. Text that is not a number reads
  as NaN.
- The ledger writes `n.toString()`, which `parseFloat` reads back as `n`. So
  the read-back check `stored !== newAmount` fails exactly when the new balance
  is NaN, because NaN is not equal to itself. The write has already happened
  by then.
- The network is a parameter `network: nat -> Attempt`: the outcome of the
  k-th fetch within one call. An outcome is a response (status and body), an
  abort, or a network failure.
- The clock is the parameter `now` (milliseconds).
- The two files depend on each other through globals: `dao.total` calls
  `service.getRate` (dao.js:88), and `service.getHoldings` calls
  `dao.getAmount` (service.js:109). Dafny modules cannot import each other in
  a cycle, so `Pricing` imports `Dao`, and `Dao.Total` takes `getRate` as a
  function parameter. `Pricing.RateOracle` then plugs in the
  modelled `GetRate`, giving each symbol's call its own network outcomes.
- Each loop is a method over a sequence of symbols, which the operation calls
  with the eight symbols. Each loop is proved against a specification function: `Dao.TotalFrom`,
  `Pricing.Fetched`, `Pricing.RatesOver` and `Pricing.HoldingsOver`. The
  lemmas beside each function state what it means.

The code lacks several features a reader might expect; the model follows the code:

- `add` and `remove` validate neither the symbol nor the amount. `add` with a
  negative amount lowers a balance, possibly below 0. `remove` with a negative
  amount raises it.
- There is no in-memory read cache for amounts. There is no `clear` and no
  `getAllAmounts`.
- The read-back uses exact `!==`, with no 1e-6 tolerance.
- The refresh is one request for all eight identifiers. It is not split into
  batches.
- A non-ok HTTP status throws a plain `Error`, and that is **not** retried.
  Only `AbortError` and `TypeError` are retried.
- `getRate` rejects a rate of 0 or NaN, but accepts a negative rate. It also
  accepts a numeric string, which `getHoldings` ignores.
- `getHoldings` caches any JSON number, 0 included. A cached 0 gives a null
  value. A successful response with no usable entries replaces the cache with
  an empty map. An empty map is truthy, so it counts as a fresh cache for the
  next minute.
- `dao.total` ignores the rate cache entirely. Each call asks `getRate`
  once for each held symbol, and each of those calls fetches.

## Model

| member | source | states |
|---|---|---|
| `Dao.LocalStorage.SetItem` | dao.js:22 | writing `n.toString()` under a key replaces that key's entry with a non-empty text that parses back to `n`; no other key changes |
| `Dao.ReadBack` | dao.js:26 | the read-back `parseFloat(localStorage.getItem(symbol))` is NaN exactly when the key is absent, the entry is empty, or its text parses to NaN; otherwise it is the parsed number |
| `Dao.GetAmount` | dao.js:71-74 | an absent key or an empty string reads as 0; any other entry reads as the number parseFloat makes of it, which is also what the read-back sees |
| `Dao.Debit` | dao.js:49 | `Math.max(0, current - amount)` is NaN exactly when an operand is NaN; otherwise it is never negative, at least `current - amount`, and either 0 or exactly `current - amount` |
| `Dao.Credited` | dao.js:14-22 | after add's write the symbol reads, and reads back, as old amount + amount (absent counts as 0); the key set gains only the symbol and every other key keeps its entry |
| `Dao.Debited` | dao.js:44-52 | after remove's write the symbol reads, and reads back, as the clamped difference; every other key keeps its entry |
| `Dao.Add` | dao.js:11-34 | the store becomes `Credited(old store)` whether or not add throws; it throws the storage-verification error exactly when the value written is NaN, so a store that returns what was written never makes it throw on a finite balance |
| `Dao.Remove` | dao.js:41-64 | the store becomes `Debited(old store)` whether or not remove throws; it throws exactly when the value written is NaN |
| `Dao.AddThenRemoveRestores` | dao.js:14-52 | for a starting balance c >= 0 and any finite a, add(s, a) then remove(s, a) leaves s reading exactly c, and other keys unchanged |
| `Dao.RemoveNeverAdded` | dao.js:44-52 | remove of a non-negative amount on a key never written leaves it reading 0 |
| `Dao.NaNBalanceIsSticky` | dao.js:14-29 | once a balance reads NaN, every later add or remove of it writes NaN again, so its read-back check fails every time |
| `Dao.RemoveKeepsNonNegative` | dao.js:49-52 | if every stored balance is a non-negative number, remove of any finite amount keeps it so |
| `Dao.AddKeepsNonNegative` | dao.js:19-22 | if every stored balance is a non-negative number, add of a finite non-negative amount keeps it so |
| `Dao.Total` | dao.js:81-94 | the total is `TotalFrom` over the eight symbols in their fixed order, starting from 0 |
| `Dao.TotalOver` | dao.js:83-93 | the loop with its early return on a failed getRate yields `TotalFrom` over the symbols it visits, starting from 0 |
| `Dao.TotalIsHeldValue` | dao.js:82-93 | when getRate yields `rateOf(s)` for every held symbol, the total is the sum of `amount * rateOf(s)` over the symbols with amount > 0 |
| `Dao.TotalFailsOnRateFailure` | dao.js:86-89 | the total fails exactly when getRate fails for some held symbol, and then with the error of such a call; there is no fallback |
| `Dao.TotalAsksOnlyHeld` | dao.js:86-88 | symbols with amount <= 0 (or NaN) cause no rate request: two oracles agreeing on the held symbols give the same total |
| `Dao.NothingHeldTotalsAcc` | dao.js:83-93 | with no symbol held, the total is the starting sum, whatever getRate would do |
| `Dao.EmptyLedgerTotalsZero` | dao.js:82-93 | an empty store totals 0 for any currency and any oracle |
| `Pricing.SymbolTable` | service.js:136-145 | the keys of symbolToId are exactly the eight symbols, in the order dao.total visits them |
| `Pricing.Settle` | service.js:18-26 | one fetch succeeds exactly on a response with status 200..299, yielding its body; any other status throws an HTTP error with that status; a timeout gives an AbortError and a network failure a TypeError |
| `Pricing.Fetched` | service.js:12-36 | a run makes between 1 and `retries + 1` fetches; its result is the last fetch's; every earlier fetch failed with AbortError or TypeError; it stops early only on success or a non-ok status |
| `Pricing.FetchWithRetry` | service.js:12-36 | the bounded loop returns the same result and fetch count as the source's recursion on `retries` |
| `Pricing.QuotedRate` | service.js:56-62 | the source tests `usd` for truthiness and then its parsed value; a rate is accepted exactly when the document and the identifier's entry exist and `parseFloat(usd)` is neither 0 nor NaN, so the first test never decides; the rate is that number |
| `Pricing.GetRate` | service.js:44-65 | a target other than USD fails with UnsupportedCurrency whatever the network does; a symbol missing from symbolToId fails with UnsupportedSymbol without a fetch; otherwise the call succeeds exactly when fetchWithRetry (3 retries) succeeds and its body quotes a truthy rate, which is returned and is nonzero; every other case is the one RateUnavailable failure |
| `Pricing.RatesOverContents` | service.js:87-92 | a refresh's rate map holds exactly the symbols whose entry has a numeric `usd`, each with that number |
| `Pricing.Refreshed` | service.js:81-103 | a refresh throws exactly when the fetch fails, `response.json()` fails, or the document is null; otherwise it stores only symbols whose entry's `usd` is a JSON number, each with that number |
| `Pricing.CollectRates` | service.js:87-92 | the loop filling `rates` yields `RatesOver` of the symbols it visits |
| `Pricing.HoldingsOverContents` | service.js:107-124 | the holdings view holds exactly the symbols with amount > 0; each entry has the ledger amount, and `amount * rate` when the rate is present and nonzero, otherwise null |
| `Pricing.BuildHoldings` | service.js:107-127 | the loop filling `holdings` yields `HoldingsOver` of the symbols it visits |
| `Pricing.Service.constructor` | service.js:130-133 | the service starts with no cached rates and no timestamp |
| `Pricing.Service.CacheIsFresh` | service.js:78 | the cache is used exactly when a rate map is cached and `now` minus the timestamp is below 60000 ms, a null timestamp counting as 0 |
| `Pricing.Service.GetHoldings` | service.js:71-128 | a fresh cache (present and younger than cacheDuration) means no fetch, an unchanged cache, and the view over the cached rates; otherwise one fetchWithRetry; a refresh that completes sets the cache to the parsed rates and the timestamp to `now`; a refresh that throws leaves both fields unchanged and uses the old cache, expired or not, or no rates |
| `Pricing.NonUsdTotal` | service.js:46-48 | dao.total with a target other than USD fails with UnsupportedCurrency as soon as one symbol is held, and totals 0 when none is |
| `Scenarios.HoldingsFromCachedRate` | service.js:77-124 | with BTC cached at 50000 and 0.1 BTC added, getHoldings makes no fetch and reports BTC with amount 0.1 and value 5000 |
| `Scenarios.RepeatedCallHitsCache` | service.js:77-96 | after a successful refresh, a second getHoldings within cacheDuration makes no fetch and prices with the rates the first call stored |
| `Scenarios.StaleFallback` | service.js:97-103 | after a successful refresh, a failed refresh once the cache has expired prices with the expired rates and keeps the old timestamp |
| `Scenarios.NoRatesAtAll` | service.js:97-124 | a failed refresh with nothing cached throws nothing and reports every held symbol with a null value |

## Left out

- popup.js is not part of this model: DOM construction, number formatting, debounce and throttle timers, the re-entrancy flag, chart loading and the permission check.
- The UI glue in service.js (lines 148-207: `handleAdd`, `handleRemove`, `setButtonsDisabled`, `updatePortfolioChart`) duplicates popup.js and is left out.
- Real networking and timers: `fetch`, `AbortController`, the `setTimeout` timeout and its `options.timeout` value, the one-second pause between retries, and URL construction. An abstract per-attempt outcome replaces them.
- Floating point: numbers are reals or NaN. Rounding, infinities (for example `parseFloat("Infinity")`, which getRate would accept) and negative zero are not modelled.
- String parsing: a JSON string `usd` and a localStorage text carry the number `parseFloat` reads from them, rather than being parsed character by character. An array-valued `usd`, which `parseFloat` reads through its string form, is not modelled.
- `setItem` throwing (quota exceeded) and writes from other browser tabs are not modelled. The store always returns what was written.
- symbolToId lookups of keys inherited from `Object.prototype` (for example `constructor`) are not modelled. The table is a plain map of its eight entries.
- `Promise.all` in getHoldings runs synchronous bodies, so it is modelled as a sequential loop. The insertion order of keys in the returned `holdings` and `rates` objects is not captured, because they are maps here.
- Console logging.
- Dao.Total: getRate is a function parameter, not a call into the service. `Pricing.RateOracle` instantiates it with the modelled GetRate.
