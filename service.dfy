/**
 * The pricing service (service.js): a bounded retry around each fetch, a
 * single-symbol USD rate lookup, and the holdings view built from a rate
 * cache that is reused while fresh, refreshed when stale, and kept as a
 * fallback when a refresh fails.
 *
 * The network is a parameter `network: nat -> Attempt`, the outcome of the
 * k-th fetch of a call; the clock is a parameter `now` in milliseconds.
 */
module Pricing {
  import opened Numbers
  import opened Results
  import Dao

  /** symbolToId: the eight supported symbols and their price-API identifiers. */
  const SymbolToId: map<string, string> := map[
    "BTC" := "bitcoin", "ETH" := "ethereum", "BNB" := "binancecoin", "SOL" := "solana",
    "ADA" := "cardano", "XRP" := "ripple", "DOT" := "polkadot", "DOGE" := "dogecoin"]

  /** `Object.keys(symbolToId)`, in the table's insertion order. */
  const Symbols: seq<string> := ["BTC", "ETH", "BNB", "SOL", "ADA", "XRP", "DOT", "DOGE"]

  /** The default of fetchWithRetry's `retries` parameter. */
  const DefaultRetries: nat := 3

  /** The keys of symbolToId are exactly the symbols dao.total visits, in the same order. */
  lemma SymbolTable()
    ensures forall s :: s in Symbols <==> s in SymbolToId
    ensures Symbols == Dao.Symbols
  {
  }

  /**
   * The `usd` member of one entry of a price response. A JSON number; a
   * non-empty JSON string, with the number parseFloat reads from it; the empty
   * string; or any other JSON value (null, a boolean, an object), with its
   * truthiness. parseFloat reads NaN from the empty string and from the others.
   */
  datatype UsdField = UsdNumber(n: real) | UsdString(parsed: JsNumber) | UsdEmptyString | UsdOther(truthy: bool)

  /** JavaScript truthiness of a `usd` member: a JSON number is never NaN, so only 0 is falsy among numbers. */
  predicate UsdTruthy(f: UsdField) {
    match f
    case UsdNumber(n) => n != 0.0
    case UsdString(_) => true
    case UsdEmptyString => false
    case UsdOther(truthy) => truthy
  }

  /**
   * What `response.json()` yields: no value (it throws on text that is not
   * JSON), `null`, or a document mapping price-API identifiers to the `usd`
   * member of their entry. An identifier whose entry is missing, falsy or has
   * no `usd` member is absent from the map; a JSON document that is not an
   * object and not null behaves as an empty document.
   */
  datatype Body = Unparsable | NullDocument | Document(usd: map<string, UsdField>)

  /** The outcome of one `fetch`: a response, or a rejection by timeout or by the network. */
  datatype Attempt = Response(status: int, body: Body) | Aborted | NetworkFailure

  /** What fetchWithRetry throws: the `Error` for a non-ok status, an AbortError or a TypeError. */
  datatype FetchError = HttpError(status: int) | AbortError | TypeError

  /** A fetchWithRetry run: the response body or the error thrown, and the number of fetches made. */
  datatype Fetch = Fetch(result: Result<Body, FetchError>, attempts: nat)

  /** One attempt's result: a response is ok when its status is in 200..299. */
  function Settle(a: Attempt): (r: Result<Body, FetchError>)
    ensures r.Success? <==> a.Response? && 200 <= a.status <= 299
    ensures r.Success? ==> r.value == a.body
    ensures a.Response? && r.Failure? ==> r.error == HttpError(a.status)
    ensures a.Aborted? <==> r == Failure(AbortError)
    ensures a.NetworkFailure? <==> r == Failure(TypeError)
  {
    match a
    case Response(status, body) => if 200 <= status <= 299 then Success(body) else Failure(HttpError(status))
    case Aborted => Failure(AbortError)
    case NetworkFailure => Failure(TypeError)
  }

  /** The catch block retries only errors named AbortError or TypeError. */
  predicate Retryable(r: Result<Body, FetchError>) {
    r.Failure? && (r.error.AbortError? || r.error.TypeError?)
  }

  /**
   * fetchWithRetry's recursion, starting at fetch number `first` with
   * `retries` retries left. It makes between 1 and `retries + 1` fetches; its
   * result is that of the last one; every earlier fetch failed with an
   * AbortError or a TypeError; and it stops before the budget is spent only
   * on a success or on a non-ok status.
   */
  function Fetched(network: nat -> Attempt, first: nat, retries: nat): (f: Fetch)
    ensures 1 <= f.attempts <= retries + 1
    ensures f.result == Settle(network(first + f.attempts - 1))
    ensures forall j :: first <= j < first + f.attempts - 1 ==> Retryable(Settle(network(j)))
    ensures f.attempts < retries + 1 ==> !Retryable(f.result)
    decreases retries
  {
    var outcome := Settle(network(first));
    if Retryable(outcome) && retries > 0 then
      var rest := Fetched(network, first + 1, retries - 1);
      Fetch(rest.result, rest.attempts + 1)
    else
      Fetch(outcome, 1)
  }

  /** A retryable failure with retries left: the run is that fetch followed by the run from the next one. */
  lemma FetchedRetries(network: nat -> Attempt, first: nat, retries: nat)
    requires Retryable(Settle(network(first))) && retries > 0
    ensures Fetched(network, first, retries)
            == (var rest := Fetched(network, first + 1, retries - 1); Fetch(rest.result, rest.attempts + 1))
  {
  }

  /**
   * fetchWithRetry(url, options, retries) as a bounded loop: fetch, and on an
   * AbortError or a TypeError try again while retries remain. The timeout and
   * the one-second pause between attempts are not modelled.
   */
  method FetchWithRetry(network: nat -> Attempt, retries: nat) returns (result: Result<Body, FetchError>, attempts: nat)
    ensures Fetch(result, attempts) == Fetched(network, 0, retries)
  {
    var left := retries;
    result := Settle(network(0));
    attempts := 1;
    while Retryable(result) && left > 0
      invariant 1 <= attempts && attempts + left == retries + 1
      invariant result == Settle(network(attempts - 1))
      invariant Fetched(network, 0, retries).result == Fetched(network, attempts - 1, left).result
      invariant Fetched(network, 0, retries).attempts == Fetched(network, attempts - 1, left).attempts + attempts - 1
      decreases left
    {
      FetchedRetries(network, attempts - 1, left);
      left := left - 1;
      result := Settle(network(attempts));
      attempts := attempts + 1;
    }
  }

  /** Why getRate throws. */
  datatype RateError = UnsupportedCurrency | UnsupportedSymbol | RateUnavailable

  /**
   * `parseFloat(data[id].usd)`: a number is itself, a string parses to its
   * recorded number, anything else is NaN.
   */
  function ParseFloatUsd(f: UsdField): JsNumber {
    match f
    case UsdNumber(n) => Finite(n)
    case UsdString(parsed) => parsed
    case UsdEmptyString => NaN
    case UsdOther(_) => NaN
  }

  /**
   * The rate getRate accepts for `id` from a response body: the document, its
   * entry and the entry's `usd` must be truthy, and then the parsed `usd` must
   * be truthy too, that is neither 0 nor NaN. Every falsy `usd` parses to 0 or
   * NaN, so the second test alone decides.
   */
  function QuotedRate(body: Body, id: string): (r: Option<real>)
    ensures r.Some? <==> body.Document? && id in body.usd && Truthy(ParseFloatUsd(body.usd[id]))
    ensures r.Some? ==> r.value != 0.0 && ParseFloatUsd(body.usd[id]) == Finite(r.value)
  {
    if body.Document? && id in body.usd && UsdTruthy(body.usd[id]) then
      var rate := ParseFloatUsd(body.usd[id]);
      if Truthy(rate) then Some(rate.value) else None
    else None
  }

  /**
   * getRate(fromSymbol, toSymbol): a target other than USD fails before the
   * symbol is looked up, a symbol without an identifier fails before any
   * fetch, and otherwise one fetchWithRetry (3 retries) must yield a body
   * whose quoted rate is truthy. A failed fetch, a malformed body and a zero
   * or NaN rate all fail alike.
   */
  function GetRate(fromSymbol: string, toSymbol: string, network: nat -> Attempt): (r: Result<real, RateError>)
    ensures toSymbol != "USD" ==> r == Failure(UnsupportedCurrency)
    ensures toSymbol == "USD" && fromSymbol !in SymbolToId ==> r == Failure(UnsupportedSymbol)
    ensures r.Success? ==> r.value != 0.0
    ensures r.Success? <==>
            toSymbol == "USD" && fromSymbol in SymbolToId &&
            Fetched(network, 0, DefaultRetries).result.Success? &&
            QuotedRate(Fetched(network, 0, DefaultRetries).result.value, SymbolToId[fromSymbol]).Some?
    ensures r.Success? ==> QuotedRate(Fetched(network, 0, DefaultRetries).result.value, SymbolToId[fromSymbol]) == Some(r.value)
    ensures r.Failure? && toSymbol == "USD" && fromSymbol in SymbolToId ==> r.error == RateUnavailable
  {
    if toSymbol != "USD" then Failure(UnsupportedCurrency)
    else if fromSymbol !in SymbolToId then Failure(UnsupportedSymbol)
    else
      var fetched := Fetched(network, 0, DefaultRetries).result;
      if fetched.Failure? then Failure(RateUnavailable)
      else
        var rate := QuotedRate(fetched.value, SymbolToId[fromSymbol]);
        if rate.Some? then Success(rate.value) else Failure(RateUnavailable)
  }

  /**
   * The rates a refresh collects from a document for the symbols `syms`: a
   * symbol gets the `usd` of its identifier's entry when that is a JSON number
   * (`typeof usd === 'number' && !isNaN(usd)`; a JSON number is never NaN).
   */
  function RatesOver(syms: seq<string>, usd: map<string, UsdField>): (r: map<string, real>)
    requires forall s :: s in syms ==> s in SymbolToId
    ensures forall s :: s in r ==> s in syms && SymbolToId[s] in usd && usd[SymbolToId[s]] == UsdNumber(r[s])
    decreases |syms|
  {
    if |syms| == 0 then map[]
    else
      var last := syms[|syms| - 1];
      var rates := RatesOver(syms[..|syms| - 1], usd);
      var id := SymbolToId[last];
      if id in usd && usd[id].UsdNumber? then rates[last := usd[id].n] else rates
  }

  /**
   * A refresh's rates hold exactly the symbols of `syms` whose entry has a
   * numeric `usd`, each with that number.
   */
  lemma {:induction false} RatesOverContents(syms: seq<string>, usd: map<string, UsdField>, s: string)
    requires forall t :: t in syms ==> t in SymbolToId
    ensures s in RatesOver(syms, usd) <==> s in syms && SymbolToId[s] in usd && usd[SymbolToId[s]].UsdNumber?
    ensures s in RatesOver(syms, usd) ==> RatesOver(syms, usd)[s] == usd[SymbolToId[s]].n
    decreases |syms|
  {
    if |syms| > 0 {
      var init := syms[..|syms| - 1];
      assert forall t :: t in syms <==> t in init || t == syms[|syms| - 1];
      RatesOverContents(init, usd, s);
    }
  }

  /**
   * The rate map a refresh stores, or None when the refresh throws: the fetch
   * failed, `response.json()` threw, or `data[id]` threw on a null document.
   */
  function Refreshed(fetched: Result<Body, FetchError>): (r: Option<map<string, real>>)
    ensures r.None? <==> fetched.Failure? || fetched.value.Unparsable? || fetched.value.NullDocument?
    ensures r.Some? ==> forall s :: s in r.value ==>
              s in Symbols && SymbolToId[s] in fetched.value.usd && fetched.value.usd[SymbolToId[s]] == UsdNumber(r.value[s])
  {
    if fetched.Success? && fetched.value.Document? then Some(RatesOver(Symbols, fetched.value.usd)) else None
  }

  /** One entry of the holdings view: the ledger amount and its worth, null without a usable rate. */
  datatype Holding = Holding(amount: real, value: Option<real>)

  /** `rate && !isNaN(rate)` on `rates[symbol]`: absent and 0 are not usable. */
  function UsableRate(rates: map<string, real>, symbol: string): Option<real> {
    if symbol in rates && rates[symbol] != 0.0 then Some(rates[symbol]) else None
  }

  /** The entry for a held amount. */
  function HoldingAt(amount: real, rates: map<string, real>, symbol: string): Holding {
    var rate := UsableRate(rates, symbol);
    if rate.Some? then Holding(amount, Some(Dao.Worth(amount, rate.value))) else Holding(amount, None)
  }

  /** The holdings view over the symbols `syms`: an entry for each symbol whose amount is `> 0`. */
  function HoldingsOver(syms: seq<string>, items: map<string, Dao.Item>, rates: map<string, real>): map<string, Holding>
    decreases |syms|
  {
    if |syms| == 0 then map[]
    else
      var last := syms[|syms| - 1];
      var holdings := HoldingsOver(syms[..|syms| - 1], items, rates);
      if Dao.Held(items, last) then holdings[last := HoldingAt(Dao.GetAmount(items, last).value, rates, last)]
      else holdings
  }

  /**
   * The holdings view holds exactly the symbols of `syms` with an amount
   * `> 0`; each entry carries that amount, and `amount * rate` when the rate is
   * usable, otherwise null.
   */
  lemma {:induction false} HoldingsOverContents(syms: seq<string>, items: map<string, Dao.Item>,
                                                rates: map<string, real>, s: string)
    ensures s in HoldingsOver(syms, items, rates) <==> s in syms && Dao.Held(items, s)
    ensures s in HoldingsOver(syms, items, rates) ==>
            var h := HoldingsOver(syms, items, rates)[s];
            && Dao.GetAmount(items, s) == Finite(h.amount)
            && h.amount > 0.0
            && h.value == (if s in rates && rates[s] != 0.0 then Some(Dao.Worth(h.amount, rates[s])) else None)
    decreases |syms|
  {
    if |syms| > 0 {
      var init := syms[..|syms| - 1];
      assert forall t :: t in syms <==> t in init || t == syms[|syms| - 1];
      HoldingsOverContents(init, items, rates, s);
    }
  }

  /** getHoldings' loop over the symbols `syms` that fills `rates` from a price document. */
  method CollectRates(syms: seq<string>, usd: map<string, UsdField>) returns (rates: map<string, real>)
    requires forall s :: s in syms ==> s in SymbolToId
    ensures rates == RatesOver(syms, usd)
  {
    rates := map[];
    for i := 0 to |syms|
      invariant rates == RatesOver(syms[..i], usd)
    {
      assert syms[..i + 1][..i] == syms[..i];
      var id := SymbolToId[syms[i]];
      if id in usd && usd[id].UsdNumber? {
        rates := rates[syms[i] := usd[id].n];
      }
    }
    assert syms[..|syms|] == syms;
  }

  /** getHoldings' loop over the symbols `syms` that fills `holdings` from the ledger and `rates`. */
  method BuildHoldings(store: Dao.LocalStorage, syms: seq<string>, rates: map<string, real>)
    returns (holdings: map<string, Holding>)
    ensures holdings == HoldingsOver(syms, store.items, rates)
  {
    holdings := map[];
    for i := 0 to |syms|
      invariant holdings == HoldingsOver(syms[..i], store.items, rates)
    {
      assert syms[..i + 1][..i] == syms[..i];
      var symbol := syms[i];
      var amount := Dao.GetAmount(store.items, symbol);
      if Greater(amount, Zero) {
        if symbol in rates && rates[symbol] != 0.0 {
          holdings := holdings[symbol := Holding(amount.value, Some(Dao.Worth(amount.value, rates[symbol])))];
        } else {
          holdings := holdings[symbol := Holding(amount.value, None)];
        }
      }
    }
    assert syms[..|syms|] == syms;
  }

  /** The state of the service object: the rate cache and when it was filled. */
  class Service {
    /** One minute, in milliseconds. */
    const cacheDuration: int := 60000
    var rateCache: Option<map<string, real>>
    var rateCacheTimestamp: Option<int>

    constructor ()
      ensures rateCache == None && rateCacheTimestamp == None
    {
      rateCache := None;
      rateCacheTimestamp := None;
    }

    /** `rateCacheTimestamp` as a number: JavaScript reads null as 0 in `now - null`. */
    function TimestampNumber(): int
      reads this
    {
      if rateCacheTimestamp.Some? then rateCacheTimestamp.value else 0
    }

    /**
     * `this.rateCache && now - this.rateCacheTimestamp < this.cacheDuration`.
     * Any cached map, the empty one included, is truthy.
     */
    predicate CacheIsFresh(now: int)
      reads this
      ensures CacheIsFresh(now) <==>
                && rateCache.Some?
                && (rateCacheTimestamp.Some? ==> now - rateCacheTimestamp.value < 60000)
                && (rateCacheTimestamp.None? ==> now < 60000)
    {
      rateCache.Some? && now - TimestampNumber() < cacheDuration
    }

    /**
     * getHoldings(): a fresh cache is used with no fetch; otherwise one
     * fetchWithRetry refreshes it, and a refresh that throws leaves the cache
     * and its timestamp alone and falls back to the old rates, expired or
     * not, or to no rates at all. The view then has an entry for each held
     * symbol.
     */
    method GetHoldings(store: Dao.LocalStorage, now: int, network: nat -> Attempt)
      returns (holdings: map<string, Holding>, attempts: nat)
      modifies this
      ensures old(CacheIsFresh(now)) ==>
                && attempts == 0
                && rateCache == old(rateCache) && rateCacheTimestamp == old(rateCacheTimestamp)
                && holdings == HoldingsOver(Symbols, store.items, old(rateCache).value)
      ensures !old(CacheIsFresh(now)) ==>
                var fetch := Fetched(network, 0, DefaultRetries);
                var refreshed := Refreshed(fetch.result);
                && attempts == fetch.attempts
                && (refreshed.Some? ==>
                      && rateCache == refreshed && rateCacheTimestamp == Some(now)
                      && holdings == HoldingsOver(Symbols, store.items, refreshed.value))
                && (refreshed.None? ==>
                      && rateCache == old(rateCache) && rateCacheTimestamp == old(rateCacheTimestamp)
                      && holdings == HoldingsOver(Symbols, store.items,
                                                  if old(rateCache).Some? then old(rateCache).value else map[]))
    {
      var rates: map<string, real> := map[];
      attempts := 0;
      if CacheIsFresh(now) {
        rates := rateCache.value;
      } else {
        var fetched;
        fetched, attempts := FetchWithRetry(network, DefaultRetries);
        if fetched.Success? && fetched.value.Document? {
          rates := CollectRates(Symbols, fetched.value.usd);
          rateCache := Some(rates);
          rateCacheTimestamp := Some(now);
        } else if rateCache.Some? {
          // the refresh threw: keep the cache and use it even if it has expired
          rates := rateCache.value;
        }
      }

      holdings := BuildHoldings(store, Symbols, rates);
    }
  }

  /** The getRate that dao.total consults; each symbol's call sees its own network outcomes. */
  function RateOracle(network: string -> (nat -> Attempt)): (string, string) -> Result<real, RateError> {
    (s: string, c: string) => GetRate(s, c, network(s))
  }

  /**
   * dao.total with a target other than USD: it fails with the unsupported
   * currency error as soon as one symbol is held, and totals 0 when none is.
   */
  lemma NonUsdTotal(items: map<string, Dao.Item>, currency: string, network: string -> (nat -> Attempt))
    requires currency != "USD"
    ensures (exists i :: 0 <= i < |Dao.Symbols| && Dao.Held(items, Dao.Symbols[i])) ==>
            Dao.TotalFrom(Dao.Symbols, items, currency, RateOracle(network), 0.0) == Failure(UnsupportedCurrency)
    ensures (forall i :: 0 <= i < |Dao.Symbols| ==> !Dao.Held(items, Dao.Symbols[i])) ==>
            Dao.TotalFrom(Dao.Symbols, items, currency, RateOracle(network), 0.0) == Success(0.0)
  {
    Dao.TotalFailsOnRateFailure(Dao.Symbols, items, currency, RateOracle(network), 0.0);
    if forall i :: 0 <= i < |Dao.Symbols| ==> !Dao.Held(items, Dao.Symbols[i]) {
      Dao.NothingHeldTotalsAcc(Dao.Symbols, items, currency, RateOracle(network), 0.0);
    }
  }
}
