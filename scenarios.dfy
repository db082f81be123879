/**
 * Clients of the ledger and the pricing service: usage examples, proved
 * from the operations' contracts alone.
 */
module Scenarios {
  import opened Numbers
  import opened Results
  import Dao
  import Pricing

  /** add('BTC', 0.5) then add('BTC', 0.25): getAmount('BTC') reads 0.75 and neither add throws. */
  method AddTwice() {
    var store := new Dao.LocalStorage();
    var r1 := Dao.Add(store, "BTC", Finite(0.5));
    var r2 := Dao.Add(store, "BTC", Finite(0.25));
    assert r1 == Pass && r2 == Pass;
    assert Dao.GetAmount(store.items, "BTC") == Finite(0.75);
  }

  /** remove('ETH', 10) on a fresh store: no error, and getAmount('ETH') reads 0. */
  method RemoveNeverAdded() {
    var store := new Dao.LocalStorage();
    var r := Dao.Remove(store, "ETH", Finite(10.0));
    assert r == Pass;
    assert Dao.GetAmount(store.items, "ETH") == Zero;
  }

  /** An unsupported symbol and an unsupported target currency fail, whatever the network does. */
  method UnsupportedRates(network: nat -> Pricing.Attempt) {
    assert Pricing.GetRate("LTC", "USD", network) == Failure(Pricing.UnsupportedSymbol);
    assert Pricing.GetRate("BTC", "EUR", network) == Failure(Pricing.UnsupportedCurrency);
  }

  /**
   * With the BTC rate cached at 50000, add('BTC', 0.1) then getHoldings():
   * no fetch, and the view is BTC with amount 0.1 and value 5000.
   */
  method HoldingsFromCachedRate(network: nat -> Pricing.Attempt)
    returns (holdings: map<string, Pricing.Holding>, attempts: nat)
    ensures attempts == 0
    ensures holdings == map["BTC" := Pricing.Holding(0.1, Some(5000.0))]
  {
    var store := new Dao.LocalStorage();
    var r := Dao.Add(store, "BTC", Finite(0.1));
    var service := new Pricing.Service();
    service.rateCache := Some(map["BTC" := 50000.0]);
    service.rateCacheTimestamp := Some(0);
    holdings, attempts := service.GetHoldings(store, 1000, network);
    var expected := map["BTC" := Pricing.Holding(0.1, Some(5000.0))];
    forall s | true
      ensures s in holdings <==> s in expected
      ensures s in holdings ==> holdings[s] == expected[s]
    {
      Pricing.HoldingsOverContents(Pricing.Symbols, store.items, map["BTC" := 50000.0], s);
    }
    assert holdings == expected;
  }

  /**
   * Two getHoldings calls less than cacheDuration apart, the first one a
   * successful refresh: the second call makes no fetch and prices with the
   * rates the first one stored.
   */
  method RepeatedCallHitsCache(service: Pricing.Service, store: Dao.LocalStorage, t1: int, t2: int,
                               n1: nat -> Pricing.Attempt, n2: nat -> Pricing.Attempt)
    returns (second: map<string, Pricing.Holding>, attempts2: nat)
    requires !service.CacheIsFresh(t1)
    requires Pricing.Refreshed(Pricing.Fetched(n1, 0, Pricing.DefaultRetries).result).Some?
    requires t1 <= t2 < t1 + 60000
    modifies service
    ensures attempts2 == 0
    ensures second == Pricing.HoldingsOver(Pricing.Symbols, store.items,
                                           Pricing.Refreshed(Pricing.Fetched(n1, 0, Pricing.DefaultRetries).result).value)
  {
    var first, attempts1 := service.GetHoldings(store, t1, n1);
    second, attempts2 := service.GetHoldings(store, t2, n2);
  }

  /**
   * A refresh that fails after an earlier one succeeded: getHoldings prices
   * with the old, expired rates and the cache is untouched.
   */
  method StaleFallback(service: Pricing.Service, store: Dao.LocalStorage, t1: int, t2: int,
                       n1: nat -> Pricing.Attempt, n2: nat -> Pricing.Attempt)
    returns (second: map<string, Pricing.Holding>)
    requires !service.CacheIsFresh(t1)
    requires Pricing.Refreshed(Pricing.Fetched(n1, 0, Pricing.DefaultRetries).result).Some?
    requires t2 >= t1 + 60000
    requires Pricing.Refreshed(Pricing.Fetched(n2, 0, Pricing.DefaultRetries).result).None?
    modifies service
    ensures second == Pricing.HoldingsOver(Pricing.Symbols, store.items,
                                           Pricing.Refreshed(Pricing.Fetched(n1, 0, Pricing.DefaultRetries).result).value)
    ensures service.rateCacheTimestamp == Some(t1)
  {
    var first, attempts1 := service.GetHoldings(store, t1, n1);
    var attempts2;
    second, attempts2 := service.GetHoldings(store, t2, n2);
  }

  /**
   * A refresh that fails with nothing cached: every held symbol is reported
   * with a null value, and nothing is thrown.
   */
  method NoRatesAtAll(store: Dao.LocalStorage, now: int, network: nat -> Pricing.Attempt)
    returns (holdings: map<string, Pricing.Holding>)
    requires Pricing.Refreshed(Pricing.Fetched(network, 0, Pricing.DefaultRetries).result).None?
    ensures forall s :: s in holdings ==> holdings[s].value == None
    ensures forall s :: s in holdings <==> s in Pricing.Symbols && Dao.Held(store.items, s)
  {
    var service := new Pricing.Service();
    var attempts;
    holdings, attempts := service.GetHoldings(store, now, network);
    forall s | true
      ensures s in holdings ==> holdings[s].value == None
      ensures s in holdings <==> s in Pricing.Symbols && Dao.Held(store.items, s)
    {
      Pricing.HoldingsOverContents(Pricing.Symbols, store.items, map[], s);
    }
  }
}
