/**
 * The holdings ledger (dao.js): per-symbol balances kept in the browser's
 * localStorage, updated by read-modify-write with a read-back check, and a
 * total that prices every held symbol through a rate oracle.
 */
module Dao {
  import opened Numbers
  import opened Results

  /**
   * A localStorage value: the empty string, or a non-empty string together
   * with the number parseFloat reads from it (NaN for text that is not a
   * number).
   */
  datatype Item = Empty | Text(parsed: JsNumber)

  /** What add and remove throw when the read-back differs from the value written. */
  datatype StorageError = StorageVerificationFailed

  /** The part of localStorage the ledger uses: string keys to string values. */
  class LocalStorage {
    var items: map<string, Item>

    constructor ()
      ensures items == map[]
    {
      items := map[];
    }

    /**
     * `localStorage.setItem(key, n.toString())`. A number's string form is
     * never empty and parseFloat reads it back as the same number.
     */
    method SetItem(key: string, n: JsNumber)
      modifies this
      ensures items == old(items)[key := Text(n)]
    {
      items := items[key := Text(n)];
    }
  }

  /** The eight symbols dao.total visits, in its order. */
  const Symbols: seq<string> := ["BTC", "ETH", "BNB", "SOL", "ADA", "XRP", "DOT", "DOGE"]

  /**
   * `parseFloat(localStorage.getItem(key))`, the read-back of add and remove:
   * an absent key (null) and the empty string both parse to NaN.
   */
  function ReadBack(items: map<string, Item>, key: string): (r: JsNumber)
    ensures r.NaN? <==> key !in items || items[key].Empty? || items[key].parsed.NaN?
    ensures key in items && items[key].Text? ==> r == items[key].parsed
  {
    if key in items && items[key].Text? then items[key].parsed else NaN
  }

  /**
   * getAmount: `amount ? parseFloat(amount) : 0`. An absent key and the empty
   * string are falsy and read as 0; any other value reads as what parseFloat
   * makes of it, which is also what the read-back sees.
   */
  function GetAmount(items: map<string, Item>, symbol: string): (r: JsNumber)
    ensures symbol !in items || items[symbol] == Empty ==> r == Zero
    ensures symbol in items && items[symbol].Text? ==> r == items[symbol].parsed == ReadBack(items, symbol)
  {
    if symbol in items && items[symbol].Text? then items[symbol].parsed else Zero
  }

  /** A symbol is held when its amount is `> 0`; a NaN amount is not held. */
  predicate Held(items: map<string, Item>, symbol: string) {
    Greater(GetAmount(items, symbol), Zero)
  }

  /**
   * The balance remove computes, `Math.max(0, current - amount)`: never
   * negative, at least `current - amount`, and either 0 or exactly
   * `current - amount`; NaN propagates.
   */
  function Debit(current: JsNumber, amount: JsNumber): (r: JsNumber)
    ensures r.NaN? <==> current.NaN? || amount.NaN?
    ensures r.Finite? ==> r.value >= 0.0 && r.value >= current.value - amount.value
    ensures r.Finite? ==> r.value == 0.0 || r.value == current.value - amount.value
  {
    Max(Zero, Minus(current, amount))
  }

  /**
   * The store after add(symbol, amount) has written: symbol now reads, and
   * reads back, as its old amount plus `amount`; every other key is as it was.
   */
  function Credited(items: map<string, Item>, symbol: string, amount: JsNumber): (r: map<string, Item>)
    ensures r.Keys == items.Keys + {symbol}
    ensures forall k :: k in items && k != symbol ==> r[k] == items[k]
    ensures GetAmount(r, symbol) == ReadBack(r, symbol) == Plus(GetAmount(items, symbol), amount)
  {
    items[symbol := Text(Plus(GetAmount(items, symbol), amount))]
  }

  /**
   * The store after remove(symbol, amount) has written: symbol now reads, and
   * reads back, as the clamped difference; every other key is as it was.
   */
  function Debited(items: map<string, Item>, symbol: string, amount: JsNumber): (r: map<string, Item>)
    ensures r.Keys == items.Keys + {symbol}
    ensures forall k :: k in items && k != symbol ==> r[k] == items[k]
    ensures GetAmount(r, symbol) == ReadBack(r, symbol) == Debit(GetAmount(items, symbol), amount)
  {
    items[symbol := Text(Debit(GetAmount(items, symbol), amount))]
  }

  /**
   * add: read the balance, add `amount`, write, read back. Neither the symbol
   * nor the amount is validated. The write always happens; the read-back
   * check then fails exactly when the value written is NaN.
   */
  method Add(store: LocalStorage, symbol: string, amount: JsNumber) returns (r: Outcome<StorageError>)
    modifies store
    ensures store.items == Credited(old(store.items), symbol, amount)
    ensures r == if GetAmount(store.items, symbol).NaN? then Fail(StorageVerificationFailed) else Pass
  {
    var current := GetAmount(store.items, symbol);
    var newAmount := Plus(current, amount);
    store.SetItem(symbol, newAmount);
    var stored := ReadBack(store.items, symbol);
    if !StrictEquals(stored, newAmount) {
      return Fail(StorageVerificationFailed);
    }
    return Pass;
  }

  /**
   * remove: read the balance, subtract `amount` clamping at 0, write, read
   * back. Removing more than is held is not an error. The write always
   * happens; the read-back check fails exactly when the value written is NaN.
   */
  method Remove(store: LocalStorage, symbol: string, amount: JsNumber) returns (r: Outcome<StorageError>)
    modifies store
    ensures store.items == Debited(old(store.items), symbol, amount)
    ensures r == if GetAmount(store.items, symbol).NaN? then Fail(StorageVerificationFailed) else Pass
  {
    var current := GetAmount(store.items, symbol);
    var newAmount := Max(Zero, Minus(current, amount));
    store.SetItem(symbol, newAmount);
    var stored := ReadBack(store.items, symbol);
    if !StrictEquals(stored, newAmount) {
      return Fail(StorageVerificationFailed);
    }
    return Pass;
  }

  /**
   * For a starting balance c >= 0, add(s, a) then remove(s, a) leaves s
   * reading c again; the other keys keep their values.
   */
  lemma AddThenRemoveRestores(items: map<string, Item>, symbol: string, a: real)
    requires GetAmount(items, symbol).Finite? && GetAmount(items, symbol).value >= 0.0
    ensures var after := Debited(Credited(items, symbol, Finite(a)), symbol, Finite(a));
            GetAmount(after, symbol) == GetAmount(items, symbol) &&
            forall k :: k in items && k != symbol ==> after[k] == items[k]
  {
  }

  /** remove on a symbol never added stores 0 and its read-back succeeds. */
  lemma RemoveNeverAdded(items: map<string, Item>, symbol: string, amount: JsNumber)
    requires symbol !in items
    requires amount.Finite? && amount.value >= 0.0
    ensures GetAmount(Debited(items, symbol, amount), symbol) == Zero
  {
  }

  /**
   * Once a balance reads as NaN, every later add or remove of that symbol
   * writes NaN again, so its read-back check fails every time.
   */
  lemma NaNBalanceIsSticky(items: map<string, Item>, symbol: string, amount: JsNumber)
    requires GetAmount(items, symbol).NaN?
    ensures GetAmount(Credited(items, symbol, amount), symbol).NaN?
    ensures GetAmount(Debited(items, symbol, amount), symbol).NaN?
  {
  }

  /** Every stored value parses to a number that is not negative. */
  ghost predicate NonNegative(items: map<string, Item>) {
    forall k :: k in items && items[k].Text? ==> items[k].parsed.Finite? && items[k].parsed.value >= 0.0
  }

  /** remove of a finite amount keeps every balance non-negative, whatever the amount's sign. */
  lemma RemoveKeepsNonNegative(items: map<string, Item>, symbol: string, amount: JsNumber)
    requires NonNegative(items) && amount.Finite?
    ensures NonNegative(Debited(items, symbol, amount))
  {
  }

  /** add keeps every balance non-negative only for a non-negative amount. */
  lemma AddKeepsNonNegative(items: map<string, Item>, symbol: string, amount: JsNumber)
    requires NonNegative(items) && amount.Finite? && amount.value >= 0.0
    ensures NonNegative(Credited(items, symbol, amount))
  {
  }

  /** `amount * rate`, the worth of a holding at a rate. */
  function Worth(amount: real, rate: real): real {
    amount * rate
  }

  /**
   * What dao.total's loop computes from running total `acc` over the symbols
   * `syms`: each held symbol asks getRate and adds `amount * rate`; the first
   * failing getRate ends the whole computation with its error.
   */
  function TotalFrom<E>(syms: seq<string>, items: map<string, Item>, currency: string,
                        getRate: (string, string) -> Result<real, E>, acc: real): Result<real, E>
    decreases |syms|
  {
    if |syms| == 0 then Success(acc)
    else if Held(items, syms[0]) then
      var rate := getRate(syms[0], currency);
      if rate.Failure? then Failure(rate.error)
      else TotalFrom(syms[1..], items, currency, getRate, acc + Worth(GetAmount(items, syms[0]).value, rate.value))
    else TotalFrom(syms[1..], items, currency, getRate, acc)
  }

  /** Reference sum: `amount * rateOf(symbol)` over the held symbols of `syms`. */
  function HeldValue(syms: seq<string>, items: map<string, Item>, rateOf: string -> real): real
    decreases |syms|
  {
    if |syms| == 0 then 0.0
    else (if Held(items, syms[0]) then Worth(GetAmount(items, syms[0]).value, rateOf(syms[0])) else 0.0)
         + HeldValue(syms[1..], items, rateOf)
  }

  /**
   * dao.total(currency): visits the eight symbols in order, skipping those
   * whose amount is not `> 0`, and fails with no fallback as soon as
   * getRate fails for a held symbol.
   */
  method Total<E>(store: LocalStorage, currency: string, getRate: (string, string) -> Result<real, E>)
    returns (r: Result<real, E>)
    ensures r == TotalFrom(Symbols, store.items, currency, getRate, 0.0)
  {
    r := TotalOver(store, Symbols, currency, getRate);
  }

  /** dao.total's loop over the symbols `syms`, with the running total starting at 0. */
  method TotalOver<E>(store: LocalStorage, syms: seq<string>, currency: string,
                      getRate: (string, string) -> Result<real, E>)
    returns (r: Result<real, E>)
    ensures r == TotalFrom(syms, store.items, currency, getRate, 0.0)
  {
    var total := 0.0;
    for i := 0 to |syms|
      invariant TotalFrom(syms, store.items, currency, getRate, 0.0)
                == TotalFrom(syms[i..], store.items, currency, getRate, total)
    {
      assert syms[i..][1..] == syms[i + 1..];
      var amount := GetAmount(store.items, syms[i]);
      if Greater(amount, Zero) {
        var rate := getRate(syms[i], currency);
        if rate.Failure? {
          return Failure(rate.error);
        }
        total := total + Worth(amount.value, rate.value);
      }
    }
    return Success(total);
  }

  /**
   * When getRate yields `rateOf(s)` for every held symbol, the total is the
   * running total plus the sum of `amount * rate` over the held symbols.
   */
  lemma {:induction false} TotalIsHeldValue<E>(syms: seq<string>, items: map<string, Item>, currency: string,
                                               getRate: (string, string) -> Result<real, E>,
                                               rateOf: string -> real, acc: real)
    requires forall i :: 0 <= i < |syms| && Held(items, syms[i]) ==> getRate(syms[i], currency) == Success(rateOf(syms[i]))
    ensures TotalFrom(syms, items, currency, getRate, acc) == Success(acc + HeldValue(syms, items, rateOf))
    decreases |syms|
  {
    if |syms| > 0 {
      var step := if Held(items, syms[0]) then Worth(GetAmount(items, syms[0]).value, rateOf(syms[0])) else 0.0;
      assert forall i :: 0 <= i < |syms[1..]| ==> syms[1..][i] == syms[i + 1];
      TotalIsHeldValue(syms[1..], items, currency, getRate, rateOf, acc + step);
    }
  }

  /**
   * The total fails exactly when getRate fails for some held symbol, and then
   * with the error of one of those calls.
   */
  lemma {:induction false} TotalFailsOnRateFailure<E>(syms: seq<string>, items: map<string, Item>, currency: string,
                                                      getRate: (string, string) -> Result<real, E>, acc: real)
    ensures TotalFrom(syms, items, currency, getRate, acc).Failure?
            <==> exists i :: 0 <= i < |syms| && Held(items, syms[i]) && getRate(syms[i], currency).Failure?
    ensures TotalFrom(syms, items, currency, getRate, acc).Failure? ==>
            exists i :: 0 <= i < |syms| && Held(items, syms[i]) &&
                        getRate(syms[i], currency) == Failure(TotalFrom(syms, items, currency, getRate, acc).error)
    decreases |syms|
  {
    if |syms| > 0 {
      var next := if Held(items, syms[0]) && getRate(syms[0], currency).Success?
                  then acc + Worth(GetAmount(items, syms[0]).value, getRate(syms[0], currency).value)
                  else acc;
      TotalFailsOnRateFailure(syms[1..], items, currency, getRate, next);
      assert forall i :: 0 <= i < |syms[1..]| ==> syms[1..][i] == syms[i + 1];
      if exists i :: 0 <= i < |syms| && Held(items, syms[i]) && getRate(syms[i], currency).Failure? {
        var i :| 0 <= i < |syms| && Held(items, syms[i]) && getRate(syms[i], currency).Failure?;
        if i > 0 && !(Held(items, syms[0]) && getRate(syms[0], currency).Failure?) {
          assert syms[1..][i - 1] == syms[i];
        }
      }
    }
  }

  /**
   * Symbols that are not held cause no rate request: two oracles that agree on
   * the held symbols give the same total.
   */
  lemma {:induction false} TotalAsksOnlyHeld<E>(syms: seq<string>, items: map<string, Item>, currency: string,
                                                g1: (string, string) -> Result<real, E>,
                                                g2: (string, string) -> Result<real, E>, acc: real)
    requires forall i :: 0 <= i < |syms| && Held(items, syms[i]) ==> g1(syms[i], currency) == g2(syms[i], currency)
    ensures TotalFrom(syms, items, currency, g1, acc) == TotalFrom(syms, items, currency, g2, acc)
    decreases |syms|
  {
    if |syms| > 0 {
      var next := if Held(items, syms[0]) && g1(syms[0], currency).Success?
                  then acc + Worth(GetAmount(items, syms[0]).value, g1(syms[0], currency).value)
                  else acc;
      assert forall i :: 0 <= i < |syms[1..]| ==> syms[1..][i] == syms[i + 1];
      TotalAsksOnlyHeld(syms[1..], items, currency, g1, g2, next);
    }
  }

  /** With nothing held the total is the running total, whatever getRate would do. */
  lemma {:induction false} NothingHeldTotalsAcc<E>(syms: seq<string>, items: map<string, Item>, currency: string,
                                                   getRate: (string, string) -> Result<real, E>, acc: real)
    requires forall i :: 0 <= i < |syms| ==> !Held(items, syms[i])
    ensures TotalFrom(syms, items, currency, getRate, acc) == Success(acc)
    decreases |syms|
  {
    if |syms| > 0 {
      assert forall i :: 0 <= i < |syms[1..]| ==> syms[1..][i] == syms[i + 1];
      NothingHeldTotalsAcc(syms[1..], items, currency, getRate, acc);
    }
  }

  /** An empty ledger totals 0 for any currency and any oracle. */
  lemma EmptyLedgerTotalsZero<E>(currency: string, getRate: (string, string) -> Result<real, E>)
    ensures TotalFrom(Symbols, map[], currency, getRate, 0.0) == Success(0.0)
  {
    NothingHeldTotalsAcc(Symbols, map[], currency, getRate, 0.0);
  }
}
