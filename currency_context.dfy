/** The currency preference of lib/CurrencyContext.tsx: the selected display
    currency and the "initialised" flag held by the provider component, layered
    on the shared exchange-rate table. */
module CurrencyContext {
  import opened Common
  import ExchangeRate
  import Listeners
  import Decimal

  /** The start-up restore rule: a saved code is adopted only when it is
      non-empty and a catalog code; a failed read leaves the selection. */
  function RestoredCurrency(current: string, read: StorageRead): (r: string)
    ensures r == current || ExchangeRate.InCatalog(r)
    ensures (read.Stored? && read.saved.Some? && read.saved.value != ""
             && ExchangeRate.InCatalog(read.saved.value)) ==> r == read.saved.value
    ensures (read.ReadFailed? || read.saved.None? || !ExchangeRate.InCatalog(read.saved.value))
            ==> r == current
  {
    if read.Stored? && read.saved.Some? && read.saved.value != ""
       && ExchangeRate.Find(ExchangeRate.Catalog, read.saved.value).Some?
    then read.saved.value
    else current
  }

  /** The provider's `formatPrice`: convert the USD amount at the selected
      currency's rate, then format it for that currency. */
  function FormatConverted(rates: map<string, real>, usdPrice: real, code: string): (r: string)
    ensures r == ExchangeRate.FormatPrice(usdPrice * ExchangeRate.Rate(rates, code), code)
    ensures code !in rates ==> r == ExchangeRate.FormatPrice(usdPrice, code)
  {
    ExchangeRate.FormatPrice(ExchangeRate.Convert(rates, usdPrice, code), code)
  }

  /** The conversion is applied once: with the built-in rates, 10 USD shows
      as 38.00 zloty (converting twice would show 144.40). */
  lemma ConvertedOnce()
    ensures FormatConverted(ExchangeRate.FallbackRates, 10.0, "PLN") == "38.00 z\U{142}"
  {
    assert ExchangeRate.Convert(ExchangeRate.FallbackRates, 10.0, "PLN") == 38.0;
    ThirtyEightToFixed();
    ExchangeRate.ZlotySymbol();
  }

  lemma ThirtyEightToFixed()
    ensures Decimal.ToFixed2(38.0) == "38.00"
  {
  }

  /** Whatever the selection, the shown amount is the USD amount times the
      rate, placed by the selected currency's rule. */
  lemma FormatConvertedShape(rates: map<string, real>, usdPrice: real, code: string)
    ensures var amount := Decimal.ToFixed2(usdPrice * ExchangeRate.Rate(rates, code));
      var symbol := ExchangeRate.CurrencySymbol(code);
      FormatConverted(rates, usdPrice, code)
        == if code == "EUR" then amount + symbol
           else if code == "PLN" then amount + " " + symbol
           else symbol + amount
  {
  }

  class CurrencyProvider {
    const manager: ExchangeRate.ExchangeRateManager
    var selectedCurrency: string
    var isInitialized: bool

    constructor (manager: ExchangeRate.ExchangeRateManager)
      ensures this.manager == manager
      ensures selectedCurrency == "USD" && !isInitialized
    {
      this.manager := manager;
      selectedCurrency := "USD";
      isInitialized := false;
    }

    /** The mount effect: subscribe to rate updates, fetch the rates, then
        restore the saved currency; the provider is initialised whatever the
        outcome. */
    method Mount(listener: Listeners.Listener, fetch: ExchangeRate.FetchResult, read: StorageRead)
      modifies this, manager
      ensures manager.listeners == old(manager.listeners) + [listener]
      ensures manager.rates == ExchangeRate.AfterFetch(old(manager.rates), fetch)
      ensures manager.delivered == old(manager.delivered) + manager.listeners
      ensures selectedCurrency == RestoredCurrency(old(selectedCurrency), read)
      ensures isInitialized
    {
      manager.AddListener(listener);
      manager.FetchExchangeRates(fetch);
      match read {
      case ReadFailed =>
        // the read raises: caught by the surrounding handler
      case Stored(saved) =>
        if saved.Some? && saved.value != "" && ExchangeRate.Find(ExchangeRate.Catalog, saved.value).Some? {
          selectedCurrency := saved.value;
        }
      }
      isInitialized := true;
    }

    /** The unmount cleanup: unsubscribe from rate updates. */
    method Unmount(listener: Listeners.Listener)
      modifies manager`listeners
      ensures manager.listeners == Listeners.RemoveFirst(old(manager.listeners), listener)
    {
      manager.RemoveListener(listener);
    }

    /** Select a currency without checking the catalog, then persist it; a
        failed write is swallowed. Returns the value written, if the write
        went through. */
    method SetSelectedCurrency(currency: string, writeOk: bool) returns (persisted: Option<string>)
      modifies this`selectedCurrency
      ensures selectedCurrency == currency
      ensures persisted == if writeOk then Some(currency) else None
    {
      selectedCurrency := currency;
      persisted := if writeOk then Some(currency) else None;
    }

    function ConvertPrice(usdPrice: real): (r: real)
      reads this, manager
      ensures r == usdPrice * ExchangeRate.Rate(manager.rates, selectedCurrency)
    {
      manager.ConvertPrice(usdPrice, selectedCurrency)
    }

    function FormatPrice(usdPrice: real): (r: string)
      reads this, manager
      ensures r == ExchangeRate.FormatPrice(ConvertPrice(usdPrice), selectedCurrency)
    {
      FormatConverted(manager.rates, usdPrice, selectedCurrency)
    }
  }

  /** `useCurrency`: the context value inside a provider, an error outside. */
  function UseCurrency(context: Option<CurrencyProvider>): (r: Result<CurrencyProvider>)
    ensures context.Some? <==> r.Ok?
    ensures r.Ok? ==> r.value == context.value
    ensures r.Err? ==> r.message == "useCurrency must be used within a CurrencyProvider"
  {
    match context
    case Some(provider) => Ok(provider)
    case None => Err("useCurrency must be used within a CurrencyProvider")
  }
}
