/** The currency catalog and the exchange-rate table of lib/exchangeRate.ts:
    a process-wide map from currency code to its rate against the US dollar,
    refreshed from a remote query with a built-in fallback, and the price
    formatter. */
module ExchangeRate {
  import opened Common
  import Decimal
  import Listeners

  datatype Currency = Currency(code: string, name: string, flag: string, symbol: string)

  /** The fixed catalog of display currencies, in the source's order. */
  const Catalog: seq<Currency> := [
    Currency("USD", "US Dollar", "\U{1F1FA}\U{1F1F8}", "$"),
    Currency("EUR", "Euro", "\U{1F1EA}\U{1F1FA}", "\U{20AC}"),
    Currency("PLN", "Polish Z\U{142}oty", "\U{1F1F5}\U{1F1F1}", "z\U{142}"),
    Currency("MXN", "Mexican Peso", "\U{1F1F2}\U{1F1FD}", "MX$"),
    Currency("GBP", "British Pound", "\U{1F1EC}\U{1F1E7}", "\U{A3}"),
    Currency("CAD", "Canadian Dollar", "\U{1F1E8}\U{1F1E6}", "CA$")
  ]

  predicate InCatalog(code: string) {
    exists i :: 0 <= i < |Catalog| && Catalog[i].code == code
  }

  /** `currencies.find(c => c.code === code)` over any list: the first match. */
  function Find(cs: seq<Currency>, code: string): (r: Option<Currency>)
    ensures r.None? <==> forall i :: 0 <= i < |cs| ==> cs[i].code != code
    ensures r.Some? ==> exists i :: 0 <= i < |cs| && cs[i] == r.value
                          && r.value.code == code
                          && forall j :: 0 <= j < i ==> cs[j].code != code
  {
    if cs == [] then None
    else if cs[0].code == code then Some(cs[0])
    else
      var r := Find(cs[1..], code);
      if r.Some? then
        var i :| 0 <= i < |cs[1..]| && cs[1..][i] == r.value && r.value.code == code
                 && forall j :: 0 <= j < i ==> cs[1..][j].code != code;
        assert cs[i + 1] == r.value;
        assert forall j :: 0 <= j < i + 1 ==> cs[j].code != code by {
          forall j | 0 <= j < i + 1 ensures cs[j].code != code {
            if j > 0 { assert cs[j] == cs[1..][j - 1]; }
          }
        }
        r
      else
        assert forall i :: 0 <= i < |cs| ==> cs[i].code != code by {
          forall i | 0 <= i < |cs| ensures cs[i].code != code {
            if i > 0 { assert cs[i] == cs[1..][i - 1]; }
          }
        }
        r
  }

  /** No two catalog entries share a code. */
  lemma CatalogCodesDistinct()
    ensures forall i, j :: 0 <= i < j < |Catalog| ==> Catalog[i].code != Catalog[j].code
  {
  }

  /** `getCurrencySymbol`: the catalog symbol of a catalog code, else the
      code itself. */
  function CurrencySymbol(code: string): (r: string)
    ensures forall i :: 0 <= i < |Catalog| && Catalog[i].code == code ==> r == Catalog[i].symbol
    ensures !InCatalog(code) ==> r == code
  {
    var found := Find(Catalog, code);
    CatalogCodesDistinct();
    if found.Some? && found.value.symbol != "" then found.value.symbol else code
  }

  /** One row of the remote `exchange_rates` table. */
  datatype RateRow = RateRow(currencyCode: string, rateToUsd: real)

  /** What the remote query gave: its rows (`data`, possibly null), or an
      error (returned by the query or raised on the way). */
  datatype FetchResult = Rows(data: Option<seq<RateRow>>) | QueryError

  /** The built-in rates written when the fetch fails. */
  const FallbackRates: map<string, real> :=
    map["USD" := 1.0, "EUR" := 0.85, "PLN" := 3.8, "MXN" := 20.5, "GBP" := 0.73, "CAD" := 1.35]

  /** `rows.forEach(r => rates.set(r.currency_code, r.rate_to_usd))` on `m`. */
  function ApplyRows(m: map<string, real>, rows: seq<RateRow>): (r: map<string, real>)
    ensures r.Keys == m.Keys + set i | 0 <= i < |rows| :: rows[i].currencyCode
  {
    if rows == [] then m
    else
      var last := rows[|rows| - 1];
      ApplyRows(m, rows[..|rows| - 1])[last.currencyCode := last.rateToUsd]
  }

  /** The rate of the last row for `code`, if any row has that code. */
  function LatestRate(rows: seq<RateRow>, code: string): (r: Option<real>)
    ensures r.None? <==> forall i :: 0 <= i < |rows| ==> rows[i].currencyCode != code
    ensures r.Some? ==> exists i :: 0 <= i < |rows| && rows[i] == RateRow(code, r.value)
                                  && forall j :: i < j < |rows| ==> rows[j].currencyCode != code
  {
    if rows == [] then None
    else if rows[|rows| - 1].currencyCode == code then
      assert rows[|rows| - 1] == RateRow(code, rows[|rows| - 1].rateToUsd);
      Some(rows[|rows| - 1].rateToUsd)
    else
      var front := rows[..|rows| - 1];
      var r := LatestRate(front, code);
      assert r.None? ==> forall i :: 0 <= i < |rows| ==> rows[i].currencyCode != code by {
        if r.None? {
          forall i | 0 <= i < |rows| ensures rows[i].currencyCode != code {
            if i < |rows| - 1 { assert rows[i] == front[i]; }
          }
        }
      }
      assert r.Some? ==> exists i :: 0 <= i < |rows| && rows[i] == RateRow(code, r.value)
                                   && forall j :: i < j < |rows| ==> rows[j].currencyCode != code by {
        if r.Some? {
          var i :| 0 <= i < |front| && front[i] == RateRow(code, r.value)
                   && forall j :: i < j < |front| ==> front[j].currencyCode != code;
          assert rows[i] == front[i];
          forall j | i < j < |rows| ensures rows[j].currencyCode != code {
            if j < |rows| - 1 { assert rows[j] == front[j]; }
          }
        }
      }
      r
  }

  /** After applying the rows, a code maps to the rate of its last row, and
      codes without a row keep their earlier entry (or stay absent). */
  lemma {:induction false} ApplyRowsLookup(m: map<string, real>, rows: seq<RateRow>, code: string)
    ensures code in ApplyRows(m, rows) <==> code in m || LatestRate(rows, code).Some?
    ensures LatestRate(rows, code).Some? ==> ApplyRows(m, rows)[code] == LatestRate(rows, code).value
    ensures LatestRate(rows, code).None? && code in m ==> ApplyRows(m, rows)[code] == m[code]
  {
    if rows != [] {
      ApplyRowsLookup(m, rows[..|rows| - 1], code);
    }
  }

  /** The table after one `fetchExchangeRates`. On success the earlier table
      is discarded: USD at 1, then every fetched row in order. On failure the
      six built-in rates are written over the existing table. */
  function AfterFetch(rates: map<string, real>, result: FetchResult): (r: map<string, real>)
    ensures "USD" in r
    ensures result.Rows? && result.data.None? ==> r.Keys == {"USD"}
    ensures result.QueryError? ==> r.Keys == rates.Keys + FallbackRates.Keys
  {
    match result
    case Rows(data) => ApplyRows(map["USD" := 1.0], if data.Some? then data.value else [])
    case QueryError => rates + FallbackRates
  }

  /** A successful fetch: every code present is USD or has a fetched row,
      and it holds the last fetched rate, USD defaulting to 1. */
  lemma FetchedTableContents(rates: map<string, real>, rows: seq<RateRow>, code: string)
    ensures var t := AfterFetch(rates, Rows(Some(rows)));
      && (code in t <==> code == "USD" || LatestRate(rows, code).Some?)
      && (LatestRate(rows, code).Some? ==> t[code] == LatestRate(rows, code).value)
      && (code == "USD" && LatestRate(rows, code).None? ==> t[code] == 1.0)
  {
    ApplyRowsLookup(map["USD" := 1.0], rows, code);
  }

  /** A null row list leaves only USD at parity. */
  lemma NullRowsLeaveOnlyUsd(rates: map<string, real>)
    ensures AfterFetch(rates, Rows(None)) == map["USD" := 1.0]
  {
  }

  /** A failed fetch: the six built-in rates are set and every other entry of
      the previous table is kept as it was. */
  lemma FailedFetchContents(rates: map<string, real>, code: string)
    ensures var t := AfterFetch(rates, QueryError);
      && t.Keys == rates.Keys + FallbackRates.Keys
      && (code in FallbackRates ==> t[code] == FallbackRates[code])
      && (code !in FallbackRates && code in rates ==> t[code] == rates[code])
  {
  }

  /** A failed fetch after a successful one keeps the rows of the successful
      one that the built-in snapshot does not cover: no reset to the snapshot. */
  lemma FailureAfterSuccessKeepsFetchedRows(rates: map<string, real>)
    ensures var t := AfterFetch(AfterFetch(rates, Rows(Some([RateRow("JPY", 150.0)]))), QueryError);
      "JPY" in t && t["JPY"] == 150.0 && t != FallbackRates
  {
  }

  /** The six `set` calls of the failure path write exactly the snapshot. */
  lemma SixSetsWriteFallback(m: map<string, real>)
    ensures m["USD" := 1.0]["EUR" := 0.85]["PLN" := 3.8]["MXN" := 20.5]["GBP" := 0.73]["CAD" := 1.35]
            == m + FallbackRates
  {
  }

  /** `getRate`: the stored rate, or 1 when the code is absent or stored as 0. */
  function Rate(rates: map<string, real>, code: string): (r: real)
    ensures code in rates && rates[code] != 0.0 ==> r == rates[code]
    ensures code !in rates || rates[code] == 0.0 ==> r == 1.0
    ensures r != 0.0
  {
    if code in rates && rates[code] != 0.0 then rates[code] else 1.0
  }

  /** `convertPrice`: the USD amount times the rate; an unknown currency, or
      one stored at 0, converts at parity. */
  function Convert(rates: map<string, real>, usdPrice: real, code: string): (r: real)
    ensures r == usdPrice * Rate(rates, code)
    ensures code !in rates || rates[code] == 0.0 ==> r == usdPrice
    ensures code in rates && rates[code] != 0.0 ==> r == usdPrice * rates[code]
  {
    usdPrice * Rate(rates, code)
  }

  /** Whatever the outcome, a fetch without a USD row leaves USD at parity. */
  lemma UsdParityAfterFetch(rates: map<string, real>, result: FetchResult, usdPrice: real)
    requires result.Rows? && result.data.Some? ==> LatestRate(result.data.value, "USD").None?
    ensures Convert(AfterFetch(rates, result), usdPrice, "USD") == usdPrice
  {
    if result.Rows? && result.data.Some? {
      ApplyRowsLookup(map["USD" := 1.0], result.data.value, "USD");
    }
  }

  /** After a failed fetch every catalog currency has a positive rate. */
  lemma FallbackCoversCatalog(rates: map<string, real>, code: string)
    requires InCatalog(code)
    ensures code in AfterFetch(rates, QueryError) && Rate(AfterFetch(rates, QueryError), code) > 0.0
  {
  }

  /** `formatPrice`: the amount to two decimals with the currency symbol in
      front, except the euro (symbol right after the amount) and the zloty
      (symbol after the amount and a space). The price is not converted. */
  function FormatPrice(price: real, code: string): (r: string)
    ensures code == "EUR" ==> r == Decimal.ToFixed2(price) + CurrencySymbol(code)
    ensures code == "PLN" ==> r == Decimal.ToFixed2(price) + " " + CurrencySymbol(code)
    ensures code != "EUR" && code != "PLN" ==> r == CurrencySymbol(code) + Decimal.ToFixed2(price)
  {
    var symbol := CurrencySymbol(code);
    var amount := Decimal.ToFixed2(price);
    if code == "USD" || code == "CAD" then symbol + amount
    else if code == "EUR" then amount + symbol
    else if code == "PLN" then amount + " " + symbol
    else if code == "MXN" then symbol + amount
    else if code == "GBP" then symbol + amount
    else symbol + amount
  }

  lemma ToFixed2Examples()
    ensures Decimal.ToFixed2(19.999) == "20.00"
    ensures Decimal.ToFixed2(0.5) == "0.50"
  {
  }

  /** Rounding to two places with the symbol after the amount and a space
      for PLN. */
  lemma FormatPriceZlotyExample()
    ensures FormatPrice(19.999, "PLN") == "20.00 z\U{142}"
  {
    ToFixed2Examples();
    ZlotySymbol();
  }

  lemma ZlotySymbol()
    ensures CurrencySymbol("PLN") == "z\U{142}"
  {
  }

  /** Rounding to two places with the symbol before the amount for USD. */
  lemma FormatPriceDollarExample()
    ensures FormatPrice(19.999, "USD") == "$20.00"
  {
  }

  /** A code outside the catalog is its own prefix. */
  lemma UnknownCodeIsItsOwnSymbol()
    ensures FormatPrice(0.5, "JPY") == "JPY0.50"
  {
    ToFixed2Examples();
    assert !InCatalog("JPY");
  }

  class ExchangeRateManager {
    var rates: map<string, real>
    var listeners: seq<Listeners.Listener>
    /** Every listener invocation so far, in order. */
    var delivered: seq<Listeners.Listener>

    constructor ()
      ensures rates == map[] && listeners == [] && delivered == []
    {
      rates := map[];
      listeners := [];
      delivered := [];
    }

    /** Refresh the table from the query's outcome and notify once; the error
        is absorbed, never raised to the caller. */
    method FetchExchangeRates(result: FetchResult)
      modifies this
      ensures rates == AfterFetch(old(rates), result)
      ensures listeners == old(listeners)
      ensures delivered == old(delivered) + listeners
    {
      match result {
      case QueryError =>
        SixSetsWriteFallback(rates);
        rates := rates["USD" := 1.0];
        rates := rates["EUR" := 0.85];
        rates := rates["PLN" := 3.8];
        rates := rates["MXN" := 20.5];
        rates := rates["GBP" := 0.73];
        rates := rates["CAD" := 1.35];
      case Rows(data) =>
        rates := map[];
        rates := rates["USD" := 1.0];
        if data.Some? {
          var rows := data.value;
          var i := 0;
          while i < |rows|
            invariant 0 <= i <= |rows|
            invariant rates == ApplyRows(map["USD" := 1.0], rows[..i])
            invariant listeners == old(listeners) && delivered == old(delivered)
          {
            assert rows[..i + 1][..i] == rows[..i];
            rates := rates[rows[i].currencyCode := rows[i].rateToUsd];
            i := i + 1;
          }
          assert rows[..i] == rows;
        }
      }
      NotifyListeners();
    }

    function GetRate(code: string): (r: real)
      reads this
      ensures code in rates && rates[code] != 0.0 ==> r == rates[code]
      ensures code !in rates || rates[code] == 0.0 ==> r == 1.0
    {
      Rate(rates, code)
    }

    function ConvertPrice(usdPrice: real, code: string): (r: real)
      reads this
      ensures r == usdPrice * GetRate(code)
      ensures code !in rates || rates[code] == 0.0 ==> r == usdPrice
    {
      Convert(rates, usdPrice, code)
    }

    method AddListener(f: Listeners.Listener)
      modifies this`listeners
      ensures listeners == old(listeners) + [f]
    {
      listeners := listeners + [f];
    }

    method RemoveListener(f: Listeners.Listener)
      modifies this`listeners
      ensures listeners == Listeners.RemoveFirst(old(listeners), f)
    {
      var index := Listeners.IndexOf(listeners, f);
      if index > -1 {
        Listeners.RemoveFirstIsSplice(listeners, f, index);
        listeners := listeners[..index] + listeners[index + 1..];
      }
    }

    /** Calls every registered listener once, in array order. */
    method NotifyListeners()
      modifies this`delivered
      ensures delivered == old(delivered) + listeners
    {
      var i := 0;
      while i < |listeners|
        invariant 0 <= i <= |listeners|
        invariant delivered == old(delivered) + listeners[..i]
      {
        delivered := delivered + [listeners[i]];
        i := i + 1;
      }
      assert listeners[..i] == listeners;
    }
  }
}
