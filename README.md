# DocLexa mobile client: locale store, exchange rates and screen logic in Dafny

This project models the stateful core of the DocLexa mobile client and proves
properties about it:

- **Locale store** (`lib/i18n.ts`, module `Locale`, file `i18n.dfy`). The
  process-wide `I18n` object holds the current UI language, a one-shot
  `initialized` flag and a listener array. It covers device-locale detection,
  the start-up restore of the saved language, `changeLanguage`, the `t`
  lookup, and listener registration and broadcast.
- **Exchange-rate table and price formatter** (`lib/exchangeRate.ts`, module
  `ExchangeRate`, file `exchange_rate.dfy`). This is the currency catalog and
  the `ExchangeRateManager` map from currency code to rate against USD. A
  successful refresh replaces the table. A failed refresh writes the built-in
  rates over the table. The module also holds `getRate`, `convertPrice` and the
  per-currency symbol placement of `formatPrice`.
- **Currency preference** (`lib/CurrencyContext.tsx`, module
  `CurrencyContext`, file `currency_context.dfy`). This is the provider's
  selected currency and `isInitialized` flag, and the mount effect: subscribe,
  fetch, restore. It also covers `setSelectedCurrency`, the convert-then-format
  composition and the `useCurrency` guard.
- **Screen logic of `App.tsx`** (module `AppShell`, file `app.dfy`). This
  covers the screen's own translation helper, which falls back per key to
  English, unlike the locale store's. It also covers adding and removing
  documents, the newest-first results list, the guards and updates of
  `startAnalysis`, `askFollowUp` and "save & start new", the `SIGNED_IN` and
  `SIGNED_OUT` handlers, and the remaining-analyses count.

Shared helpers:
- `Common` holds the Option, Result and storage-read types.
- `Text` holds JavaScript's `split(sep)[0]` and `trim()`.
- `Decimal` holds `toFixed(2)` over exact reals and decimal rendering of naturals.
- `Listeners` holds `indexOf` and the removal of the first occurrence.

Inputs from device storage, the network and the device are parameters:
- a `StorageRead` (the stored value or a raised read error);
- a write-succeeded flag;
- the device locale identifier as an `Option<string>`;
- the query's `FetchResult` (rows, possibly null, or an error);
- the analysis engine's reply text and the new result's id.

A value written to storage is returned as an out-parameter. A listener is
identified by a number. Calling it appends it to the store's `delivered` log,
so "notified exactly once, in order" is a postcondition.

Behaviours of the code worth knowing, all modelled as the code has them:
- `t` in `lib/i18n.ts` has no per-key fallback to the default language. It
  returns the key. Only the screen's own helper in `App.tsx` falls back to
  English.
- A failed refresh after a successful one does not reset the table to the
  built-in snapshot. Entries the snapshot does not cover (say `JPY`) survive
  (`ExchangeRate.FailureAfterSuccessKeepsFetchedRows`).
- `ExchangeRateManager.formatPrice` does not convert. Only the provider's
  `formatPrice` converts first.
- The table does not always hold USD at 1. It starts empty, and a fetched
  `USD` row overrides the seeded 1. `getRate` still answers 1 for a missing
  code.
- Listeners are called in array order, once each per broadcast.

## Model

| member | source | states |
|---|---|---|
| `Text.BeforeFirst` | lib/i18n.ts:32 | the result is the longest prefix of the identifier without `_`: a prefix, `_`-free, followed by `_` unless it is the whole string |
| `Locale.DeviceLocale` | lib/i18n.ts:24-39 | the result is always a supported code; it is the part before the first `_` when that part is supported, otherwise `en` (also when there is no locale) |
| `Locale.StartupLanguage` | lib/i18n.ts:49-63 | the first `initialize` settles on a supported code: the saved value when it is non-empty and supported, else the device language, also when the storage read raised |
| `Locale.StartupWrite` | lib/i18n.ts:54-59 | start-up persists exactly when the read succeeded without a usable value and the write went through, and what it persists is the device language |
| `Locale.UnsupportedDeviceStartsInEnglish` | lib/i18n.ts:51-58 | with nothing saved and an unsupported device locale, start-up picks `en` and persists `en` |
| `Locale.AsWrittenGuardAdmitsInheritedName` | lib/i18n.ts:73-75 | the truthiness guard `resources[code]` admits `"toString"`, which is no bundled language, and `changeLanguage` would then adopt it |
| `Locale.Translate` | lib/i18n.ts:85-89 | `t` returns the current language's own entry when present and non-empty, otherwise the key itself (no English fallback); it is empty only for an empty key; tables are own-key maps (see Left out) |
| `Locale.ChangeLanguageAsWritten` | lib/i18n.ts:73-75 | with the guard as written, a code becomes current exactly when it is a bundled language or a name every object inherits; any other code leaves the current language |
| `Locale.I18n.constructor` | lib/i18n.ts:42-44 | the store starts in `en`, not initialised, with no listeners |
| `Locale.I18n.Initialize` | lib/i18n.ts:46-67 | once initialised, a call changes nothing and notifies nobody; the first call ends initialised, on the start-up language, with exactly one broadcast to the current listeners, and keeps the language supported |
| `Locale.I18n.GetLanguage` | lib/i18n.ts:69-71 | the language returned is always a supported code |
| `Locale.I18n.ChangeLanguage` | lib/i18n.ts:73-83 | a supported code becomes current and listeners are notified once whether or not the write succeeded; an unsupported code changes nothing and notifies nobody |
| `Locale.I18n.T` | lib/i18n.ts:85-89 | the store's `t` reads the current language's table with the key as last resort |
| `Locale.I18n.AddListener` | lib/i18n.ts:91-93 | registration appends, duplicates allowed |
| `Locale.I18n.RemoveListener` | lib/i18n.ts:95-100 | deregistration removes only the first identical registration, and is a no-op when absent |
| `Locale.I18n.NotifyListeners` | lib/i18n.ts:102-104 | every registered listener is called once, in array order |
| `Listeners.IndexOf` | lib/i18n.ts:96 | `indexOf` returns -1 exactly when the callback is absent, else the first position holding it |
| `Listeners.RemoveFirst` | lib/exchangeRate.ts:109-114 | removal leaves an absent callback's list unchanged and otherwise shortens the list by one |
| `Listeners.RemoveFirstIsSplice` | lib/exchangeRate.ts:110-113 | splicing out the position `indexOf` found is removing the first occurrence |
| `Listeners.RemoveFirstCount` | lib/i18n.ts:95-100 | exactly one registration of the callback is dropped; its duplicates and all other callbacks stay registered |
| `Listeners.AddThenRemove` | lib/exchangeRate.ts:105-114 | registering a new callback and deregistering it restores the list |
| `ExchangeRate.Find` | lib/exchangeRate.ts:29 | `find` gives the first currency with the code, or nothing when no currency has it |
| `ExchangeRate.CatalogCodesDistinct` | lib/exchangeRate.ts:18-25 | no two catalog entries share a code |
| `ExchangeRate.CurrencySymbol` | lib/exchangeRate.ts:28-31 | a catalog code gives its catalog symbol, any other code gives itself |
| `ExchangeRate.ZlotySymbol` | lib/exchangeRate.ts:21 | the zloty's symbol is `zł` |
| `ExchangeRate.LatestRate` | lib/exchangeRate.ts:56-58 | a code has a latest fetched rate exactly when some row carries it, and that rate is the one of a row with the code after which no row carries the code |
| `ExchangeRate.ApplyRows` | lib/exchangeRate.ts:55-59 | setting the rows in order leaves the earlier codes plus exactly the codes of the rows |
| `ExchangeRate.AfterFetch` | lib/exchangeRate.ts:49-71 | every outcome leaves USD in the table; a null row list leaves only USD; a failure keeps the earlier codes and adds the six built-in ones |
| `ExchangeRate.ApplyRowsLookup` | lib/exchangeRate.ts:55-59 | after the rows are set in order, a code holds the rate of its last row; codes without a row keep their earlier entry or stay absent |
| `ExchangeRate.FetchedTableContents` | lib/exchangeRate.ts:49-59 | after a successful fetch the table holds exactly USD and the fetched codes, each at its last fetched rate, USD at 1 unless fetched; earlier entries are gone |
| `ExchangeRate.NullRowsLeaveOnlyUsd` | lib/exchangeRate.ts:49-55 | a successful fetch with null rows leaves only USD at 1 |
| `ExchangeRate.FailedFetchContents` | lib/exchangeRate.ts:62-71 | after a failed fetch the six built-in codes hold 1, 0.85, 3.8, 20.5, 0.73, 1.35 and every other existing entry is unchanged |
| `ExchangeRate.SixSetsWriteFallback` | lib/exchangeRate.ts:65-70 | the six `set` calls of the failure path write exactly the built-in snapshot over the table |
| `ExchangeRate.FailureAfterSuccessKeepsFetchedRows` | lib/exchangeRate.ts:49-71 | a failed fetch after a successful one keeps a fetched `JPY` rate, so the table is not the snapshot |
| `ExchangeRate.Rate` | lib/exchangeRate.ts:75-77 | `getRate` is the stored rate when present and non-zero, else 1; it is never 0 |
| `ExchangeRate.Convert` | lib/exchangeRate.ts:75-82 | `convertPrice` multiplies by `getRate`; a currency absent or stored at 0 converts to the amount unchanged, any other at its stored rate |
| `ExchangeRate.UsdParityAfterFetch` | lib/exchangeRate.ts:52 | after any fetch that brought no USD row, converting to USD is the identity |
| `ExchangeRate.FallbackCoversCatalog` | lib/exchangeRate.ts:62-71 | after a failed fetch every catalog currency has an entry and a positive rate |
| `ExchangeRate.FormatPrice` | lib/exchangeRate.ts:84-103 | EUR renders amount then symbol, PLN amount, space, symbol, and every other code, unknown ones included, symbol then amount, the amount being `toFixed(2)` of the unconverted price |
| `ExchangeRate.ToFixed2Examples` | lib/exchangeRate.ts:91 | 19.999 renders as `20.00` and 0.5 as `0.50` |
| `ExchangeRate.FormatPriceZlotyExample` | lib/exchangeRate.ts:94-95 | 19.999 PLN renders as `20.00 zł` |
| `ExchangeRate.FormatPriceDollarExample` | lib/exchangeRate.ts:89-91 | 19.999 USD renders as `$20.00` |
| `ExchangeRate.UnknownCodeIsItsOwnSymbol` | lib/exchangeRate.ts:100-101 | 0.5 in the unknown `JPY` renders as `JPY0.50` |
| `ExchangeRate.ExchangeRateManager.constructor` | lib/exchangeRate.ts:34-35 | the manager starts with an empty table and no listeners |
| `ExchangeRate.ExchangeRateManager.FetchExchangeRates` | lib/exchangeRate.ts:37-73 | the table becomes the refreshed table of the outcome (replaced on success, overwritten with the snapshot on failure) and listeners are notified exactly once either way, with no error escaping |
| `ExchangeRate.ExchangeRateManager.GetRate` | lib/exchangeRate.ts:75-77 | the manager's `getRate` is the stored rate when present and non-zero, else 1 |
| `ExchangeRate.ExchangeRateManager.ConvertPrice` | lib/exchangeRate.ts:79-82 | the manager's `convertPrice` is the amount times its `getRate`, the amount itself for a currency absent or stored at 0 |
| `ExchangeRate.ExchangeRateManager.AddListener` | lib/exchangeRate.ts:105-107 | registration appends |
| `ExchangeRate.ExchangeRateManager.RemoveListener` | lib/exchangeRate.ts:109-114 | deregistration removes only the first identical registration |
| `ExchangeRate.ExchangeRateManager.NotifyListeners` | lib/exchangeRate.ts:116-118 | every registered listener is called once, in array order |
| `Decimal.NatToString` | App.tsx:964 | a natural renders as a non-empty string of digits without leading zeros |
| `Decimal.NatToStringRoundTrip` | App.tsx:964 | reading the rendered digits back gives the number |
| `Decimal.RoundToCents` | lib/exchangeRate.ts:91 | `toFixed` picks the hundredths count nearest to the value, the larger on a tie |
| `Decimal.ToFixed2` | lib/exchangeRate.ts:91 | `toFixed(2)` ends in a point and two digits and starts with `-` exactly for a negative value |
| `Decimal.CentsRoundTrip` | lib/exchangeRate.ts:91 | the rendered amount reads back as exactly the rounded number of hundredths |
| `Decimal.ToFixed2Value` | lib/exchangeRate.ts:91 | the rendered amount is within half a hundredth of the value's magnitude |
| `CurrencyContext.RestoredCurrency` | lib/CurrencyContext.tsx:36-39 | a saved currency is adopted only when non-empty and in the catalog; otherwise, and when the read raised, the selection stays |
| `CurrencyContext.ConvertedOnce` | lib/CurrencyContext.tsx:75-78 | with the built-in rates 10 USD shows as `38.00 zł`, so the price is converted once, not twice |
| `CurrencyContext.FormatConvertedShape` | lib/CurrencyContext.tsx:71-78 | the provider's price is the USD amount times the selected rate, rendered to two places and placed by the selected currency's rule |
| `CurrencyContext.FormatConverted` | lib/CurrencyContext.tsx:75-78 | the provider's formatted price is the formatter applied once to the amount times `getRate`; a currency without a rate shows the amount unconverted |
| `CurrencyContext.CurrencyProvider.ConvertPrice` | lib/CurrencyContext.tsx:71-73 | the provider converts at the selected currency's `getRate` |
| `CurrencyContext.CurrencyProvider.FormatPrice` | lib/CurrencyContext.tsx:75-78 | the provider formats its own converted amount for the selected currency |
| `CurrencyContext.CurrencyProvider.constructor` | lib/CurrencyContext.tsx:20-21 | the selection starts as `USD`, not initialised |
| `CurrencyContext.CurrencyProvider.Mount` | lib/CurrencyContext.tsx:23-60 | the provider subscribes, the rates are refreshed before the saved preference is read (so even a failed read leaves them refreshed), the restore rule is applied, and the provider ends initialised |
| `CurrencyContext.CurrencyProvider.Unmount` | lib/CurrencyContext.tsx:59 | cleanup removes the provider's subscription |
| `CurrencyContext.CurrencyProvider.SetSelectedCurrency` | lib/CurrencyContext.tsx:62-69 | any code, catalog or not, becomes the selection, and a failed write keeps it |
| `CurrencyContext.UseCurrency` | lib/CurrencyContext.tsx:106-112 | outside a provider the hook fails with its message; inside it yields the provider |
| `Text.Trim` | App.tsx:1008 | a non-empty `trim()` starts and ends with a non-whitespace character |
| `Text.TrimStartIsSuffix` | App.tsx:1008 | trimming the start keeps a suffix and drops only whitespace |
| `Text.TrimEndIsPrefix` | App.tsx:1008 | trimming the end keeps a prefix and drops only whitespace |
| `Text.TrimIsSlice` | App.tsx:1008 | `trim()` is the slice of the text between a run of leading and a run of trailing whitespace |
| `Text.TrimEmptyIffBlank` | App.tsx:1008 | `trim()` is empty exactly when every character is JavaScript whitespace |
| `AppShell.Translate` | App.tsx:693-695 | the screen's `t` is the selected language's non-empty entry, else the English non-empty entry, else the key |
| `AppShell.TranslationFallbacksDiffer` | App.tsx:693-695 | on a key missing in Polish but present in English, the screen's helper gives English while the store's `t` gives the key |
| `AppShell.WithoutId` | App.tsx:936-938 | the kept documents are exactly those whose id differs |
| `AppShell.WithoutIdAppend` | App.tsx:937 | removal distributes over concatenation, so the kept documents keep their order |
| `AppShell.WithoutIdAbsent` | App.tsx:937 | removing an id no document has leaves the list as it was |
| `AppShell.AddThenRemoveDocument` | App.tsx:891 | appending a document with a new id and removing that id restores the list |
| `AppShell.FirstImageIndex` | App.tsx:659 | `find` stops at the first image document, every document before it is a PDF, and it runs off the end only when there is no image; the saved image is that document's reference |
| `AppShell.FirstImageUri` | App.tsx:659 | the saved image reference is the reference of the first image document, and nothing when there is no image |
| `AppShell.AnalysisPrompt` | App.tsx:964 | the recorded question opens with `Intelligent analysis of `, closes with ` document(s)`, and the digits between read back as the number of documents |
| `AppShell.FollowUpAnswer` | App.tsx:1029 | the placeholder reply quotes the question verbatim after `Response to: "` |
| `AppShell.UploadMessage` | App.tsx:956-959 | the user's message is the document's name for a single document, else the translated upload label |
| `AppShell.RemainingAnalyses` | App.tsx:1222 | the displayed count is `max(0, total - used)`: never negative, at least `total - used` |
| `AppShell.RemainingCountsDown` | App.tsx:1222 | each use lowers the displayed count by one until it is zero |
| `AppShell.App.constructor` | App.tsx:439-461 | the screen starts logged out, in English, with empty lists and a zero plan |
| `AppShell.App.T` | App.tsx:693-695 | the screen's `t` gives the selected language's non-empty entry, else the English non-empty entry, else the key |
| `AppShell.App.Remaining` | App.tsx:1222 | the displayed remaining count is `max(0, total - used)` of the screen's plan |
| `AppShell.App.SetFollowUpQuestion` | App.tsx:1396 | the follow-up input holds exactly the typed text |
| `AppShell.App.SelectLanguage` | App.tsx:1205 | the language menu sets one of the screen's languages |
| `AppShell.App.AddDocument` | App.tsx:891 | a picked document is appended |
| `AppShell.App.RemoveDocument` | App.tsx:936-938 | the list becomes the filtered list |
| `AppShell.App.StartAnalysis` | App.tsx:940-1005 | with no documents it is rejected and nothing changes; otherwise the upload message and the reply are appended, the new result is prepended, one analysis is used and the save request carries the first image |
| `AppShell.App.AskFollowUp` | App.tsx:1007-1049 | a question blank after trimming is rejected and nothing changes; otherwise question and reply are appended, the result is prepended, the input is cleared and one analysis is used |
| `AppShell.App.SaveAndStartNew` | App.tsx:652-690 | it refuses with no results; it saves the newest result (`results[0]`) and clears results, documents and conversation only when the save succeeded |
| `AppShell.App.SignedIn` | App.tsx:498-504 | sign-in logs in with the session e-mail and sets the free plan of five analyses, none used |
| `AppShell.App.SignedOut` | App.tsx:505-518 | sign-out empties documents, results, conversation, previous analyses, e-mail and password, zeroes the plan and counts, hides previous analyses; the remaining count is 0 |

## Findings

| source | as written | input that shows it | evidently intended | confidence | as-written member | corrected member |
|---|---|---|---|---|---|---|
| lib/i18n.ts:52,74 | `resources[code]` is a truthiness test on a plain object, so it also succeeds for names inherited from `Object.prototype` | `changeLanguage("toString")`, or `"constructor"` saved under the language key, becomes the current language | accept only the bundled language codes, so that the current language is always one of them | high for the lookup semantics, not executed; reachable only if a caller or the stored value supplies such a name | `Locale.AsWrittenGuardAdmitsInheritedName` | `Locale.I18n.ChangeLanguage` |

`Locale.ChangeLanguageAsWritten` and `Locale.IsResourceKeyAsWritten` model the
guard as written. The store itself uses `Locale.IsSupported`, the own-key
test. With that test `Locale.I18n.Valid` (the current language is bundled) is
kept by every method.

## Left out

- Storage, network, device and authentication calls (AsyncStorage, the remote queries, `NativeModules`, `supabase.auth.*`) are parameters or out-parameters; their client libraries are not modelled.
- Platform selection of the device locale (`AppleLocale || AppleLanguages[0]` on iOS, `localeIdentifier` on Android) is folded into one optional identifier parameter.
- Listener callbacks are identities. What a callback does, including re-entrant registration during a broadcast, is not modelled.
- Locale.I18n.Initialize: the once-only guard holds only for calls that start after the first call has finished. The source tests `initialized` before its awaits and sets it after them (lib/i18n.ts:47-65), so two overlapping first calls (two mounted language selectors, or an effect run twice) each read, write and broadcast. A `changeLanguage` made while the start-up write is pending is overwritten if that write fails. Overlapping calls are not modelled.
- Locale.Translate and AppShell.Translate: translation tables are modelled as maps of their own keys. In the source they are plain objects, so a key such as `"constructor"` finds an inherited value (`t("constructor")` returns the `Object` function, not the key). Inherited names used as keys are not modelled.
- The translation tables' contents (App.tsx:52-425 and the JSON locale files) are abstract maps. Only their language sets are fixed.
- Amounts and rates are exact reals, not IEEE doubles. `NaN` and `-0` are not represented.
- Decimal.ToFixed2: the exponent notation `toFixed` uses at magnitudes of 10^21 and above is not modelled. The fixed-point rule is applied at every magnitude.
- CurrencyContext.CurrencyProvider.Mount: the 5-second `Promise.race` timeout (lib/CurrencyContext.tsx:27-42) is async racing. The model takes the outcome where the initialisation finished first. On a timeout the provider is also initialised, but a late read may still change the selection, and that is not modelled.
- CurrencyContext.CurrencyProvider.Mount: the query is issued before the listener is added, but its result arrives after. The model adds the listener first, which gives the same observable state.
- AppShell.App.StartAnalysis: the 2-second `setTimeout` is collapsed into one step. A follow-up asked during those 2 seconds would be lost, because the delayed `setResults([newResult, ...results])` uses the results captured when the analysis started. That interleaving is not modelled. The placeholder reply text is the `answer` parameter.
- The document, image and camera pickers are reduced to `AddDocument` of the document they produce. `Date.now()` ids are parameters.
- The `mailto` composition, HTML print and share, the toast timer, `isAnalyzing`, the previous-analyses fetch, the login and sign-up forms, the UI components, `useTranslation`, `I18nProvider`, `profileService`, `freeTrial` and the exchange-rate insert script are not modelled. They are presentation, thin wrappers, or backend calls without client-side logic.
