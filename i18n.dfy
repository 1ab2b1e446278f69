/** The locale store of lib/i18n.ts: a process-wide object holding the current
    UI language, a one-shot initialisation flag and the registered listeners. */
module Locale {
  import opened Common
  import Text
  import Listeners

  /** The codes of the bundled translation tables, i.e. the keys of `resources`. */
  const Languages: set<string> := {"en", "pl", "es", "de", "fr", "pt"}

  type Table = map<string, string>

  /** The `resources` object: one translation table per bundled language. Only
      the key set is fixed here; the tables' contents are left abstract. */
  predicate WellFormed(resources: map<string, Table>) {
    resources.Keys == Languages
  }

  /** The guard used before a language is adopted: the code must be one of
      the bundled languages. */
  predicate IsSupported(code: string) {
    code in Languages
  }

  /** The names a plain JavaScript object inherits from `Object.prototype`;
      `resources[name]` is a (truthy) function or object for each of them. */
  const InheritedNames: set<string> := {
    "constructor", "hasOwnProperty", "isPrototypeOf", "propertyIsEnumerable",
    "toLocaleString", "toString", "valueOf", "__proto__", "__defineGetter__",
    "__defineSetter__", "__lookupGetter__", "__lookupSetter__"
  }

  /** The guard as the source writes it, `if (resources[code])`: truthy for a
      bundled language and also for every inherited property name. */
  predicate IsResourceKeyAsWritten(code: string) {
    code in Languages || code in InheritedNames
  }

  /** `changeLanguage` on the language alone, with the guard as written. */
  function ChangeLanguageAsWritten(current: string, code: string): (r: string)
    ensures code in Languages + InheritedNames ==> r == code
    ensures code !in Languages + InheritedNames ==> r == current
  {
    if IsResourceKeyAsWritten(code) then code else current
  }

  /** With the guard as written, an inherited name becomes the current
      language, so "the current language is a bundled one" fails. */
  lemma AsWrittenGuardAdmitsInheritedName()
    ensures IsResourceKeyAsWritten("toString") && !IsSupported("toString")
    ensures ChangeLanguageAsWritten("en", "toString") !in Languages
  {
  }

  /** `getDeviceLocale`: the language part of the device locale identifier
      (before the first '_') when a table exists for it, otherwise "en". */
  function DeviceLocale(deviceLocale: Option<string>): (r: string)
    ensures r in Languages
    ensures deviceLocale.Some? && Text.BeforeFirst(deviceLocale.value, '_') in Languages
            ==> r == Text.BeforeFirst(deviceLocale.value, '_')
    ensures deviceLocale.None? || Text.BeforeFirst(deviceLocale.value, '_') !in Languages
            ==> r == "en"
  {
    if deviceLocale.Some? && deviceLocale.value != "" then
      var locale := Text.BeforeFirst(deviceLocale.value, '_');
      if locale in Languages then locale else "en"
    else
      "en"
  }

  /** The saved language is adopted only when it is non-empty and supported. */
  predicate AdoptsSaved(read: StorageRead) {
    read.Stored? && read.saved.Some? && read.saved.value != "" && IsSupported(read.saved.value)
  }

  /** The language the first `initialize` settles on. */
  function StartupLanguage(read: StorageRead, deviceLocale: Option<string>): (r: string)
    ensures r in Languages
    ensures AdoptsSaved(read) ==> r == read.saved.value
    ensures !AdoptsSaved(read) ==> r == DeviceLocale(deviceLocale)
  {
    if AdoptsSaved(read) then read.saved.value else DeviceLocale(deviceLocale)
  }

  /** What the first `initialize` writes back to storage: the device-derived
      language, when the read succeeded without a usable value and the write
      went through. */
  function StartupWrite(read: StorageRead, deviceLocale: Option<string>, writeOk: bool): (w: Option<string>)
    ensures w.Some? <==> read.Stored? && !AdoptsSaved(read) && writeOk
    ensures w.Some? ==> w.value == DeviceLocale(deviceLocale)
  {
    if read.Stored? && !AdoptsSaved(read) && writeOk then Some(DeviceLocale(deviceLocale)) else None
  }

  /** With nothing saved and an unsupported device locale, start-up settles
      on English and persists English. */
  lemma UnsupportedDeviceStartsInEnglish(deviceLocale: string)
    requires Text.BeforeFirst(deviceLocale, '_') !in Languages
    ensures StartupLanguage(Stored(None), Some(deviceLocale)) == "en"
    ensures StartupWrite(Stored(None), Some(deviceLocale), true) == Some("en")
  {
  }

  /** `t(key)`: the entry of the current language's table when it is present
      and non-empty, else the key itself; there is no per-key fallback to
      English. A language without a table would use the English table. */
  function Translate(resources: map<string, Table>, lang: string, key: string): (r: string)
    requires "en" in resources
    ensures lang in resources && key in resources[lang] && resources[lang][key] != ""
            ==> r == resources[lang][key]
    ensures lang in resources && !(key in resources[lang] && resources[lang][key] != "")
            ==> r == key
    ensures r == "" ==> key == ""
  {
    var table := if lang in resources then resources[lang] else resources["en"];
    if key in table && table[key] != "" then table[key] else key
  }

  class I18n {
    const resources: map<string, Table>
    var currentLanguage: string
    var initialized: bool
    var listeners: seq<Listeners.Listener>
    /** Every listener invocation so far, in order. */
    var delivered: seq<Listeners.Listener>

    ghost predicate Valid()
      reads this
    {
      WellFormed(resources) && currentLanguage in Languages
    }

    constructor (resources: map<string, Table>)
      requires WellFormed(resources)
      ensures Valid()
      ensures this.resources == resources
      ensures currentLanguage == "en" && !initialized && listeners == [] && delivered == []
    {
      this.resources := resources;
      currentLanguage := "en";
      initialized := false;
      listeners := [];
      delivered := [];
    }

    /** One-shot start-up: adopt the saved language, else the device's
        (persisting it); a storage failure falls back to the device's. Returns
        the value written to storage, if a write went through. */
    method Initialize(read: StorageRead, deviceLocale: Option<string>, writeOk: bool)
      returns (persisted: Option<string>)
      requires Valid()
      modifies this
      ensures Valid()
      ensures initialized
      ensures listeners == old(listeners)
      ensures old(initialized) ==>
        currentLanguage == old(currentLanguage) && delivered == old(delivered) && persisted == None
      ensures !old(initialized) ==>
        currentLanguage == StartupLanguage(read, deviceLocale)
        && delivered == old(delivered) + listeners
        && persisted == StartupWrite(read, deviceLocale, writeOk)
    {
      persisted := None;
      if initialized {
        return;
      }
      match read {
      case ReadFailed =>
        currentLanguage := DeviceLocale(deviceLocale);
      case Stored(saved) =>
        if saved.Some? && saved.value != "" && IsSupported(saved.value) {
          currentLanguage := saved.value;
        } else {
          currentLanguage := DeviceLocale(deviceLocale);
          if writeOk {
            persisted := Some(currentLanguage);
          } else {
            // the failed write is caught like a failed read
            currentLanguage := DeviceLocale(deviceLocale);
          }
        }
      }
      initialized := true;
      NotifyListeners();
    }

    function GetLanguage(): (r: string)
      reads this
      requires Valid()
      ensures r in Languages
    {
      currentLanguage
    }

    /** Switch to a supported language, persist it best-effort and notify;
        an unsupported code changes nothing and notifies nobody. */
    method ChangeLanguage(code: string, writeOk: bool) returns (persisted: Option<string>)
      requires Valid()
      modifies this
      ensures Valid() && initialized == old(initialized) && listeners == old(listeners)
      ensures IsSupported(code) ==>
        currentLanguage == code && delivered == old(delivered) + listeners
        && persisted == (if writeOk then Some(code) else None)
      ensures !IsSupported(code) ==>
        currentLanguage == old(currentLanguage) && delivered == old(delivered) && persisted == None
    {
      persisted := None;
      if IsSupported(code) {
        currentLanguage := code;
        if writeOk {
          persisted := Some(code);
        }
        NotifyListeners();
      }
    }

    function T(key: string): (r: string)
      reads this
      requires Valid()
      ensures key in resources[currentLanguage] && resources[currentLanguage][key] != ""
              ==> r == resources[currentLanguage][key]
      ensures !(key in resources[currentLanguage] && resources[currentLanguage][key] != "")
              ==> r == key
    {
      Translate(resources, currentLanguage, key)
    }

    method AddListener(f: Listeners.Listener)
      modifies this`listeners
      ensures listeners == old(listeners) + [f]
    {
      listeners := listeners + [f];
    }

    method RemoveListener(f: Listeners.Listener)
      modifies this`listeners
      ensures listeners == Listeners.RemoveFirst(old(listeners), f)
    {
      var index := Listeners.IndexOf(listeners, f);
      if index > -1 {
        Listeners.RemoveFirstIsSplice(listeners, f, index);
        listeners := listeners[..index] + listeners[index + 1..];
      }
    }

    /** Calls every registered listener once, in array order. */
    method NotifyListeners()
      modifies this`delivered
      ensures delivered == old(delivered) + listeners
    {
      var i := 0;
      while i < |listeners|
        invariant 0 <= i <= |listeners|
        invariant delivered == old(delivered) + listeners[..i]
      {
        delivered := delivered + [listeners[i]];
        i := i + 1;
      }
      assert listeners[..i] == listeners;
    }
  }
}
