/**
 * Locale selection: the browser's language tag mapped onto the two
 * supported locales, the stored choice under `vscode-plugin-locale` taking
 * priority, and the best-effort write of a new choice. The locale is read
 * once at startup and has no change subscription.
 */
module LocaleSelection {
  import opened Wrappers
  import opened Preferences
  import opened WebStorage
  import ThemeStore

  const LocaleKey := "vscode-plugin-locale"

  /**
   * The navigator's language inputs: `language` (None when undefined) and
   * `languages` (None when undefined, otherwise the preference list).
   */
  datatype Navigator = Navigator(language: Option<string>, languages: Option<seq<string>>)

  /** `String.prototype.startsWith`, character by character. */
  function StartsWith(s: string, prefix: string): (b: bool)
    ensures b <==> |prefix| <= |s| && s[..|prefix|] == prefix
    decreases prefix
  {
    if prefix == [] then true
    else if s == [] then false
    else s[0] == prefix[0] && StartsWith(s[1..], prefix[1..])
  }

  /**
   * `navigator.language || (navigator.languages && navigator.languages[0]) || 'en-US'`:
   * an undefined or empty string is falsy, an empty list yields undefined.
   */
  function BrowserTag(nav: Navigator): (tag: string)
    ensures tag != ""
    ensures nav.language.Some? && nav.language.value != "" ==> tag == nav.language.value
    ensures (nav.language.None? || nav.language.value == "") &&
            nav.languages.Some? && |nav.languages.value| > 0 && nav.languages.value[0] != ""
            ==> tag == nav.languages.value[0]
    ensures tag == "en-US" || (nav.language.Some? && tag == nav.language.value) ||
            (nav.languages.Some? && |nav.languages.value| > 0 && tag == nav.languages.value[0])
  {
    if nav.language.Some? && nav.language.value != "" then nav.language.value
    else if nav.languages.Some? && |nav.languages.value| > 0 && nav.languages.value[0] != ""
    then nav.languages.value[0]
    else "en-US"
  }

  /** The mapping of a tag: every tag beginning with `zh` is Chinese, everything else English. */
  function LocaleOfTag(tag: string): (l: Locale)
    ensures l == ZhCN <==> |tag| >= 2 && tag[0] == 'z' && tag[1] == 'h'
  {
    if StartsWith(tag, "zh") then ZhCN else EnUS
  }

  /** `getBrowserLocale`. */
  function BrowserLocale(nav: Navigator): (l: Locale)
    ensures l == LocaleOfTag(BrowserTag(nav))
    ensures nav.language.Some? && |nav.language.value| >= 2 && nav.language.value[..2] == "zh"
            ==> l == ZhCN
    ensures nav.language.None? && nav.languages.None? ==> l == EnUS
  {
    LocaleOfTag(BrowserTag(nav))
  }

  /** `getInitialLocale`: an exact supported tag in working storage, else the browser's. */
  function InitialLocale(st: Store, nav: Navigator): (l: Locale)
    ensures (st.available && LocaleKey in st.entries &&
             (st.entries[LocaleKey] == "zh-CN" || st.entries[LocaleKey] == "en-US"))
            ==> LocaleTag(l) == st.entries[LocaleKey]
    ensures !(st.available && LocaleKey in st.entries &&
              (st.entries[LocaleKey] == "zh-CN" || st.entries[LocaleKey] == "en-US"))
            ==> l == BrowserLocale(nav)
  {
    match GetItem(st, LocaleKey)
    case Some(stored) =>
      (match ParseLocale(stored)
       case Some(l) => l
       case None => BrowserLocale(nav))
    case None => BrowserLocale(nav)
  }

  /** `persistLocale`: write the tag under the locale key; a failed write changes nothing. */
  method PersistLocale(storage: LocalStorage, locale: Locale)
    modifies storage
    ensures storage.Snapshot() == WithItem(old(storage.Snapshot()), LocaleKey, LocaleTag(locale))
    ensures !old(storage.available) ==> storage.entries == old(storage.entries)
  {
    storage.SetItem(LocaleKey, LocaleTag(locale));
  }

  /** All Chinese variants map to zh-CN; matching is case-sensitive. */
  lemma TagExamples()
    ensures LocaleOfTag("zh") == ZhCN && LocaleOfTag("zh-CN") == ZhCN
    ensures LocaleOfTag("zh-TW") == ZhCN && LocaleOfTag("zh-HK") == ZhCN
    ensures LocaleOfTag("ZH-CN") == EnUS && LocaleOfTag("en-GB") == EnUS
    ensures LocaleOfTag("z") == EnUS && LocaleOfTag("") == EnUS
  {
  }

  /** The fallback chain: `language`, then the first of `languages`, then en-US. */
  lemma FallbackChain(first: string)
    ensures BrowserLocale(Navigator(Some(""), Some([first]))) == LocaleOfTag(if first == "" then "en-US" else first)
    ensures BrowserLocale(Navigator(None, Some([]))) == EnUS
    ensures BrowserLocale(Navigator(Some("zh-TW"), Some(["en-US"]))) == ZhCN
    ensures BrowserLocale(Navigator(Some("en"), Some(["zh-CN"]))) == EnUS
  {
  }

  /** A persisted locale is what the next startup selects, whatever the browser says. */
  lemma PersistThenInitial(st: Store, locale: Locale, nav: Navigator)
    requires st.available
    ensures InitialLocale(WithItem(st, LocaleKey, LocaleTag(locale)), nav) == locale
  {
  }

  /** With storage unavailable, persisting changes nothing and startup uses the browser. */
  lemma PersistWithoutStorage(st: Store, locale: Locale, nav: Navigator)
    requires !st.available
    ensures WithItem(st, LocaleKey, LocaleTag(locale)) == st
    ensures InitialLocale(WithItem(st, LocaleKey, LocaleTag(locale)), nav) == BrowserLocale(nav)
  {
  }

  /** An unsupported stored tag such as `"xx-XX"` falls back to the browser. */
  lemma InvalidStoredLocaleFallsBack(entries: map<string, string>, nav: Navigator)
    ensures InitialLocale(Store(true, entries[LocaleKey := "xx-XX"]), nav) == BrowserLocale(nav)
    ensures InitialLocale(Store(true, entries[LocaleKey := ""]), nav) == BrowserLocale(nav)
  {
  }

  /** The two preference kinds use different keys, so neither write disturbs the other. */
  lemma PreferencesDoNotInterfere(st: Store, locale: Locale, s: ThemeStore.ThemeState, nav: Navigator)
    ensures ThemeStore.StoredTheme(WithItem(st, LocaleKey, LocaleTag(locale))) ==
            ThemeStore.StoredTheme(st)
    ensures InitialLocale(ThemeStore.Apply(s).storage, nav) == InitialLocale(s.storage, nav)
  {
  }
}
