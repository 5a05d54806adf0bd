/**
 * The two closed value sets of the preference subsystem: the theme mode
 * (`'dark' | 'light'`) and the supported locale (`'zh-CN' | 'en-US'`),
 * with their string spellings as stored in localStorage.
 */
module Preferences {
  import opened Wrappers

  datatype Theme = Dark | Light

  datatype Locale = ZhCN | EnUS

  /** The string literal the source uses for a theme. */
  function ThemeName(t: Theme): (name: string)
  {
    match t
    case Dark => "dark"
    case Light => "light"
  }

  /** Accepts exactly the two theme literals; every other string is rejected. */
  function ParseTheme(s: string): (r: Option<Theme>)
    ensures r.Some? <==> s == "dark" || s == "light"
    ensures r.Some? ==> ThemeName(r.value) == s
  {
    if s == "dark" then Some(Dark)
    else if s == "light" then Some(Light)
    else None
  }

  lemma ThemeNameRoundTrip(t: Theme)
    ensures ParseTheme(ThemeName(t)) == Some(t)
  {
  }

  /** The string tag the source uses for a locale. */
  function LocaleTag(l: Locale): (tag: string)
  {
    match l
    case ZhCN => "zh-CN"
    case EnUS => "en-US"
  }

  /** Accepts exactly the two locale tags; every other string is rejected. */
  function ParseLocale(s: string): (r: Option<Locale>)
    ensures r.Some? <==> s == "zh-CN" || s == "en-US"
    ensures r.Some? ==> LocaleTag(r.value) == s
  {
    if s == "zh-CN" then Some(ZhCN)
    else if s == "en-US" then Some(EnUS)
    else None
  }

  lemma LocaleTagRoundTrip(l: Locale)
    ensures ParseLocale(LocaleTag(l)) == Some(l)
  {
  }
}
