# Theme and locale preference reconciliation

A Dafny model of how the funcSnap landing page decides which theme (dark or
light) and which locale (`zh-CN` or `en-US`) a session uses. Each preference
has three possible sources:

- a copy persisted in localStorage;
- a signal from the browser or operating system;
- a fixed default.

The theme can also follow changes to the system's colour scheme, until the
user picks a theme explicitly (as intended; see Findings).

- `wrappers.dfy`: `Option`, which stands for JavaScript's `null`/`undefined`.
- `preferences.dfy` (module `Preferences`): the closed value sets `Theme` and
  `Locale`, their string spellings, and their parsers.
- `web_storage.dfy` (module `WebStorage`): localStorage with try/catch around
  every access. A failed read is an absent key, and a failed write is a no-op.
  `Store` is a snapshot value. `LocalStorage` is the single page-wide object
  that both preference kinds write to in place.
- `theme_store.dfy` (module `ThemeStore`): the Pinia theme store.
  - `ThemeState` and the functions over it specify each action.
  - The class `ThemeStore` keeps the store's state in mutable fields:
    - `isDark` and `systemPreference`;
    - the root element's `dark` class;
    - the media-query signal (`None` when matchMedia is unsupported);
    - `handlerActive`, whether a change listener is registered.
  - It reaches localStorage through its `storage` object. Each method is
    proved to produce exactly the state its function specifies.
- `theme_properties.dfy` (module `ThemeProperties`): properties across
  several actions, stated over any sequence of toggles, sets and system
  changes. It also holds the watcher as the source writes it (see Findings).
- `locale.dfy` (module `LocaleSelection`): browser-tag detection, the initial
  locale, and `PersistLocale`.

The `systemPreference` watcher is modelled as running at the end of the
action that changed the flag. Vue schedules it before any later event can be
delivered, so no event sees the state in between.

`applyTheme` persists the theme on every call, including the one in
`initTheme` and the one after each tracked system change. So once storage
works, every later page load finds a stored theme and starts pinned
(`ThemeProperties.ReloadRestoresTheme`).

A media query fires its `change` event only when its answer flips, so
`SystemChange` with the value the signal already has changes nothing.

## Model

| member | source | states |
|---|---|---|
| `Preferences.ParseTheme` | src/types/index.ts:6 | only the exact strings `dark` and `light` are themes, and each parses to the theme it spells |
| `Preferences.ThemeNameRoundTrip` | src/types/index.ts:6 | a theme's string parses back to that theme |
| `Preferences.ParseLocale` | src/i18n/types.ts:3 | only the exact strings `zh-CN` and `en-US` are locales, and each parses to the locale it spells |
| `Preferences.LocaleTagRoundTrip` | src/i18n/types.ts:3 | a locale's tag parses back to that locale |
| `WebStorage.GetItem` | src/stores/theme.ts:30-39 | a read yields a value exactly when storage works and the key is present; a failure reads as absent |
| `WebStorage.WithItem` | src/stores/theme.ts:68-72 | a working write stores the value under the key and keeps other entries; a failed write changes nothing |
| `WebStorage.ReadYourWrite` | src/stores/theme.ts:69 | a value written to working storage reads back; nothing reads back from failed storage |
| `WebStorage.WriteKeepsOtherKeys` | src/i18n/index.ts:45 | a write to one key leaves every other key's read unchanged |
| `WebStorage.RewriteIsNoOp` | src/stores/theme.ts:69 | writing the value a key already holds leaves storage unchanged |
| `WebStorage.LocalStorage.SetItem` | src/i18n/index.ts:44-48 | the in-place write matches `WithItem` on the old contents |
| `ThemeStore.Fresh` | src/stores/theme.ts:19-20 | a new store is light, not tracking, with no listener |
| `ThemeStore.CurrentTheme` | src/stores/theme.ts:23 | the current theme is `dark` exactly when `isDark`, `light` otherwise |
| `ThemeStore.StoredTheme` | src/stores/theme.ts:29-40 | a stored theme is found only for an exact `dark`/`light` under `vscode-plugin-theme` in working storage, and it is the theme that string names |
| `ThemeStore.SystemPrefersDark` | src/stores/theme.ts:46-52 | the system is taken as dark exactly when matchMedia exists and reports dark; a missing matchMedia means light |
| `ThemeStore.Apply` | src/stores/theme.ts:59-73 | the root has the `dark` class exactly when `isDark`; working storage then reads back the current theme, and failed storage is unchanged; other keys, tracking and listener are untouched |
| `ThemeStore.WatchTracking` | src/stores/theme.ts:125-139 | the watcher keeps the listener registered exactly while tracking on a platform with matchMedia, and changes nothing but the listener |
| `ThemeStore.Init` | src/stores/theme.ts:83-95 | a valid stored theme wins and pins; otherwise the system signal (light without matchMedia) is used and tracked; afterwards root and storage agree with the theme, and a tracked theme equals the signal |
| `ThemeStore.Pin` | src/stores/theme.ts:106-108 | an explicit choice sets the theme, ends tracking and re-applies |
| `ThemeStore.Toggle` | src/stores/theme.ts:105-109 | toggling negates `isDark` and always ends tracking; a registered listener is removed |
| `ThemeStore.SetTo` | src/stores/theme.ts:118-122 | `setTheme(t)` makes `isDark` equal to `t == dark`, ends tracking and removes any listener |
| `ThemeStore.SystemChange` | src/stores/theme.ts:128-131 | a real change of the signal moves the theme to `matches` and re-applies only when a listener is registered; a repeat of the current signal changes nothing; tracking never changes |
| `ThemeStore.ThemeStore.constructor` | src/stores/theme.ts:17-20 | the store starts in the `Fresh` state over the given storage object |
| `ThemeStore.ThemeStore.ApplyTheme` | src/stores/theme.ts:59-73 | the in-place root-class update and storage write produce `Apply` of the old state |
| `ThemeStore.ThemeStore.OnTrackingChanged` | src/stores/theme.ts:125-139 | the in-place listener update produces `WatchTracking` of the old state |
| `ThemeStore.ThemeStore.InitTheme` | src/stores/theme.ts:83-95 | the new state is `Init` of the old one, and the listener invariant holds |
| `ThemeStore.ThemeStore.ToggleTheme` | src/stores/theme.ts:105-109 | the new state is `Toggle` of the old one, and no listener remains |
| `ThemeStore.ThemeStore.SetTheme` | src/stores/theme.ts:118-122 | the new state is `SetTo` of the old one, and no listener remains |
| `ThemeStore.ThemeStore.OnSystemChange` | src/stores/theme.ts:128-132 | the new state is `SystemChange` of the old one |
| `ThemeProperties.ToggleTwice` | src/stores/theme.ts:105-108 | from a pinned, applied state, toggling twice restores the whole state, storage included |
| `ThemeProperties.ToggleTwiceRestoresTheme` | src/stores/theme.ts:105-108 | toggling twice restores the theme from any state, and each toggle leaves tracking off |
| `ThemeProperties.SetIdempotent` | src/stores/theme.ts:118-121 | `setTheme(t)` twice gives the same state as once |
| `ThemeProperties.StepKeepsConsistent` | src/stores/theme.ts:125-139 | every action keeps the listener registered exactly while tracking, keeps a tracked theme equal to the signal, and never changes whether matchMedia exists |
| `ThemeProperties.RunKeepsInvariants` | src/stores/theme.ts:59-73 | after any sequence of actions, the root class and working storage agree with the theme, a tracked theme equals the signal, and tracking is never turned back on |
| `ThemeProperties.PinnedStaysPinned` | src/stores/theme.ts:97-122 | once pinned, no action sequence turns tracking back on or registers a listener |
| `ThemeProperties.PinnedRunsAgree` | src/stores/theme.ts:125-137 | two pinned states that differ only in the system signal end alike: one run with system changes, the other with them dropped |
| `ThemeProperties.PinnedIgnoresSystemChanges` | src/stores/theme.ts:124-137 | once pinned, any action sequence ends, apart from the system signal itself, in the same state as the sequence with every system change removed |
| `ThemeProperties.ExplicitSetStopsTracking` | src/stores/theme.ts:99-121 | after `setTheme` or `toggleTheme`, a later system change leaves the chosen theme in place |
| `ThemeProperties.TrackingFollowsSystem` | src/stores/theme.ts:128-131 | while tracking, the theme ends equal to the new signal and tracking stays on; a real change re-applies, and a repeat of the current signal changes nothing |
| `ThemeProperties.ReloadRestoresTheme` | src/stores/theme.ts:83-94 | with working storage, the next page load restores the applied theme and starts pinned |
| `ThemeProperties.NoStorageTracksSystem` | src/stores/theme.ts:83-95 | without working storage, startup takes the system signal, tracks it and leaves storage unchanged |
| `ThemeProperties.ScenarioFirstVisitTracksSystem` | src/stores/theme.ts:89-93 | with no stored theme and a dark system, startup is dark and tracking, and a change to light follows |
| `ThemeProperties.ScenarioStoredLightWins` | src/stores/theme.ts:85-88 | a stored `light` beats a dark system and pins the theme; the system turning light and then dark again leaves it light |
| `ThemeProperties.ScenarioCorruptStoredTheme` | src/stores/theme.ts:32-35 | a stored value that is not exactly `dark`/`light` counts as absent and is overwritten with the applied theme |
| `ThemeProperties.WatchTrackingAsWritten` | src/stores/theme.ts:125-139 | the watcher as written never removes a registered listener |
| `ThemeProperties.ToggleAsWritten` | src/stores/theme.ts:105-109 | as written, toggling negates the theme, ends tracking and re-applies, but keeps any registered listener |
| `ThemeProperties.SetToAsWritten` | src/stores/theme.ts:118-122 | as written, `setTheme(t)` sets the theme, ends tracking and re-applies, but keeps any registered listener |
| `ThemeProperties.AsWrittenSystemChangeOverridesPin` | src/stores/theme.ts:134-137 | as written, a toggle or set made while tracking leaves the listener; the signal moving to the chosen theme and back then overrides that theme in memory and in working storage, with tracking still off |
| `ThemeProperties.AsWrittenScenario` | src/stores/theme.ts:125-137 | first visit on a dark system, toggle to light, then the system turns light and dark again: as written the theme and storage end dark; with the listener removed they stay light |
| `LocaleSelection.StartsWith` | src/i18n/index.ts:14 | `startsWith` holds exactly when the prefix is an initial segment of the string |
| `LocaleSelection.BrowserTag` | src/i18n/index.ts:11 | the tag is a non-empty `language`, else a non-empty first entry of `languages`, else `en-US`; it is never empty |
| `LocaleSelection.LocaleOfTag` | src/i18n/index.ts:13-19 | a tag maps to zh-CN exactly when it begins with lower-case `zh`, and to en-US otherwise |
| `LocaleSelection.BrowserLocale` | src/i18n/index.ts:10-20 | the browser locale is the mapping of the chosen tag; a `zh` language gives zh-CN; no navigator inputs give en-US |
| `LocaleSelection.InitialLocale` | src/i18n/index.ts:26-37 | an exact supported tag in working storage is returned; anything else gives the browser locale |
| `LocaleSelection.PersistLocale` | src/i18n/index.ts:43-49 | the locale's tag is written under `vscode-plugin-locale` when storage works; otherwise nothing changes, and no other key changes |
| `LocaleSelection.TagExamples` | src/i18n/index.ts:13-19 | `zh`, `zh-CN`, `zh-TW` and `zh-HK` map to zh-CN; `ZH-CN`, `en-GB`, `z` and the empty tag map to en-US |
| `LocaleSelection.FallbackChain` | src/i18n/index.ts:11 | an empty `language` falls through to `languages[0]`, an empty list to en-US, and `language` wins over `languages` |
| `LocaleSelection.PersistThenInitial` | src/i18n/index.ts:26-49 | with working storage, the next startup selects the persisted locale, whatever the browser says |
| `LocaleSelection.PersistWithoutStorage` | src/i18n/index.ts:43-49 | with failed storage, persisting changes nothing and startup uses the browser locale |
| `LocaleSelection.InvalidStoredLocaleFallsBack` | src/i18n/index.ts:28-36 | a stored `xx-XX` or empty string falls back to the browser locale |
| `LocaleSelection.PreferencesDoNotInterfere` | src/i18n/index.ts:45 | writing the locale leaves the stored theme unchanged, and applying a theme leaves the initial locale unchanged |

## Findings

| source | as written | input that shows it | evidently intended | confidence | as-written member | corrected member |
|---|---|---|---|---|---|---|
| src/stores/theme.ts:134-137 | the watcher returns its listener-removing function as the callback's result. Vue ignores that value, so the media-query listener is never removed | first visit with no stored theme on a dark system, then `toggleTheme()` to light, then the system switches to light and back to dark | a manual toggle or set stops system tracking (comments at lines 99 and 113): the listener is removed, and later system changes leave the chosen theme alone | high, from Vue's documented `watch` semantics; not executed | `ThemeProperties.AsWrittenSystemChangeOverridesPin` | `ThemeProperties.PinnedIgnoresSystemChanges` |

The rest of the model uses the corrected watcher `ThemeStore.WatchTracking`.
The as-written behaviour is kept only in `ThemeProperties.WatchTrackingAsWritten`,
`ToggleAsWritten` and `SetToAsWritten`.

## Left out

- Pinia and Vue reactivity (`defineStore`, `ref`, `computed`, `watch` scheduling): plain fields stand in for them. The watcher runs synchronously at the end of the action that changed `systemPreference`. Vue instead compares only the flag's final value within one task. So `initTheme(); toggleTheme();` in the same task never fires the watcher, and as written registers no listener, whereas `ToggleAsWritten(Init(..))` keeps one; with the corrected watcher both end without a listener.
- `console.warn` calls: they log and change no state.
- Storage failures are one flag, `available`, that governs both reads and writes. A write that fails on quota while reads still work is not modelled separately.
- matchMedia support is fixed for the session. The event's `MediaQueryListEvent` is reduced to its `matches` boolean. Listener identity is reduced to the `handlerActive` flag.
- Only the `dark` class of the document root is modelled. Other classes on the root are not.
- The i18n instance created with `createI18n` (src/i18n/index.ts:52-63) and the message catalogs are not modelled: they are library configuration and static data. The same goes for the router, the application bootstrap and the style configuration.
- No lemma says that the browser locale and the initial locale are always supported. Both functions return a `Locale` value, and that type has exactly the two supported tags.
- Who calls `initTheme` and `persistLocale` is not part of this model. The components that do so are not among the modelled files.
