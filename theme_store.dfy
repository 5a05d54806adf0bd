/**
 * The theme store: whether the dark theme is on, whether the theme follows
 * the operating system's colour-scheme signal, the `dark` class on the
 * document root, the persisted copy under `vscode-plugin-theme`, the
 * `(prefers-color-scheme: dark)` media query (absent when matchMedia is not
 * supported) and the change listener registered on it.
 *
 * `ThemeState` and the functions over it specify each action; the class
 * `ThemeStore` performs the actions in place and is proved against them.
 *
 * The watcher on `systemPreference` is run at the end of the action that
 * changed the flag: the framework schedules it before any later event can
 * be delivered, so no event observes the state in between.
 */
module ThemeStore {
  import opened Wrappers
  import opened Preferences
  import opened WebStorage

  const ThemeKey := "vscode-plugin-theme"

  datatype ThemeState = ThemeState(
    isDark: bool,
    systemPreference: bool,   // true while the theme follows the system signal
    rootDark: bool,           // the document root carries the `dark` class
    storage: Store,
    systemDark: Option<bool>, // None: matchMedia is not supported
    handlerActive: bool)      // a change listener is registered on the media query

  /** The state right after the store is created: both flags false, nothing registered. */
  function Fresh(storage: Store, systemDark: Option<bool>, rootDark: bool): (s: ThemeState)
    ensures !s.isDark && !s.systemPreference && !s.handlerActive
    ensures s.storage == storage && s.systemDark == systemDark && s.rootDark == rootDark
  {
    ThemeState(false, false, rootDark, storage, systemDark, false)
  }

  /** The `currentTheme` getter. */
  function CurrentTheme(isDark: bool): (t: Theme)
    ensures t == Dark <==> isDark
    ensures t == Light <==> !isDark
  {
    if isDark then Dark else Light
  }

  /** `getStoredTheme`: a theme only for an exact `'dark'` or `'light'` in working storage. */
  function StoredTheme(st: Store): (r: Option<Theme>)
    ensures r.Some? <==>
      st.available && ThemeKey in st.entries &&
      (st.entries[ThemeKey] == "dark" || st.entries[ThemeKey] == "light")
    ensures r.Some? ==> ThemeName(r.value) == st.entries[ThemeKey]
  {
    match GetItem(st, ThemeKey)
    case Some(v) => ParseTheme(v)
    case None => None
  }

  /** `getSystemPreference`: the media query's answer, light when matchMedia is missing. */
  function SystemPrefersDark(systemDark: Option<bool>): (dark: bool)
    ensures dark <==> systemDark == Some(true)
  {
    match systemDark
    case None => false
    case Some(matches) => matches
  }

  /** Listener registered exactly while tracking the system signal on a platform that has it. */
  ghost predicate Consistent(s: ThemeState)
  {
    s.handlerActive == (s.systemPreference && s.systemDark.Some?)
  }

  /** While tracking on a platform with matchMedia, the theme is the signal's value. */
  ghost predicate Following(s: ThemeState)
  {
    s.systemPreference && s.systemDark.Some? ==> s.isDark == s.systemDark.value
  }

  /** The root class and, where storage works, the stored theme agree with `isDark`. */
  ghost predicate Synced(s: ThemeState)
  {
    s.rootDark == s.isDark &&
    (s.storage.available ==> StoredTheme(s.storage) == Some(CurrentTheme(s.isDark)))
  }

  /** `applyTheme`: set the root class from `isDark`, then persist the current theme. */
  function Apply(s: ThemeState): (r: ThemeState)
    ensures r.rootDark == r.isDark == s.isDark
    ensures StoredTheme(r.storage) ==
      if s.storage.available then Some(CurrentTheme(s.isDark)) else StoredTheme(s.storage)
    ensures !s.storage.available ==> r.storage == s.storage
    ensures forall k :: k != ThemeKey ==> GetItem(r.storage, k) == GetItem(s.storage, k)
    ensures r.systemPreference == s.systemPreference && r.systemDark == s.systemDark
    ensures r.handlerActive == s.handlerActive
    ensures Synced(r)
  {
    s.(rootDark := s.isDark,
       storage := WithItem(s.storage, ThemeKey, ThemeName(CurrentTheme(s.isDark))))
  }

  /**
   * The watcher on `systemPreference`, as intended: it runs only when the flag
   * changed; turning tracking on registers a listener when matchMedia exists,
   * turning it off removes the listener. (The source returns the removal as the
   * callback's result, which the framework ignores, so the removal never
   * happens; see WatchTrackingAsWritten.)
   */
  function WatchTracking(wasTracking: bool, s: ThemeState): (r: ThemeState)
    ensures s.handlerActive == (wasTracking && s.systemDark.Some?) ==> Consistent(r)
    ensures !r.systemPreference && !wasTracking ==> r.handlerActive == s.handlerActive
    ensures r.(handlerActive := s.handlerActive) == s
  {
    if s.systemPreference == wasTracking then s
    else if s.systemPreference then
      (if s.systemDark.Some? then s.(handlerActive := true) else s)
    else s.(handlerActive := false)
  }

  /** `initTheme`: stored theme, else the system signal (tracked), else light. */
  function Init(s: ThemeState): (r: ThemeState)
    ensures StoredTheme(s.storage).Some? ==>
      r.isDark == (StoredTheme(s.storage).value == Dark) && !r.systemPreference
    ensures StoredTheme(s.storage).None? ==>
      r.isDark == SystemPrefersDark(s.systemDark) && r.systemPreference
    ensures r.systemDark == s.systemDark
    ensures Consistent(s) ==> Consistent(r)
    ensures Synced(r) && Following(r)
  {
    var stored := StoredTheme(s.storage);
    var chosen :=
      if stored.Some? then s.(isDark := stored.value == Dark, systemPreference := false)
      else s.(isDark := SystemPrefersDark(s.systemDark), systemPreference := true);
    WatchTracking(s.systemPreference, Apply(chosen))
  }

  /** The common part of `toggleTheme` and `setTheme`: pin `dark`, stop tracking, apply. */
  function Pin(s: ThemeState, dark: bool): (r: ThemeState)
    ensures r.isDark == dark && !r.systemPreference && Synced(r)
    ensures r.handlerActive == s.handlerActive && r.systemDark == s.systemDark
  {
    Apply(s.(isDark := dark, systemPreference := false))
  }

  /** `toggleTheme`. */
  function Toggle(s: ThemeState): (r: ThemeState)
    ensures r.isDark == !s.isDark && !r.systemPreference
    ensures r.handlerActive == (s.handlerActive && !s.systemPreference)
    ensures Consistent(s) ==> Consistent(r) && !r.handlerActive
    ensures Synced(r) && Following(r) && r.systemDark == s.systemDark
  {
    WatchTracking(s.systemPreference, Pin(s, !s.isDark))
  }

  /** `setTheme(t)`. */
  function SetTo(s: ThemeState, t: Theme): (r: ThemeState)
    ensures r.isDark == (t == Dark) && !r.systemPreference
    ensures Consistent(s) ==> Consistent(r) && !r.handlerActive
    ensures Synced(r) && Following(r) && r.systemDark == s.systemDark
  {
    WatchTracking(s.systemPreference, Pin(s, t == Dark))
  }

  /**
   * The operating system's colour scheme becoming `matches`. The media query
   * fires its `change` event only when its answer flips, so without matchMedia,
   * or when the signal already is `matches`, nothing happens. With a listener
   * registered the theme follows `matches` and is re-applied; otherwise only
   * the signal itself changes.
   */
  function SystemChange(s: ThemeState, matches: bool): (r: ThemeState)
    ensures s.systemDark.None? || s.systemDark == Some(matches) ==> r == s
    ensures s.systemDark.Some? ==> r.systemDark == Some(matches)
    ensures s.systemDark.Some? && s.systemDark != Some(matches) && s.handlerActive ==>
      r.isDark == matches && Synced(r)
    ensures !s.handlerActive ==> r.(systemDark := s.systemDark) == s
    ensures r.systemPreference == s.systemPreference && r.handlerActive == s.handlerActive
    ensures Consistent(s) ==> Consistent(r)
    ensures Consistent(s) && Following(s) ==> Following(r)
    ensures Synced(s) ==> Synced(r)
  {
    if s.systemDark.None? || s.systemDark == Some(matches) then s
    else if s.handlerActive then Apply(s.(isDark := matches, systemDark := Some(matches)))
    else s.(systemDark := Some(matches))
  }

  /** The store object as the application holds it. */
  class ThemeStore {
    var isDark: bool
    var systemPreference: bool
    var rootHasDarkClass: bool
    var systemDark: Option<bool>
    var handlerActive: bool
    const storage: LocalStorage

    function State(): (s: ThemeState)
      reads this, storage
    {
      ThemeState(isDark, systemPreference, rootHasDarkClass, storage.Snapshot(), systemDark,
                 handlerActive)
    }

    ghost predicate Valid()
      reads this, storage
    {
      Consistent(State()) && Following(State())
    }

    /** `defineStore` setup: both refs false, the watcher installed but not yet fired. */
    constructor (storage: LocalStorage, systemDark: Option<bool>, rootHasDarkClass: bool)
      ensures this.storage == storage && Valid()
      ensures State() == Fresh(storage.Snapshot(), systemDark, rootHasDarkClass)
    {
      isDark := false;
      systemPreference := false;
      this.rootHasDarkClass := rootHasDarkClass;
      this.systemDark := systemDark;
      handlerActive := false;
      this.storage := storage;
    }

    /** `applyTheme`. */
    method ApplyTheme()
      modifies this, storage
      ensures State() == Apply(old(State()))
    {
      rootHasDarkClass := isDark;
      storage.SetItem(ThemeKey, ThemeName(CurrentTheme(isDark)));
    }

    /** The watcher callback, run when `systemPreference` differs from `wasTracking`. */
    method OnTrackingChanged(wasTracking: bool)
      modifies this
      ensures State() == WatchTracking(wasTracking, old(State()))
    {
      if systemPreference != wasTracking {
        if systemPreference {
          if systemDark.Some? {
            handlerActive := true;
          }
        } else {
          // Intended removal of the listener; the source's returned cleanup never runs.
          handlerActive := false;
        }
      }
    }

    /** `initTheme`. */
    method InitTheme()
      requires Valid()
      modifies this, storage
      ensures Valid()
      ensures State() == Init(old(State()))
    {
      var wasTracking := systemPreference;
      var stored := StoredTheme(storage.Snapshot());
      if stored.Some? {
        isDark := stored.value == Dark;
        systemPreference := false;
      } else {
        isDark := SystemPrefersDark(systemDark);
        systemPreference := true;
      }
      ApplyTheme();
      OnTrackingChanged(wasTracking);
    }

    /** `toggleTheme`. */
    method ToggleTheme()
      requires Valid()
      modifies this, storage
      ensures Valid() && !handlerActive
      ensures State() == Toggle(old(State()))
    {
      var wasTracking := systemPreference;
      isDark := !isDark;
      systemPreference := false;
      ApplyTheme();
      OnTrackingChanged(wasTracking);
    }

    /** `setTheme(theme)`. */
    method SetTheme(theme: Theme)
      requires Valid()
      modifies this, storage
      ensures Valid() && !handlerActive
      ensures State() == SetTo(old(State()), theme)
    {
      var wasTracking := systemPreference;
      isDark := theme == Dark;
      systemPreference := false;
      ApplyTheme();
      OnTrackingChanged(wasTracking);
    }

    /** The media query's answer becoming `matches`; its `change` event reaches the listener, if any. */
    method OnSystemChange(matches: bool)
      requires Valid()
      modifies this, storage
      ensures Valid()
      ensures State() == SystemChange(old(State()), matches)
    {
      if systemDark.Some? && systemDark != Some(matches) {
        systemDark := Some(matches);
        if handlerActive {
          isDark := matches;
          ApplyTheme();
        }
      }
    }
  }
}
