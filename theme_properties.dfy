/**
 * Properties of the theme store across several actions: toggling twice,
 * setting twice, the invariants every action keeps, that a pinned theme is
 * never moved by the system signal, that a reload restores what was
 * persisted, and the behaviour of the watcher as the source writes it.
 */
module ThemeProperties {
  import opened Wrappers
  import opened Preferences
  import opened WebStorage
  import opened ThemeStore

  /** What can happen to the store after startup. */
  datatype Action = ToggleAction | SetAction(theme: Theme) | SystemChangeAction(matches: bool)

  function Step(s: ThemeState, a: Action): (r: ThemeState)
  {
    match a
    case ToggleAction => Toggle(s)
    case SetAction(t) => SetTo(s, t)
    case SystemChangeAction(m) => SystemChange(s, m)
  }

  function Run(s: ThemeState, acts: seq<Action>): (r: ThemeState)
    decreases |acts|
  {
    if acts == [] then s else Run(Step(s, acts[0]), acts[1..])
  }

  /** The actions a user performs, with the system-signal changes dropped. */
  function UserActions(acts: seq<Action>): (r: seq<Action>)
    ensures forall i :: 0 <= i < |r| ==> !r[i].SystemChangeAction?
    ensures |r| <= |acts|
  {
    if acts == [] then []
    else if acts[0].SystemChangeAction? then UserActions(acts[1..])
    else [acts[0]] + UserActions(acts[1..])
  }

  /** The state with the system signal erased. */
  function WithoutSignal(s: ThemeState): (r: ThemeState)
  {
    s.(systemDark := None)
  }

  /** Toggling twice from a pinned, synchronised state gives back that very state. */
  lemma ToggleTwice(s: ThemeState)
    requires Consistent(s) && Synced(s) && !s.systemPreference
    ensures Toggle(Toggle(s)) == s
  {
  }

  /** Toggling always negates the theme and always ends system tracking. */
  lemma ToggleTwiceRestoresTheme(s: ThemeState)
    requires Consistent(s)
    ensures Toggle(Toggle(s)).isDark == s.isDark
    ensures !Toggle(s).systemPreference && !Toggle(Toggle(s)).systemPreference
    ensures !Toggle(s).handlerActive
  {
  }

  /** `setTheme(t)` twice leaves the same state as once. */
  lemma SetIdempotent(s: ThemeState, t: Theme)
    requires Consistent(s)
    ensures SetTo(SetTo(s, t), t) == SetTo(s, t)
  {
    // The second write stores the value the first one left under the key.
    var once := SetTo(s, t);
    if ThemeKey in once.storage.entries {
      RewriteIsNoOp(once.storage, ThemeKey);
    }
  }

  /**
   * Every action keeps the listener registered exactly while tracking, and a
   * tracked theme equal to the signal.
   */
  lemma StepKeepsConsistent(s: ThemeState, a: Action)
    requires Consistent(s)
    ensures Consistent(Step(s, a))
    ensures Following(s) ==> Following(Step(s, a))
    ensures Step(s, a).systemDark.Some? == s.systemDark.Some?
  {
  }

  /** After startup, the root class and storage agree with the theme after every action. */
  lemma {:induction false} RunKeepsInvariants(s: ThemeState, acts: seq<Action>)
    requires Consistent(s) && Synced(s)
    ensures Consistent(Run(s, acts)) && Synced(Run(s, acts))
    ensures Following(s) ==> Following(Run(s, acts))
    ensures Run(s, acts).systemPreference ==> s.systemPreference
    decreases |acts|
  {
    if acts != [] {
      StepKeepsConsistent(s, acts[0]);
      RunKeepsInvariants(Step(s, acts[0]), acts[1..]);
    }
  }

  /** Once pinned, no action sequence turns system tracking back on. */
  lemma {:induction false} PinnedStaysPinned(s: ThemeState, acts: seq<Action>)
    requires Consistent(s) && !s.systemPreference
    ensures !Run(s, acts).systemPreference && !Run(s, acts).handlerActive
    decreases |acts|
  {
    if acts != [] {
      StepKeepsConsistent(s, acts[0]);
      PinnedStaysPinned(Step(s, acts[0]), acts[1..]);
    }
  }

  lemma {:induction false} PinnedRunsAgree(s1: ThemeState, s2: ThemeState, acts: seq<Action>)
    requires Consistent(s1) && Consistent(s2) && !s1.systemPreference && !s2.systemPreference
    requires WithoutSignal(s1) == WithoutSignal(s2)
    ensures WithoutSignal(Run(s1, acts)) == WithoutSignal(Run(s2, UserActions(acts)))
    decreases |acts|
  {
    if acts != [] {
      var a := acts[0];
      StepKeepsConsistent(s1, a);
      if a.SystemChangeAction? {
        PinnedRunsAgree(Step(s1, a), s2, acts[1..]);
      } else {
        StepKeepsConsistent(s2, a);
        PinnedRunsAgree(Step(s1, a), Step(s2, a), acts[1..]);
        assert UserActions(acts) == [a] + UserActions(acts[1..]);
        assert ([a] + UserActions(acts[1..]))[1..] == UserActions(acts[1..]);
      }
    }
  }

  /**
   * Once the theme is pinned, system-signal changes are ignored: any action
   * sequence ends in the same theme, root class, storage and tracking state as
   * the same sequence with every system change removed.
   */
  lemma PinnedIgnoresSystemChanges(s: ThemeState, acts: seq<Action>)
    requires Consistent(s) && !s.systemPreference
    ensures WithoutSignal(Run(s, acts)) == WithoutSignal(Run(s, UserActions(acts)))
  {
    PinnedRunsAgree(s, s, acts);
  }

  /** After an explicit set, a later system change leaves the theme alone. */
  lemma ExplicitSetStopsTracking(s: ThemeState, t: Theme, matches: bool)
    requires Consistent(s)
    ensures SystemChange(SetTo(s, t), matches).isDark == (t == Dark)
    ensures SystemChange(Toggle(s), matches).isDark == !s.isDark
  {
  }

  /** While tracking, the theme follows every change of the system signal. */
  lemma TrackingFollowsSystem(s: ThemeState, matches: bool)
    requires Consistent(s) && Following(s) && s.systemPreference && s.systemDark.Some?
    ensures SystemChange(s, matches).isDark == matches
    ensures SystemChange(s, matches).systemPreference
    ensures matches != s.isDark ==> Synced(SystemChange(s, matches))
    ensures matches == s.isDark ==> SystemChange(s, matches) == s
  {
  }

  /** A page reload: a new store over the same storage, signal and root element. */
  function Reload(s: ThemeState): (r: ThemeState)
  {
    Fresh(s.storage, s.systemDark, s.rootDark)
  }

  /**
   * What was applied is what the next page load starts with, pinned: once
   * storage works, `initTheme` always finds the theme it persisted itself,
   * so the system signal is tracked only on the first load.
   */
  lemma ReloadRestoresTheme(s: ThemeState)
    requires Synced(s) && s.storage.available
    ensures Init(Reload(s)).isDark == s.isDark
    ensures !Init(Reload(s)).systemPreference && !Init(Reload(s)).handlerActive
  {
  }

  /** Without working storage every load starts from the system signal again. */
  lemma NoStorageTracksSystem(st: Store, systemDark: Option<bool>, root: bool)
    requires !st.available
    ensures Init(Fresh(st, systemDark, root)).isDark == (systemDark == Some(true))
    ensures Init(Fresh(st, systemDark, root)).systemPreference
    ensures Init(Fresh(st, systemDark, root)).handlerActive == systemDark.Some?
    ensures Init(Fresh(st, systemDark, root)).storage == st
  {
  }

  /** No stored theme, system dark: dark and tracked; a change to light follows. */
  lemma ScenarioFirstVisitTracksSystem()
    ensures var s := Init(Fresh(Store(true, map[]), Some(true), false));
      s.isDark && s.systemPreference && s.handlerActive &&
      !SystemChange(s, false).isDark && SystemChange(s, false).systemPreference
  {
  }

  /** Stored `"light"`, system dark: light and pinned; a change of the signal is ignored. */
  lemma ScenarioStoredLightWins()
    ensures var s := Init(Fresh(Store(true, map[ThemeKey := "light"]), Some(true), true));
      !s.isDark && !s.systemPreference && !s.handlerActive && !s.rootDark &&
      !SystemChange(SystemChange(s, false), true).isDark
  {
  }

  /** A corrupt stored value counts as none. */
  lemma ScenarioCorruptStoredTheme(systemDark: Option<bool>)
    ensures var s := Init(Fresh(Store(true, map[ThemeKey := "Dark"]), systemDark, false));
      s.systemPreference && s.isDark == (systemDark == Some(true)) &&
      GetItem(s.storage, ThemeKey) == Some(ThemeName(CurrentTheme(s.isDark)))
  {
  }

  // ---------------------------------------------------------------------
  // The watcher as the source writes it: the function it returns to remove
  // the listener is ignored by the framework, so the listener stays.

  function WatchTrackingAsWritten(wasTracking: bool, s: ThemeState): (r: ThemeState)
    ensures r.systemPreference == s.systemPreference && r.isDark == s.isDark
    ensures s.handlerActive ==> r.handlerActive
  {
    if s.systemPreference != wasTracking && s.systemPreference && s.systemDark.Some?
    then s.(handlerActive := true)
    else s
  }

  /** `toggleTheme` with the watcher as written. */
  function ToggleAsWritten(s: ThemeState): (r: ThemeState)
    ensures r.isDark == !s.isDark && !r.systemPreference && Synced(r)
    ensures r.handlerActive == s.handlerActive && r.systemDark == s.systemDark
  {
    WatchTrackingAsWritten(s.systemPreference, Pin(s, !s.isDark))
  }

  /** `setTheme(t)` with the watcher as written. */
  function SetToAsWritten(s: ThemeState, t: Theme): (r: ThemeState)
    ensures r.isDark == (t == Dark) && !r.systemPreference && Synced(r)
    ensures r.handlerActive == s.handlerActive && r.systemDark == s.systemDark
  {
    WatchTrackingAsWritten(s.systemPreference, Pin(s, t == Dark))
  }

  /**
   * As written, a manual change does not stop tracking. If the system signal
   * was being followed, then after a toggle or set the signal moving to the
   * chosen theme and back again overrides that theme, in memory and in
   * storage. The first move is a no-op when the signal already agrees; the
   * second is always a real change of the signal.
   */
  lemma AsWrittenSystemChangeOverridesPin(s: ThemeState, t: Theme)
    requires Consistent(s) && s.systemPreference && s.systemDark.Some?
    ensures var p := ToggleAsWritten(s);
      var q := SystemChange(SystemChange(p, p.isDark), !p.isDark);
      p.handlerActive && q.systemDark == Some(!p.isDark) &&
      q.isDark == !p.isDark && !q.systemPreference &&
      (s.storage.available ==> StoredTheme(q.storage) == Some(CurrentTheme(!p.isDark)))
    ensures var p := SetToAsWritten(s, t);
      var q := SystemChange(SystemChange(p, t == Dark), t != Dark);
      p.handlerActive && q.systemDark == Some(t != Dark) &&
      q.isDark == (t != Dark) && !q.systemPreference &&
      (s.storage.available ==> StoredTheme(q.storage) == Some(CurrentTheme(t != Dark)))
  {
  }

  /**
   * The concrete input: first visit on a dark system, toggle to light, the
   * system turns light and then dark again. As written the theme ends dark and
   * `"dark"` is stored; with the listener removed it stays light.
   */
  lemma AsWrittenScenario()
    ensures var s := Init(Fresh(Store(true, map[]), Some(true), false));
      var pinned := ToggleAsWritten(s);
      var after := SystemChange(SystemChange(pinned, false), true);
      !pinned.isDark && !pinned.systemPreference && after.isDark && !after.systemPreference &&
      GetItem(after.storage, ThemeKey) == Some("dark")
    ensures var s := Init(Fresh(Store(true, map[]), Some(true), false));
      var after := SystemChange(SystemChange(Toggle(s), false), true);
      !after.isDark && GetItem(after.storage, ThemeKey) == Some("light")
  {
  }
}
