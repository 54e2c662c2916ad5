/**
 * The SSE app's theme composable: the current theme (`light`, `dark` or `system`, though
 * `setTheme` accepts any string), its copy in local storage, the `dark` class on the document
 * element and the colour set last applied. `getCurrentTheme` reads the class first and then
 * the operating system's colour-scheme preference, which is an input here.
 */
module VueTheme {
  import opened Wrappers

  const DefaultTheme: string := "light"
  const Light: string := "light"
  const Dark: string := "dark"
  const System: string := "system"

  /** `getCurrentTheme`: `dark` when the class is present, else the system preference. */
  function CurrentTheme(darkClass: bool, systemDark: bool): (r: string)
    ensures r == Dark <==> darkClass || systemDark
    ensures r == Dark || r == Light
  {
    if darkClass then Dark else if systemDark then Dark else Light
  }

  /** The rule `setTheme` and `initTheme` apply: dark for `dark`, and for `system` when the
   *  current theme reads dark. */
  predicate ResolvesDark(theme: string, darkClass: bool, systemDark: bool) {
    theme == Dark || (theme == System && CurrentTheme(darkClass, systemDark) == Dark)
  }

  predicate IsKnownTheme(theme: string) {
    theme == Light || theme == Dark || theme == System
  }

  /** Everything the composable reads and writes. `colors` is the argument of the last
   *  `applyThemeColors` call; `watching` says whether the change listener is installed. */
  datatype ThemeState = ThemeState(
    currentTheme: string, stored: Option<string>, darkClass: bool, colors: Option<string>,
    systemDark: bool, watching: bool)

  /** The class and the colours last applied agree. */
  predicate ColorsAgree(s: ThemeState) {
    s.colors.Some? ==> (s.colors.value == Dark <==> s.darkClass) && (s.colors.value == Dark || s.colors.value == Light)
  }

  /** Set the class and apply the matching colours. */
  function Paint(s: ThemeState, dark: bool): (r: ThemeState)
    ensures r.darkClass == dark && r.colors == Some(if dark then Dark else Light)
    ensures ColorsAgree(r)
    ensures r.(darkClass := s.darkClass, colors := s.colors) == s
  {
    s.(darkClass := dark, colors := Some(if dark then Dark else Light))
  }

  function SetThemeStep(s: ThemeState, theme: string): ThemeState {
    Paint(s.(currentTheme := theme, stored := Some(theme)), ResolvesDark(theme, s.darkClass, s.systemDark))
  }

  /** The theme `toggleTheme` switches to. */
  function ToggleTarget(theme: string): string {
    if theme == Dark then Light else Dark
  }

  function ToggleStep(s: ThemeState): ThemeState {
    SetThemeStep(s, ToggleTarget(s.currentTheme))
  }

  function InitStep(s: ThemeState): ThemeState {
    var theme := if s.stored.Some? && IsKnownTheme(s.stored.value) then s.stored.value else s.currentTheme;
    Paint(s.(currentTheme := theme), ResolvesDark(theme, s.darkClass, s.systemDark))
  }

  /** `watchSystemTheme`: install the listener and, for `system`, follow the preference now. */
  function WatchStep(s: ThemeState): ThemeState {
    var w := s.(watching := true);
    if s.currentTheme == System then Paint(w, s.systemDark) else w
  }

  /** The operating system switches its preference; an installed listener for `system`
   *  repaints. */
  function SystemChangeStep(s: ThemeState, matches: bool): ThemeState {
    var t := s.(systemDark := matches);
    if s.watching && s.currentTheme == System then Paint(t, matches) else t
  }

  /** The cleanup `watchSystemTheme` returns. */
  function UnwatchStep(s: ThemeState): ThemeState {
    s.(watching := false)
  }

  /** The module-level state together with the page it acts on. */
  class ThemeStore {
    var currentTheme: string
    var stored: Option<string>
    var darkClass: bool
    var colors: Option<string>
    var systemDark: bool
    var watching: bool

    ghost function State(): ThemeState
      reads this
    {
      ThemeState(currentTheme, stored, darkClass, colors, systemDark, watching)
    }

    constructor (saved: Option<string>, systemPrefersDark: bool)
      ensures State() == ThemeState(DefaultTheme, saved, false, None, systemPrefersDark, false)
    {
      currentTheme := DefaultTheme;
      stored := saved;
      darkClass := false;
      colors := None;
      systemDark := systemPrefersDark;
      watching := false;
    }

    /** `setTheme`: the theme is taken and saved unchanged; `getCurrentTheme` is consulted
     *  once for the class and again, after the class has changed, for the colours. */
    method SetTheme(theme: string)
      modifies this
      ensures State() == SetThemeStep(old(State()), theme)
    {
      currentTheme := theme;
      stored := Some(theme);
      if theme == Dark || (theme == System && CurrentTheme(darkClass, systemDark) == Dark) {
        darkClass := true;
      } else {
        darkClass := false;
      }
      if theme == Dark || (theme == System && CurrentTheme(darkClass, systemDark) == Dark) {
        colors := Some(Dark);
      } else {
        colors := Some(Light);
      }
    }

    method ToggleTheme()
      modifies this
      ensures State() == ToggleStep(old(State()))
    {
      SetTheme(if currentTheme == Dark then Light else Dark);
    }

    method InitTheme()
      modifies this
      ensures State() == InitStep(old(State()))
    {
      var saved := stored;
      if saved.Some? && saved.value != "" && (saved.value == Light || saved.value == Dark || saved.value == System) {
        currentTheme := saved.value;
      }
      if currentTheme == Dark || (currentTheme == System && CurrentTheme(darkClass, systemDark) == Dark) {
        darkClass := true;
        colors := Some(Dark);
      } else {
        darkClass := false;
        colors := Some(Light);
      }
    }

    method WatchSystemTheme()
      modifies this
      ensures State() == WatchStep(old(State()))
    {
      watching := true;
      if currentTheme == System {
        if systemDark {
          darkClass := true;
          colors := Some(Dark);
        } else {
          darkClass := false;
          colors := Some(Light);
        }
      }
    }

    /** A `change` event of the colour-scheme media query. */
    method OnSystemChange(matches: bool)
      modifies this
      ensures State() == SystemChangeStep(old(State()), matches)
    {
      systemDark := matches;
      if watching && currentTheme == System {
        if matches {
          darkClass := true;
          colors := Some(Dark);
        } else {
          darkClass := false;
          colors := Some(Light);
        }
      }
    }

    method Unwatch()
      modifies this
      ensures State() == UnwatchStep(old(State()))
    {
      watching := false;
    }
  }

  // ---------------------------------------------------------------------------------------
  // Properties

  /** Dark is applied exactly for `dark`, and for `system` when the class is already there or
   *  the system prefers dark; the class and the colours then agree. */
  lemma SetThemeResolves(s: ThemeState, theme: string)
    ensures SetThemeStep(s, theme).darkClass <==>
            theme == Dark || (theme == System && (s.darkClass || s.systemDark))
    ensures SetThemeStep(s, theme).colors == Some(if SetThemeStep(s, theme).darkClass then Dark else Light)
    ensures ColorsAgree(SetThemeStep(s, theme))
  {
  }

  /** Any string is taken and saved, and nothing else but the class and colours changes. */
  lemma SetThemeStoresAnyValue(s: ThemeState, theme: string)
    ensures SetThemeStep(s, theme).currentTheme == theme && SetThemeStep(s, theme).stored == Some(theme)
    ensures SetThemeStep(s, theme).systemDark == s.systemDark && SetThemeStep(s, theme).watching == s.watching
    ensures !IsKnownTheme(theme) ==> !SetThemeStep(s, theme).darkClass
  {
  }

  /** Toggling leaves `dark` for `light` and takes every other value, `system` included, to
   *  `dark`; so toggling twice from `dark` or `light` comes back. */
  lemma ToggleMapping(s: ThemeState)
    ensures ToggleStep(s).currentTheme == if s.currentTheme == Dark then Light else Dark
    ensures s.currentTheme == System ==> ToggleStep(s).currentTheme == Dark && ToggleStep(s).darkClass
    ensures s.currentTheme == Dark || s.currentTheme == Light ==>
              ToggleStep(ToggleStep(s)).currentTheme == s.currentTheme
  {
  }

  /** Start-up adopts a saved value only when it is `light`, `dark` or `system`. */
  lemma InitAdoptsKnownThemes(s: ThemeState)
    ensures s.stored.Some? && IsKnownTheme(s.stored.value) ==> InitStep(s).currentTheme == s.stored.value
    ensures !(s.stored.Some? && IsKnownTheme(s.stored.value)) ==> InitStep(s).currentTheme == s.currentTheme
    ensures InitStep(s).stored == s.stored && ColorsAgree(InitStep(s))
  {
  }

  /** With nothing saved, the composable starts light. */
  lemma FreshStartIsLight(systemDark: bool)
    ensures var s := InitStep(ThemeState(DefaultTheme, None, false, None, systemDark, false));
            s.currentTheme == Light && !s.darkClass && s.colors == Some(Light)
  {
  }

  /** A preference change repaints only while listening and only for `system`; it then follows
   *  the preference. */
  lemma SystemChangeOnlyForSystem(s: ThemeState, matches: bool)
    ensures !(s.watching && s.currentTheme == System) ==>
              SystemChangeStep(s, matches) == s.(systemDark := matches)
    ensures s.watching && s.currentTheme == System ==>
              SystemChangeStep(s, matches).darkClass == matches && ColorsAgree(SystemChangeStep(s, matches))
    ensures SystemChangeStep(s, matches).currentTheme == s.currentTheme
  {
  }

  /** Under `system`, a `dark` class already on the page wins over a light system preference:
   *  choosing `system` right after `dark` stays dark. */
  lemma DarkClassWinsUnderSystem(s: ThemeState)
    requires !s.systemDark
    ensures SetThemeStep(SetThemeStep(s, Dark), System).darkClass
    ensures !SetThemeStep(SetThemeStep(s, Light), System).darkClass
  {
  }

  /** Watching follows the preference at once for `system` and leaves other themes alone. */
  lemma WatchFollowsPreference(s: ThemeState)
    ensures WatchStep(s).watching
    ensures s.currentTheme == System ==> WatchStep(s).darkClass == s.systemDark
    ensures s.currentTheme != System ==> WatchStep(s).darkClass == s.darkClass && WatchStep(s).colors == s.colors
  {
  }

  /** After the cleanup, preference changes no longer repaint. */
  lemma UnwatchStopsRepaints(s: ThemeState, matches: bool)
    ensures SystemChangeStep(UnwatchStep(s), matches) == UnwatchStep(s).(systemDark := matches)
  {
  }

  /** Every step keeps the class and the applied colours in agreement. */
  lemma StepsKeepColorsAgree(s: ThemeState, theme: string, matches: bool)
    requires ColorsAgree(s)
    ensures ColorsAgree(SetThemeStep(s, theme)) && ColorsAgree(ToggleStep(s)) && ColorsAgree(InitStep(s))
    ensures ColorsAgree(WatchStep(s)) && ColorsAgree(SystemChangeStep(s, matches)) && ColorsAgree(UnwatchStep(s))
  {
  }
}
