/**
 * The theme registry of the React app: a list of named themes, the current theme, selection
 * by name, custom themes inserted or replaced by name, the saved theme restored on mount, and
 * the theme applied to the document root as CSS variables plus the `dark` class.
 *
 * `localStorage` is the `savedTheme` field; the document root is the `rootVars` and
 * `darkClass` fields.
 */
module ThemeContext {
  import opened Wrappers
  import opened JsString

  datatype Theme = Theme(
    name: string,
    primary: string, secondary: string, background: string, text: string,
    fontFamily: string, fontSize: int)

  const LightTheme: Theme :=
    Theme("light", "#1976d2", "#dc004e", "#ffffff", "#000000", "Roboto, sans-serif", 16)
  const DarkTheme: Theme :=
    Theme("dark", "#90caf9", "#f48fb1", "#303030", "#ffffff", "Roboto, sans-serif", 16)
  const HighContrastTheme: Theme :=
    Theme("high-contrast", "#0000ff", "#ff0000", "#ffff00", "#000000", "Arial, sans-serif", 18)

  const InitialThemes: seq<Theme> := [LightTheme, DarkTheme, HighContrastTheme]

  /** The key the current theme's name is saved under. */
  const StorageKey: string := "theme"

  predicate HasName(themes: seq<Theme>, name: string) {
    exists i :: 0 <= i < |themes| && themes[i].name == name
  }

  /** No two themes share a name. */
  predicate UniqueNames(themes: seq<Theme>) {
    forall i, j :: 0 <= i < j < |themes| ==> themes[i].name != themes[j].name
  }

  /** `themes.findIndex(t => t.name === name)`, with -1 for none. */
  function FindIndex(themes: seq<Theme>, name: string): (r: int)
    ensures -1 <= r < |themes|
    ensures r >= 0 ==> themes[r].name == name
    ensures forall j :: 0 <= j < |themes| && (r < 0 || j < r) ==> themes[j].name != name
    decreases |themes|
  {
    if |themes| == 0 then -1
    else if themes[0].name == name then 0
    else
      var k := FindIndex(themes[1..], name);
      if k < 0 then -1 else k + 1
  }

  /** `themes.find(t => t.name === name)`. */
  function Find(themes: seq<Theme>, name: string): (r: Option<Theme>)
    ensures r.None? <==> !HasName(themes, name)
    ensures r.Some? ==> r.value.name == name && r.value in themes
    ensures r.Some? ==> r.value == themes[FindIndex(themes, name)]
  {
    var k := FindIndex(themes, name);
    if k < 0 then None else Some(themes[k])
  }

  datatype Registry = Registry(themes: seq<Theme>, current: Theme)

  const InitialRegistry: Registry := Registry(InitialThemes, LightTheme)

  /** `setTheme(name)`: select the first theme with that name, if any. */
  function Select(reg: Registry, name: string): (r: Registry)
    ensures r.themes == reg.themes
    ensures HasName(reg.themes, name) ==> r.current == reg.themes[FindIndex(reg.themes, name)]
    ensures !HasName(reg.themes, name) ==> r.current == reg.current
  {
    match Find(reg.themes, name)
    case Some(t) => reg.(current := t)
    case None => reg
  }

  /** The list update of `createCustomTheme`: replace the first theme of that name in place,
   *  or append. */
  function Upsert(themes: seq<Theme>, t: Theme): (r: seq<Theme>)
    ensures HasName(themes, t.name) ==> |r| == |themes| && r == themes[FindIndex(themes, t.name) := t]
    ensures !HasName(themes, t.name) ==> r == themes + [t]
  {
    var i := FindIndex(themes, t.name);
    if i >= 0 then themes[i := t] else themes + [t]
  }

  /** `createCustomTheme(t)`: store it and make it current. */
  function Create(reg: Registry, t: Theme): (r: Registry)
    ensures r.current == t
    ensures r.themes == Upsert(reg.themes, t)
  {
    Registry(Upsert(reg.themes, t), t)
  }

  /** The mount effect's restore: a saved, non-empty name is adopted only if a theme has it. */
  function Restore(reg: Registry, saved: Option<string>): (r: Registry)
    ensures r.themes == reg.themes
    ensures Truthy(saved) && HasName(reg.themes, saved.value) ==> r.current.name == saved.value
    ensures !(Truthy(saved) && HasName(reg.themes, saved.value)) ==> r == reg
  {
    if Truthy(saved) then Select(reg, saved.value) else reg
  }

  /** `${n}` for an integer. */
  function DecimalString(n: int): (r: string)
    ensures r != []
    decreases if n < 0 then 1 - n else n
  {
    if n < 0 then "-" + DecimalString(-n)
    else if n < 10 then [(48 + n) as char]
    else DecimalString(n / 10) + [(48 + n % 10) as char]
  }

  /** The CSS variables `applyTheme` sets on the document root. */
  function ThemeVariables(t: Theme): (r: map<string, string>)
    ensures r.Keys == {"--primary-color", "--secondary-color", "--background-color",
                       "--text-color", "--font-family", "--font-size"}
    ensures r["--primary-color"] == t.primary && r["--secondary-color"] == t.secondary
    ensures r["--background-color"] == t.background && r["--text-color"] == t.text
    ensures r["--font-family"] == t.fontFamily && r["--font-size"] == DecimalString(t.fontSize) + "px"
  {
    map["--primary-color" := t.primary, "--secondary-color" := t.secondary,
        "--background-color" := t.background, "--text-color" := t.text,
        "--font-family" := t.fontFamily, "--font-size" := DecimalString(t.fontSize) + "px"]
  }

  // ---------------------------------------------------------------------------------------
  // The provider

  class ThemeProvider {
    var themes: seq<Theme>
    var currentTheme: Theme
    /** The inline style variables of the document root. */
    var rootVars: map<string, string>
    /** Whether the document root carries the `dark` class. */
    var darkClass: bool
    /** `localStorage.getItem('theme')`. */
    var savedTheme: Option<string>

    ghost function State(): Registry
      reads this
    {
      Registry(themes, currentTheme)
    }

    constructor (saved: Option<string>, vars: map<string, string>, dark: bool)
      ensures State() == InitialRegistry
      ensures savedTheme == saved && rootVars == vars && darkClass == dark
    {
      themes := InitialThemes;
      currentTheme := LightTheme;
      savedTheme := saved;
      rootVars := vars;
      darkClass := dark;
    }

    /** `applyTheme(t)`: set the six variables, and the `dark` class exactly for `dark`. */
    method ApplyTheme(t: Theme)
      modifies this
      ensures rootVars == old(rootVars) + ThemeVariables(t)
      ensures darkClass <==> t.name == "dark"
      ensures State() == old(State()) && savedTheme == old(savedTheme)
    {
      rootVars := rootVars + ThemeVariables(t);
      if t.name == "dark" {
        darkClass := true;
      } else {
        darkClass := false;
      }
    }

    /** The mount effect: restore the saved theme, then apply the theme current before it. */
    method MountEffect()
      modifies this
      ensures State() == Restore(old(State()), old(savedTheme))
      ensures rootVars == old(rootVars) + ThemeVariables(old(currentTheme))
      ensures darkClass <==> old(currentTheme).name == "dark"
      ensures savedTheme == old(savedTheme)
    {
      var applied := currentTheme;
      var saved := savedTheme;
      if saved.Some? && saved.value != "" {
        var found := Find(themes, saved.value);
        if found.Some? {
          currentTheme := found.value;
        }
      }
      ApplyTheme(applied);
    }

    /** The effect run whenever the current theme changes: apply it and save its name. */
    method CurrentThemeEffect()
      modifies this
      ensures rootVars == old(rootVars) + ThemeVariables(currentTheme)
      ensures darkClass <==> currentTheme.name == "dark"
      ensures savedTheme == Some(currentTheme.name) && State() == old(State())
    {
      ApplyTheme(currentTheme);
      savedTheme := Some(currentTheme.name);
    }

    method SetTheme(name: string)
      modifies this
      ensures State() == Select(old(State()), name)
      ensures rootVars == old(rootVars) && darkClass == old(darkClass) && savedTheme == old(savedTheme)
    {
      var theme := Find(themes, name);
      if theme.Some? {
        currentTheme := theme.value;
      }
    }

    method CreateCustomTheme(t: Theme)
      modifies this
      ensures State() == Create(old(State()), t)
      ensures rootVars == old(rootVars) && darkClass == old(darkClass) && savedTheme == old(savedTheme)
    {
      var existingIndex := FindIndex(themes, t.name);
      if existingIndex >= 0 {
        var updated := themes;
        updated := updated[existingIndex := t];
        themes := updated;
      } else {
        themes := themes + [t];
      }
      currentTheme := t;
    }
  }

  // ---------------------------------------------------------------------------------------
  // Properties

  /** The built-in themes have distinct names, and the initial theme is one of them. */
  lemma InitialRegistryWellFormed()
    ensures UniqueNames(InitialThemes) && LightTheme in InitialThemes
    ensures InitialRegistry.current.name == "light"
  {
  }

  /** Replacing a theme keeps the list's length and every other entry. */
  lemma UpsertExistingReplacesInPlace(themes: seq<Theme>, t: Theme, j: nat)
    requires HasName(themes, t.name) && j < |themes|
    ensures |Upsert(themes, t)| == |themes|
    ensures Upsert(themes, t)[j] == if themes[j].name == t.name && FindIndex(themes, t.name) == j
                                    then t else themes[j]
  {
  }

  /** A theme with a new name is appended at the end; the others are unchanged. */
  lemma UpsertNewAppends(themes: seq<Theme>, t: Theme)
    requires !HasName(themes, t.name)
    ensures |Upsert(themes, t)| == |themes| + 1
    ensures Upsert(themes, t)[..|themes|] == themes && Upsert(themes, t)[|themes|] == t
  {
  }

  /** Names stay unique, and the theme is then found under its name. */
  lemma UpsertKeepsNamesUnique(themes: seq<Theme>, t: Theme)
    requires UniqueNames(themes)
    ensures UniqueNames(Upsert(themes, t))
    ensures Find(Upsert(themes, t), t.name) == Some(t)
  {
    var r := Upsert(themes, t);
    if HasName(themes, t.name) {
      assert r[FindIndex(themes, t.name)].name == t.name;
    } else {
      assert r[|themes|].name == t.name;
    }
  }

  /** Under unique names, selecting by name after a create selects the created theme. */
  lemma CreateThenSelect(reg: Registry, t: Theme)
    requires UniqueNames(reg.themes)
    ensures Select(Create(reg, t), t.name).current == t
  {
    UpsertKeepsNamesUnique(reg.themes, t);
  }

  /** An unknown name never changes the selection. */
  lemma UnknownNameKeepsCurrent(reg: Registry, name: string)
    requires forall i :: 0 <= i < |reg.themes| ==> reg.themes[i].name != name
    ensures Select(reg, name) == reg
  {
  }

  /** On the initial registry, exactly the three built-in names can be restored. */
  lemma RestoreBuiltIns(saved: string)
    ensures Restore(InitialRegistry, Some(saved)).current ==
            if saved == "dark" then DarkTheme
            else if saved == "high-contrast" then HighContrastTheme
            else LightTheme
  {
    var ts := InitialThemes;
    assert ts[1..] == [DarkTheme, HighContrastTheme] && ts[1..][1..] == [HighContrastTheme];
    assert [HighContrastTheme][1..] == [];
    if saved == "light" {
      assert FindIndex(ts, saved) == 0;
    } else if saved == "dark" {
      assert FindIndex(ts, saved) == 1;
    } else if saved == "high-contrast" {
      assert FindIndex(ts[1..][1..], saved) == 0;
      assert FindIndex(ts[1..], saved) == 1;
      assert FindIndex(ts, saved) == 2;
    } else if saved != "" {
      assert FindIndex(ts, saved) == -1;
    }
  }

  /** The font size is written with a `px` suffix: 16 becomes `16px`. */
  lemma FontSizeVariable()
    ensures ThemeVariables(LightTheme)["--font-size"] == "16px"
    ensures ThemeVariables(HighContrastTheme)["--font-size"] == "18px"
  {
    assert DecimalString(1) == "1" && DecimalString(16) == DecimalString(1) + "6";
    assert DecimalString(18) == DecimalString(1) + "8";
  }

  /** The decimal digits of a non-negative number are digits and read back as the number. */
  lemma {:induction false} DecimalStringReadsBack(n: nat)
    ensures forall i :: 0 <= i < |DecimalString(n)| ==> '0' <= DecimalString(n)[i] <= '9'
    ensures DigitsValue(DecimalString(n)) == n
    decreases n
  {
    if n >= 10 {
      DecimalStringReadsBack(n / 10);
      var s := DecimalString(n / 10);
      var d := (48 + n % 10) as char;
      assert DecimalString(n) == s + [d];
      DigitsValueSnoc(s, d);
    }
  }

  /** The value of a string of decimal digits. */
  function DigitsValue(s: string): int
    decreases |s|
  {
    if s == [] then 0 else 10 * DigitsValue(s[..|s| - 1]) + (s[|s| - 1] as int - 48)
  }

  lemma DigitsValueSnoc(s: string, d: char)
    ensures DigitsValue(s + [d]) == 10 * DigitsValue(s) + (d as int - 48)
  {
    assert (s + [d])[..|s|] == s;
  }
}
