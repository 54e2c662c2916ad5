/**
 * The custom theme editor: its fields start from the theme being edited or from fixed
 * defaults, a name is valid when its trimmed form is non-empty and unused, and a submit with a
 * valid name builds the theme handed to `createCustomTheme` (after which the editor closes).
 */
module ThemeEditor {
  import opened Wrappers
  import opened JsString
  import opened ThemeContext

  datatype EditorState = EditorState(
    themeName: string,
    primary: string, secondary: string, background: string, text: string,
    fontFamily: string, fontSize: int)

  const DefaultEditor: EditorState :=
    EditorState("", "#1976d2", "#dc004e", "#ffffff", "#000000", "Roboto, sans-serif", 16)

  /** The fields' initial values: each taken from `initial` when it is truthy there. */
  function InitialEditor(initial: Option<Theme>): (r: EditorState)
    ensures initial.None? ==> r == DefaultEditor
    ensures initial.Some? ==> r.themeName == initial.value.name
    ensures initial.Some? ==>
              r.primary == (if initial.value.primary != "" then initial.value.primary else "#1976d2")
    ensures initial.Some? ==>
              r.secondary == (if initial.value.secondary != "" then initial.value.secondary else "#dc004e")
    ensures initial.Some? ==>
              r.background == (if initial.value.background != "" then initial.value.background else "#ffffff")
    ensures initial.Some? ==>
              r.text == (if initial.value.text != "" then initial.value.text else "#000000")
    ensures initial.Some? ==>
              r.fontFamily == (if initial.value.fontFamily != "" then initial.value.fontFamily
                               else "Roboto, sans-serif")
    ensures initial.Some? ==> r.fontSize == (if initial.value.fontSize != 0 then initial.value.fontSize else 16)
  {
    match initial
    case None => DefaultEditor
    case Some(t) =>
      EditorState(
        t.name,
        OrString(t.primary, DefaultEditor.primary), OrString(t.secondary, DefaultEditor.secondary),
        OrString(t.background, DefaultEditor.background), OrString(t.text, DefaultEditor.text),
        OrString(t.fontFamily, DefaultEditor.fontFamily),
        if t.fontSize != 0 then t.fontSize else 16)
  }

  /** `isNameValid`. */
  predicate IsNameValid(name: string, themes: seq<Theme>) {
    Trim(name) != "" && !HasName(themes, Trim(name))
  }

  /** Whether the "name exists" message is shown under the name field. */
  predicate ShowsNameExists(name: string, themes: seq<Theme>) {
    !IsNameValid(name, themes) && Trim(name) != ""
  }

  /** `handleSubmit`: the theme created, or `None` when the name is not valid. */
  function HandleSubmit(st: EditorState, themes: seq<Theme>): (r: Option<Theme>)
    ensures r.Some? <==> IsNameValid(st.themeName, themes)
    ensures r.Some? ==> r.value.name == Trim(st.themeName) && IsTrimmed(r.value.name)
  {
    if !IsNameValid(st.themeName, themes) then None
    else Some(Theme(Trim(st.themeName), st.primary, st.secondary, st.background, st.text,
                    st.fontFamily, st.fontSize))
  }

  // ---------------------------------------------------------------------------------------
  // Properties

  /** Valid means: something is left after trimming, and no theme has exactly that name. */
  lemma NameValidIff(name: string, themes: seq<Theme>)
    ensures IsNameValid(name, themes) <==>
            Trim(name) != "" && forall i :: 0 <= i < |themes| ==> themes[i].name != Trim(name)
  {
  }

  /** The submitted theme carries the editor's fields and nothing else. */
  lemma SubmitCopiesFields(st: EditorState, themes: seq<Theme>)
    requires IsNameValid(st.themeName, themes)
    ensures var t := HandleSubmit(st, themes).value;
            && t.primary == st.primary && t.secondary == st.secondary
            && t.background == st.background && t.text == st.text
            && t.fontFamily == st.fontFamily && t.fontSize == st.fontSize
  {
  }

  /** The message is shown exactly for a non-blank name another theme already has. */
  lemma NameExistsIff(name: string, themes: seq<Theme>)
    ensures ShowsNameExists(name, themes) <==> Trim(name) != "" && HasName(themes, Trim(name))
  {
  }

  /** A submitted theme always gets a new name, so `createCustomTheme` appends it and never
   *  replaces a theme. */
  lemma SubmitAlwaysAppends(st: EditorState, reg: Registry)
    requires HandleSubmit(st, reg.themes).Some?
    ensures var t := HandleSubmit(st, reg.themes).value;
            Create(reg, t).themes == reg.themes + [t] && Create(reg, t).current == t
  {
  }

  /** The theme being edited cannot be saved under its own name. */
  lemma EditingRequiresRename(t: Theme, themes: seq<Theme>)
    requires t in themes && IsTrimmed(t.name) && t.name != ""
    ensures HandleSubmit(InitialEditor(Some(t)), themes).None?
  {
    var k :| 0 <= k < |themes| && themes[k] == t;
    assert Trim(t.name) == t.name;
    assert themes[k].name == Trim(InitialEditor(Some(t)).themeName);
  }

  /** Editing a theme whose fields are all set and saving it under a new valid name gives the
   *  same theme under that name: the editor starts from exactly the theme's values. */
  lemma EditThenSubmitRenames(t: Theme, name: string, themes: seq<Theme>)
    requires t.primary != "" && t.secondary != "" && t.background != "" && t.text != ""
    requires t.fontFamily != "" && t.fontSize != 0
    requires IsNameValid(name, themes)
    ensures HandleSubmit(InitialEditor(Some(t)).(themeName := name), themes) == Some(t.(name := Trim(name)))
  {
  }

  /** Names compare case-sensitively: `Dark` is available next to `dark`. */
  lemma NamesAreCaseSensitive(name: string)
    requires name == "Dark"
    ensures IsNameValid(name, InitialThemes)
  {
    DarkIsTrimmed(name);
    DarkIsNew(name);
  }

  lemma DarkIsTrimmed(name: string)
    requires name == "Dark"
    ensures Trim(name) == name
  {
    assert name[0] == 'D' && name[3] == 'k';
    assert IsTrimmed(name);
  }

  lemma DarkIsNew(name: string)
    requires name == "Dark"
    ensures !HasName(InitialThemes, name)
  {
    assert |InitialThemes[0].name| == 5 && |InitialThemes[2].name| == 13 && |name| == 4;
    assert InitialThemes[1].name[0] == 'd' && name[0] == 'D';
    assert forall i :: 0 <= i < |InitialThemes| ==> InitialThemes[i].name != name;
  }

  /** Surrounding spaces do not make a taken name available. */
  lemma PaddedNameIsTaken(name: string)
    requires name == " dark "
    ensures !IsNameValid(name, InitialThemes) && ShowsNameExists(name, InitialThemes)
  {
    var a := name[1..];
    TrimStartPadded(name, a);
    var b := a[..4];
    TrimEndPadded(a, b);
    assert Trim(name) == b;
    assert InitialThemes[1].name == b;
  }

  lemma TrimStartPadded(name: string, a: string)
    requires name == " dark " && a == name[1..]
    ensures TrimStart(name) == a && a == "dark " && TrimStart(a) == a
  {
    assert name[0] == ' ' && a[0] == 'd';
  }

  lemma TrimEndPadded(a: string, b: string)
    requires a == "dark " && b == a[..4]
    ensures TrimEnd(a) == b && b == "dark"
  {
    assert a[4] == ' ' && b[3] == 'k';
    assert TrimEnd(b) == b;
  }

  /** A blank name is invalid but shows no message. */
  lemma BlankNameHasNoMessage(name: string, themes: seq<Theme>)
    requires forall i :: 0 <= i < |name| ==> IsJsWhitespace(name[i])
    ensures !IsNameValid(name, themes) && !ShowsNameExists(name, themes)
  {
    BlankTrimsToEmpty(name);
  }

  lemma {:induction false} BlankTrimsToEmpty(s: string)
    requires forall i :: 0 <= i < |s| ==> IsJsWhitespace(s[i])
    ensures TrimStart(s) == ""
  {
    if s != [] {
      BlankTrimsToEmpty(s[1..]);
    }
  }
}
