/**
 * The tiny utility-class engine: a table from class names to CSS declarations, and
 * `generateStyles`, which walks the class names in order and appends one rule per known name,
 * each followed by a blank line.
 */
module TailwindEngine {
  import opened Wrappers
  import opened JsString

  /** A rule body: `(property, value)` pairs in their object-literal order. */
  type Declarations = seq<(string, string)>

  /** `utilities`. */
  const Utilities: map<string, Declarations> := map[
    "bg-purple" := [("background-color", "purple")],
    "text-white" := [("color", "white")],
    "p-2" := [("padding", "1rem")]
  ]

  /** The indentation the template string puts before the declarations and the brace. */
  const DeclarationIndent: string := "                "
  const BraceIndent: string := "            "

  /** The table entry a class name reads, restricted to the table's own keys. */
  function Utility(name: string): (r: Option<Declarations>)
    ensures r.Some? <==> name in Utilities
    ensures r.Some? ==> r.value == Utilities[name] && r.value != []
  {
    if name in Utilities then Some(Utilities[name]) else None
  }

  /** `Object.keys(d).map(key => `${key}:${d[key]}`).join(';')`. */
  function DeclarationText(d: Declarations): string {
    Join(seq(|d|, i requires 0 <= i < |d| => d[i].0 + ":" + d[i].1), ";")
  }

  /** The template's rule for one class. */
  function Rule(name: string, d: Declarations): string {
    "." + name + " {\n" + DeclarationIndent + DeclarationText(d) + "\n" + BraceIndent + "}"
  }

  /** What one class name adds to the output. */
  function Contribution(name: string): string {
    match Utility(name)
    case Some(d) => Rule(name, d) + "\n\n"
    case None => ""
  }

  /** The output for a list of class names. */
  function Styles(names: seq<string>): string
    decreases |names|
  {
    if names == [] then "" else Styles(names[..|names| - 1]) + Contribution(names[|names| - 1])
  }

  /** `generateStyles(classNames)` with the own-key lookup of `Utility`: on names no object
   *  inherits, this is the engine as written (`StylesAsWritten`). */
  method GenerateStyles(classNames: seq<string>) returns (finalCss: string)
    ensures finalCss == Styles(classNames)
    ensures (forall i :: 0 <= i < |classNames| ==> classNames[i] !in Utilities) ==> finalCss == ""
    ensures (forall i :: 0 <= i < |classNames| ==> classNames[i] !in PrototypeNames) ==>
              finalCss == StylesAsWritten(classNames)
  {
    finalCss := "";
    for i := 0 to |classNames|
      invariant finalCss == Styles(classNames[..i])
    {
      var className := classNames[i];
      assert classNames[..i + 1] == classNames[..i] + [className];
      ContributionMeaning(classNames[..i], className);
      if className in Utilities {
        finalCss := finalCss + Rule(className, Utilities[className]);
        finalCss := finalCss + "\n\n";
      }
    }
    assert classNames[..|classNames|] == classNames;
    if forall i :: 0 <= i < |classNames| ==> classNames[i] !in Utilities {
      UnknownNamesGiveNothing(classNames);
    }
    if forall i :: 0 <= i < |classNames| ==> classNames[i] !in PrototypeNames {
      AsWrittenAgreesOffPrototype(classNames);
    }
  }

  // ---------------------------------------------------------------------------------------
  // Properties

  /** The output is the names' contributions one after the other. */
  lemma {:induction false} StylesConcat(a: seq<string>, b: seq<string>)
    ensures Styles(a + b) == Styles(a) + Styles(b)
    decreases |b|
  {
    if b == [] {
      assert a + b == a;
    } else {
      var init, last := b[..|b| - 1], b[|b| - 1];
      InitOfConcat(a, b);
      assert Styles(a + b) == Styles(a + init) + Contribution(last);
      StylesConcat(a, init);
      assert Styles(b) == Styles(init) + Contribution(last);
      ConcatAssoc(Styles(a), Styles(init), Contribution(last));
    }
  }

  /** An unknown name adds nothing; a known one adds exactly its rule and a blank line. */
  lemma ContributionMeaning(names: seq<string>, name: string)
    ensures name !in Utilities ==> Styles(names + [name]) == Styles(names)
    ensures name in Utilities ==>
              Styles(names + [name]) == Styles(names) + Rule(name, Utilities[name]) + "\n\n"
  {
    assert (names + [name])[..|names|] == names;
  }

  /** No names, or only unknown names, give the empty string. */
  lemma {:induction false} UnknownNamesGiveNothing(names: seq<string>)
    requires forall i :: 0 <= i < |names| ==> names[i] !in Utilities
    ensures Styles(names) == ""
    decreases |names|
  {
    if names != [] {
      UnknownNamesGiveNothing(names[..|names| - 1]);
    }
  }

  /** Exactly three names are known. */
  lemma KnownNames(name: string)
    ensures name in Utilities <==> name == "bg-purple" || name == "text-white" || name == "p-2"
    ensures |Utilities.Keys| == 3
  {
  }

  /** The template's indentation: sixteen spaces before the declarations, twelve before the
   *  closing brace. */
  lemma Indents()
    ensures |DeclarationIndent| == 16 && |BraceIndent| == 12
    ensures forall i :: 0 <= i < 16 ==> DeclarationIndent[i] == ' '
    ensures forall i :: 0 <= i < 12 ==> BraceIndent[i] == ' '
  {
  }

  /** The rule for `bg-purple`. */
  lemma PurpleRule()
    ensures Styles(["bg-purple"]) ==
            "." + "bg-purple" + " {\n" + DeclarationIndent + "background-color:purple" + "\n" + BraceIndent + "}" + "\n\n"
  {
    assert DeclarationText([("background-color", "purple")]) == "background-color:purple";
    assert Utilities["bg-purple"] == [("background-color", "purple")];
    assert ["bg-purple"][..0] == [];
    assert Styles(["bg-purple"]) == Contribution("bg-purple");
    assert Contribution("bg-purple") == Rule("bg-purple", [("background-color", "purple")]) + "\n\n";

  }

  /** A repeated name yields its rule again. */
  lemma RepeatedNameRepeatsRule(name: string)
    requires name in Utilities
    ensures Styles([name, name]) == Contribution(name) + Contribution(name)
  {
    assert [name, name][..1] == [name];
    assert [name][..0] == [];
    assert Styles([name]) == Contribution(name);
  }

  // ---------------------------------------------------------------------------------------
  // As written: `utilities[className]` also finds what every object inherits

  /** The names every object literal inherits from `Object.prototype`. */
  const PrototypeNames: seq<string> := [
    "constructor", "__defineGetter__", "__defineSetter__", "hasOwnProperty", "__lookupGetter__",
    "__lookupSetter__", "isPrototypeOf", "propertyIsEnumerable", "toString", "valueOf",
    "__proto__", "toLocaleString"
  ]

  /** `utilities[className]` as the engine reads it: an inherited member is a function (or,
   *  for `__proto__`, `Object.prototype`), which is truthy and has no own keys. */
  function InheritedUtility(name: string): (r: Option<Declarations>)
    ensures name in Utilities ==> r == Utility(name)
    ensures name !in Utilities && name in PrototypeNames ==> r == Some([])
  {
    if name in Utilities then Some(Utilities[name])
    else if name in PrototypeNames then Some([])
    else None
  }

  function ContributionAsWritten(name: string): string {
    match InheritedUtility(name)
    case Some(d) => Rule(name, d) + "\n\n"
    case None => ""
  }

  /** The output of `generateStyles` as written, reading every name through `InheritedUtility`. */
  function StylesAsWritten(names: seq<string>): string
    decreases |names|
  {
    if names == [] then ""
    else StylesAsWritten(names[..|names| - 1]) + ContributionAsWritten(names[|names| - 1])
  }

  /** On names no object inherits, the engine as written and the corrected one agree. */
  lemma {:induction false} AsWrittenAgreesOffPrototype(names: seq<string>)
    requires forall i :: 0 <= i < |names| ==> names[i] !in PrototypeNames
    ensures StylesAsWritten(names) == Styles(names)
    decreases |names|
  {
    if names != [] {
      var init := names[..|names| - 1];
      assert forall i :: 0 <= i < |init| ==> init[i] == names[i];
      AsWrittenAgreesOffPrototype(init);
    }
  }

  /** `generateStyles(["toString"])` as written emits an empty rule; the corrected engine emits
   *  nothing. */
  lemma ToStringListDiffers(names: seq<string>)
    requires names == ["toString"]
    ensures StylesAsWritten(names) == "." + "toString" + " {\n" + DeclarationIndent + "\n" + BraceIndent + "}\n\n"
    ensures Styles(names) == ""
  {
    assert names[..0] == [];
    PrototypeNameEmitsEmptyRule(names[0]);
  }

  /** A prototype name produces an empty rule in the engine as written and nothing in the
   *  corrected lookup. */
  lemma PrototypeNameEmitsEmptyRule(name: string)
    requires name == "toString"
    ensures ContributionAsWritten(name) == "." + name + " {\n" + DeclarationIndent + "\n" + BraceIndent + "}\n\n"
    ensures Contribution(name) == ""
  {
    ToStringIsNotUtility(name);
    assert PrototypeNames[8] == name;
    assert InheritedUtility(name) == Some([]);
    assert DeclarationText([]) == "";
  }

  lemma ToStringIsNotUtility(name: string)
    requires name == "toString"
    ensures name !in Utilities
  {
    KnownNames(name);
    assert |name| == 8 && name[1] == 'o';
    assert |"bg-purple"| == 9 && |"p-2"| == 3 && "text-white"[1] == 'e';
  }
}
