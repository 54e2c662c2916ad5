/**
 * The Vite emoji plugin's `transform`: every shortcode of the emoji table (`:smile:`,
 * `:tada:`, ...) in a module's code is replaced by its emoji, one shortcode after the other in
 * table order, each with a global `String.prototype.replace`. `:smile:` is replaced once more
 * before the loop. The module id is not consulted: every module is transformed.
 */
module EmojiPlugin {
  import opened JsString

  type Table = seq<(string, string)>

  const Smile: string := ":smile:"
  const SmileEmoji: string := "\U{1F604}"

  const EmojiFaces: Table := [
    (":smile:", "\U{1F604}"),
    (":sad:", "\U{1F622}"),
    (":laugh:", "\U{1F602}"),
    (":cry:", "\U{1F62D}"),
    (":angry:", "\U{1F621}"),
    (":surprise:", "\U{1F632}"),
    (":heart:", "\U{2764}\U{FE0F}")
  ]

  const EmojiSigns: Table := [
    (":broken_heart:", "\U{1F494}"),
    (":thumbsup:", "\U{1F44D}"),
    (":thumbsdown:", "\U{1F44E}"),
    (":rocket:", "\U{1F680}"),
    (":star:", "\U{2B50}"),
    (":zap:", "\U{26A1}\U{FE0F}"),
    (":fire:", "\U{1F525}")
  ]

  const EmojiParty: Table := [
    (":sparkles:", "\U{2728}"),
    (":tada:", "\U{1F389}"),
    (":confetti_ball:", "\U{1F38A}"),
    (":balloon:", "\U{1F388}"),
    (":party:", "\U{1F389}"),
    (":cake:", "\U{1F370}"),
    (":dizzy:", "\U{1F4AB}")
  ]

  /** `emojiMap`, in its insertion order. */
  const EmojiMap: Table := EmojiFaces + EmojiSigns + EmojiParty

  predicate Ascii(s: string) {
    forall i :: 0 <= i < |s| ==> s[i] as int < 128
  }

  predicate NonAscii(s: string) {
    s != [] && forall i :: 0 <= i < |s| ==> s[i] as int >= 128
  }

  /** Shortcodes are non-empty ASCII and emoji are non-empty and free of ASCII, so no emoji
   *  shares a character with any shortcode. */
  predicate WellFormed(t: Table) {
    forall i :: 0 <= i < |t| ==> t[i].0 != [] && Ascii(t[i].0) && NonAscii(t[i].1)
  }

  /** `s.replace(new RegExp(p, 'g'), e)` for a pattern without regular-expression syntax:
   *  occurrences are found left to right and replaced without overlapping. */
  function ReplaceAll(s: string, p: string, e: string): string
    requires p != []
    decreases |s|
  {
    if s == [] then []
    else if p <= s then e + ReplaceAll(s[|p|..], p, e)
    else [s[0]] + ReplaceAll(s[1..], p, e)
  }

  /** The loop's value after the first `|t|` table entries. */
  function ApplyAll(s: string, t: Table): string
    requires WellFormed(t)
    decreases |t|
  {
    if t == [] then s
    else ReplaceAll(ApplyAll(s, t[..|t| - 1]), t[|t| - 1].0, t[|t| - 1].1)
  }

  /** What `transform` returns for any module. */
  function Transform(code: string): string {
    EmojiMapWellFormed();
    ApplyAll(ReplaceAll(code, Smile, SmileEmoji), EmojiMap)
  }

  /** `transform(code, id)`. */
  method TransformModule(code: string, id: string) returns (transformedCode: string)
    ensures transformedCode == Transform(code)
    ensures forall j :: 0 <= j < |EmojiMap| ==> !Includes(transformedCode, EmojiMap[j].0)
  {
    EmojiMapWellFormed();
    transformedCode := ReplaceAll(code, Smile, SmileEmoji);
    var i := 0;
    while i < |EmojiMap|
      invariant 0 <= i <= |EmojiMap|
      invariant transformedCode == ApplyAll(ReplaceAll(code, Smile, SmileEmoji), EmojiMap[..i])
      invariant forall j :: 0 <= j < i ==> !Includes(transformedCode, EmojiMap[j].0)
    {
      var key := EmojiMap[i].0;
      var value := EmojiMap[i].1;
      var next := ReplaceAll(transformedCode, key, value);
      forall j | 0 <= j <= i
        ensures !Includes(next, EmojiMap[j].0)
      {
        ReplaceKeepsOut(transformedCode, key, value, EmojiMap[j].0);
      }
      assert EmojiMap[..i + 1][..i] == EmojiMap[..i];
      transformedCode := next;
      i := i + 1;
    }
    assert EmojiMap[..|EmojiMap|] == EmojiMap;
  }

  // ---------------------------------------------------------------------------------------
  // Properties

  lemma EmojiFacesWellFormed() ensures WellFormed(EmojiFaces) {}
  lemma EmojiSignsWellFormed() ensures WellFormed(EmojiSigns) {
    AsciiRow(EmojiSigns[0].0, ":broken_heart:");
    AsciiRow(EmojiSigns[1].0, ":thumbsup:");
    AsciiRow(EmojiSigns[2].0, ":thumbsdown:");
    AsciiRow(EmojiSigns[3].0, ":rocket:");
    AsciiRow(EmojiSigns[4].0, ":star:");
    AsciiRow(EmojiSigns[5].0, ":zap:");
    AsciiRow(EmojiSigns[6].0, ":fire:");
  }

  lemma AsciiRow(k: string, lit: string)
    requires k == lit && lit != [] && Ascii(lit)
    ensures k != [] && Ascii(k)
  {
  }
  lemma EmojiPartyWellFormed() ensures WellFormed(EmojiParty) {}

  lemma EmojiMapWellFormed()
    ensures WellFormed(EmojiMap) && |EmojiMap| == 21
  {
    EmojiFacesWellFormed();
    EmojiSignsWellFormed();
    EmojiPartyWellFormed();
  }

  /** An occurrence in a later part of a string is an occurrence in the string. */
  lemma {:induction false} IncludesSuffix(s: string, j: nat, k: string)
    requires j <= |s| && Includes(s[j..], k)
    ensures Includes(s, k)
    decreases j
  {
    if j > 0 {
      assert s[1..][j - 1..] == s[j..];
      IncludesSuffix(s[1..], j - 1, k);
    }
  }

  /** A replacement's output begins with an ASCII text only where its input did. */
  lemma {:induction false} ReplacePrefix(t: string, p: string, e: string, q: string)
    requires p != [] && NonAscii(e) && Ascii(q) && q <= ReplaceAll(t, p, e)
    ensures q <= t
    decreases |t|
  {
    if q != [] && t != [] {
      var u := ReplaceAll(t, p, e);
      assert u[0] as int < 128;
      assert !(p <= t);
      var r := ReplaceAll(t[1..], p, e);
      assert q[1..] <= r;
      ReplacePrefix(t[1..], p, e, q[1..]);
    }
  }

  /** An ASCII text inside `e + r` lies inside `r`. */
  lemma {:induction false} IncludesPastNonAscii(e: string, r: string, k: string)
    requires k != [] && Ascii(k) && forall i :: 0 <= i < |e| ==> e[i] as int >= 128
    requires Includes(e + r, k)
    ensures Includes(r, k)
    decreases |e|
  {
    if e != [] {
      assert !(k <= e + r) by {
        assert (e + r)[0] == e[0];
      }
      assert (e + r)[1..] == e[1..] + r;
      IncludesPastNonAscii(e[1..], r, k);
    } else {
      assert e + r == r;
    }
  }

  /** Replacing a pattern leaves no occurrence of it and creates no occurrence of any other
   *  shortcode. */
  lemma {:induction false} ReplaceKeepsOut(s: string, p: string, e: string, k: string)
    requires p != [] && NonAscii(e) && k != [] && Ascii(k)
    requires k == p || !Includes(s, k)
    ensures !Includes(ReplaceAll(s, p, e), k)
    decreases |s|
  {
    var u := ReplaceAll(s, p, e);
    if s != [] && Includes(u, k) {
      if p <= s {
        var rest := s[|p|..];
        if k != p && Includes(rest, k) {
          IncludesSuffix(s, |p|, k);
        }
        ReplaceKeepsOut(rest, p, e, k);
        IncludesPastNonAscii(e, ReplaceAll(rest, p, e), k);
      } else {
        var r := ReplaceAll(s[1..], p, e);
        assert u == [s[0]] + r;
        if k <= u {
          assert k[1..] <= r;
          ReplacePrefix(s[1..], p, e, k[1..]);
        } else {
          assert u[1..] == r;
          ReplaceKeepsOut(s[1..], p, e, k);
        }
      }
    }
  }

  /** Replacing a pattern that does not occur changes nothing. */
  lemma {:induction false} ReplaceAbsent(s: string, p: string, e: string)
    requires p != [] && !Includes(s, p)
    ensures ReplaceAll(s, p, e) == s
    decreases |s|
  {
    if s != [] {
      assert !(p <= s);
      ReplaceAbsent(s[1..], p, e);
      assert [s[0]] + s[1..] == s;
    }
  }

  /** Code without any shortcode of a table goes through that table's replacements unchanged. */
  lemma {:induction false} ApplyAllAbsent(s: string, t: Table)
    requires WellFormed(t)
    requires forall j :: 0 <= j < |t| ==> !Includes(s, t[j].0)
    ensures ApplyAll(s, t) == s
    decreases |t|
  {
    if t != [] {
      ApplyAllAbsent(s, t[..|t| - 1]);
      ReplaceAbsent(s, t[|t| - 1].0, t[|t| - 1].1);
    }
  }

  /** After a table's replacements, none of its shortcodes is left. */
  lemma {:induction false} ApplyAllClears(s: string, t: Table)
    requires WellFormed(t)
    ensures forall j :: 0 <= j < |t| ==> !Includes(ApplyAll(s, t), t[j].0)
    decreases |t|
  {
    if t != [] {
      var front := t[..|t| - 1];
      ApplyAllClears(s, front);
      forall j | 0 <= j < |t|
        ensures !Includes(ApplyAll(s, t), t[j].0)
      {
        if j < |t| - 1 {
          assert front[j] == t[j];
        }
        ReplaceKeepsOut(ApplyAll(s, front), t[|t| - 1].0, t[|t| - 1].1, t[j].0);
      }
    }
  }

  /** The output holds no shortcode of the table. */
  lemma TransformClears(code: string)
    ensures forall j :: 0 <= j < |EmojiMap| ==> !Includes(Transform(code), EmojiMap[j].0)
  {
    EmojiMapWellFormed();
    ApplyAllClears(ReplaceAll(code, Smile, SmileEmoji), EmojiMap);
  }

  /** Code without any shortcode is returned unchanged. */
  lemma NoShortcodeUnchanged(code: string)
    requires forall j :: 0 <= j < |EmojiMap| ==> !Includes(code, EmojiMap[j].0)
    ensures Transform(code) == code
  {
    EmojiMapWellFormed();
    assert EmojiMap[0].0 == Smile;
    ReplaceAbsent(code, Smile, SmileEmoji);
    ApplyAllAbsent(code, EmojiMap);
  }

  /** Transforming twice is transforming once. */
  lemma TransformIdempotent(code: string)
    ensures Transform(Transform(code)) == Transform(code)
  {
    TransformClears(code);
    NoShortcodeUnchanged(Transform(code));
  }

  /** Applying two tables in turn is applying their concatenation. */
  lemma {:induction false} ApplyAllConcat(s: string, a: Table, b: Table)
    requires WellFormed(a) && WellFormed(b)
    ensures WellFormed(a + b) && ApplyAll(s, a + b) == ApplyAll(ApplyAll(s, a), b)
    decreases |b|
  {
    assert WellFormed(a + b) by {
      forall i | 0 <= i < |a + b| ensures (a + b)[i] == if i < |a| then a[i] else b[i - |a|] {
      }
    }
    if b == [] {
      assert a + b == a;
    } else {
      var front := b[..|b| - 1];
      assert (a + b)[..|a + b| - 1] == a + front;
      assert WellFormed(front) by {
        forall i | 0 <= i < |front| ensures front[i] == b[i] {
        }
      }
      ApplyAllConcat(s, a, front);
    }
  }

  /** No ASCII text occurs in a string without ASCII characters. */
  lemma NothingInEmoji(e: string, k: string)
    requires NonAscii(e) && k != [] && Ascii(k)
    ensures !Includes(e, k)
  {
    if Includes(e, k) {
      assert e + [] == e;
      IncludesPastNonAscii(e, [], k);
    }
  }

  /** `:name:` with no colon inside. */
  predicate Shortcode(k: string) {
    |k| >= 2 && k[0] == ':' && k[|k| - 1] == ':' && forall i :: 0 < i < |k| - 1 ==> k[i] != ':'
  }

  predicate AllShortcodes(t: Table) {
    forall j :: 0 <= j < |t| ==> Shortcode(t[j].0)
  }

  lemma ShortcodesInTables()
    ensures AllShortcodes(EmojiFaces) && AllShortcodes(EmojiSigns) && AllShortcodes(EmojiParty)
  {
    FacesAreShortcodes();
    SignsAreShortcodes();
    PartyAreShortcodes();
  }

  lemma FacesAreShortcodes() ensures AllShortcodes(EmojiFaces) {}
  lemma SignsAreShortcodes() ensures AllShortcodes(EmojiSigns) {}
  lemma PartyAreShortcodes() ensures AllShortcodes(EmojiParty) {}

  /** One shortcode occurs in another only when the two are the same. */
  lemma ShortcodeInShortcode(s: string, k: string)
    requires Shortcode(s) && Shortcode(k) && k != s
    ensures !Includes(s, k)
  {
    IncludesIffOccurs(s, k);
  }

  /** No earlier entry's shortcode occurs in `s`. */
  lemma AbsentBefore(s: string, t: Table, n: nat)
    requires Shortcode(s) && AllShortcodes(t) && n <= |t|
    requires forall j :: 0 <= j < n ==> t[j].0 != s
    ensures forall j :: 0 <= j < n ==> !Includes(s, t[j].0)
  {
    forall j | 0 <= j < n ensures !Includes(s, t[j].0) {
      ShortcodeInShortcode(s, t[j].0);
    }
  }

  lemma TadaAbsentEarly(s: string)
    requires s == ":tada:"
    ensures forall j :: 0 <= j < |EmojiFaces + EmojiSigns| ==> !Includes(s, (EmojiFaces + EmojiSigns)[j].0)
    ensures !Includes(s, Smile) && !Includes(s, EmojiParty[0].0)
  {
    ShortcodesInTables();
    assert Shortcode(s);
    AbsentBefore(s, EmojiFaces + EmojiSigns, 14);
    ShortcodeInShortcode(s, Smile);
    AbsentBefore(s, EmojiParty, 1);
  }

  lemma PartyAbsentEarly(s: string)
    requires s == ":party:"
    ensures forall j :: 0 <= j < |EmojiFaces + EmojiSigns| ==> !Includes(s, (EmojiFaces + EmojiSigns)[j].0)
    ensures forall j :: 0 <= j < 4 ==> !Includes(s, EmojiParty[j].0)
    ensures !Includes(s, Smile)
  {
    ShortcodesInTables();
    assert Shortcode(s);
    AbsentBefore(s, EmojiFaces + EmojiSigns, 14);
    ShortcodeInShortcode(s, Smile);
    AbsentBefore(s, EmojiParty, 4);
  }

  /** What is left of a table once a string holds no ASCII at all. */
  lemma EmojiPassesThrough(e: string, t: Table)
    requires NonAscii(e) && WellFormed(t)
    ensures ApplyAll(e, t) == e
  {
    forall j | 0 <= j < |t| ensures !Includes(e, t[j].0) {
      NothingInEmoji(e, t[j].0);
    }
    ApplyAllAbsent(e, t);
  }

  /** `:tada:` becomes the party popper. */
  lemma TadaBecomesPopper(s: string)
    requires s == ":tada:"
    ensures Transform(s) == "\U{1F389}"
  {
    TadaAbsentEarly(s);
    PassesEarlyTables(s);
    TadaInParty(s);
  }

  lemma TadaInParty(s: string)
    requires s == ":tada:"
    ensures WellFormed(EmojiParty) && ApplyAll(s, EmojiParty) == "\U{1F389}"
  {
    EmojiPartyWellFormed();
    TadaAbsentEarly(s);
    var popper := "\U{1F389}";
    assert ReplaceAll(s, EmojiParty[1].0, popper) == popper;
    ApplyAllAbsent(s, EmojiParty[..1]);
    assert EmojiParty[..2][..1] == EmojiParty[..1];
    assert ApplyAll(s, EmojiParty[..2]) == popper;
    EmojiPassesThrough(popper, EmojiParty[2..]);
    assert EmojiParty[..2] + EmojiParty[2..] == EmojiParty;
    ApplyAllConcat(s, EmojiParty[..2], EmojiParty[2..]);
  }

  /** A shortcode-free prefix: `:smile:` and the first two tables leave `s` as it is, so the
   *  transform is the party table applied to `s`. */
  lemma PassesEarlyTables(s: string)
    requires !Includes(s, Smile)
    requires forall j :: 0 <= j < |EmojiFaces + EmojiSigns| ==> !Includes(s, (EmojiFaces + EmojiSigns)[j].0)
    ensures WellFormed(EmojiParty) && Transform(s) == ApplyAll(s, EmojiParty)
  {
    EmojiFacesWellFormed();
    EmojiSignsWellFormed();
    EmojiPartyWellFormed();
    ReplaceAbsent(s, Smile, SmileEmoji);
    ApplyAllAbsent(s, EmojiFaces + EmojiSigns);
    ApplyAllConcat(s, EmojiFaces + EmojiSigns, EmojiParty);
  }

  /** `:party:` becomes the same party popper. */
  lemma PartyBecomesPopper(s: string)
    requires s == ":party:"
    ensures Transform(s) == "\U{1F389}"
  {
    PartyAbsentEarly(s);
    PassesEarlyTables(s);
    PartyInParty(s);
  }

  lemma PartyInParty(s: string)
    requires s == ":party:"
    ensures WellFormed(EmojiParty) && ApplyAll(s, EmojiParty) == "\U{1F389}"
  {
    EmojiPartyWellFormed();
    PartyAbsentEarly(s);
    var popper := "\U{1F389}";
    assert ReplaceAll(s, EmojiParty[4].0, popper) == popper;
    ApplyAllAbsent(s, EmojiParty[..4]);
    assert EmojiParty[..5][..4] == EmojiParty[..4];
    assert ApplyAll(s, EmojiParty[..5]) == popper;
    EmojiPassesThrough(popper, EmojiParty[5..]);
    assert EmojiParty[..5] + EmojiParty[5..] == EmojiParty;
    ApplyAllConcat(s, EmojiParty[..5], EmojiParty[5..]);
  }

  /** So two different inputs give the same output, and the transform cannot be undone. */
  lemma TadaAndPartyCollide(tada: string, party: string)
    requires tada == ":tada:" && party == ":party:"
    ensures tada != party && Transform(tada) == Transform(party)
  {
    TadaBecomesPopper(tada);
    PartyBecomesPopper(party);
  }
}
