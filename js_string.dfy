/**
 * The JavaScript string operations the modelled code relies on, over `string` (a sequence of
 * Unicode scalar values): `includes`, `startsWith`, ASCII `toLowerCase`, `trim`, `split` on a
 * one-character separator and `Array.prototype.join`.
 */
module JsString {
  import opened Wrappers

  /** JavaScript truthiness of an optional string: present and non-empty. */
  predicate Truthy(s: Option<string>) {
    s.Some? && s.value != ""
  }

  /** `value || fallback` on strings. */
  function OrString(value: string, fallback: string): string {
    if value != "" then value else fallback
  }

  /** `p` occurs in `s` starting at index `i`. */
  predicate OccursAt(s: string, p: string, i: int) {
    0 <= i && i + |p| <= |s| && s[i..i + |p|] == p
  }

  /** `s.includes(p)`. */
  predicate Includes(s: string, p: string)
    decreases |s|
  {
    |p| <= |s| && (p <= s || Includes(s[1..], p))
  }

  /** `s.startsWith(p)`. */
  predicate StartsWith(s: string, p: string) {
    p <= s
  }

  /** `Includes` means what `includes` promises: an occurrence at some index. */
  lemma {:induction false} IncludesIffOccurs(s: string, p: string)
    ensures Includes(s, p) <==> exists i :: OccursAt(s, p, i)
    decreases |s|
  {
    if Includes(s, p) {
      if p <= s {
        assert OccursAt(s, p, 0);
      } else {
        IncludesIffOccurs(s[1..], p);
        var i :| OccursAt(s[1..], p, i);
        assert s[1..][i..i + |p|] == s[i + 1..i + 1 + |p|];
        assert OccursAt(s, p, i + 1);
      }
    }
    if exists i :: OccursAt(s, p, i) {
      var i :| OccursAt(s, p, i);
      if i == 0 {
        assert p <= s;
      } else {
        assert s[1..][i - 1..i - 1 + |p|] == s[i..i + |p|];
        assert OccursAt(s[1..], p, i - 1);
        IncludesIffOccurs(s[1..], p);
      }
    }
  }

  /** An occurrence inside a part is an occurrence inside any string built around it. */
  lemma IncludesInfix(a: string, b: string, c: string, p: string)
    requires Includes(b, p)
    ensures Includes(a + b + c, p)
  {
    IncludesIffOccurs(b, p);
    var i :| OccursAt(b, p, i);
    assert (a + b + c)[|a| + i..|a| + i + |p|] == b[i..i + |p|];
    assert OccursAt(a + b + c, p, |a| + i);
    IncludesIffOccurs(a + b + c, p);
  }

  /** Every character of an included string occurs in the including one. */
  lemma IncludesMember(s: string, p: string, c: char)
    requires Includes(s, p) && c in p
    ensures c in s
  {
    IncludesIffOccurs(s, p);
    var i :| OccursAt(s, p, i);
    var k :| 0 <= k < |p| && p[k] == c;
    assert s[i + k] == s[i..i + |p|][k];
  }

  /** ASCII lower-casing of one character. */
  function LowerChar(c: char): char {
    if 'A' <= c <= 'Z' then (c as int + 32) as char else c
  }

  /** `s.toLowerCase()` on ASCII letters. */
  function ToLower(s: string): (r: string)
    ensures |r| == |s|
    ensures forall i :: 0 <= i < |s| ==> r[i] == LowerChar(s[i])
  {
    seq(|s|, i requires 0 <= i < |s| => LowerChar(s[i]))
  }

  /** Lower-casing twice is lower-casing once. */
  lemma ToLowerIdempotent(s: string)
    ensures ToLower(ToLower(s)) == ToLower(s)
  {
  }

  /** The characters `String.prototype.trim` removes: WhiteSpace and LineTerminator of ECMA-262. */
  predicate IsJsWhitespace(c: char) {
    || c == '\t' || c == '\n' || c == '\U{000B}' || c == '\U{000C}' || c == '\r' || c == ' '
    || c == '\U{00A0}' || c == '\U{1680}' || ('\U{2000}' <= c <= '\U{200A}')
    || c == '\U{2028}' || c == '\U{2029}' || c == '\U{202F}' || c == '\U{205F}'
    || c == '\U{3000}' || c == '\U{FEFF}'
  }

  /** `s` neither starts nor ends with whitespace. */
  predicate IsTrimmed(s: string) {
    s == [] || (!IsJsWhitespace(s[0]) && !IsJsWhitespace(s[|s| - 1]))
  }

  /** `s.trimStart()`. */
  function TrimStart(s: string): (r: string)
    ensures |r| <= |s| && r == s[|s| - |r|..]
    ensures r == [] || !IsJsWhitespace(r[0])
    ensures forall i :: 0 <= i < |s| - |r| ==> IsJsWhitespace(s[i])
  {
    if s != [] && IsJsWhitespace(s[0]) then TrimStart(s[1..]) else s
  }

  /** `s.trimEnd()`. */
  function TrimEnd(s: string): (r: string)
    ensures |r| <= |s| && r == s[..|r|]
    ensures r == [] || !IsJsWhitespace(r[|r| - 1])
    ensures forall i :: |r| <= i < |s| ==> IsJsWhitespace(s[i])
  {
    if s != [] && IsJsWhitespace(s[|s| - 1]) then TrimEnd(s[..|s| - 1]) else s
  }

  /** `r` is the infix of `s` at `k`, with only whitespace before and after it. */
  predicate StripsTo(s: string, k: int, r: string) {
    && 0 <= k && k + |r| <= |s| && r == s[k..k + |r|]
    && (forall i :: 0 <= i < k ==> IsJsWhitespace(s[i]))
    && (forall i :: k + |r| <= i < |s| ==> IsJsWhitespace(s[i]))
  }

  /** `s.trim()`: `s` with its leading and trailing whitespace removed and nothing else. */
  function Trim(s: string): (r: string)
    ensures IsTrimmed(r)
    ensures exists k :: StripsTo(s, k, r)
    ensures IsTrimmed(s) ==> r == s
    ensures forall c :: c in r ==> c in s
  {
    var t := TrimStart(s);
    assert IsTrimmed(s) ==> t == s;
    var r := TrimEnd(t);
    assert r != [] ==> r[0] == t[0];
    TrimStartEnd(s, t, r);
    InfixMembers(s, |s| - |t|, |r|);
    r
  }

  lemma SliceOfSuffix<T>(s: seq<T>, k: nat, n: nat)
    requires k + n <= |s|
    ensures s[k..][..n] == s[k..k + n]
  {
  }

  /** Whitespace removed from the front, then from the back, leaves an infix with only
   *  whitespace around it. */
  lemma TrimStartEnd(s: string, t: string, r: string)
    requires |t| <= |s| && t == s[|s| - |t|..] && forall i :: 0 <= i < |s| - |t| ==> IsJsWhitespace(s[i])
    requires |r| <= |t| && r == t[..|r|] && forall i :: |r| <= i < |t| ==> IsJsWhitespace(t[i])
    ensures StripsTo(s, |s| - |t|, r)
  {
    var k := |s| - |t|;
    SliceOfSuffix(s, k, |r|);
    forall i | k + |r| <= i < |s|
      ensures IsJsWhitespace(s[i])
    {
      var j := i - k;
      assert |r| <= j < |t| && s[i] == t[j];
    }
  }

  /** Trimming removes nothing but whitespace: the result is determined by those two facts. */
  lemma TrimUnique(s: string, k: int, r: string)
    requires StripsTo(s, k, r) && IsTrimmed(r)
    ensures r == Trim(s)
  {
    var t := Trim(s);
    var j :| StripsTo(s, j, t);
    assert r != [] ==> s[k] == r[0] && s[k + |r| - 1] == r[|r| - 1];
    assert t != [] ==> s[j] == t[0] && s[j + |t| - 1] == t[|t| - 1];
    assert r == [] ==> forall i :: 0 <= i < |s| ==> IsJsWhitespace(s[i]);
    assert t == [] ==> forall i :: 0 <= i < |s| ==> IsJsWhitespace(s[i]);
    assert r == [] <==> t == [];
    assert r != [] ==> k == j && |r| == |t|;
  }

  /** Every character of an infix of `s` occurs in `s`. */
  lemma InfixMembers(s: string, k: nat, n: nat)
    requires k + n <= |s|
    ensures forall c :: c in s[k..k + n] ==> c in s
  {
    forall c | c in s[k..k + n]
      ensures c in s
    {
      var j :| 0 <= j < n && s[k..k + n][j] == c;
      assert s[k + j] == c;
    }
  }

  /** The number of occurrences of `c` in `s`. */
  function Count(s: string, c: char): nat {
    if s == [] then 0 else (if s[0] == c then 1 else 0) + Count(s[1..], c)
  }

  lemma {:induction false} CountPositive(s: string, c: char)
    requires c in s
    ensures Count(s, c) > 0
  {
    if s[0] != c {
      assert c in s[1..];
      CountPositive(s[1..], c);
    }
  }

  /** `s.split(sep)` for a one-character separator: the pieces between separators, empty ones included. */
  function Split(s: string, sep: char): (r: seq<string>)
    ensures |r| == Count(s, sep) + 1
    ensures forall i :: 0 <= i < |r| ==> sep !in r[i]
  {
    if s == [] then [""]
    else
      var rest := Split(s[1..], sep);
      if s[0] == sep then [""] + rest
      else [[s[0]] + rest[0]] + rest[1..]
  }

  /** `parts.join(sep)`. */
  function Join(parts: seq<string>, sep: string): string {
    if |parts| == 0 then ""
    else if |parts| == 1 then parts[0]
    else parts[0] + sep + Join(parts[1..], sep)
  }

  /** Joining the pieces of a split with the separator gives back the string. */
  lemma {:induction false} JoinSplit(s: string, sep: char)
    ensures Join(Split(s, sep), [sep]) == s
  {
    if s != [] {
      var rest := Split(s[1..], sep);
      JoinSplit(s[1..], sep);
      if s[0] == sep {
        assert ([""] + rest)[1..] == rest;
      } else {
        var parts := [[s[0]] + rest[0]] + rest[1..];
        if |rest| == 1 {
          assert Join(parts, [sep]) == [s[0]] + rest[0];
          assert Join(rest, [sep]) == rest[0];
        } else {
          assert parts[1..] == rest[1..];
          assert Join(parts, [sep]) == [s[0]] + rest[0] + [sep] + Join(rest[1..], [sep]);
          assert Join(rest, [sep]) == rest[0] + [sep] + Join(rest[1..], [sep]);
        }
      }
    }
  }

  /** Splitting a join whose parts hold no separator gives back the parts. */
  lemma {:induction false} SplitJoin(parts: seq<string>, sep: char)
    requires |parts| >= 1
    requires forall i :: 0 <= i < |parts| ==> sep !in parts[i]
    ensures Split(Join(parts, [sep]), sep) == parts
  {
    if |parts| == 1 {
      SplitNoSeparator(parts[0], sep);
    } else {
      SplitJoin(parts[1..], sep);
      SplitAfterPiece(parts[0], Join(parts[1..], [sep]), sep);
      assert [parts[0]] + parts[1..] == parts;
    }
  }

  /** A string without the separator splits into itself. */
  lemma {:induction false} SplitNoSeparator(s: string, sep: char)
    requires sep !in s
    ensures Split(s, sep) == [s]
  {
    if s != [] {
      assert sep !in s[1..];
      SplitNoSeparator(s[1..], sep);
      assert [s[0]] + s[1..] == s;
    }
  }

  /** A separator-free piece followed by the separator is split off as the first piece. */
  lemma {:induction false} SplitAfterPiece(a: string, t: string, sep: char)
    requires sep !in a
    ensures Split(a + [sep] + t, sep) == [a] + Split(t, sep)
  {
    if a == [] {
      assert ([sep] + t)[1..] == t;
    } else {
      var u := a + [sep] + t;
      assert u[0] == a[0] && u[1..] == a[1..] + [sep] + t;
      SplitAfterPiece(a[1..], t, sep);
      var rest := Split(u[1..], sep);
      assert rest == [a[1..]] + Split(t, sep);
      assert rest[1..] == Split(t, sep);
      assert [a[0]] + a[1..] == a;
    }
  }

  /** The index of the first table row from `k` on whose substring occurs in `t`, or `|table|`. */
  function FirstMatch(table: seq<(string, string)>, t: string, k: nat): (r: nat)
    requires k <= |table|
    ensures k <= r <= |table|
    ensures r < |table| ==> Includes(t, table[r].0)
    ensures forall j :: k <= j < r ==> !Includes(t, table[j].0)
    decreases |table| - k
  {
    if k == |table| then k
    else if Includes(t, table[k].0) then k
    else FirstMatch(table, t, k + 1)
  }
}
