/**
 * The browser's `atob` (the forgiving-base64 decode of the WHATWG Infra standard) and its
 * inverse `btoa`, on JavaScript strings. `atob` yields a "binary string": one character per
 * decoded octet, each below U+0100.
 */
module Base64 {
  import opened Wrappers

  type Octet = x: int | 0 <= x < 256

  /** ASCII whitespace of the Infra standard: TAB, LF, FF, CR and SPACE. */
  predicate IsAsciiWhitespace(c: char) {
    c == '\t' || c == '\n' || c == '\U{000C}' || c == '\r' || c == ' '
  }

  /** The 64 characters of the base64 alphabet (section 4 of RFC 4648). */
  predicate IsBase64Char(c: char) {
    ('A' <= c <= 'Z') || ('a' <= c <= 'z') || ('0' <= c <= '9') || c == '+' || c == '/'
  }

  predicate AllBase64(s: string) {
    forall i :: 0 <= i < |s| ==> IsBase64Char(s[i])
  }

  /** The six-bit value a base64 character stands for. */
  function CharValue(c: char): (v: int)
    requires IsBase64Char(c)
    ensures 0 <= v < 64
  {
    if 'A' <= c <= 'Z' then c as int - 'A' as int
    else if 'a' <= c <= 'z' then c as int - 'a' as int + 26
    else if '0' <= c <= '9' then c as int - '0' as int + 52
    else if c == '+' then 62
    else 63
  }

  /** The base64 character for a six-bit value. */
  function ValueChar(v: int): (c: char)
    requires 0 <= v < 64
    ensures IsBase64Char(c) && CharValue(c) == v
  {
    if v < 26 then ('A' as int + v) as char
    else if v < 52 then ('a' as int + v - 26) as char
    else if v < 62 then ('0' as int + v - 52) as char
    else if v == 62 then '+'
    else '/'
  }

  /** The alphabet is a bijection onto 0..63: every base64 character is the one for its value. */
  lemma ValueCharOfCharValue(c: char)
    requires IsBase64Char(c)
    ensures ValueChar(CharValue(c)) == c
  {
  }

  /** Step 1 of forgiving-base64 decode: every ASCII whitespace character removed. */
  function StripWhitespace(s: string): (r: string)
    ensures forall c :: c in r <==> c in s && !IsAsciiWhitespace(c)
    ensures |r| <= |s|
  {
    if s == [] then []
    else (if IsAsciiWhitespace(s[0]) then [] else [s[0]]) + StripWhitespace(s[1..])
  }

  /** Every character that is not whitespace is kept as often as it occurs; whitespace is not. */
  lemma {:induction false} StripWhitespaceCounts(s: string, c: char)
    ensures multiset(StripWhitespace(s))[c] == if IsAsciiWhitespace(c) then 0 else multiset(s)[c]
    decreases |s|
  {
    if s != [] {
      assert s == [s[0]] + s[1..];
      StripWhitespaceCounts(s[1..], c);
    }
  }

  /** Stripping works character by character and keeps the order: a string's stripped form is
   *  its parts' stripped forms, one after the other. */
  lemma {:induction false} StripWhitespaceConcat(a: string, b: string)
    ensures StripWhitespace(a + b) == StripWhitespace(a) + StripWhitespace(b)
    decreases |a|
  {
    if a == [] {
      assert a + b == b;
    } else {
      var h := if IsAsciiWhitespace(a[0]) then [] else [a[0]];
      assert StripWhitespace(a) == h + StripWhitespace(a[1..]);
      assert (a + b)[0] == a[0] && (a + b)[1..] == a[1..] + b;
      assert StripWhitespace(a + b) == h + StripWhitespace(a[1..] + b);
      StripWhitespaceConcat(a[1..], b);
      ConcatAssoc(h, StripWhitespace(a[1..]), StripWhitespace(b));
    }
  }

  /** One character is kept exactly when it is not whitespace. */
  lemma StripWhitespaceChar(c: char)
    ensures StripWhitespace([c]) == if IsAsciiWhitespace(c) then [] else [c]
  {
    assert [c][1..] == [];
  }

  /** Step 2: a length that is a multiple of four loses one or two trailing `=`. */
  function DropPadding(s: string): string {
    if |s| % 4 == 0 && |s| >= 2 && s[|s| - 2..] == "==" then s[..|s| - 2]
    else if |s| % 4 == 0 && |s| >= 1 && s[|s| - 1] == '=' then s[..|s| - 1]
    else s
  }

  /** Steps 5 to 7: each full group of four characters gives three octets, a final group of
   *  two or three characters gives one or two. */
  function DecodeGroups(s: string): (r: seq<Octet>)
    requires AllBase64(s) && |s| % 4 != 1
    ensures |r| == |s| / 4 * 3 + (if |s| % 4 == 0 then 0 else |s| % 4 - 1)
    decreases |s|
  {
    if |s| == 0 then []
    else
      var v0, v1 := CharValue(s[0]), CharValue(s[1]);
      if |s| == 2 then [v0 * 4 + v1 / 16]
      else
        var v2 := CharValue(s[2]);
        if |s| == 3 then [v0 * 4 + v1 / 16, (v1 % 16) * 16 + v2 / 4]
        else
          var v3 := CharValue(s[3]);
          [v0 * 4 + v1 / 16, (v1 % 16) * 16 + v2 / 4, (v2 % 4) * 64 + v3] + DecodeGroups(s[4..])
  }

  /** The binary string whose character codes are the octets. */
  function BinaryString(b: seq<Octet>): (r: string)
    ensures |r| == |b|
    ensures forall i :: 0 <= i < |b| ==> r[i] as int == b[i]
  {
    seq(|b|, i requires 0 <= i < |b| => b[i] as char)
  }

  /** `atob(s)`: `None` is the `InvalidCharacterError` it throws. */
  function Atob(s: string): (r: Option<string>)
    ensures r.Some? ==> forall i :: 0 <= i < |r.value| ==> r.value[i] as int < 256
  {
    var d := DropPadding(StripWhitespace(s));
    if |d| % 4 == 1 || !AllBase64(d) then None
    else Some(BinaryString(DecodeGroups(d)))
  }

  /** `btoa` before padding: one character per six bits, the last group zero-filled. */
  function EncodeGroups(b: seq<Octet>): (r: string)
    ensures AllBase64(r)
    ensures |r| == |b| / 3 * 4 + (if |b| % 3 == 0 then 0 else |b| % 3 + 1)
    decreases |b|
  {
    if |b| == 0 then []
    else if |b| == 1 then [ValueChar(b[0] / 4), ValueChar((b[0] % 4) * 16)]
    else if |b| == 2 then
      [ValueChar(b[0] / 4), ValueChar((b[0] % 4) * 16 + b[1] / 16), ValueChar((b[1] % 16) * 4)]
    else
      [ValueChar(b[0] / 4), ValueChar((b[0] % 4) * 16 + b[1] / 16),
       ValueChar((b[1] % 16) * 4 + b[2] / 64), ValueChar(b[2] % 64)] + EncodeGroups(b[3..])
  }

  /** `btoa` of a binary string's octets: the groups, padded with `=` to a multiple of four. */
  function Btoa(b: seq<Octet>): (r: string)
    ensures |r| % 4 == 0
  {
    BtoaLength(|b|);
    EncodeGroups(b) + (if |b| % 3 == 1 then "==" else if |b| % 3 == 2 then "=" else "")
  }

  lemma BtoaLength(n: nat)
    ensures (n / 3 * 4 + (if n % 3 == 0 then 0 else n % 3 + 1)
             + (if n % 3 == 1 then 2 else if n % 3 == 2 then 1 else 0)) % 4 == 0
  {
  }

  /** Decoding what `btoa` produced gives back the octets. */
  lemma AtobBtoa(b: seq<Octet>)
    ensures Atob(Btoa(b)) == Some(BinaryString(b))
  {
    BtoaHasNoWhitespace(b);
    NoWhitespaceUnchanged(Btoa(b));
    DropPaddingOfBtoa(b);
    DecodeEncode(b);
  }

  lemma BtoaHasNoWhitespace(b: seq<Octet>)
    ensures forall c :: c in Btoa(b) ==> !IsAsciiWhitespace(c)
  {
    var e := EncodeGroups(b);
    assert forall c :: c in e ==> IsBase64Char(c);
  }

  /** The padding `btoa` adds is exactly what decoding drops. */
  lemma DropPaddingOfBtoa(b: seq<Octet>)
    ensures DropPadding(Btoa(b)) == EncodeGroups(b)
  {
    var e := EncodeGroups(b);
    var t := Btoa(b);
    if |b| % 3 == 0 {
      assert t == e;
      if |e| > 0 {
        assert IsBase64Char(t[|t| - 1]);
      }
    } else if |b| % 3 == 2 {
      assert t == e + "=";
      assert t[|t| - 2] == e[|e| - 1];
      assert IsBase64Char(t[|t| - 2]);
      assert t[..|t| - 1] == e;
    } else {
      assert t == e + "==";
      assert t[|t| - 2..] == "==";
      assert t[..|t| - 2] == e;
    }
  }

  /** Decoding the unpadded groups gives back the octets. */
  lemma {:induction false} DecodeEncode(b: seq<Octet>)
    ensures DecodeGroups(EncodeGroups(b)) == b
    decreases |b|
  {
    if 0 < |b| < 3 {
      ShortGroupRoundTrip(b);
    } else if |b| >= 3 {
      var head, tail := b[..3], b[3..];
      assert b == head + tail;
      GroupRoundTrip(head);
      DecodeEncode(tail);
      EncodeGroupsCons(b);
      DecodeGroupsCons(EncodeGroups(head), EncodeGroups(tail));
    }
  }

  lemma EncodeGroupsCons(b: seq<Octet>)
    requires |b| >= 3
    ensures EncodeGroups(b) == EncodeGroups(b[..3]) + EncodeGroups(b[3..])
  {
    TakeThree(b);
    EncodeTriple(b[0], b[1], b[2]);
  }

  lemma TakeThree(b: seq<Octet>)
    requires |b| >= 3
    ensures b[..3] == [b[0], b[1], b[2]]
  {
  }

  lemma DecodeGroupsCons(g: string, t: string)
    requires |g| == 4 && AllBase64(g) && AllBase64(t) && |t| % 4 != 1
    ensures AllBase64(g + t) && |g + t| % 4 != 1
    ensures DecodeGroups(g + t) == DecodeGroups(g) + DecodeGroups(t)
  {
    assert (g + t)[4..] == t;
    assert g[4..] == [];
  }

  /** One or two octets survive encoding to two or three characters and back. */
  lemma ShortGroupRoundTrip(b: seq<Octet>)
    requires 0 < |b| < 3
    ensures DecodeGroups(EncodeGroups(b)) == b
  {
    if |b| == 1 {
      assert b == [b[0]];
      OneOctetRoundTrip(b[0]);
    } else {
      assert b == [b[0], b[1]];
      TwoOctetsRoundTrip(b[0], b[1]);
    }
  }

  lemma OneOctetRoundTrip(b0: Octet)
    ensures DecodeGroups(EncodeGroups([b0])) == [b0]
  {
    SplitOctets(b0, 0, 0);
    var v0, v1 := b0 / 4, (b0 % 4) * 16;
    EncodeSingle(b0);
    DecodeTwo(ValueChar(v0), ValueChar(v1));
  }

  lemma EncodeSingle(b0: Octet)
    ensures EncodeGroups([b0]) == [ValueChar(b0 / 4), ValueChar((b0 % 4) * 16)]
  {
  }

  lemma EncodePair(b0: Octet, b1: Octet)
    ensures EncodeGroups([b0, b1])
         == [ValueChar(b0 / 4), ValueChar((b0 % 4) * 16 + b1 / 16), ValueChar((b1 % 16) * 4)]
  {
  }

  lemma TwoOctetsRoundTrip(b0: Octet, b1: Octet)
    ensures DecodeGroups(EncodeGroups([b0, b1])) == [b0, b1]
  {
    SplitOctets(b0, b1, 0);
    var v0, v1, v2 := b0 / 4, (b0 % 4) * 16 + b1 / 16, (b1 % 16) * 4;
    EncodePair(b0, b1);
    DecodeThree(ValueChar(v0), ValueChar(v1), ValueChar(v2));
  }

  lemma DecodeTwo(c0: char, c1: char)
    requires IsBase64Char(c0) && IsBase64Char(c1)
    ensures DecodeGroups([c0, c1]) == [CharValue(c0) * 4 + CharValue(c1) / 16]
  {
  }

  lemma DecodeThree(c0: char, c1: char, c2: char)
    requires IsBase64Char(c0) && IsBase64Char(c1) && IsBase64Char(c2)
    ensures var v0, v1, v2 := CharValue(c0), CharValue(c1), CharValue(c2);
            DecodeGroups([c0, c1, c2]) == [v0 * 4 + v1 / 16, (v1 % 16) * 16 + v2 / 4]
  {
  }

  /** A group of three octets survives encoding to four characters and back. */
  lemma GroupRoundTrip(b: seq<Octet>)
    requires |b| == 3
    ensures DecodeGroups(EncodeGroups(b)) == b
  {
    assert b == [b[0], b[1], b[2]];
    ThreeOctetsRoundTrip(b[0], b[1], b[2]);
  }

  lemma ThreeOctetsRoundTrip(b0: Octet, b1: Octet, b2: Octet)
    ensures DecodeGroups(EncodeGroups([b0, b1, b2])) == [b0, b1, b2]
  {
    SplitOctets(b0, b1, b2);
    var v0, v1 := b0 / 4, (b0 % 4) * 16 + b1 / 16;
    var v2, v3 := (b1 % 16) * 4 + b2 / 64, b2 % 64;
    EncodeTriple(b0, b1, b2);
    DecodeFour(ValueChar(v0), ValueChar(v1), ValueChar(v2), ValueChar(v3));
  }

  lemma DecodeFour(c0: char, c1: char, c2: char, c3: char)
    requires IsBase64Char(c0) && IsBase64Char(c1) && IsBase64Char(c2) && IsBase64Char(c3)
    ensures var v0, v1, v2, v3 := CharValue(c0), CharValue(c1), CharValue(c2), CharValue(c3);
            DecodeGroups([c0, c1, c2, c3]) == [v0 * 4 + v1 / 16, (v1 % 16) * 16 + v2 / 4, (v2 % 4) * 64 + v3]
  {
    assert [c0, c1, c2, c3][4..] == [];
  }

  /** The bit regrouping of one group, as arithmetic on octets and six-bit values. */
  lemma SplitOctets(b0: int, b1: int, b2: int)
    requires 0 <= b0 < 256 && 0 <= b1 < 256 && 0 <= b2 < 256
    ensures var s1, s2 := (b0 % 4) * 16 + b1 / 16, (b1 % 16) * 4 + b2 / 64;
            && (b0 / 4) * 4 + s1 / 16 == b0
            && (s1 % 16) * 16 + s2 / 4 == b1
            && (s2 % 4) * 64 + b2 % 64 == b2
  {
    var s1, s2 := (b0 % 4) * 16 + b1 / 16, (b1 % 16) * 4 + b2 / 64;
    assert s1 / 16 == b0 % 4;
    assert s1 % 16 == b1 / 16;
    assert s2 / 4 == b1 % 16;
    assert s2 % 4 == b2 / 64;
  }

  lemma {:induction false} NoWhitespaceUnchanged(s: string)
    requires forall c :: c in s ==> !IsAsciiWhitespace(c)
    ensures StripWhitespace(s) == s
  {
    if s != [] {
      assert s[0] in s;
      NoWhitespaceUnchanged(s[1..]);
      assert [s[0]] + s[1..] == s;
    }
  }

  /** Whitespace anywhere in the input is ignored. */
  lemma StripWhitespaceIdempotent(s: string)
    ensures StripWhitespace(StripWhitespace(s)) == StripWhitespace(s)
    ensures Atob(StripWhitespace(s)) == Atob(s)
  {
    NoWhitespaceUnchanged(StripWhitespace(s));
  }

  /** A character outside the alphabet that is neither whitespace nor padding makes `atob` throw. */
  lemma {:induction false} ForeignCharFails(s: string, c: char)
    requires c in s && !IsBase64Char(c) && !IsAsciiWhitespace(c) && c != '='
    ensures Atob(s) == None
  {
    var w := StripWhitespace(s);
    var d := DropPadding(w);
    assert c in w;
    var i :| 0 <= i < |w| && w[i] == c;
    if |d| % 4 != 1 {
      assert || d == w
             || (d == w[..|w| - 1] && w[|w| - 1] == '=')
             || (d == w[..|w| - 2] && w[|w| - 2] == '=' && w[|w| - 1] == '=');
      assert i < |d|;
      assert d[i] == c;
    }
  }

  /** After whitespace and padding are removed, a length of 1 modulo 4 makes `atob` throw. */
  lemma LengthOneModFourFails(s: string)
    requires |DropPadding(StripWhitespace(s))| % 4 == 1
    ensures Atob(s) == None
  {
  }

  /** The output has three octets for every four input characters, rounded down. */
  lemma AtobLength(s: string)
    requires Atob(s).Some?
    ensures |Atob(s).value| == |DropPadding(StripWhitespace(s))| * 3 / 4
  {
  }

  /** `JVBERi0` is the base64 text of `%PDF-`, the PDF file header. */
  lemma PdfHeaderText(s: string)
    requires s == "JVBERi0x"
    ensures Atob(s) == Some("%PDF-1")
  {
    var header: seq<Octet> := [37, 80, 68, 70, 45, 49];
    BtoaOfPdfHeader(header);
    assert s == Btoa(header);
    AtobBtoa(header);
    TextOfPdfHeader(header);
  }

  lemma TextOfPdfHeader(header: seq<Octet>)
    requires header == [37, 80, 68, 70, 45, 49]
    ensures BinaryString(header) == "%PDF-1"
  {
    var text := BinaryString(header);
    assert text[0] == '%' && text[1] == 'P' && text[2] == 'D';
    assert text[3] == 'F' && text[4] == '-' && text[5] == '1';
  }

  lemma BtoaOfPdfHeader(header: seq<Octet>)
    requires header == [37, 80, 68, 70, 45, 49]
    ensures Btoa(header) == "JVBERi0x"
  {
    EncodeHeader(header);
    assert Btoa(header) == EncodeGroups(header) + "";
    assert "JVBE" + "Ri0x" + "" == "JVBERi0x";
  }

  lemma EncodeHeader(header: seq<Octet>)
    requires header == [37, 80, 68, 70, 45, 49]
    ensures EncodeGroups(header) == "JVBE" + "Ri0x"
  {
    EncodeGroupsCons(header);
    assert header[..3] == [37, 80, 68] && header[3..] == [70, 45, 49];
    FirstHeaderGroup();
    SecondHeaderGroup();
  }

  lemma FirstHeaderGroup()
    ensures EncodeGroups([37, 80, 68]) == "JVBE"
  {
    EncodeTriple(37, 80, 68);
    assert 37 / 4 == 9 && (37 % 4) * 16 + 80 / 16 == 21 && (80 % 16) * 4 + 68 / 64 == 1 && 68 % 64 == 4;
    assert ValueChar(9) == 'J' && ValueChar(21) == 'V' && ValueChar(1) == 'B' && ValueChar(4) == 'E';
  }

  lemma SecondHeaderGroup()
    ensures EncodeGroups([70, 45, 49]) == "Ri0x"
  {
    EncodeTriple(70, 45, 49);
    assert 70 / 4 == 17 && (70 % 4) * 16 + 45 / 16 == 34 && (45 % 16) * 4 + 49 / 64 == 52 && 49 % 64 == 49;
    assert ValueChar(17) == 'R' && ValueChar(34) == 'i' && ValueChar(52) == '0' && ValueChar(49) == 'x';
  }

  lemma EncodeTriple(b0: Octet, b1: Octet, b2: Octet)
    ensures EncodeGroups([b0, b1, b2])
         == [ValueChar(b0 / 4), ValueChar((b0 % 4) * 16 + b1 / 16),
             ValueChar((b1 % 16) * 4 + b2 / 64), ValueChar(b2 % 64)]
  {
    assert [b0, b1, b2][3..] == [];
  }
}
