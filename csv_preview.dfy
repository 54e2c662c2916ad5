/**
 * The CSV preview's parser: the content is split into lines on `'\n'`, each line is split on
 * every `','` and each cell is trimmed. Quotes have no special meaning. After parsing, the
 * raw content is written to the content cache.
 */
module CsvPreview {
  import opened Wrappers
  import opened JsString
  import opened DocumentModel
  import opened ContentCache

  /** The key the stand-alone preview caches its content under. */
  const CsvCacheKey: string := "csv-document"

  /** `cells.map(cell => cell.trim())`. */
  function TrimAll(cells: seq<string>): (r: seq<string>)
    ensures |r| == |cells|
    ensures forall j :: 0 <= j < |r| ==> IsTrimmed(r[j])
    ensures forall j :: 0 <= j < |r| ==> forall c :: c in r[j] ==> c in cells[j]
  {
    seq(|cells|, j requires 0 <= j < |cells| => Trim(cells[j]))
  }

  /** One table row: `line.split(',').map(cell => cell.trim())`. */
  function ParseRow(line: string): (r: seq<string>)
    ensures |r| == Count(line, ',') + 1
    ensures forall j :: 0 <= j < |r| ==> IsTrimmed(r[j]) && ',' !in r[j]
  {
    TrimAll(Split(line, ','))
  }

  /** The table: one row per `'\n'`-separated line. */
  function ParseCsv(content: string): (r: seq<seq<string>>)
    ensures |r| == Count(content, '\n') + 1
    ensures forall i :: 0 <= i < |r| ==> |r[i]| >= 1
    ensures forall i, j :: 0 <= i < |r| && 0 <= j < |r[i]| ==> IsTrimmed(r[i][j])
  {
    var lines := Split(content, '\n');
    seq(|lines|, i requires 0 <= i < |lines| => ParseRow(lines[i]))
  }

  /** Row `i` of the table is the parse of line `i` of the content. */
  lemma RowsAreLines(content: string, i: nat)
    requires i < |Split(content, '\n')|
    ensures ParseCsv(content)[i] == ParseRow(Split(content, '\n')[i])
    ensures forall j :: 0 <= j < |ParseCsv(content)[i]| ==> '\n' !in ParseCsv(content)[i][j]
  {
    var line := Split(content, '\n')[i];
    var row := ParseRow(line);
    forall j | 0 <= j < |row|
      ensures '\n' !in row[j]
    {
      assert forall c :: c in row[j] ==> c in Split(line, ',')[j];
      var piece := Split(line, ',')[j];
      if '\n' in piece {
        var k :| 0 <= k < |piece| && piece[k] == '\n';
        SplitPieceMember(line, ',', j, k);
      }
    }
  }

  /** Every character of a piece of a split occurs in the string split. */
  lemma {:induction false} SplitPieceMember(s: string, sep: char, j: nat, k: nat)
    requires j < |Split(s, sep)| && k < |Split(s, sep)[j]|
    ensures Split(s, sep)[j][k] in s
  {
    if s != [] {
      var rest := Split(s[1..], sep);
      if s[0] == sep {
        assert Split(s, sep)[j] == rest[j - 1];
        SplitPieceMember(s[1..], sep, j - 1, k);
      } else if j == 0 {
        if k > 0 {
          assert Split(s, sep)[0][k] == rest[0][k - 1];
          SplitPieceMember(s[1..], sep, 0, k - 1);
        }
      } else {
        assert Split(s, sep)[j] == rest[j];
        SplitPieceMember(s[1..], sep, j, k);
      }
    }
  }

  /** A line whose cells carry no surrounding whitespace is recovered by joining its row. */
  lemma LineRoundTrip(line: string)
    requires forall j :: 0 <= j < |Split(line, ',')| ==> IsTrimmed(Split(line, ',')[j])
    ensures Join(ParseRow(line), ",") == line
  {
    assert ParseRow(line) == Split(line, ',');
    JoinSplit(line, ',');
  }

  /** Content whose cells carry no surrounding whitespace is recovered from the table. */
  lemma ContentRoundTrip(content: string)
    requires forall i :: 0 <= i < |Split(content, '\n')| ==>
               forall j :: 0 <= j < |Split(Split(content, '\n')[i], ',')| ==>
                 IsTrimmed(Split(Split(content, '\n')[i], ',')[j])
    ensures Join(JoinRows(ParseCsv(content)), "\n") == content
  {
    var lines := Split(content, '\n');
    var rows := ParseCsv(content);
    forall i | 0 <= i < |lines|
      ensures JoinRows(rows)[i] == lines[i]
    {
      LineRoundTrip(lines[i]);
    }
    assert JoinRows(rows) == lines;
    JoinSplit(content, '\n');
  }

  /** Each row joined back with `','`. */
  function JoinRows(rows: seq<seq<string>>): (r: seq<string>)
    ensures |r| == |rows|
  {
    seq(|rows|, i requires 0 <= i < |rows| => Join(rows[i], ","))
  }

  /** Windows line ends leave no `'\r'` at either end of a cell. */
  lemma NoCarriageReturnAtCellEdges(content: string, i: nat, j: nat)
    requires i < |ParseCsv(content)| && j < |ParseCsv(content)[i]| && ParseCsv(content)[i][j] != []
    ensures ParseCsv(content)[i][j][0] != '\r'
    ensures ParseCsv(content)[i][j][|ParseCsv(content)[i][j]| - 1] != '\r'
  {
  }

  /** A trailing newline produces a last row holding one empty cell. */
  lemma {:induction false} TrailingNewlineGivesEmptyRow(body: string)
    ensures ParseCsv(body + "\n")[|ParseCsv(body + "\n")| - 1] == [""]
  {
    SplitTrailingSeparator(body, '\n');
    assert Split("", ',') == [""];
    assert Trim("") == "";
  }

  /** A string ending in the separator splits with an empty last piece. */
  lemma {:induction false} SplitTrailingSeparator(s: string, sep: char)
    ensures Split(s + [sep], sep)[|Split(s + [sep], sep)| - 1] == ""
    decreases |s|
  {
    if s == [] {
      assert Split([sep], sep) == [""] + Split([], sep);
    } else {
      var t := s + [sep];
      assert t[1..] == s[1..] + [sep];
      SplitTrailingSeparator(s[1..], sep);
    }
  }

  /** The preview's effect: parse the content, then cache it under `key` (`'csv-document'`,
   *  or the document id in the copy inside the document preview). */
  method ParseAndCache(key: string, content: string, cache: DocumentCache, now: int)
    returns (tableData: seq<seq<string>>)
    requires cache.Valid()
    modifies cache
    ensures cache.Valid()
    ensures tableData == ParseCsv(content)
    ensures cache.State() == AfterSet(old(cache.State()), key, Text(content), now)
  {
    tableData := ParseCsv(content);
    cache.Set(key, Text(content), now);
  }
}
