/**
 * The agent's database tool: a query whose lower-cased text contains `delete`, `drop`,
 * `alter` or `insert` anywhere is refused; otherwise the query runs and at most five rows come
 * back as text, one line per row, each row its `key: value` pairs joined by `", "`. Every
 * failure becomes a message string. The database round trip is an input: the rows it returns
 * (with each value already rendered by the template string) or the value it throws.
 */
module DbTool {
  import opened JsString

  const DangerousKeywords: seq<string> := ["delete", "drop", "alter", "insert"]
  const RowLimit: nat := 5

  /** `查询失败: `, the prefix of every failure. */
  const FailurePrefix: string := "\U{67E5}\U{8BE2}\U{5931}\U{8D25}: "
  /** `拒绝执行危险SQL操作`, the message of the guard's error. */
  const RejectMessage: string := "\U{62D2}\U{7EDD}\U{6267}\U{884C}\U{5371}\U{9669}SQL\U{64CD}\U{4F5C}"
  /** `未知错误`, used when something other than an `Error` is thrown. */
  const UnknownError: string := "\U{672A}\U{77E5}\U{9519}\U{8BEF}"

  /** One result row: `Object.entries(row)` with each value as the template renders it. */
  type Row = seq<(string, string)>

  /** What the `try` block can end with once the guard has passed. */
  datatype Thrown = ErrorObject(message: string) | OtherValue
  datatype QueryOutcome = Rows(rows: seq<Row>) | Throws(error: Thrown)

  /** `query.toLowerCase().match(/(delete|drop|alter|insert)/)`. */
  predicate IsDangerous(query: string) {
    exists k :: 0 <= k < |DangerousKeywords| && Includes(ToLower(query), DangerousKeywords[k])
  }

  function Min(a: nat, b: nat): nat { if a <= b then a else b }

  /** `Object.entries(row).map(([key, value]) => `${key}: ${value}`).join(", ")`. */
  function FormatRow(row: Row): string {
    Join(seq(|row|, i requires 0 <= i < |row| => row[i].0 + ": " + row[i].1), ", ")
  }

  /** The first five rows, formatted and joined by `"\n"`. */
  function FormatRows(rows: seq<Row>): (r: string)
    ensures rows == [] ==> r == ""
  {
    var limited := rows[..Min(RowLimit, |rows|)];
    Join(seq(|limited|, i requires 0 <= i < |limited| => FormatRow(limited[i])), "\n")
  }

  /** The text the tool returns. */
  function RunTool(query: string, outcome: QueryOutcome): (r: string)
    ensures IsDangerous(query) ==> r == FailurePrefix + RejectMessage
    ensures !IsDangerous(query) && outcome.Rows? ==> r == FormatRows(outcome.rows)
    ensures !IsDangerous(query) && outcome.Throws? ==>
              r == FailurePrefix + (if outcome.error.ErrorObject? then outcome.error.message else UnknownError)
  {
    if IsDangerous(query) then FailurePrefix + RejectMessage
    else match outcome
      case Rows(rows) => FormatRows(rows)
      case Throws(ErrorObject(message)) => FailurePrefix + message
      case Throws(OtherValue) => FailurePrefix + UnknownError
  }

  // ---------------------------------------------------------------------------------------
  // Properties

  /** The guard does not depend on letter case. */
  lemma GuardIgnoresCase(query: string)
    ensures IsDangerous(ToLower(query)) <==> IsDangerous(query)
  {
    ToLowerIdempotent(query);
  }

  /** A keyword embedded in a longer word is caught too: `inserted_at` is refused. */
  lemma EmbeddedKeywordRefused(query: string)
    requires query == "SELECT inserted_at FROM t"
    ensures IsDangerous(query)
    ensures forall outcome :: RunTool(query, outcome) == FailurePrefix + RejectMessage
  {
    var lower := ToLower(query);
    assert lower[7..13] == "insert";
    assert OccursAt(lower, DangerousKeywords[3], 7);
    IncludesIffOccurs(lower, DangerousKeywords[3]);
  }

  /** A query that lacks the letters `d`, `a` and `i` in either case passes the guard. */
  lemma NoKeywordLettersPasses(query: string)
    requires forall i :: 0 <= i < |query| ==> query[i] !in "dDaAiI"
    ensures !IsDangerous(query)
  {
    var lower := ToLower(query);
    assert 'd' !in lower && 'a' !in lower && 'i' !in lower by {
      forall i | 0 <= i < |lower| ensures lower[i] != 'd' && lower[i] != 'a' && lower[i] != 'i' {
        assert query[i] !in "dDaAiI";
      }
    }
    forall k | 0 <= k < |DangerousKeywords| ensures !Includes(lower, DangerousKeywords[k]) {
      var c := if k <= 1 then 'd' else if k == 2 then 'a' else 'i';
      assert c == DangerousKeywords[k][0];
      if Includes(lower, DangerousKeywords[k]) {
        IncludesMember(lower, DangerousKeywords[k], c);
      }
    }
  }

  /** A passed guard with rows formats them; a refusal never looks at the database. */
  lemma RefusalIgnoresDatabase(query: string, a: QueryOutcome, b: QueryOutcome)
    requires IsDangerous(query)
    ensures RunTool(query, a) == RunTool(query, b)
  {
  }

  /** Rows past the fifth never show. */
  lemma RowsPastLimitIgnored(rows: seq<Row>, more: seq<Row>)
    requires |rows| >= RowLimit
    ensures FormatRows(rows + more) == FormatRows(rows)
  {
    assert (rows + more)[..RowLimit] == rows[..RowLimit];
  }

  /** A single pair renders as `key: value`; a further pair is added after `", "`. */
  lemma RowFormat(key: string, value: string, row: Row)
    ensures FormatRow([(key, value)]) == key + ": " + value
    ensures row != [] ==> FormatRow([(key, value)] + row) == key + ": " + value + ", " + FormatRow(row)
  {
    if row != [] {
      var r := [(key, value)] + row;
      var cells := seq(|r|, i requires 0 <= i < |r| => r[i].0 + ": " + r[i].1);
      assert cells[1..] == seq(|row|, i requires 0 <= i < |row| => row[i].0 + ": " + row[i].1);
    }
  }

  /** A character in neither the parts nor the separator is not in their join. */
  lemma {:induction false} JoinLacks(parts: seq<string>, sep: string, c: char)
    requires c !in sep && forall i :: 0 <= i < |parts| ==> c !in parts[i]
    ensures c !in Join(parts, sep)
  {
    if |parts| > 1 {
      JoinLacks(parts[1..], sep, c);
    }
  }

  /** A row whose keys and values hold no line break renders on one line. */
  lemma RowOnOneLine(row: Row)
    requires forall i :: 0 <= i < |row| ==> '\n' !in row[i].0 && '\n' !in row[i].1
    ensures '\n' !in FormatRow(row)
  {
    var cells := seq(|row|, i requires 0 <= i < |row| => row[i].0 + ": " + row[i].1);
    JoinLacks(cells, ", ", '\n');
  }

  /** Without line breaks inside the data, the output has one line per row, at most five. */
  lemma OneLinePerRow(rows: seq<Row>)
    requires rows != []
    requires forall j, i :: 0 <= j < |rows| && 0 <= i < |rows[j]| ==>
               '\n' !in rows[j][i].0 && '\n' !in rows[j][i].1
    ensures var lines := Split(FormatRows(rows), '\n');
            && |lines| == Min(RowLimit, |rows|) <= RowLimit
            && forall j :: 0 <= j < |lines| ==> lines[j] == FormatRow(rows[j])
  {
    var limited := rows[..Min(RowLimit, |rows|)];
    var lines := seq(|limited|, i requires 0 <= i < |limited| => FormatRow(limited[i]));
    forall j | 0 <= j < |lines| ensures '\n' !in lines[j] {
      RowOnOneLine(limited[j]);
    }
    SplitJoin(lines, '\n');
  }

  /** Each failure message: the guard's, an `Error`'s own, or the unknown-error text. */
  lemma FailureMessages(query: string, message: string)
    requires !IsDangerous(query)
    ensures RunTool(query, Throws(ErrorObject(message))) == FailurePrefix + message
    ensures RunTool(query, Throws(OtherValue)) == "\U{67E5}\U{8BE2}\U{5931}\U{8D25}: \U{672A}\U{77E5}\U{9519}\U{8BEF}"
    ensures RunTool(query, Rows([])) == ""
  {
  }
}
