/**
 * `execute_sql` of scripts/08_test_foundry_agent.py: runs a query against the lakehouse and
 * renders the answer as a pipe table, or as an error text; it never raises.
 */
module AgentSql {
  import opened Wrappers
  import opened Strings

  /** One fetched row; `None` is SQL NULL, `Some(t)` holds `str(v)` of the value. */
  type Row = seq<Option<string>>

  /** What the database side (credential, connection, execution, fetch) produces for one query. */
  datatype QueryOutcome =
    | ResultSet(columns: seq<string>, rows: seq<Row>)
    | QueryFailed(message: string)  // `str(e)` of whatever was raised

  /** At most this many rows are rendered. */
  const MaxRows: nat := 50

  const EndpointMissing: string := "Error: SQL endpoint not available"

  function CellText(v: Option<string>): string
  {
    if v.Some? then v.value else "NULL"
  }

  function HeaderLine(columns: seq<string>): string
  {
    "| " + Join(columns, " | ") + " |"
  }

  function SeparatorLine(n: nat): string
  {
    "|" + Join(Copies("---", n), "|") + "|"
  }

  function RowLine(row: Row): string
  {
    "| " + Join(seq(|row|, i requires 0 <= i < |row| => CellText(row[i])), " | ") + " |"
  }

  function ShownRows(n: nat): nat
  {
    if n < MaxRows then n else MaxRows
  }

  function MoreRowsLine(k: nat): string
  {
    "\n... and " + NatToString(k) + " more rows"
  }

  function CountLine(n: nat): string
  {
    "\n(" + NatToString(n) + " rows returned)"
  }

  /** `result_lines` as the script builds it, before the final `"\n".join`. */
  function TableLines(columns: seq<string>, rows: seq<Row>): seq<string>
  {
    [HeaderLine(columns), SeparatorLine(|columns|)]
    + seq(ShownRows(|rows|), i requires 0 <= i < ShownRows(|rows|) => RowLine(rows[i]))
    + (if |rows| > MaxRows then [MoreRowsLine(|rows| - MaxRows)] else [])
    + [CountLine(|rows|)]
  }

  function TableText(columns: seq<string>, rows: seq<Row>): string
  {
    Join(TableLines(columns, rows), "\n")
  }

  /** `if not SQL_ENDPOINT`: a missing or empty endpoint is falsy. */
  predicate Available(endpoint: Option<string>)
  {
    endpoint.Some? && endpoint.value != ""
  }

  /** The text `execute_sql` returns. */
  function SqlResultText(endpoint: Option<string>, outcome: QueryOutcome): string
  {
    if !Available(endpoint) then EndpointMissing
    else match outcome
      case QueryFailed(m) => "SQL Error: " + m
      case ResultSet(columns, rows) => TableText(columns, rows)
  }

  /** Lines 161-175: the formatting loop. */
  method FormatResultSet(columns: seq<string>, rows: seq<Row>) returns (text: string)
    ensures text == TableText(columns, rows)
  {
    var lines := [HeaderLine(columns), SeparatorLine(|columns|)];
    var shown := if |rows| <= MaxRows then rows else rows[..MaxRows];
    var i := 0;
    while i < |shown|
      invariant 0 <= i <= |shown| == ShownRows(|rows|)
      invariant lines == [HeaderLine(columns), SeparatorLine(|columns|)]
                         + seq(i, k requires 0 <= k < i => RowLine(rows[k]))
    {
      var values := seq(|shown[i]|, k requires 0 <= k < |shown[i]| => CellText(shown[i][k]));
      assert shown[i] == rows[i];
      assert "| " + Join(values, " | ") + " |" == RowLine(rows[i]);
      lines := lines + ["| " + Join(values, " | ") + " |"];
      assert seq(i + 1, k requires 0 <= k < i + 1 => RowLine(rows[k]))
          == seq(i, k requires 0 <= k < i => RowLine(rows[k])) + [RowLine(rows[i])];
      i := i + 1;
    }
    if |rows| > MaxRows {
      lines := lines + [MoreRowsLine(|rows| - MaxRows)];
    }
    lines := lines + [CountLine(|rows|)];
    assert lines == TableLines(columns, rows);
    text := Join(lines, "\n");
  }

  /**
   * `execute_sql(sql_query)`. `db` stands for everything behind the connection: it answers a
   * query with a result set or with the message of the exception raised.
   */
  method ExecuteSql(endpoint: Option<string>, query: string, db: string -> QueryOutcome) returns (text: string)
    ensures text == SqlResultText(endpoint, db(query))
    ensures !Available(endpoint) ==> text == EndpointMissing
    ensures Available(endpoint) && db(query).QueryFailed? ==> text == "SQL Error: " + db(query).message
    ensures Available(endpoint) && db(query).ResultSet? ==> text == TableText(db(query).columns, db(query).rows)
  {
    if !Available(endpoint) {
      return EndpointMissing;
    }
    var outcome := db(query);
    match outcome {
      case QueryFailed(m) =>
        text := "SQL Error: " + m;
      case ResultSet(columns, rows) =>
        text := FormatResultSet(columns, rows);
    }
  }

  /**
   * The layout of `result_lines`: header, separator, the first rows in order, the notice about
   * the rows left out exactly when there are more than 50, and the row count last.
   */
  lemma TableLayout(columns: seq<string>, rows: seq<Row>)
    ensures var ls := TableLines(columns, rows);
            && |ls| == 3 + ShownRows(|rows|) + (if |rows| > MaxRows then 1 else 0)
            && ls[0] == HeaderLine(columns) && ls[1] == SeparatorLine(|columns|)
            && (forall i :: 0 <= i < ShownRows(|rows|) ==> ls[2 + i] == RowLine(rows[i]))
            && ls[|ls| - 1] == CountLine(|rows|)
            && (|rows| > MaxRows ==> ls[|ls| - 2] == MoreRowsLine(|rows| - MaxRows))
            && (forall k, m :: 0 <= k < |ls| && ls[k] == MoreRowsLine(m) ==>
                  |rows| > MaxRows && k == |ls| - 2 && m == |rows| - MaxRows)
  {
    var ls := TableLines(columns, rows);
    var n := ShownRows(|rows|);
    // Every line but the notice starts with '|' or with "\n(".
    assert forall k :: 0 <= k < 2 + n ==> |ls[k]| > 0 && ls[k][0] == '|';
    assert |ls[|ls| - 1]| > 1 && ls[|ls| - 1][1] == '(';
    forall k, m | 0 <= k < |ls| && ls[k] == MoreRowsLine(m)
      ensures |rows| > MaxRows && k == |ls| - 2 && m == |rows| - MaxRows
    {
      assert MoreRowsLine(m)[0] == '\n' && MoreRowsLine(m)[1] == '.';
      if |rows| > MaxRows && k == |ls| - 2 {
        MoreRowsLineInjective(m, |rows| - MaxRows);
      }
    }
  }

  /** 75 rows: the first 50 are shown, then the notice about the other 25, then the count. */
  lemma SeventyFiveRows(columns: seq<string>, rows: seq<Row>)
    requires |rows| == 75
    ensures var ls := TableLines(columns, rows);
            && |ls| == 54
            && (forall i :: 0 <= i < 50 ==> ls[2 + i] == RowLine(rows[i]))
            && ls[52] == "\n... and 25 more rows"
            && ls[53] == "\n(75 rows returned)"
  {
    TableLayout(columns, rows);
    assert NatToString(25) == NatToString(2) + [DigitChar(5)];
    assert NatToString(75) == NatToString(7) + [DigitChar(5)];
  }

  lemma MoreRowsLineInjective(a: nat, b: nat)
    requires MoreRowsLine(a) == MoreRowsLine(b)
    ensures a == b
  {
    var p := "\n... and ";
    var sa, sb := NatToString(a), NatToString(b);
    assert |sa| == |MoreRowsLine(a)| - |p| - 10 == |sb|;
    assert sa == MoreRowsLine(a)[|p|..|p| + |sa|];
    assert sb == MoreRowsLine(b)[|p|..|p| + |sb|];
    NatToStringInjective(a, b);
  }

  /** Python's `"|" + "|".join(["---"] * n) + "|"`: one `---|` cell per column after a leading `|`. */
  lemma {:induction false} SeparatorCells(n: nat)
    ensures n == 0 ==> SeparatorLine(n) == "||"
    ensures n >= 1 ==> SeparatorLine(n) == "|" + RepeatText("---|", n)
  {
    if n >= 1 {
      CopiesJoin(n);
    }
  }

  lemma {:induction false} CopiesJoin(n: nat)
    requires n >= 1
    ensures Join(Copies("---", n), "|") + "|" == RepeatText("---|", n)
  {
    if n > 1 {
      CopiesJoin(n - 1);
      assert Copies("---", n)[1..] == Copies("---", n - 1);
    }
  }

  /** No column name and no rendered value holds a line break. */
  predicate SingleLineCells(columns: seq<string>, rows: seq<Row>)
  {
    && (forall k :: 0 <= k < |columns| ==> '\n' !in columns[k])
    && (forall r, k :: 0 <= r < |rows| && 0 <= k < |rows[r]| ==> '\n' !in CellText(rows[r][k]))
  }

  /** The physical lines a reader of the returned text sees. */
  function VisibleLines(columns: seq<string>, rows: seq<Row>): seq<string>
  {
    [HeaderLine(columns), SeparatorLine(|columns|)]
    + seq(ShownRows(|rows|), i requires 0 <= i < ShownRows(|rows|) => RowLine(rows[i]))
    + (if |rows| > MaxRows then ["", "... and " + NatToString(|rows| - MaxRows) + " more rows"] else [])
    + ["", "(" + NatToString(|rows|) + " rows returned)"]
  }

  /**
   * Splitting the returned table at line breaks gives the header, the separator, one line per
   * shown row, then (only past 50 rows) an empty line and the notice, then an empty line and
   * the row count: the leading "\n" of the last two entries shows as a blank line.
   */
  lemma TableTextLines(columns: seq<string>, rows: seq<Row>)
    requires SingleLineCells(columns, rows)
    ensures Split(TableText(columns, rows), '\n') == VisibleLines(columns, rows)
  {
    var body := [HeaderLine(columns), SeparatorLine(|columns|)]
                + seq(ShownRows(|rows|), i requires 0 <= i < ShownRows(|rows|) => RowLine(rows[i]));
    var count := "(" + NatToString(|rows|) + " rows returned)";
    assert "\n" + count == CountLine(|rows|);
    if |rows| > MaxRows {
      var more := "... and " + NatToString(|rows| - MaxRows) + " more rows";
      assert "\n" + more == MoreRowsLine(|rows| - MaxRows);
      assert TableLines(columns, rows) == body + ["\n" + more] + ["\n" + count];
      assert VisibleLines(columns, rows) == body + ["", more] + ["", count];
      BlankLine(body, more, ["\n" + count]);
      BlankLine(body + ["", more], count, []);
      assert body + ["", more] + ["\n" + count] + [] == body + ["", more] + ["\n" + count];
      assert body + ["", more] + ["", count] + [] == body + ["", more] + ["", count];
    } else {
      assert TableLines(columns, rows) == body + ["\n" + count] + [];
      assert VisibleLines(columns, rows) == body + ["", count] + [];
      assert body + ["\n" + count] == body + ["\n" + count] + [];
      BlankLine(body, count, []);
    }
    assert TableText(columns, rows) == Join(VisibleLines(columns, rows), "\n");
    VisibleLinesSingle(columns, rows);
    SplitJoin(VisibleLines(columns, rows), '\n');
  }

  /** A line "\n" + x joins to the same text as an empty line followed by x. */
  lemma BlankLine(a: seq<string>, x: string, b: seq<string>)
    requires a != []
    ensures Join(a + ["\n" + x] + b, "\n") == Join(a + ["", x] + b, "\n")
  {
    if b == [] {
      assert a + ["\n" + x] + b == a + ["\n" + x];
      assert a + ["", x] + b == a + ["", x];
      JoinConcat(a, ["\n" + x], "\n");
      JoinConcat(a, ["", x], "\n");
    } else {
      assert a + ["\n" + x] + b == a + (["\n" + x] + b);
      assert a + ["", x] + b == a + (["", x] + b);
      JoinConcat(a, ["\n" + x] + b, "\n");
      JoinConcat(a, ["", x] + b, "\n");
      JoinConcat(["\n" + x], b, "\n");
      JoinConcat(["", x], b, "\n");
    }
  }

  lemma VisibleLinesSingle(columns: seq<string>, rows: seq<Row>)
    requires SingleLineCells(columns, rows)
    ensures forall k :: 0 <= k < |VisibleLines(columns, rows)| ==> '\n' !in VisibleLines(columns, rows)[k]
  {
    var head := [HeaderLine(columns), SeparatorLine(|columns|)];
    var body := seq(ShownRows(|rows|), i requires 0 <= i < ShownRows(|rows|) => RowLine(rows[i]));
    var notice := if |rows| > MaxRows then ["", "... and " + NatToString(|rows| - MaxRows) + " more rows"] else [];
    var count := ["", "(" + NatToString(|rows|) + " rows returned)"];
    HeadLinesSingle(columns);
    RowLinesSingle(rows);
    NumberLinesSingle(|rows|);
    assert NoBreaks(notice) && NoBreaks(count);
    NoBreaksConcat(head, body);
    NoBreaksConcat(head + body, notice);
    NoBreaksConcat(head + body + notice, count);
    assert VisibleLines(columns, rows) == head + body + notice + count;
  }

  lemma HeadLinesSingle(columns: seq<string>)
    requires forall k :: 0 <= k < |columns| ==> '\n' !in columns[k]
    ensures NoBreaks([HeaderLine(columns), SeparatorLine(|columns|)])
  {
    JoinAvoids(columns, " | ", '\n');
    JoinAvoids(Copies("---", |columns|), "|", '\n');
  }

  lemma RowLinesSingle(rows: seq<Row>)
    requires forall r, k :: 0 <= r < |rows| && 0 <= k < |rows[r]| ==> '\n' !in CellText(rows[r][k])
    ensures NoBreaks(seq(ShownRows(|rows|), i requires 0 <= i < ShownRows(|rows|) => RowLine(rows[i])))
  {
    var body := seq(ShownRows(|rows|), i requires 0 <= i < ShownRows(|rows|) => RowLine(rows[i]));
    forall i | 0 <= i < ShownRows(|rows|)
      ensures '\n' !in body[i]
    {
      var row := rows[i];
      JoinAvoids(seq(|row|, j requires 0 <= j < |row| => CellText(row[j])), " | ", '\n');
    }
  }

  /** No line of `ls` holds a line break. */
  predicate NoBreaks(ls: seq<string>)
  {
    forall k :: 0 <= k < |ls| ==> '\n' !in ls[k]
  }

  lemma NoBreaksConcat(a: seq<string>, b: seq<string>)
    requires NoBreaks(a) && NoBreaks(b)
    ensures NoBreaks(a + b)
  {
    forall k | 0 <= k < |a + b|
      ensures '\n' !in (a + b)[k]
    {
      if k >= |a| {
        assert (a + b)[k] == b[k - |a|];
      }
    }
  }

  /** The notice and the count line, without their leading "\n", hold no line break. */
  lemma NumberLinesSingle(n: nat)
    ensures '\n' !in "(" + NatToString(n) + " rows returned)"
    ensures n > MaxRows ==> '\n' !in "... and " + NatToString(n - MaxRows) + " more rows"
  {
    assert '\n' !in NatToString(n);
    if n > MaxRows {
      assert '\n' !in NatToString(n - MaxRows);
    }
  }

  /**
   * A two-row result with one NULL; the lines are joined with
   * "\n", and the count line carries its own leading "\n".
   */
  lemma TwoRowExample()
    ensures TableText(["name", "n"], [[Some("a"), Some("1")], [Some("b"), None]])
         == "| name | n |" + "\n" + ("|---|---|" + "\n" + ("| a | 1 |" + "\n" + ("| b | NULL |" + "\n"
            + "\n(2 rows returned)")))
  {
    var ls := ["| name | n |", "|---|---|", "| a | 1 |", "| b | NULL |", "\n(2 rows returned)"];
    ExampleLines();
    JoinExample(ls, "\n");
  }

  lemma JoinExample(ls: seq<string>, sep: string)
    requires |ls| == 5
    ensures Join(ls, sep) == ls[0] + sep + (ls[1] + sep + (ls[2] + sep + (ls[3] + sep + ls[4])))
  {
    assert ls[3..][1..] == ls[4..];
    assert Join(ls[3..], sep) == ls[3] + sep + ls[4];
    assert ls[2..][1..] == ls[3..];
    assert Join(ls[2..], sep) == ls[2] + sep + Join(ls[3..], sep);
    assert ls[1..][1..] == ls[2..];
    assert Join(ls[1..], sep) == ls[1] + sep + Join(ls[2..], sep);
  }

  lemma ExampleLines()
    ensures TableLines(["name", "n"], [[Some("a"), Some("1")], [Some("b"), None]])
         == ["| name | n |", "|---|---|", "| a | 1 |", "| b | NULL |", "\n(2 rows returned)"]
  {
    var rows: seq<Row> := [[Some("a"), Some("1")], [Some("b"), None]];
    ExampleRow(Some("a"), Some("1"), "a", "1");
    ExampleRow(Some("b"), None, "b", "NULL");
    assert "| " + "a" + " | " + "1" + " |" == "| a | 1 |";
    assert "| " + "b" + " | " + "NULL" + " |" == "| b | NULL |";
    assert RowLine(rows[0]) == "| a | 1 |";
    assert RowLine(rows[1]) == "| b | NULL |";
    assert seq(2, i requires 0 <= i < 2 => RowLine(rows[i])) == ["| a | 1 |", "| b | NULL |"];
    ExampleHeader();
  }

  /** The header, separator and count lines of the two-row example. */
  lemma ExampleHeader()
    ensures HeaderLine(["name", "n"]) == "| name | n |"
    ensures SeparatorLine(2) == "|---|---|"
    ensures CountLine(2) == "\n(2 rows returned)"
  {
    JoinTwo("name", "n", " | ");
    JoinTwo("---", "---", "|");
    assert Copies("---", 2) == ["---", "---"];
    ExampleCount();
  }

  lemma ExampleCount()
    ensures CountLine(2) == "\n(2 rows returned)"
  {
    assert NatToString(2) == "2";
  }

  lemma JoinTwo(a: string, b: string, sep: string)
    ensures Join([a, b], sep) == a + sep + b
  {
    assert [a, b][1..] == [b];
  }

  lemma ExampleRow(x: Option<string>, y: Option<string>, tx: string, ty: string)
    requires CellText(x) == tx && CellText(y) == ty
    ensures RowLine([x, y]) == "| " + tx + " | " + ty + " |"
  {
    var row := [x, y];
    assert seq(2, i requires 0 <= i < 2 => CellText(row[i])) == [tx, ty];
    JoinTwo(tx, ty, " | ");
    assert "| " + (tx + " | " + ty) + " |" == "| " + tx + " | " + ty + " |";
  }
}
