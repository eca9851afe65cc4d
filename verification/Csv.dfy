/**
  The trade-history CSV export.  The printer is modelled as it is; its partner is an independent
  reader for the grammar of RFC 4180 section 2, with LF line ends, and the two are proved to
  compose to the matrix of neutralised cells.
*/
module Csv {

  /** What a column getter yields: null, or a string / a number already rendered as text. */
  datatype Cell = Null | Text(s: string)

  // ---------------------------------------------------------------- the printer

  predicate FormulaStart(c: char) {
    c == '=' || c == '+' || c == '-' || c == '@' || c == '\t' || c == '\r'
  }

  function Neutralise(raw: string): string {
    if raw != "" && FormulaStart(raw[0]) then "'" + raw else raw
  }

  predicate Special(c: char) {
    c == '"' || c == '\'' || c == ',' || c == '\n' || c == '\r' || c == '\t'
  }

  predicate HasSpecial(s: string) {
    exists i :: 0 <= i < |s| && Special(s[i])
  }

  function DoubleQuotes(s: string): string {
    if s == "" then ""
    else (if s[0] == '"' then "\"\"" else [s[0]]) + DoubleQuotes(s[1..])
  }

  function CsvCell(v: Cell): string {
    match v
    case Null => ""
    case Text(raw) =>
      var neutralised := Neutralise(raw);
      if HasSpecial(neutralised) then "\"" + DoubleQuotes(neutralised) + "\"" else neutralised
  }

  function Join(parts: seq<string>, sep: char): string {
    if parts == [] then ""
    else if |parts| == 1 then parts[0]
    else parts[0] + [sep] + Join(parts[1..], sep)
  }

  function Lines(rows: seq<seq<Cell>>): (lines: seq<string>)
    ensures |lines| == |rows|
  {
    if rows == [] then [] else [Join(Cells(rows[0]), ',')] + Lines(rows[1..])
  }

  function Cells(row: seq<Cell>): (cells: seq<string>)
    ensures |cells| == |row|
  {
    if row == [] then [] else [CsvCell(row[0])] + Cells(row[1..])
  }

  function TradesToCsv(headers: seq<string>, rows: seq<seq<Cell>>): string {
    Join([Join(headers, ',')] + Lines(rows), '\n') + ['\n']
  }

  // ---------------------------------------------------------------- the RFC 4180 reader

  datatype Mode = FieldStart | Unquoted | Quoted | AfterQuote

  datatype Reader =
    | Reading(mode: Mode, field: string, record: seq<string>, out: seq<seq<string>>)
    | Malformed

  function Feed(r: Reader, c: char): Reader {
    match r
    case Malformed => Malformed
    case Reading(mode, field, record, out) =>
      if mode == Quoted then
        if c == '"' then r.(mode := AfterQuote) else r.(field := field + [c])
      else if c == ',' then Reading(FieldStart, "", record + [field], out)
      else if c == '\n' then Reading(FieldStart, "", [], out + [record + [field]])
      else if c == '"' then
        if mode == FieldStart then r.(mode := Quoted)
        else if mode == AfterQuote then r.(mode := Quoted, field := field + ['"'])
        else Malformed
      else if c == '\r' || mode == AfterQuote then Malformed
      else r.(mode := Unquoted, field := field + [c])
  }

  function FeedAll(r: Reader, text: string): Reader
    decreases |text|
  {
    if text == "" then r else FeedAll(Feed(r, text[0]), text[1..])
  }

  /** The records of a file, or nothing when it is not well formed; the last line end is optional. */
  function Read(text: string): (records: seq<seq<string>>)
  {
    var r := FeedAll(Reading(FieldStart, "", [], []), text);
    if r.Malformed? || r.mode == Quoted then []
    else if r.mode == FieldStart && r.record == [] then r.out
    else r.out + [r.record + [r.field]]
  }

  predicate WellFormed(text: string) {
    var r := FeedAll(Reading(FieldStart, "", [], []), text);
    r.Reading? && r.mode != Quoted
  }

  // ---------------------------------------------------------------- they compose

  /** What a cell shows once read back. */
  function Shown(v: Cell): string {
    match v
    case Null => ""
    case Text(raw) => Neutralise(raw)
  }

  function ShownRow(row: seq<Cell>): (fields: seq<string>)
    ensures |fields| == |row|
  {
    if row == [] then [] else [Shown(row[0])] + ShownRow(row[1..])
  }

  function ShownRows(rows: seq<seq<Cell>>): (records: seq<seq<string>>)
    ensures |records| == |rows|
  {
    if rows == [] then [] else [ShownRow(rows[0])] + ShownRows(rows[1..])
  }

  lemma {:induction false} FeedConcat(r: Reader, a: string, b: string)
    ensures FeedAll(r, a + b) == FeedAll(FeedAll(r, a), b)
    decreases |a|
  {
    if a == "" {
      assert a + b == b;
    } else {
      assert (a + b)[1..] == a[1..] + b;
      FeedConcat(Feed(r, a[0]), a[1..], b);
    }
  }

  lemma {:induction false} FeedPlain(r: Reader, s: string)
    requires r.Reading? && (r.mode == FieldStart || r.mode == Unquoted) && !HasSpecial(s)
    ensures FeedAll(r, s) == if s == "" then r else r.(mode := Unquoted, field := r.field + s)
    decreases |s|
  {
    if s != "" {
      assert !Special(s[0]);
      assert forall i :: 0 <= i < |s[1..]| ==> s[1..][i] == s[i + 1];
      FeedPlain(Feed(r, s[0]), s[1..]);
      assert r.field + [s[0]] + s[1..] == r.field + s;
    }
  }

  lemma {:induction false} FeedDoubled(r: Reader, s: string)
    requires r.Reading? && r.mode == Quoted
    ensures FeedAll(r, DoubleQuotes(s)) == r.(field := r.field + s)
    decreases |s|
  {
    if s == "" {
      assert r.field + s == r.field;
    } else {
      var head := if s[0] == '"' then "\"\"" else [s[0]];
      FeedConcat(r, head, DoubleQuotes(s[1..]));
      if s[0] == '"' {
        assert head[1..] == "\"" && head[1..][1..] == "";
        assert FeedAll(Feed(r, '"'), "\"") == FeedAll(Feed(Feed(r, '"'), '"'), "");
      } else {
        assert head[1..] == "";
      }
      assert FeedAll(r, head) == r.(field := r.field + [s[0]]);
      FeedDoubled(r.(field := r.field + [s[0]]), s[1..]);
      assert r.field + [s[0]] + s[1..] == r.field + s;
    }
  }

  /** One printed cell is read back as one field holding exactly the neutralised text. */
  lemma FeedCell(r: Reader, v: Cell)
    requires r.Reading? && r.mode == FieldStart && r.field == ""
    ensures var after := FeedAll(r, CsvCell(v));
            after.Reading? && after.mode != Quoted && after.field == Shown(v) && after.record == r.record && after.out == r.out
  {
    if v.Text? {
      var n := Neutralise(v.s);
      if HasSpecial(n) {
        var open := r.(mode := Quoted);
        assert "\"" + DoubleQuotes(n) + "\"" == "\"" + (DoubleQuotes(n) + "\"");
        FeedConcat(r, "\"", DoubleQuotes(n) + "\"");
        assert FeedAll(r, "\"") == open;
        FeedConcat(open, DoubleQuotes(n), "\"");
        FeedDoubled(open, n);
        assert FeedAll(open.(field := n), "\"") == open.(field := n, mode := AfterQuote);
      } else {
        FeedPlain(r, n);
      }
    }
  }

  lemma JoinTail(parts: seq<string>, sep: char, rest: seq<string>, end: string)
    requires |parts| > 1 && parts[1..] == rest
    ensures Join(parts, sep) + end == parts[0] + ([sep] + (Join(rest, sep) + end))
  {
  }

  lemma FeedCellThen(r: Reader, v: Cell, c: char, rest: string)
    requires r.Reading? && r.mode == FieldStart && r.field == "" && (c == ',' || c == '\n')
    ensures FeedAll(r, CsvCell(v) + ([c] + rest)) ==
            FeedAll(if c == ',' then r.(record := r.record + [Shown(v)])
                    else EndRecord(r, [Shown(v)]), rest)
  {
    FeedCell(r, v);
    FeedConcat(r, CsvCell(v), [c] + rest);
    assert ([c] + rest)[1..] == rest;
  }

  function EndRecord(r: Reader, fields: seq<string>): Reader
    requires r.Reading?
  {
    r.(record := [], out := r.out + [r.record + fields])
  }

  lemma Appended<T>(a: seq<T>, x: T, b: seq<T>)
    ensures a + [x] + b == a + ([x] + b)
  {
  }

  lemma Prefixed<T>(b: seq<T>)
    ensures [] + b == b
  {
  }

  lemma ShownRowStep(r: Reader, row: seq<Cell>)
    requires r.Reading? && row != []
    ensures ShownRow(row) == [Shown(row[0])] + ShownRow(row[1..])
    ensures |row| == 1 ==> ShownRow(row) == [Shown(row[0])]
    ensures EndRecord(r.(record := r.record + [Shown(row[0])]), ShownRow(row[1..])) == EndRecord(r, ShownRow(row))
  {
    assert |row| == 1 ==> row[1..] == [] && ShownRow(row) == [Shown(row[0])];
    Appended(r.record, Shown(row[0]), ShownRow(row[1..]));
  }

  /** A printed row, and the line end after it, is read back as one record. */
  lemma {:induction false} FeedRow(r: Reader, row: seq<Cell>, rest: string)
    requires r.Reading? && r.mode == FieldStart && r.field == "" && row != []
    ensures FeedAll(r, Join(Cells(row), ',') + (['\n'] + rest)) == FeedAll(EndRecord(r, ShownRow(row)), rest)
    decreases |row|
  {
    ShownRowStep(r, row);
    if |row| == 1 {
      FeedCellThen(r, row[0], '\n', rest);
    } else {
      var tail := Join(Cells(row[1..]), ',') + (['\n'] + rest);
      JoinTail(Cells(row), ',', Cells(row[1..]), ['\n'] + rest);
      FeedCellThen(r, row[0], ',', tail);
      FeedRow(r.(record := r.record + [Shown(row[0])]), row[1..], rest);
    }
  }

  lemma ShownRowsStep(r: Reader, rows: seq<seq<Cell>>)
    requires r.Reading? && r.record == [] && rows != []
    ensures EndRecord(r, ShownRow(rows[0])) == r.(out := r.out + [ShownRow(rows[0])])
    ensures r.out + [ShownRow(rows[0])] + ShownRows(rows[1..]) == r.out + ShownRows(rows)
  {
    Prefixed(ShownRow(rows[0]));
    Appended(r.out, ShownRow(rows[0]), ShownRows(rows[1..]));
  }

  lemma {:induction false} FeedLines(r: Reader, rows: seq<seq<Cell>>)
    requires r.Reading? && r.mode == FieldStart && r.field == "" && r.record == [] && rows != []
    requires forall i :: 0 <= i < |rows| ==> rows[i] != []
    ensures FeedAll(r, Join(Lines(rows), '\n') + ['\n']) == r.(out := r.out + ShownRows(rows))
    decreases |rows|
  {
    ShownRowsStep(r, rows);
    if |rows| == 1 {
      FeedRow(r, rows[0], []);
      assert ['\n'] + [] == ['\n'];
      assert ShownRows(rows[1..]) == [];
    } else {
      JoinTail(Lines(rows), '\n', Lines(rows[1..]), ['\n']);
      FeedRow(r, rows[0], Join(Lines(rows[1..]), '\n') + ['\n']);
      FeedLines(r.(out := r.out + [ShownRow(rows[0])]), rows[1..]);
    }
  }

  /** The column names of the export: non-empty words of lower-case letters and underscores. */
  predicate PlainHeaders(headers: seq<string>) {
    headers != [] && forall h :: h in headers ==> h != "" && forall i :: 0 <= i < |h| ==> 'a' <= h[i] <= 'z' || h[i] == '_'
  }

  function HeaderRow(headers: seq<string>): (row: seq<Cell>)
    ensures |row| == |headers|
  {
    if headers == [] then [] else [Text(headers[0])] + HeaderRow(headers[1..])
  }

  lemma Split<T>(s: seq<T>)
    requires s != []
    ensures s == [s[0]] + s[1..]
  {
  }

  lemma {:induction false} HeaderLine(headers: seq<string>)
    requires headers == [] || PlainHeaders(headers)
    ensures Cells(HeaderRow(headers)) == headers && ShownRow(HeaderRow(headers)) == headers
  {
    if headers != [] {
      assert headers[0] in headers && forall h :: h in headers[1..] ==> h in headers;
      assert CsvCell(Text(headers[0])) == headers[0] == Shown(Text(headers[0]));
      HeaderLine(headers[1..]);
      assert HeaderRow(headers)[0] == Text(headers[0]) && HeaderRow(headers)[1..] == HeaderRow(headers[1..]);
      Split(headers);
    }
  }

  lemma ExportText(headers: seq<string>, rows: seq<seq<Cell>>)
    requires PlainHeaders(headers)
    ensures TradesToCsv(headers, rows) == Join(Lines([HeaderRow(headers)] + rows), '\n') + ['\n']
  {
    HeaderLine(headers);
    assert ([HeaderRow(headers)] + rows)[1..] == rows;
  }

  lemma ShownAll(headers: seq<string>, rows: seq<seq<Cell>>)
    requires PlainHeaders(headers)
    ensures ShownRows([HeaderRow(headers)] + rows) == [headers] + ShownRows(rows)
  {
    HeaderLine(headers);
    assert ([HeaderRow(headers)] + rows)[1..] == rows;
  }

  /** Reading the export back yields the header and one record per row, cell for cell. */
  lemma ExportReadsBack(headers: seq<string>, rows: seq<seq<Cell>>)
    requires PlainHeaders(headers) && forall i :: 0 <= i < |rows| ==> |rows[i]| == |headers|
    ensures WellFormed(TradesToCsv(headers, rows))
    ensures Read(TradesToCsv(headers, rows)) == [headers] + ShownRows(rows)
  {
    ExportText(headers, rows);
    ShownAll(headers, rows);
    FeedLines(Reading(FieldStart, "", [], []), [HeaderRow(headers)] + rows);
  }

  lemma {:induction false} ShownRowAt(row: seq<Cell>, k: nat)
    requires k < |row|
    ensures ShownRow(row)[k] == Shown(row[k])
  {
    if k > 0 {
      ShownRowAt(row[1..], k - 1);
    }
  }

  lemma {:induction false} ShownRowsAt(rows: seq<seq<Cell>>, i: nat)
    requires i < |rows|
    ensures ShownRows(rows)[i] == ShownRow(rows[i])
  {
    if i > 0 {
      ShownRowsAt(rows[1..], i - 1);
    }
  }

  /** A character no spreadsheet takes for the start of a formula. */
  predicate Harmless(c: char) {
    c != '@' && c != '=' && c != '+' && c != '-' && c != '\r' && c != '\t'
  }

  /** No field read back begins with a character a spreadsheet would evaluate. */
  lemma NoFormulaSurvives(headers: seq<string>, rows: seq<seq<Cell>>, i: nat, k: nat)
    requires PlainHeaders(headers) && forall j :: 0 <= j < |rows| ==> |rows[j]| == |headers|
    requires i < |Read(TradesToCsv(headers, rows))| && k < |Read(TradesToCsv(headers, rows))[i]|
    ensures var f := Read(TradesToCsv(headers, rows))[i][k]; f == "" || Harmless(f[0])
  {
    ExportReadsBack(headers, rows);
    if i == 0 {
      assert headers[k] in headers;
    } else {
      ShownRowsAt(rows, i - 1);
      ShownRowAt(rows[i - 1], k);
    }
  }

  /** Every other cell comes back with its text unchanged. */
  lemma HarmlessCellsUnchanged(headers: seq<string>, rows: seq<seq<Cell>>, i: nat, k: nat)
    requires PlainHeaders(headers) && forall j :: 0 <= j < |rows| ==> |rows[j]| == |headers|
    requires i < |rows| && k < |headers| && rows[i][k].Text?
    ensures var records := Read(TradesToCsv(headers, rows)); var raw := rows[i][k].s;
            && |records| == |rows| + 1 && |records[i + 1]| == |headers|
            && (records[i + 1][k] == raw <==> raw == "" || Harmless(raw[0]))
            && (records[i + 1][k] == raw || records[i + 1][k] == "'" + raw)
  {
    ExportReadsBack(headers, rows);
    ShownRowsAt(rows, i);
    ShownRowAt(rows[i], k);
    var raw := rows[i][k].s;
    assert |Neutralise(raw)| == |raw| || |Neutralise(raw)| == |raw| + 1;
  }

  /** A cell is written as it is exactly when it is empty or begins with no formula character and holds no separator, quote,
      apostrophe, tab or line end. */
  lemma PlainExactly(raw: string)
    ensures CsvCell(Text(raw)) == raw <==>
              && (raw == "" || Harmless(raw[0]))
              && forall i :: 0 <= i < |raw| ==> raw[i] !in ['"', '\'', ',', '\n', '\r', '\t']
  {
    var n := Neutralise(raw);
    if HasSpecial(n) {
      DoublingGrows(n);
      assert |CsvCell(Text(raw))| > |n| >= |raw|;
      if n == raw {
        var i :| 0 <= i < |n| && Special(n[i]);
        assert raw[i] == n[i];
      }
    } else {
      assert n == raw ==> forall i :: 0 <= i < |raw| ==> !Special(raw[i]);
      assert n != raw ==> |n| == |raw| + 1;
    }
  }

  lemma {:induction false} DoublingGrows(s: string)
    ensures |DoubleQuotes(s)| >= |s|
  {
    if s != "" {
      DoublingGrows(s[1..]);
    }
  }
}
