/** The character-level CSV reader used by the challenge importer.

    The text is first cleaned (a leading byte order mark is dropped, CR LF
    and lone CR become LF) and then read row by row with a cursor.  The
    reading is specified by functions of the cleaned text and a cursor
    position (QuotedAt, FieldAt, RowAt, TableAt); the methods
    ParseQuotedField, ParseField, ParseRow and ParseCsv advance the cursor
    as the original does and are proved to compute exactly those functions.
    The lemmas at the end of the module say what the reader accepts and
    that it reads back what EncodeTable writes. */
module CsvSimpleParser {
  import opened Wrappers
  import Lists

  const Bom: char := '\U{FEFF}'

  datatype CsvError =
    | EmptyText
    | UnexpectedCharacter(position: nat, c: char)
    | ColumnCountMismatch(line: nat, expected: nat, actual: nat)
    | NoHeaderRow

  /** One data row: header name to field value. */
  type Record = map<string, string>

  // ---------------------------------------------------------------------
  // Cleaning the text

  /** RemoveBOM: drops one leading U+FEFF. */
  function RemoveBom(text: string): string
  {
    if |text| > 0 && text[0] == Bom then text[1..] else text
  }

  /** text.Replace("\r\n", "\n"), scanning left to right. */
  function ReplaceCrLf(s: string): string
  {
    if |s| >= 2 && s[0] == '\r' && s[1] == '\n' then "\n" + ReplaceCrLf(s[2..])
    else if s == [] then []
    else [s[0]] + ReplaceCrLf(s[1..])
  }

  /** text.Replace("\r", "\n"). */
  function ReplaceCr(s: string): string
  {
    if s == [] then [] else [if s[0] == '\r' then '\n' else s[0]] + ReplaceCr(s[1..])
  }

  function NormalizeNewlines(s: string): string
  {
    ReplaceCr(ReplaceCrLf(s))
  }

  /** The text the reader works on. */
  function Clean(text: string): string
  {
    NormalizeNewlines(RemoveBom(text))
  }

  // ---------------------------------------------------------------------
  // The reader, as functions of the text and the cursor

  /** The rest of a quoted field from position p on (after the opening
      quote, or after the part already read into acc): the field value and
      the position after the closing quote.  A doubled quote stands for one
      quote; a quote that is not doubled closes the field; the end of the
      text also ends it, without an error. */
  function QuotedAt(t: string, p: nat, acc: string): (r: (string, nat))
    requires p <= |t|
    ensures p <= r.1 <= |t|
    decreases |t| - p
  {
    if p == |t| then (acc, p)
    else if t[p] == '"' then
      if p + 1 < |t| && t[p + 1] == '"' then QuotedAt(t, p + 2, acc + ['"'])
      else (acc, p + 1)
    else QuotedAt(t, p + 1, acc + [t[p]])
  }

  predicate IsDelimiter(c: char) {
    c == ',' || c == '\n'
  }

  /** Where an unquoted field that starts at p ends: at the first comma or
      newline, or at the end of the text. */
  function PlainEnd(t: string, p: nat): (n: nat)
    requires p <= |t|
    ensures p <= n <= |t|
    ensures forall i :: p <= i < n ==> !IsDelimiter(t[i])
    ensures n < |t| ==> IsDelimiter(t[n])
    decreases |t| - p
  {
    if p == |t| || IsDelimiter(t[p]) then p else PlainEnd(t, p + 1)
  }

  /** The field at p and the position after it. */
  function FieldAt(t: string, p: nat): (r: (string, nat))
    requires p <= |t|
    ensures p <= r.1 <= |t|
  {
    if p == |t| then ("", p)
    else if t[p] == '"' then QuotedAt(t, p + 1, "")
    else
      var n := PlainEnd(t, p);
      (t[p..n], n)
  }

  datatype RowResult =
    | Row(fields: seq<string>, next: nat)
    | RowError(position: nat)

  /** The rest of a row from p on, acc holding the fields read so far.  A
      row ends at a newline, which is consumed, or at the end of the text; a
      comma that is the last character of the text adds no field.  After a
      field, anything but a comma, a newline or the end of the text is an
      error at that position. */
  function RowAt(t: string, p: nat, acc: seq<string>): (r: RowResult)
    requires p <= |t|
    ensures r.Row? ==> p <= r.next <= |t| && (p < |t| ==> p < r.next)
    ensures r.RowError? ==> p <= r.position < |t| && !IsDelimiter(t[r.position])
    decreases |t| - p
  {
    if p == |t| then Row(acc, p)
    else
      var (f, q) := FieldAt(t, p);
      if q == |t| then Row(acc + [f], q)
      else if t[q] == ',' then RowAt(t, q + 1, acc + [f])
      else if t[q] == '\n' then Row(acc + [f], q + 1)
      else RowError(q)
  }

  /** The dictionary of one data row, filled column by column, so that a
      later duplicate header overwrites an earlier one. */
  function RowMap(header: seq<string>, row: seq<string>): Record
    requires |header| == |row|
    decreases |header|
  {
    if header == [] then map[]
    else RowMap(header[..|header| - 1], row[..|row| - 1])[header[|header| - 1] := row[|row| - 1]]
  }

  /** A row the reader skips: no field, or a single empty field. */
  predicate IsSkipped(row: seq<string>) {
    |row| == 0 || (|row| == 1 && row[0] == "")
  }

  /** The rows of the cleaned text from p on: line is the number of rows
      read so far, header the header once seen, acc the data rows so far. */
  function TableAt(t: string, p: nat, line: nat, header: Option<seq<string>>, acc: seq<Record>)
    : Result<seq<Record>, CsvError>
    requires p <= |t|
    decreases |t| - p
  {
    if p == |t| then
      if header.None? then Failure(NoHeaderRow) else Success(acc)
    else
      match RowAt(t, p, [])
      case RowError(q) => Failure(UnexpectedCharacter(q, t[q]))
      case Row(row, q) =>
        if IsSkipped(row) then TableAt(t, q, line + 1, header, acc)
        else if header.None? then TableAt(t, q, line + 1, Some(row), acc)
        else if |row| != |header.value| then
          Failure(ColumnCountMismatch(line + 1, |header.value|, |row|))
        else TableAt(t, q, line + 1, header, acc + [RowMap(header.value, row)])
  }

  /** ParseCSV as a function of the input text. */
  function ParseText(text: string): Result<seq<Record>, CsvError>
  {
    if text == [] then Failure(EmptyText)
    else TableAt(Clean(text), 0, 0, None, [])
  }

  // ---------------------------------------------------------------------
  // The reader with a cursor

  /** ParseQuotedField: start is the position of the opening quote. */
  method ParseQuotedField(text: string, start: nat) returns (field: string, pos: nat)
    requires start < |text|
    ensures (field, pos) == QuotedAt(text, start + 1, "")
  {
    pos := start + 1;
    var sb := "";
    while pos < |text|
      invariant start + 1 <= pos <= |text|
      invariant QuotedAt(text, pos, sb) == QuotedAt(text, start + 1, "")
      decreases |text| - pos
    {
      var c := text[pos];
      if c == '"' {
        pos := pos + 1;
        if pos < |text| && text[pos] == '"' {
          sb := sb + ['"'];
          pos := pos + 1;
        } else {
          break;
        }
      } else {
        sb := sb + [c];
        pos := pos + 1;
      }
    }
    field := sb;
  }

  /** ParseField: a quoted field, or the text up to the next comma or
      newline. */
  method ParseField(text: string, start: nat) returns (field: string, pos: nat)
    requires start <= |text|
    ensures (field, pos) == FieldAt(text, start)
  {
    if start >= |text| {
      return "", start;
    }
    if text[start] == '"' {
      field, pos := ParseQuotedField(text, start);
      return;
    }
    var sb := "";
    pos := start;
    while pos < |text|
      invariant start <= pos <= |text|
      invariant PlainEnd(text, pos) == PlainEnd(text, start)
      invariant sb == text[start..pos]
      decreases |text| - pos
    {
      var c := text[pos];
      if c == ',' || c == '\n' {
        break;
      }
      sb := sb + [c];
      pos := pos + 1;
    }
    field := sb;
  }

  /** ParseRow: the fields of one row and the cursor after it, or the
      position of an unexpected character. */
  method ParseRow(text: string, start: nat) returns (r: RowResult)
    requires start <= |text|
    ensures r == RowAt(text, start, [])
  {
    var row: seq<string> := [];
    var pos := start;
    while pos < |text|
      invariant start <= pos <= |text|
      invariant RowAt(text, pos, row) == RowAt(text, start, [])
      decreases |text| - pos
    {
      var field, next := ParseField(text, pos);
      row := row + [field];
      pos := next;
      if pos >= |text| {
        break;
      }
      var nextChar := text[pos];
      if nextChar == ',' {
        pos := pos + 1;
      } else if nextChar == '\n' {
        pos := pos + 1;
        break;
      } else {
        return RowError(pos);
      }
    }
    return Row(row, pos);
  }

  /** ParseCSV: the data rows of the text as header-keyed dictionaries, or
      the error the original signals by an exception. */
  method ParseCsv(csvText: string) returns (result: Result<seq<Record>, CsvError>)
    ensures result == ParseText(csvText)
  {
    if csvText == [] {
      return Failure(EmptyText);
    }
    var text := RemoveBom(csvText);
    text := NormalizeNewlines(text);
    var rows: seq<Record> := [];
    var headers: Option<seq<string>> := None;
    var pos := 0;
    var lineNumber := 0;
    while pos < |text|
      invariant pos <= |text|
      invariant TableAt(text, pos, lineNumber, headers, rows) == ParseText(csvText)
      decreases |text| - pos
    {
      lineNumber := lineNumber + 1;
      var parsed := ParseRow(text, pos);
      if parsed.RowError? {
        return Failure(UnexpectedCharacter(parsed.position, text[parsed.position]));
      }
      var row := parsed.fields;
      pos := parsed.next;
      if |row| == 0 || (|row| == 1 && row[0] == "") {
        continue;
      }
      if headers.None? {
        headers := Some(row);
        continue;
      }
      var header := headers.value;
      if |row| != |header| {
        return Failure(ColumnCountMismatch(lineNumber, |header|, |row|));
      }
      var rowDict: Record := map[];
      for i := 0 to |header|
        invariant rowDict == RowMap(header[..i], row[..i])
      {
        assert header[..i + 1][..i] == header[..i];
        assert row[..i + 1][..i] == row[..i];
        rowDict := rowDict[header[i] := row[i]];
      }
      assert header[..|header|] == header && row[..|row|] == row;
      rows := rows + [rowDict];
    }
    if headers.None? {
      return Failure(NoHeaderRow);
    }
    return Success(rows);
  }

  // ---------------------------------------------------------------------
  // What the reader accepts

  /** x occurs in t at position p. */
  predicate At(t: string, p: nat, x: string) {
    p + |x| <= |t| && forall i :: 0 <= i < |x| ==> t[p + i] == x[i]
  }

  lemma AtConcat(t: string, p: nat, x: string, y: string)
    ensures At(t, p, x + y) <==> At(t, p, x) && At(t, p + |x|, y)
  {
    if At(t, p, x) && At(t, p + |x|, y) {
      forall i | 0 <= i < |x + y| ensures t[p + i] == (x + y)[i] {
        if i >= |x| {
          assert t[p + |x| + (i - |x|)] == y[i - |x|];
        }
      }
    }
    if At(t, p, x + y) {
      forall i | 0 <= i < |x| ensures t[p + i] == x[i] {
        assert t[p + i] == (x + y)[i];
      }
      forall i | 0 <= i < |y| ensures t[p + |x| + i] == y[i] {
        assert t[p + (|x| + i)] == (x + y)[|x| + i];
      }
    }
  }

  lemma AtChar(t: string, p: nat, c: char)
    ensures At(t, p, [c]) <==> p < |t| && t[p] == c
  {
    if At(t, p, [c]) {
      assert t[p + 0] == [c][0];
    }
  }

  /** A field value written inside quotes: every quote doubled. */
  function Escape(x: string): string
  {
    if x == [] then []
    else (if x[0] == '"' then "\"\"" else [x[0]]) + Escape(x[1..])
  }

  /** A field written as a quoted field. */
  function Quote(x: string): string
  {
    "\"" + Escape(x) + "\""
  }

  /** The fields of one row written as quoted fields separated by commas. */
  function EncodeFields(fields: seq<string>): string
    requires |fields| >= 1
  {
    if |fields| == 1 then Quote(fields[0])
    else Quote(fields[0]) + "," + EncodeFields(fields[1..])
  }

  function EncodeRow(fields: seq<string>): string
    requires |fields| >= 1
  {
    EncodeFields(fields) + "\n"
  }

  function EncodeRows(rows: seq<seq<string>>): string
    requires forall k :: 0 <= k < |rows| ==> |rows[k]| >= 1
  {
    if rows == [] then [] else EncodeRow(rows[0]) + EncodeRows(rows[1..])
  }

  /** A header row followed by data rows, each line ended by a newline. */
  function EncodeTable(header: seq<string>, rows: seq<seq<string>>): string
    requires |header| >= 1
    requires forall k :: 0 <= k < |rows| ==> |rows[k]| >= 1
  {
    EncodeRow(header) + EncodeRows(rows)
  }

  /** The records that data rows under one header become. */
  function Records(header: seq<string>, rows: seq<seq<string>>): (r: seq<Record>)
    requires forall k :: 0 <= k < |rows| ==> |rows[k]| == |header|
    ensures |r| == |rows|
  {
    if rows == [] then [] else [RowMap(header, rows[0])] + Records(header, rows[1..])
  }

  /** Inside quotes, a doubled quote reads as one quote and commas and
      newlines are kept; the first quote that is not doubled ends the
      field. */
  lemma {:induction false} QuotedEscaped(t: string, p: nat, x: string, acc: string)
    requires At(t, p, Escape(x) + "\"")
    requires var q := p + |Escape(x)| + 1; q == |t| || t[q] != '"'
    ensures QuotedAt(t, p, acc) == (acc + x, p + |Escape(x)| + 1)
    decreases |x|
  {
    AtConcat(t, p, Escape(x), "\"");
    if x == [] {
      assert Escape(x) == [] && acc + x == acc;
      AtChar(t, p, '"');
    } else if x[0] == '"' {
      assert Escape(x) + "\"" == "\"\"" + (Escape(x[1..]) + "\"");
      AtConcat(t, p, "\"\"", Escape(x[1..]) + "\"");
      assert t[p + 0] == "\"\""[0] && t[p + 1] == "\"\""[1];
      QuotedEscaped(t, p + 2, x[1..], acc + ['"']);
      assert acc + ['"'] + x[1..] == acc + x;
    } else {
      assert Escape(x) + "\"" == [x[0]] + (Escape(x[1..]) + "\"");
      AtConcat(t, p, [x[0]], Escape(x[1..]) + "\"");
      AtChar(t, p, x[0]);
      QuotedEscaped(t, p + 1, x[1..], acc + [x[0]]);
      assert acc + [x[0]] + x[1..] == acc + x;
    }
  }

  /** An opening quote that is never closed: the rest of the text is the
      field value, and no error is raised. */
  lemma {:induction false} QuotedUnterminated(t: string, p: nat, x: string, acc: string)
    requires At(t, p, Escape(x)) && p + |Escape(x)| == |t|
    ensures QuotedAt(t, p, acc) == (acc + x, |t|)
    decreases |x|
  {
    if x == [] {
      assert Escape(x) == [] && acc + x == acc;
    } else if x[0] == '"' {
      assert Escape(x) == "\"\"" + Escape(x[1..]);
      AtConcat(t, p, "\"\"", Escape(x[1..]));
      assert t[p + 0] == "\"\""[0] && t[p + 1] == "\"\""[1];
      QuotedUnterminated(t, p + 2, x[1..], acc + ['"']);
      assert acc + ['"'] + x[1..] == acc + x;
    } else {
      assert Escape(x) == [x[0]] + Escape(x[1..]);
      AtConcat(t, p, [x[0]], Escape(x[1..]));
      AtChar(t, p, x[0]);
      QuotedUnterminated(t, p + 1, x[1..], acc + [x[0]]);
      assert acc + [x[0]] + x[1..] == acc + x;
    }
  }

  /** A quote-free value is its own escape. */
  lemma {:induction false} EscapeQuoteFree(x: string)
    requires '"' !in x
    ensures Escape(x) == x
  {
    if x != [] {
      EscapeQuoteFree(x[1..]);
      assert x == [x[0]] + x[1..];
    }
  }

  /** A quoted field reads back as its value. */
  lemma FieldQuoted(t: string, p: nat, x: string)
    requires At(t, p, Quote(x))
    requires var q := p + |Quote(x)|; q == |t| || t[q] != '"'
    ensures FieldAt(t, p) == (x, p + |Quote(x)|)
  {
    assert Quote(x) == "\"" + (Escape(x) + "\"");
    AtConcat(t, p, "\"", Escape(x) + "\"");
    AtChar(t, p, '"');
    QuotedEscaped(t, p + 1, x, "");
    assert "" + x == x;
  }

  /** An unquoted field runs to the next comma or newline; a quote that is
      not its first character is ordinary text. */
  lemma FieldPlain(t: string, p: nat, x: string)
    requires forall i :: 0 <= i < |x| ==> !IsDelimiter(x[i])
    requires x == [] || x[0] != '"'
    requires At(t, p, x)
    requires var q := p + |x|; q == |t| || IsDelimiter(t[q])
    ensures FieldAt(t, p) == (x, p + |x|)
  {
    if p < |t| {
      var n := PlainEnd(t, p);
      forall i | p <= i < p + |x| ensures !IsDelimiter(t[i]) {
        assert t[p + (i - p)] == x[i - p];
      }
      assert forall i :: 0 <= i < |x| ==> t[p..n][i] == t[p + i];
      assert t[p..n] == x;
    }
  }

  /** Where a row can end: at the end of the text, at a newline, or at a
      comma that is the last character of the text. */
  predicate EndsRow(t: string, q: nat) {
    q == |t| || (q < |t| && t[q] == '\n') || (q + 1 == |t| && t[q] == ',')
  }

  /** Where the next row starts after a row ending at q. */
  function RowNext(t: string, q: nat): nat {
    if q == |t| then q else q + 1
  }

  /** A row written by EncodeFields reads back as its fields, whether it is
      ended by a newline, by the end of the text, or by a comma that is the
      last character of the text (which adds no field). */
  lemma {:induction false} RowEncoded(t: string, p: nat, fields: seq<string>, acc: seq<string>)
    requires |fields| >= 1
    requires At(t, p, EncodeFields(fields)) && EndsRow(t, p + |EncodeFields(fields)|)
    ensures RowAt(t, p, acc) == Row(acc + fields, RowNext(t, p + |EncodeFields(fields)|))
    decreases |fields|
  {
    if |fields| == 1 {
      assert [fields[0]] == fields;
      RowLastField(t, p, fields[0], acc);
    } else {
      var f, tail := fields[0], fields[1..];
      var next := p + |Quote(f)| + 1;
      FieldsSplit(t, p, fields, f, tail, next);
      RowEncoded(t, next, tail, acc + [f]);
      RowEncodedStep(t, p, fields, acc, f, tail, next, RowNext(t, p + |EncodeFields(fields)|));
    }
  }

  /** The text of several encoded fields: the first field, a comma, the
      others. */
  lemma FieldsSplit(t: string, p: nat, fields: seq<string>, f: string, tail: seq<string>, next: nat)
    requires |fields| >= 2 && f == fields[0] && tail == fields[1..] && next == p + |Quote(f)| + 1
    requires At(t, p, EncodeFields(fields))
    ensures At(t, p, Quote(f)) && next <= |t| && t[next - 1] == ',' && At(t, next, EncodeFields(tail))
    ensures next + |EncodeFields(tail)| == p + |EncodeFields(fields)|
  {
    var rest := EncodeFields(tail);
    assert EncodeFields(fields) == Quote(f) + [','] + rest;
    Lists.AppendAssoc(Quote(f), [','], rest);
    var comma := p + |Quote(f)|;
    AtConcat(t, p, Quote(f), [','] + rest);
    AtConcat(t, comma, [','], rest);
    AtChar(t, comma, ',');
    assert comma + |[',']| == next;
  }

  /** A quoted field and a comma, then the rest of the row. */
  lemma RowEncodedStep(t: string, p: nat, fields: seq<string>, acc: seq<string>, f: string, tail: seq<string>,
                       next: nat, end: nat)
    requires |fields| >= 2 && f == fields[0] && tail == fields[1..] && next == p + |Quote(f)| + 1
    requires At(t, p, Quote(f)) && next <= |t| && t[next - 1] == ','
    requires RowAt(t, next, acc + [f]) == Row(acc + [f] + tail, end)
    ensures RowAt(t, p, acc) == Row(acc + fields, end)
  {
    FieldQuoted(t, p, f);
    RowAfterComma(t, p, acc, f, next - 1);
    assert fields == [f] + tail;
    Lists.AppendAssoc(acc, [f], tail);
  }

  /** The last field of a row written by EncodeFields. */
  lemma RowLastField(t: string, p: nat, f: string, acc: seq<string>)
    requires At(t, p, Quote(f)) && EndsRow(t, p + |Quote(f)|)
    ensures RowAt(t, p, acc) == Row(acc + [f], RowNext(t, p + |Quote(f)|))
  {
    var q := p + |Quote(f)|;
    FieldQuoted(t, p, f);
    if q + 1 == |t| && t[q] == ',' {
      assert RowAt(t, q + 1, acc + [f]) == Row(acc + [f], q + 1);
    }
  }

  /** A field followed by a comma: the row goes on after the comma. */
  lemma RowAfterComma(t: string, p: nat, acc: seq<string>, f: string, q: nat)
    requires p < |t| && FieldAt(t, p) == (f, q) && q < |t| && t[q] == ','
    ensures RowAt(t, p, acc) == RowAt(t, q + 1, acc + [f])
  {
  }

  /** A comma that is the last character of the text ends the row with no
      empty field after it. */
  lemma RowTrailingComma(t: string, p: nat, acc: seq<string>, f: string)
    requires p < |t| && FieldAt(t, p) == (f, |t| - 1) && t[|t| - 1] == ','
    ensures RowAt(t, p, acc) == Row(acc + [f], |t|)
  {
  }

  /** After a closing quote, a character other than a comma, a newline or
      another quote is an error at its position. */
  lemma RowUnexpectedAfterQuote(t: string, p: nat, x: string, acc: seq<string>)
    requires At(t, p, Quote(x))
    requires var q := p + |Quote(x)|; q < |t| && !IsDelimiter(t[q]) && t[q] != '"'
    ensures RowAt(t, p, acc) == RowError(p + |Quote(x)|)
    ensures TableAt(t, p, 0, None, []) == Failure(UnexpectedCharacter(p + |Quote(x)|, t[p + |Quote(x)|]))
  {
    FieldQuoted(t, p, x);
  }

  /** A row written by EncodeRow, then the text after it. */
  lemma RowEncodedLine(t: string, p: nat, fields: seq<string>)
    requires |fields| >= 1
    requires At(t, p, EncodeRow(fields))
    ensures RowAt(t, p, []) == Row(fields, p + |EncodeRow(fields)|)
  {
    var body := EncodeFields(fields);
    AtConcat(t, p, body, "\n");
    AtChar(t, p + |body|, '\n');
    RowEncoded(t, p, fields, []);
    assert [] + fields == fields;
  }

  /** One data row of the right width is turned into its record. */
  lemma TableStepRecord(t: string, p: nat, q: nat, line: nat, header: seq<string>,
                        row: seq<string>, acc: seq<Record>, record: Record)
    requires p < |t| && RowAt(t, p, []) == Row(row, q)
    requires !IsSkipped(row) && |row| == |header| && record == RowMap(header, row)
    ensures TableAt(t, p, line, Some(header), acc)
            == TableAt(t, q, line + 1, Some(header), acc + [record])
  {
  }

  /** The first row that is not skipped becomes the header. */
  lemma TableStepHeader(t: string, p: nat, q: nat, line: nat, row: seq<string>, acc: seq<Record>)
    requires p < |t| && RowAt(t, p, []) == Row(row, q)
    requires !IsSkipped(row)
    ensures TableAt(t, p, line, None, acc) == TableAt(t, q, line + 1, Some(row), acc)
  {
  }

  /** A data row of the wrong width is an error naming the row counter. */
  lemma TableStepMismatch(t: string, p: nat, q: nat, line: nat, header: seq<string>,
                          row: seq<string>, acc: seq<Record>)
    requires p < |t| && RowAt(t, p, []) == Row(row, q)
    requires !IsSkipped(row) && |row| != |header|
    ensures TableAt(t, p, line, Some(header), acc)
            == Failure(ColumnCountMismatch(line + 1, |header|, |row|))
  {
  }

  /** EncodeRows of a non-empty list: the first row, then the others. */
  lemma AtRows(t: string, p: nat, rows: seq<seq<string>>)
    requires rows != [] && forall k :: 0 <= k < |rows| ==> |rows[k]| >= 1
    requires At(t, p, EncodeRows(rows))
    ensures At(t, p, EncodeRow(rows[0]))
    ensures At(t, p + |EncodeRow(rows[0])|, EncodeRows(rows[1..]))
    ensures |EncodeRows(rows)| == |EncodeRow(rows[0])| + |EncodeRows(rows[1..])|
  {
    var first := EncodeRow(rows[0]);
    var rest := EncodeRows(rows[1..]);
    assert EncodeRows(rows) == first + rest;
    AtConcat(t, p, first, rest);
  }

  /** Data rows written by EncodeRows read back as their records. */
  lemma {:induction false} TableEncoded(t: string, p: nat, line: nat, header: seq<string>,
                                        rows: seq<seq<string>>, acc: seq<Record>)
    requires forall k :: 0 <= k < |rows| ==> |rows[k]| == |header| && !IsSkipped(rows[k])
    requires |header| >= 1
    requires At(t, p, EncodeRows(rows)) && p + |EncodeRows(rows)| == |t|
    ensures TableAt(t, p, line, Some(header), acc) == Success(acc + Records(header, rows))
    decreases |rows|
  {
    if rows == [] {
      assert acc + Records(header, rows) == acc;
    } else {
      var q := p + |EncodeRow(rows[0])|;
      AtRows(t, p, rows);
      TableEncoded(t, q, line + 1, header, rows[1..], acc + [RowMap(header, rows[0])]);
      TableEncodedStep(t, p, line, header, rows, acc, q, RowMap(header, rows[0]), Records(header, rows[1..]));
    }
  }

  /** The first of the data rows written by EncodeRows becomes a record,
      and the table goes on with the others. */
  lemma TableEncodedStep(t: string, p: nat, line: nat, header: seq<string>, rows: seq<seq<string>>, acc: seq<Record>,
                         q: nat, record: Record, rest: seq<Record>)
    requires rows != [] && |header| >= 1
    requires forall k :: 0 <= k < |rows| ==> |rows[k]| == |header| && !IsSkipped(rows[k])
    requires At(t, p, EncodeRows(rows))
    requires q == p + |EncodeRow(rows[0])| <= |t|
    requires record == RowMap(header, rows[0]) && rest == Records(header, rows[1..])
    requires TableAt(t, q, line + 1, Some(header), acc + [record]) == Success(acc + [record] + rest)
    ensures TableAt(t, p, line, Some(header), acc) == Success(acc + Records(header, rows))
  {
    AtRows(t, p, rows);
    RowEncodedLine(t, p, rows[0]);
    TableStepRecord(t, p, q, line, header, rows[0], acc, record);
    assert Records(header, rows) == [record] + rest;
    Lists.AppendAssoc(acc, [record], rest);
  }

  /** The first data row whose field count differs from the header's is
      reported with the row counter (a row with quoted newlines counts once),
      the expected and the actual count. */
  lemma {:induction false} TableMismatch(t: string, p: nat, line: nat, header: seq<string>,
                                         rows: seq<seq<string>>, acc: seq<Record>, k: nat,
                                         rowNumber: nat, width: nat)
    requires forall j :: 0 <= j < |rows| ==> |rows[j]| >= 1 && !IsSkipped(rows[j])
    requires k < |rows| && |rows[k]| != |header|
    requires forall j :: 0 <= j < k ==> |rows[j]| == |header|
    requires At(t, p, EncodeRows(rows))
    requires rowNumber == line + k + 1 && width == |rows[k]|
    ensures TableAt(t, p, line, Some(header), acc) == Failure(ColumnCountMismatch(rowNumber, |header|, width))
    decreases k
  {
    AtRows(t, p, rows);
    var q := p + |EncodeRow(rows[0])|;
    RowEncodedLine(t, p, rows[0]);
    if k == 0 {
      TableStepMismatch(t, p, q, line, header, rows[0], acc);
    } else {
      var record := RowMap(header, rows[0]);
      assert width == |rows[1..][k - 1]|;
      TableMismatch(t, q, line + 1, header, rows[1..], acc + [record], k - 1, rowNumber, width);
      TableMismatchStep(t, p, line, header, rows, acc, q, record, rowNumber, width);
    }
  }

  /** A record, then the table that fails further on. */
  lemma TableMismatchStep(t: string, p: nat, line: nat, header: seq<string>, rows: seq<seq<string>>,
                          acc: seq<Record>, q: nat, record: Record, rowNumber: nat, width: nat)
    requires rows != [] && |rows[0]| == |header| && !IsSkipped(rows[0])
    requires p < |t| && RowAt(t, p, []) == Row(rows[0], q)
    requires record == RowMap(header, rows[0])
    requires TableAt(t, q, line + 1, Some(header), acc + [record]) ==
             Failure(ColumnCountMismatch(rowNumber, |header|, width))
    ensures TableAt(t, p, line, Some(header), acc) == Failure(ColumnCountMismatch(rowNumber, |header|, width))
  {
    TableStepRecord(t, p, q, line, header, rows[0], acc, record);
  }

  // Carriage returns

  lemma {:induction false} ReplaceCrLfFree(s: string)
    requires '\r' !in s
    ensures ReplaceCrLf(s) == s
  {
    if s != [] {
      ReplaceCrLfFree(s[1..]);
      assert s == [s[0]] + s[1..];
    }
  }

  lemma {:induction false} ReplaceCrFree(s: string)
    requires '\r' !in s
    ensures ReplaceCr(s) == s
  {
    if s != [] {
      ReplaceCrFree(s[1..]);
      assert s == [s[0]] + s[1..];
    }
  }

  /** Text without carriage returns is not changed by the newline cleanup. */
  lemma NormalizeFree(s: string)
    requires '\r' !in s
    ensures NormalizeNewlines(s) == s
  {
    ReplaceCrLfFree(s);
    ReplaceCrFree(s);
  }

  /** No carriage return survives the newline cleanup. */
  lemma {:induction false} NormalizeRemovesCr(s: string)
    ensures '\r' !in NormalizeNewlines(s)
  {
    ReplaceCrRemovesCr(ReplaceCrLf(s));
  }

  lemma {:induction false} ReplaceCrRemovesCr(s: string)
    ensures '\r' !in ReplaceCr(s)
  {
    if s != [] {
      ReplaceCrRemovesCr(s[1..]);
    }
  }

  lemma {:induction false} ReplaceCrConcat(a: string, b: string)
    ensures ReplaceCr(a + b) == ReplaceCr(a) + ReplaceCr(b)
    decreases |a|
  {
    if a == [] {
      assert a + b == b;
    } else {
      assert (a + b)[1..] == a[1..] + b;
      ReplaceCrConcat(a[1..], b);
    }
  }

  predicate EndsWithCr(s: string) {
    |s| > 0 && s[|s| - 1] == '\r'
  }

  predicate StartsWithLf(s: string) {
    |s| > 0 && s[0] == '\n'
  }

  lemma ReplaceCrLfCons(c: char, s: string)
    requires !(c == '\r' && StartsWithLf(s))
    ensures ReplaceCrLf([c] + s) == [c] + ReplaceCrLf(s)
  {
    assert ([c] + s)[1..] == s;
  }

  lemma ReplaceCrLfPair(s: string)
    ensures ReplaceCrLf("\r\n" + s) == "\n" + ReplaceCrLf(s)
  {
    assert ("\r\n" + s)[2..] == s;
  }

  /** The CR LF replacement works piecewise unless a CR LF pair straddles
      the cut. */
  lemma {:induction false} ReplaceCrLfConcat(a: string, b: string)
    requires !(EndsWithCr(a) && StartsWithLf(b))
    ensures ReplaceCrLf(a + b) == ReplaceCrLf(a) + ReplaceCrLf(b)
    decreases |a|
  {
    if a == [] {
      assert a + b == b;
    } else if |a| >= 2 && a[0] == '\r' && a[1] == '\n' {
      var a' := a[2..];
      assert a == "\r\n" + a';
      if a' != [] {
        assert EndsWithCr(a') == EndsWithCr(a);
      }
      ReplaceCrLfConcat(a', b);
      ConcatAfterPair(a', b);
    } else {
      var a' := a[1..];
      assert a == [a[0]] + a';
      if a' != [] {
        assert EndsWithCr(a') == EndsWithCr(a);
        assert StartsWithLf(a' + b) == StartsWithLf(a');
      }
      ReplaceCrLfConcat(a', b);
      ConcatAfterChar(a[0], a', b);
    }
  }

  /** The step of ReplaceCrLfConcat past a leading CR LF pair. */
  lemma ConcatAfterPair(a: string, b: string)
    requires ReplaceCrLf(a + b) == ReplaceCrLf(a) + ReplaceCrLf(b)
    ensures ReplaceCrLf("\r\n" + a + b) == ReplaceCrLf("\r\n" + a) + ReplaceCrLf(b)
  {
    Lists.AppendAssoc("\r\n", a, b);
    Lists.AppendAssoc("\n", ReplaceCrLf(a), ReplaceCrLf(b));
    ReplaceCrLfPair(a + b);
    ReplaceCrLfPair(a);
  }

  /** The step of ReplaceCrLfConcat past a leading character that does not
      start a CR LF pair. */
  lemma ConcatAfterChar(c: char, a: string, b: string)
    requires !(c == '\r' && StartsWithLf(a + b)) && !(c == '\r' && StartsWithLf(a))
    requires ReplaceCrLf(a + b) == ReplaceCrLf(a) + ReplaceCrLf(b)
    ensures ReplaceCrLf([c] + a + b) == ReplaceCrLf([c] + a) + ReplaceCrLf(b)
  {
    Lists.AppendAssoc([c], a, b);
    Lists.AppendAssoc([c], ReplaceCrLf(a), ReplaceCrLf(b));
    ReplaceCrLfCons(c, a + b);
    ReplaceCrLfCons(c, a);
  }

  lemma NormalizeConcat(a: string, b: string)
    requires !(EndsWithCr(a) && StartsWithLf(b))
    ensures NormalizeNewlines(a + b) == NormalizeNewlines(a) + NormalizeNewlines(b)
  {
    ReplaceCrLfConcat(a, b);
    ReplaceCrConcat(ReplaceCrLf(a), ReplaceCrLf(b));
  }

  /** Dropping the byte order mark does not touch anything after the first
      character. */
  lemma RemoveBomConcat(a: string, b: string)
    requires a != [] || b == [] || b[0] != Bom
    ensures RemoveBom(a + b) == RemoveBom(a) + b
    ensures !EndsWithCr(a) ==> !EndsWithCr(RemoveBom(a))
  {
    if a != [] {
      assert (a + b)[0] == a[0];
      if a[0] == Bom {
        assert (a + b)[1..] == a[1..] + b;
      }
    } else {
      assert a + b == b;
    }
  }

  /** A CR LF pair reads exactly like a single LF. */
  lemma ParseCrLfAsLf(a: string, b: string)
    requires !EndsWithCr(a)
    ensures ParseText(a + "\r\n" + b) == ParseText(a + "\n" + b)
  {
    RemoveBomConcat(a, "\r\n" + b);
    RemoveBomConcat(a, "\n" + b);
    assert a + "\r\n" + b == a + ("\r\n" + b);
    assert a + "\n" + b == a + ("\n" + b);
    var c := RemoveBom(a);
    NormalizeConcat(c, "\r\n" + b);
    NormalizeConcat(c, "\n" + b);
    assert ("\r\n" + b)[2..] == b;
    assert ("\n" + b)[1..] == b;
    assert ReplaceCrLf("\r\n" + b) == "\n" + ReplaceCrLf(b);
    assert ReplaceCrLf("\n" + b) == "\n" + ReplaceCrLf(b);
  }

  /** A lone CR (one not followed by LF) reads exactly like LF. */
  lemma ParseCrAsLf(a: string, b: string)
    requires !EndsWithCr(a) && !StartsWithLf(b)
    ensures ParseText(a + "\r" + b) == ParseText(a + "\n" + b)
  {
    RemoveBomConcat(a, "\r" + b);
    RemoveBomConcat(a, "\n" + b);
    assert a + "\r" + b == a + ("\r" + b);
    assert a + "\n" + b == a + ("\n" + b);
    var c := RemoveBom(a);
    NormalizeConcat(c, "\r" + b);
    NormalizeConcat(c, "\n" + b);
    assert ("\r" + b)[1..] == b;
    assert ("\n" + b)[1..] == b;
    assert ReplaceCrLf("\r" + b) == "\r" + ReplaceCrLf(b);
    assert ReplaceCrLf("\n" + b) == "\n" + ReplaceCrLf(b);
  }

  /** A leading byte order mark is ignored. */
  lemma ParseIgnoresBom(text: string)
    requires text != [] && text[0] != Bom
    ensures ParseText([Bom] + text) == ParseText(text)
  {
    assert ([Bom] + text)[1..] == text;
  }

  // Writing a table and reading it back

  lemma {:induction false} EscapeCrFree(x: string)
    requires '\r' !in x
    ensures '\r' !in Escape(x)
  {
    if x != [] {
      EscapeCrFree(x[1..]);
    }
  }

  lemma {:induction false} EncodeFieldsCrFree(fields: seq<string>)
    requires |fields| >= 1
    requires forall i :: 0 <= i < |fields| ==> '\r' !in fields[i]
    ensures '\r' !in EncodeFields(fields)
    decreases |fields|
  {
    EscapeCrFree(fields[0]);
    if |fields| > 1 {
      EncodeFieldsCrFree(fields[1..]);
    }
  }

  lemma {:induction false} EncodeRowsCrFree(rows: seq<seq<string>>)
    requires forall k :: 0 <= k < |rows| ==> |rows[k]| >= 1
    requires forall k, i :: 0 <= k < |rows| && 0 <= i < |rows[k]| ==> '\r' !in rows[k][i]
    ensures '\r' !in EncodeRows(rows)
    decreases |rows|
  {
    if rows != [] {
      EncodeFieldsCrFree(rows[0]);
      EncodeRowsCrFree(rows[1..]);
    }
  }

  /** The conditions under which a table survives writing and reading. */
  predicate Writable(header: seq<string>, rows: seq<seq<string>>) {
    && |header| >= 1 && !IsSkipped(header)
    && (forall k :: 0 <= k < |rows| ==> |rows[k]| >= 1 && !IsSkipped(rows[k]))
    && (forall i :: 0 <= i < |header| ==> '\r' !in header[i])
    && (forall k, i :: 0 <= k < |rows| && 0 <= i < |rows[k]| ==> '\r' !in rows[k][i])
  }

  /** The header row of an encoded table is read and set aside. */
  lemma ReadHeader(header: seq<string>, rows: seq<seq<string>>)
    requires Writable(header, rows)
    ensures var t := EncodeTable(header, rows);
            && At(t, |EncodeRow(header)|, EncodeRows(rows))
            && |EncodeRow(header)| + |EncodeRows(rows)| == |t|
            && ParseText(t) == TableAt(t, |EncodeRow(header)|, 1, Some(header), [])
  {
    var t := EncodeTable(header, rows);
    CleanEncoded(header, rows);
    assert At(t, 0, t);
    AtConcat(t, 0, EncodeRow(header), EncodeRows(rows));
    RowEncodedLine(t, 0, header);
    TableStepHeader(t, 0, |EncodeRow(header)|, 0, header, []);
  }

  lemma CleanEncoded(header: seq<string>, rows: seq<seq<string>>)
    requires Writable(header, rows)
    ensures var t := EncodeTable(header, rows); t != [] && Clean(t) == t
  {
    var t := EncodeTable(header, rows);
    assert t == Quote(header[0]) + t[|Quote(header[0])|..];
    assert t[0] == '"';
    EncodeFieldsCrFree(header);
    EncodeRowsCrFree(rows);
    NormalizeFree(t);
  }

  /** Writing a header and rows and reading the text back gives one record
      per row, each mapping the header names to that row's fields. */
  lemma ParseEncodedTable(header: seq<string>, rows: seq<seq<string>>)
    requires Writable(header, rows)
    requires forall k :: 0 <= k < |rows| ==> |rows[k]| == |header|
    ensures ParseText(EncodeTable(header, rows)) == Success(Records(header, rows))
  {
    ReadHeader(header, rows);
    TableEncoded(EncodeTable(header, rows), |EncodeRow(header)|, 1, header, rows, []);
    assert [] + Records(header, rows) == Records(header, rows);
  }

  /** The same text with a data row of the wrong width: the error names
      line k + 2 (the header is line 1). */
  lemma ParseEncodedMismatch(header: seq<string>, rows: seq<seq<string>>, k: nat)
    requires Writable(header, rows)
    requires k < |rows| && |rows[k]| != |header|
    requires forall j :: 0 <= j < k ==> |rows[j]| == |header|
    ensures ParseText(EncodeTable(header, rows))
            == Failure(ColumnCountMismatch(k + 2, |header|, |rows[k]|))
  {
    ReadHeader(header, rows);
    TableMismatch(EncodeTable(header, rows), |EncodeRow(header)|, 1, header, rows, [], k, k + 2, |rows[k]|);
  }

  // Skipped rows and missing header

  /** An empty line and a line holding only "" are skipped but counted. */
  lemma SkipEmptyLine(t: string, p: nat, line: nat, header: Option<seq<string>>, acc: seq<Record>)
    requires At(t, p, "\n") || At(t, p, "\"\"\n")
    ensures At(t, p, "\n") ==>
              TableAt(t, p, line, header, acc) == TableAt(t, p + 1, line + 1, header, acc)
    ensures At(t, p, "\"\"\n") ==>
              TableAt(t, p, line, header, acc) == TableAt(t, p + 3, line + 1, header, acc)
  {
    if At(t, p, "\n") {
      AtChar(t, p, '\n');
      FieldPlain(t, p, "");
    }
    if At(t, p, "\"\"\n") {
      assert "\"\"\n" == "\"\"" + "\n";
      AtConcat(t, p, "\"\"", "\n");
      AtChar(t, p + 2, '\n');
      assert Quote("") == "\"\"";
      FieldQuoted(t, p, "");
    }
  }

  /** Text made only of newlines has no header row. */
  lemma {:induction false} NewlinesOnly(t: string, p: nat, line: nat, acc: seq<Record>)
    requires p <= |t|
    requires forall i :: p <= i < |t| ==> t[i] == '\n'
    ensures TableAt(t, p, line, None, acc) == Failure(NoHeaderRow)
    decreases |t| - p
  {
    if p < |t| {
      AtChar(t, p, '\n');
      SkipEmptyLine(t, p, line, None, acc);
      NewlinesOnly(t, p + 1, line + 1, acc);
    }
  }

  /** Empty text is an error of its own; a text that is LF characters only,
      after an optional byte order mark, has no header row (CR and CR LF
      line ends reduce to this case by ParseCrAsLf and ParseCrLfAsLf). */
  lemma NoHeaderRowCases(text: string)
    requires forall i :: 0 <= i < |text| ==> text[i] == '\n' || (i == 0 && text[i] == Bom)
    ensures text == [] ==> ParseText(text) == Failure(EmptyText)
    ensures text != [] ==> ParseText(text) == Failure(NoHeaderRow)
  {
    if text != [] {
      var c := RemoveBom(text);
      assert forall i :: 0 <= i < |c| ==> c[i] == '\n';
      assert '\r' !in c;
      NormalizeFree(c);
      NewlinesOnly(c, 0, 0, []);
    }
  }

  // The row dictionaries

  /** A row dictionary has exactly the header names as keys, and each name
      maps to the field under its last occurrence in the header. */
  lemma {:induction false} RowMapLookup(header: seq<string>, row: seq<string>)
    requires |header| == |row|
    ensures RowMap(header, row).Keys == set i | 0 <= i < |header| :: header[i]
    ensures forall j :: 0 <= j < |header| && (forall j' :: j < j' < |header| ==> header[j'] != header[j])
                        ==> RowMap(header, row)[header[j]] == row[j]
    decreases |header|
  {
    if header != [] {
      var n := |header| - 1;
      RowMapLookup(header[..n], row[..n]);
      assert (set i | 0 <= i < |header| :: header[i])
             == (set i | 0 <= i < n :: header[..n][i]) + {header[n]};
      forall j | 0 <= j < |header| && (forall j' :: j < j' < |header| ==> header[j'] != header[j])
        ensures RowMap(header, row)[header[j]] == row[j]
      {
        if j < n {
          assert header[..n][j] == header[j];
          assert forall j' :: j < j' < n ==> header[..n][j'] != header[..n][j];
        }
      }
    }
  }
}
