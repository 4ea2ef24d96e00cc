/**
 * The two CSV encodings the exporters use.
 *
 * Quoted: every cell becomes `"${String(cell).replace(/"/g, '""')}"`, cells
 * are joined by ',' and records by '\n'. This follows section 2, rules 5-7,
 * of RFC 4180 (each field enclosed in double quotes, an inner double quote
 * escaped by doubling it); unlike rule 1 the line break is LF, not CRLF.
 * A reader that follows RFC 4180 recovers the exact cells and records, even
 * when a cell holds ',', '"' or a line break (DocumentRoundTrip).
 *
 * Unquoted: `row.join(",")` and `rows.join("\n")` with no escaping, so a ','
 * or a line break inside a cell adds a column or a line (UnquotedColumns).
 */
module Csv {
  import opened Text
  import opened Outcomes

  /** `s.replace(/"/g, '""')`. */
  function Escape(s: string): (r: string)
    ensures |r| == |s| + Count(s, '"')
  {
    if s == [] then ""
    else (if s[0] == '"' then "\"\"" else [s[0]]) + Escape(s[1..])
  }

  /** One quoted cell. */
  function Quote(cell: string): string {
    "\"" + Escape(cell) + "\""
  }

  /** Every cell of a record, quoted. */
  function QuoteAll(cells: seq<string>): (r: seq<string>)
    ensures |r| == |cells|
    ensures forall i :: 0 <= i < |cells| ==> r[i] == Quote(cells[i])
  {
    seq(|cells|, i requires 0 <= i < |cells| => Quote(cells[i]))
  }

  /** `row.map(quote).join(",")`. */
  function QuotedRecord(cells: seq<string>): string {
    Join(QuoteAll(cells), ',')
  }

  /** Every record of a document, quoted. */
  function QuotedRecords(rows: seq<seq<string>>): (r: seq<string>)
    ensures |r| == |rows|
    ensures forall i :: 0 <= i < |rows| ==> r[i] == QuotedRecord(rows[i])
  {
    seq(|rows|, i requires 0 <= i < |rows| => QuotedRecord(rows[i]))
  }

  /** `rows.map(...).join("\n")` with every cell quoted. */
  function QuotedDocument(rows: seq<seq<string>>): string {
    Join(QuotedRecords(rows), '\n')
  }

  /** `row.join(",")` with no quoting. */
  function UnquotedRecord(cells: seq<string>): string {
    Join(cells, ',')
  }

  /** Every record of a document, joined without quoting. */
  function UnquotedRecords(rows: seq<seq<string>>): (r: seq<string>)
    ensures |r| == |rows|
    ensures forall i :: 0 <= i < |rows| ==> r[i] == UnquotedRecord(rows[i])
  {
    seq(|rows|, i requires 0 <= i < |rows| => UnquotedRecord(rows[i]))
  }

  /** `[header, ...body]`: row `i + 1` of the table is row `i` of the body. */
  lemma HeaderThenBody(header: seq<string>, body: seq<seq<string>>)
    ensures |[header] + body| == |body| + 1 && ([header] + body)[0] == header
    ensures forall i :: 0 <= i < |body| ==> ([header] + body)[i + 1] == body[i]
  {
  }

  /** `rows.map(r => r.join(",")).join("\n")`. */
  function UnquotedDocument(rows: seq<seq<string>>): string {
    Join(UnquotedRecords(rows), '\n')
  }

  // ---------------------------------------------------------------------
  // A reader for RFC 4180 records (LF line breaks).

  /** A parsed field and the text after it. */
  datatype Field = Field(text: string, rest: string)

  /** A parsed record, and the text after its line break when one ended it. */
  datatype Record = Record(cells: seq<string>, next: Option<string>)

  /**
   * The body of a quoted field, read after its opening quote: up to the
   * closing quote, with each '""' read as one '"'.
   */
  function QuotedTail(s: string): (r: Option<Field>)
    ensures r.Some? ==> |r.value.rest| < |s|
  {
    if s == [] then None
    else if s[0] == '"' then
      if |s| >= 2 && s[1] == '"' then
        match QuotedTail(s[2..])
        case None => None
        case Some(f) => Some(Field("\"" + f.text, f.rest))
      else Some(Field("", s[1..]))
    else
      match QuotedTail(s[1..])
      case None => None
      case Some(f) => Some(Field([s[0]] + f.text, f.rest))
  }

  /** An unquoted field: everything up to the next ',' or line break. */
  function PlainField(s: string): (r: Field)
    ensures |r.rest| <= |s|
    ensures r.rest == [] || r.rest[0] == ',' || r.rest[0] == '\n'
  {
    if s == [] || s[0] == ',' || s[0] == '\n' then Field("", s)
    else
      var f := PlainField(s[1..]);
      Field([s[0]] + f.text, f.rest)
  }

  /** One field, quoted or not. */
  function ParseField(s: string): (r: Option<Field>)
    ensures r.Some? ==> |r.value.rest| <= |s|
  {
    if s != [] && s[0] == '"' then QuotedTail(s[1..]) else Some(PlainField(s))
  }

  /** The fields of one record, up to a line break or the end of the text. */
  function ParseRecord(s: string): (r: Option<Record>)
    ensures r.Some? && r.value.next.Some? ==> |r.value.next.value| < |s|
    decreases |s|
  {
    match ParseField(s)
    case None => None
    case Some(f) =>
      if f.rest == [] then Some(Record([f.text], None))
      else if f.rest[0] == ',' then
        match ParseRecord(f.rest[1..])
        case None => None
        case Some(rec) => Some(Record([f.text] + rec.cells, rec.next))
      else if f.rest[0] == '\n' then Some(Record([f.text], Some(f.rest[1..])))
      else None
  }

  /** All records of a document. */
  function ParseDocument(s: string): Option<seq<seq<string>>>
    decreases |s|
  {
    match ParseRecord(s)
    case None => None
    case Some(rec) =>
      match rec.next
      case None => Some([rec.cells])
      case Some(rest) =>
        match ParseDocument(rest)
        case None => None
        case Some(rows) => Some([rec.cells] + rows)
  }

  // ---------------------------------------------------------------------
  // Round trips.

  /** The reader takes back exactly the escaped text of a quoted cell. */
  lemma {:induction false} QuotedTailOfEscape(c: string, rest: string)
    requires rest == [] || rest[0] != '"'
    ensures QuotedTail(Escape(c) + "\"" + rest) == Some(Field(c, rest))
  {
    var s := Escape(c) + "\"" + rest;
    if c == [] {
      assert s == "\"" + rest;
      assert s[1..] == rest;
    } else if c[0] == '"' {
      assert s == "\"\"" + (Escape(c[1..]) + "\"" + rest);
      QuotedTailOfEscape(c[1..], rest);
      assert s[2..] == Escape(c[1..]) + "\"" + rest;
      assert "\"" + c[1..] == c;
    } else {
      assert s == [c[0]] + (Escape(c[1..]) + "\"" + rest);
      QuotedTailOfEscape(c[1..], rest);
      assert s[1..] == Escape(c[1..]) + "\"" + rest;
      assert [c[0]] + c[1..] == c;
    }
  }

  /** A quoted cell followed by a separator, a line break or nothing reads back as the cell. */
  lemma ParseQuotedField(c: string, rest: string)
    requires rest == [] || rest[0] != '"'
    ensures ParseField(Quote(c) + rest) == Some(Field(c, rest))
  {
    var s := Quote(c) + rest;
    assert s[0] == '"';
    assert s[1..] == Escape(c) + "\"" + rest;
    QuotedTailOfEscape(c, rest);
  }

  /** Stripping the outer quotes and collapsing each '""' recovers the cell text. */
  function Unquote(q: string): string {
    if |q| >= 2 && q[0] == '"' then
      match QuotedTail(q[1..])
      case Some(f) => if f.rest == [] then f.text else q
      case None => q
    else q
  }

  /** Quoting a cell and then unquoting it gives the cell back. */
  lemma QuoteRoundTrip(c: string)
    ensures Unquote(Quote(c)) == c
  {
    var q := Quote(c);
    assert q == Quote(c) + "";
    ParseQuotedField(c, "");
  }

  /** A quoted record, followed by nothing or a line break, reads back cell for cell. */
  lemma {:induction false} RecordRoundTrip(cells: seq<string>, tail: string)
    requires |cells| >= 1
    requires tail == [] || tail[0] == '\n'
    ensures ParseRecord(QuotedRecord(cells) + tail)
         == Some(Record(cells, if tail == [] then None else Some(tail[1..])))
  {
    var q := QuoteAll(cells);
    if |cells| == 1 {
      assert QuotedRecord(cells) == Quote(cells[0]);
      ParseQuotedField(cells[0], tail);
      assert cells == [cells[0]];
    } else {
      assert q[1..] == QuoteAll(cells[1..]);
      var more := Join(q[1..], ',') + tail;
      assert QuotedRecord(cells) + tail == Quote(cells[0]) + ([','] + more);
      ParseQuotedField(cells[0], [','] + more);
      assert ([','] + more)[1..] == more;
      RecordRoundTrip(cells[1..], tail);
      assert [cells[0]] + cells[1..] == cells;
    }
  }

  /**
   * Whatever the cells contain, a reader that follows RFC 4180 recovers
   * every record and every cell of a quoted document.
   */
  lemma {:induction false} DocumentRoundTrip(rows: seq<seq<string>>)
    requires |rows| >= 1
    requires forall i :: 0 <= i < |rows| ==> |rows[i]| >= 1
    ensures ParseDocument(QuotedDocument(rows)) == Some(rows)
  {
    var r := QuotedRecords(rows);
    if |rows| == 1 {
      assert QuotedDocument(rows) == QuotedRecord(rows[0]) + "";
      RecordRoundTrip(rows[0], "");
      assert rows == [rows[0]];
    } else {
      assert r[1..] == QuotedRecords(rows[1..]);
      var more := QuotedDocument(rows[1..]);
      assert QuotedDocument(rows) == QuotedRecord(rows[0]) + ("\n" + more);
      RecordRoundTrip(rows[0], "\n" + more);
      assert ("\n" + more)[1..] == more;
      DocumentRoundTrip(rows[1..]);
      assert [rows[0]] + rows[1..] == rows;
    }
  }

  // ---------------------------------------------------------------------
  // What goes wrong without quoting.

  /** `line.split(",").length`: the columns a comma-splitting reader sees. */
  function ColumnCount(line: string): nat {
    |Split(line, ',')|
  }

  /** An unquoted record has one column per cell plus one per comma inside a cell. */
  lemma UnquotedColumns(cells: seq<string>)
    requires |cells| >= 1
    ensures ColumnCount(UnquotedRecord(cells)) == |cells| + CountAll(cells, ',')
  {
    SplitLength(UnquotedRecord(cells), ',');
    CountJoin(cells, ',');
  }

  lemma {:induction false} CountAllZero(parts: seq<string>, c: char)
    ensures CountAll(parts, c) == 0 <==> forall i :: 0 <= i < |parts| ==> c !in parts[i]
  {
    if parts != [] {
      CountZeroIffAbsent(parts[0], c);
      CountAllZero(parts[1..], c);
      assert forall i :: 1 <= i < |parts| ==> parts[i] == parts[1..][i - 1];
    }
  }

  /** The column count of an unquoted record is right iff no cell contains a comma. */
  lemma UnquotedColumnsExact(cells: seq<string>)
    requires |cells| >= 1
    ensures ColumnCount(UnquotedRecord(cells)) == |cells|
        <==> forall i :: 0 <= i < |cells| ==> ',' !in cells[i]
  {
    UnquotedColumns(cells);
    CountAllZero(cells, ',');
  }

  /** Without commas in the cells, splitting the unquoted record gives the cells back. */
  lemma UnquotedRecordRoundTrip(cells: seq<string>)
    requires |cells| >= 1
    requires forall i :: 0 <= i < |cells| ==> ',' !in cells[i]
    ensures Split(UnquotedRecord(cells), ',') == cells
  {
    SplitJoin(cells, ',');
  }

  /** `doc.split("\n").length`: the lines of a document. */
  function LineCount(doc: string): nat {
    |Split(doc, '\n')|
  }

  /** An unquoted document has one line per record plus one per line break inside a cell. */
  lemma UnquotedLines(rows: seq<seq<string>>)
    requires |rows| >= 1
    ensures LineCount(UnquotedDocument(rows)) == |rows| + CountAll(UnquotedRecords(rows), '\n')
  {
    SplitLength(UnquotedDocument(rows), '\n');
    CountJoin(UnquotedRecords(rows), '\n');
  }
}
