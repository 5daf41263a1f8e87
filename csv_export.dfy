/** The CSV text that `exportToCSV` builds before handing it to the browser:
    a header line of quoted column labels and one line per item, each cell
    rendered by its type. A reader following section 2 of RFC 4180 (with "\n"
    as the line break) recovers the labels and the cell values, provided no
    label contains a double quote, since labels are quoted without escaping. */
module CsvExport {
  import opened Crm
  import opened Seqs

  /** A value found under a column's key: `null`/`undefined`, a string, a
      number (integers only), a boolean, a `Date` (by its ISO text) or any
      other value (by its `String(value)` text). */
  datatype Cell = Null | Str(s: string) | Num(n: int) | Bool(b: bool) | Date(iso: string) | Other(text: string)

  /** An item maps keys to values; a missing key reads as `undefined`. */
  type Item = map<string, Cell>

  datatype Column = Column(key: string, caption: string)

  function CellOf(item: Item, key: string): (c: Cell)
    ensures key !in item ==> c == Null
    ensures key in item ==> c == item[key]
  {
    if key in item then item[key] else Null
  }

  /** `s.replace(/"/g, '""')`. */
  function Escape(s: string): (r: string)
    ensures |r| >= |s|
    ensures (forall i :: 0 <= i < |s| ==> s[i] != '"') ==> r == s
  {
    if s == [] then ""
    else (if s[0] == '"' then "\"\"" else [s[0]]) + Escape(s[1..])
  }

  function Quote(s: string): string
  {
    "\"" + Escape(s) + "\""
  }

  /** The text of one data cell (`exportUtils.ts` lines 20-26). */
  function CellText(c: Cell): (r: string)
    ensures |r| >= 1
    ensures r[0] == '"' <==> !(c.Num? || c.Bool?)
  {
    match c
    case Null => "\"\""
    case Str(s) => Quote(s)
    case Num(n) => IntDigits(n); IntToString(n)
    case Bool(b) => if b then "Yes" else "No"
    case Date(iso) => "\"" + iso + "\""
    case Other(text) => Quote(text)
  }

  /** A header cell: the label between quotes, not escaped. */
  function HeaderCell(caption: string): string
  {
    "\"" + caption + "\""
  }

  function HeaderTexts(columns: seq<Column>): (r: seq<string>)
    ensures |r| == |columns|
    ensures forall i :: 0 <= i < |columns| ==> r[i] == HeaderCell(columns[i].caption)
  {
    if columns == [] then [] else [HeaderCell(columns[0].caption)] + HeaderTexts(columns[1..])
  }

  /** One cell per column, in column order. */
  function RowTexts(item: Item, columns: seq<Column>): (r: seq<string>)
    ensures |r| == |columns|
    ensures forall i :: 0 <= i < |columns| ==> r[i] == CellText(CellOf(item, columns[i].key))
  {
    if columns == [] then [] else [CellText(CellOf(item, columns[0].key))] + RowTexts(item, columns[1..])
  }

  function RowsTexts(data: seq<Item>, columns: seq<Column>): (r: seq<seq<string>>)
    ensures |r| == |data|
    ensures forall i :: 0 <= i < |data| ==> r[i] == RowTexts(data[i], columns)
  {
    if data == [] then [] else [RowTexts(data[0], columns)] + RowsTexts(data[1..], columns)
  }

  /** Each record's cells joined by ",". */
  function Lines(table: seq<seq<string>>): (r: seq<string>)
    ensures |r| == |table|
    ensures forall i :: 0 <= i < |table| ==> r[i] == Join(table[i], ",")
  {
    if table == [] then [] else [Join(table[0], ",")] + Lines(table[1..])
  }

  /** `exportToCSV` up to the download: nothing for no data, otherwise the
      header line and the item lines joined by "\n" (`exportUtils.ts` lines 8-31). */
  function CsvText(data: seq<Item>, columns: seq<Column>): (r: Option<string>)
    ensures r.None? <==> data == []
  {
    if data == [] then None
    else Some(Join(Lines([HeaderTexts(columns)] + RowsTexts(data, columns)), "\n"))
  }

  /** The lines of the text: the header first, then one per item in input order. */
  lemma CsvLines(data: seq<Item>, columns: seq<Column>)
    requires data != []
    ensures var lines := Lines([HeaderTexts(columns)] + RowsTexts(data, columns));
      && CsvText(data, columns) == Some(Join(lines, "\n"))
      && |lines| == |data| + 1
      && lines[0] == Join(HeaderTexts(columns), ",")
      && forall i :: 0 <= i < |data| ==> lines[i + 1] == Join(RowTexts(data[i], columns), ",")
  {
    var table := [HeaderTexts(columns)] + RowsTexts(data, columns);
    assert forall i :: 0 <= i < |data| ==> table[i + 1] == RowTexts(data[i], columns);
  }

  // ---------------------------------------------------------------------
  // Reading the text back (section 2 of RFC 4180, "\n" between records)

  function Prepend(c: char, o: Option<(string, string)>): (r: Option<(string, string)>)
    ensures r.Some? <==> o.Some?
    ensures o.Some? ==> r.value == ([c] + o.value.0, o.value.1)
  {
    if o.None? then None else Some(([c] + o.value.0, o.value.1))
  }

  /** The rest of a quoted field after its opening quote: the field's value,
      with `""` read as `"`, and what follows the closing quote. */
  function QuotedBody(t: string): (r: Option<(string, string)>)
    ensures r.Some? ==> |r.value.1| < |t|
  {
    if t == [] then None
    else if t[0] == '"' then
      if |t| >= 2 && t[1] == '"' then Prepend('"', QuotedBody(t[2..])) else Some(("", t[1..]))
    else Prepend(t[0], QuotedBody(t[1..]))
  }

  /** An unquoted field runs up to the next "," or line break. */
  function Bare(t: string): (r: (string, string))
    ensures r.0 + r.1 == t
    ensures r.1 == [] || r.1[0] == ',' || r.1[0] == '\n'
  {
    if t == [] || t[0] == ',' || t[0] == '\n' then ("", t)
    else
      var rest := Bare(t[1..]);
      assert t == [t[0]] + t[1..];
      ([t[0]] + rest.0, rest.1)
  }

  /** What may follow a field: nothing, a "," or a line break. */
  predicate Separated(rest: string)
  {
    rest == [] || rest[0] == ',' || rest[0] == '\n'
  }

  /** One field and what follows it; a quoted field must be followed by a separator. */
  function Field(t: string): (r: Option<(string, string)>)
    ensures r.Some? ==> |r.value.1| <= |t| && Separated(r.value.1)
  {
    if t != [] && t[0] == '"' then
      var q := QuotedBody(t[1..]);
      if q.Some? && Separated(q.value.1) then q else None
    else Some(Bare(t))
  }

  /** The fields of one record, and what follows it (nothing or a line break). */
  function Record(t: string): (r: Option<(seq<string>, string)>)
    ensures r.Some? ==> |r.value.1| <= |t| && (r.value.1 == [] || r.value.1[0] == '\n')
    decreases |t|
  {
    var f := Field(t);
    if f.None? then None
    else if f.value.1 != [] && f.value.1[0] == ',' then
      var more := Record(f.value.1[1..]);
      if more.None? then None else Some(([f.value.0] + more.value.0, more.value.1))
    else Some(([f.value.0], f.value.1))
  }

  /** The records of a whole text. */
  function Document(t: string): (r: Option<seq<seq<string>>>)
    ensures r.Some? ==> |r.value| >= 1
    decreases |t|
  {
    var rec := Record(t);
    if rec.None? then None
    else if rec.value.1 == [] then Some([rec.value.0])
    else
      var more := Document(rec.value.1[1..]);
      if more.None? then None else Some([rec.value.0] + more.value)
  }

  /** What a reader recovers from a cell's text. */
  function Decoded(c: Cell): string
  {
    match c
    case Null => ""
    case Str(s) => s
    case Num(n) => IntToString(n)
    case Bool(b) => if b then "Yes" else "No"
    case Date(iso) => iso
    case Other(text) => text
  }

  /** An ISO date text holds no double quote. */
  predicate WellFormed(c: Cell)
  {
    c.Date? ==> forall i :: 0 <= i < |c.iso| ==> c.iso[i] != '"'
  }

  predicate QuoteFree(s: string)
  {
    forall i :: 0 <= i < |s| ==> s[i] != '"'
  }

  /** The texts of a run of cells. */
  function Texts(cells: seq<Cell>): (r: seq<string>)
    ensures |r| == |cells|
    ensures forall i :: 0 <= i < |cells| ==> r[i] == CellText(cells[i])
  {
    if cells == [] then [] else [CellText(cells[0])] + Texts(cells[1..])
  }

  /** The values a reader recovers from a run of cells. */
  function Values(cells: seq<Cell>): (r: seq<string>)
    ensures |r| == |cells|
    ensures forall i :: 0 <= i < |cells| ==> r[i] == Decoded(cells[i])
  {
    if cells == [] then [] else [Decoded(cells[0])] + Values(cells[1..])
  }

  function TextTable(table: seq<seq<Cell>>): (r: seq<seq<string>>)
    ensures |r| == |table|
    ensures forall i :: 0 <= i < |table| ==> r[i] == Texts(table[i])
  {
    if table == [] then [] else [Texts(table[0])] + TextTable(table[1..])
  }

  function ValueTable(table: seq<seq<Cell>>): (r: seq<seq<string>>)
    ensures |r| == |table|
    ensures forall i :: 0 <= i < |table| ==> r[i] == Values(table[i])
  {
    if table == [] then [] else [Values(table[0])] + ValueTable(table[1..])
  }

  /** The cells of one item, one per column. */
  function RowCells(item: Item, columns: seq<Column>): (r: seq<Cell>)
    ensures |r| == |columns|
    ensures forall i :: 0 <= i < |columns| ==> r[i] == CellOf(item, columns[i].key)
  {
    if columns == [] then [] else [CellOf(item, columns[0].key)] + RowCells(item, columns[1..])
  }

  /** The labels as string cells. */
  function CaptionCells(columns: seq<Column>): (r: seq<Cell>)
    ensures |r| == |columns|
    ensures forall i :: 0 <= i < |columns| ==> r[i] == Str(columns[i].caption)
  {
    if columns == [] then [] else [Str(columns[0].caption)] + CaptionCells(columns[1..])
  }

  function Captions(columns: seq<Column>): (r: seq<string>)
    ensures |r| == |columns|
    ensures forall i :: 0 <= i < |columns| ==> r[i] == columns[i].caption
  {
    if columns == [] then [] else [columns[0].caption] + Captions(columns[1..])
  }

  function RowsValues(data: seq<Item>, columns: seq<Column>): (r: seq<seq<string>>)
    ensures |r| == |data|
    ensures forall i :: 0 <= i < |data| ==> r[i] == Values(RowCells(data[i], columns))
  {
    if data == [] then [] else [Values(RowCells(data[0], columns))] + RowsValues(data[1..], columns)
  }

  // ---------------------------------------------------------------------
  // The round trip, field by field, record by record

  /** Digits, optionally after a minus sign. */
  lemma IntDigits(n: int)
    ensures var s := IntToString(n);
      && (s[0] == '-' || '0' <= s[0] <= '9')
      && forall i :: 0 <= i < |s| ==> s[i] == '-' || '0' <= s[i] <= '9'
  {
    var s := IntToString(n);
    if n < 0 {
      assert forall i :: 1 <= i < |s| ==> s[i] == NatToString(-n)[i - 1];
    }
  }

  /** Section 2 rule 7 of RFC 4180: doubling quotes and reading `""` back as
      `"` cancel out, and the closing quote ends the field. */
  lemma {:induction false} QuotedRoundTrip(s: string, rest: string)
    requires rest == [] || rest[0] != '"'
    ensures QuotedBody(Escape(s) + "\"" + rest) == Some((s, rest))
  {
    var t := Escape(s) + "\"" + rest;
    if s == [] {
      assert t == "\"" + rest;
      assert t[1..] == rest;
    } else {
      QuotedRoundTrip(s[1..], rest);
      var tail := Escape(s[1..]) + "\"" + rest;
      if s[0] == '"' {
        assert t == "\"\"" + tail;
        assert t[2..] == tail;
      } else {
        assert t == [s[0]] + tail;
        assert t[1..] == tail;
      }
      assert [s[0]] + s[1..] == s;
    }
  }

  lemma {:induction false} BareRoundTrip(s: string, rest: string)
    requires forall i :: 0 <= i < |s| ==> s[i] != ',' && s[i] != '\n'
    requires Separated(rest)
    ensures Bare(s + rest) == (s, rest)
  {
    if s == [] {
      assert s + rest == rest;
    } else {
      BareRoundTrip(s[1..], rest);
      assert (s + rest)[1..] == s[1..] + rest;
      assert [s[0]] + s[1..] == s;
    }
  }

  /** A quoted field is read back as the string it quotes. */
  lemma QuoteField(s: string, rest: string)
    requires Separated(rest)
    ensures Field(Quote(s) + rest) == Some((s, rest))
  {
    var t := Quote(s) + rest;
    assert t[0] == '"';
    assert t[1..] == Escape(s) + "\"" + rest;
    QuotedRoundTrip(s, rest);
  }

  /** An unquoted field without separators is read back as itself. */
  lemma BareField(s: string, rest: string)
    requires s != [] && s[0] != '"'
    requires forall i :: 0 <= i < |s| ==> s[i] != ',' && s[i] != '\n'
    requires Separated(rest)
    ensures Field(s + rest) == Some((s, rest))
  {
    assert (s + rest)[0] == s[0];
    BareRoundTrip(s, rest);
  }

  /** A well-formed cell is read back as its value, whatever separator follows. */
  lemma CellRoundTrip(c: Cell, rest: string)
    requires WellFormed(c) && Separated(rest)
    ensures Field(CellText(c) + rest) == Some((Decoded(c), rest))
  {
    match c
    case Null => assert CellText(c) == Quote(""); QuoteField("", rest);
    case Str(s) => QuoteField(s, rest);
    case Num(n) => IntDigits(n); BareField(IntToString(n), rest);
    case Bool(b) => BareField(if b then "Yes" else "No", rest);
    case Date(iso) => assert CellText(c) == Quote(iso); QuoteField(iso, rest);
    case Other(text) => QuoteField(text, rest);
  }

  /** A field followed by a "," continues the record. */
  lemma RecordStep(t: string, f: string, tail: string, values: seq<string>, rest: string)
    requires Field(t) == Some((f, tail)) && tail != [] && tail[0] == ','
    requires Record(tail[1..]) == Some((values, rest))
    ensures Record(t) == Some(([f] + values, rest))
  {
  }

  /** A field followed by nothing or a line break ends the record. */
  lemma RecordEnd(t: string, f: string, rest: string)
    requires Field(t) == Some((f, rest)) && (rest == [] || rest[0] == '\n')
    ensures Record(t) == Some(([f], rest))
  {
  }

  /** Splitting off the first part of a join, with whatever follows it. */
  lemma JoinCons(parts: seq<string>, sep: string, rest: string)
    requires |parts| >= 2
    ensures Join(parts, sep) + rest == parts[0] + (sep + (Join(parts[1..], sep) + rest))
  {
  }

  lemma DropFirst(c: char, s: string)
    ensures ([c] + s)[1..] == s
  {
  }

  lemma {:induction false} RecordRoundTrip(cells: seq<Cell>, rest: string)
    requires cells != []
    requires forall i :: 0 <= i < |cells| ==> WellFormed(cells[i])
    requires rest == [] || rest[0] == '\n'
    ensures Record(Join(Texts(cells), ",") + rest) == Some((Values(cells), rest))
  {
    var texts := Texts(cells);
    if |cells| == 1 {
      CellRoundTrip(cells[0], rest);
      RecordEnd(texts[0] + rest, Decoded(cells[0]), rest);
      assert [Decoded(cells[0])] == Values(cells);
    } else {
      assert texts[1..] == Texts(cells[1..]);
      var next := Join(Texts(cells[1..]), ",") + rest;
      JoinCons(texts, ",", rest);
      DropFirst(',', next);
      CellRoundTrip(cells[0], "," + next);
      RecordRoundTrip(cells[1..], rest);
      RecordStep(texts[0] + ("," + next), Decoded(cells[0]), "," + next, Values(cells[1..]), rest);
      assert [Decoded(cells[0])] + Values(cells[1..]) == Values(cells);
    }
  }

  lemma {:induction false} DocumentRoundTrip(table: seq<seq<Cell>>)
    requires table != []
    requires forall i :: 0 <= i < |table| ==> table[i] != []
    requires forall i, j :: 0 <= i < |table| && 0 <= j < |table[i]| ==> WellFormed(table[i][j])
    ensures Document(Join(Lines(TextTable(table)), "\n")) == Some(ValueTable(table))
  {
    var lines := Lines(TextTable(table));
    assert lines[0] == Join(Texts(table[0]), ",");
    if |table| == 1 {
      RecordRoundTrip(table[0], "");
      assert Join(Texts(table[0]), ",") + "" == Join(Texts(table[0]), ",");
      assert [Values(table[0])] == ValueTable(table);
    } else {
      assert TextTable(table)[1..] == TextTable(table[1..]);
      assert lines[1..] == Lines(TextTable(table[1..]));
      var rest := "\n" + Join(Lines(TextTable(table[1..])), "\n");
      assert Join(lines, "\n") == Join(Texts(table[0]), ",") + rest;
      RecordRoundTrip(table[0], rest);
      assert rest[1..] == Join(Lines(TextTable(table[1..])), "\n");
      DocumentRoundTrip(table[1..]);
      assert [Values(table[0])] + ValueTable(table[1..]) == ValueTable(table);
    }
  }

  /** Without quotes in the labels, the header is the text of the labels as string cells. */
  lemma HeaderAsCells(columns: seq<Column>)
    requires forall i :: 0 <= i < |columns| ==> QuoteFree(columns[i].caption)
    ensures HeaderTexts(columns) == Texts(CaptionCells(columns))
    ensures Captions(columns) == Values(CaptionCells(columns))
  {
    assert forall i :: 0 <= i < |columns| ==> Escape(columns[i].caption) == columns[i].caption;
  }

  function RowsCells(data: seq<Item>, columns: seq<Column>): (r: seq<seq<Cell>>)
    ensures |r| == |data|
    ensures forall i :: 0 <= i < |data| ==> r[i] == RowCells(data[i], columns)
  {
    if data == [] then [] else [RowCells(data[0], columns)] + RowsCells(data[1..], columns)
  }

  /** The item lines are the texts of the items' cells, and the values read
      back are the values of those cells. */
  lemma RowsAsCells(data: seq<Item>, columns: seq<Column>)
    ensures TextTable(RowsCells(data, columns)) == RowsTexts(data, columns)
    ensures ValueTable(RowsCells(data, columns)) == RowsValues(data, columns)
  {
    forall i | 0 <= i < |data|
      ensures Texts(RowCells(data[i], columns)) == RowTexts(data[i], columns)
    {
    }
  }

  lemma RowCellsWellFormed(item: Item, columns: seq<Column>)
    requires forall k :: k in item ==> WellFormed(item[k])
    ensures forall j :: 0 <= j < |columns| ==> WellFormed(RowCells(item, columns)[j])
  {
  }

  /** Reading the exported text back gives the labels and then, item by item
      and column by column, the cell values (a missing key reads as empty). */
  lemma CsvRoundTrip(data: seq<Item>, columns: seq<Column>)
    requires data != [] && columns != []
    requires forall i :: 0 <= i < |columns| ==> QuoteFree(columns[i].caption)
    requires forall i, k :: 0 <= i < |data| && k in data[i] ==> WellFormed(data[i][k])
    ensures Document(CsvText(data, columns).value) == Some([Captions(columns)] + RowsValues(data, columns))
  {
    var rows := RowsCells(data, columns);
    var table := [CaptionCells(columns)] + rows;
    HeaderAsCells(columns);
    RowsAsCells(data, columns);
    assert TextTable(table) == [HeaderTexts(columns)] + RowsTexts(data, columns) by {
      assert TextTable(table)[1..] == TextTable(rows);
    }
    assert ValueTable(table) == [Captions(columns)] + RowsValues(data, columns) by {
      assert ValueTable(table)[1..] == ValueTable(rows);
    }
    forall i | 0 <= i < |table|
      ensures forall j :: 0 <= j < |table[i]| ==> WellFormed(table[i][j])
    {
      if i > 0 {
        assert table[i] == RowCells(data[i - 1], columns);
        RowCellsWellFormed(data[i - 1], columns);
      }
    }
    DocumentRoundTrip(table);
  }

  /** Labels are not escaped: a label holding a double quote makes the
      header unreadable. */
  lemma QuotedLabelBreaksHeader()
    ensures Document(CsvText([map[]], [Column("k", "a\"b")]).value).None?
  {
    var text := CsvText([map[]], [Column("k", "a\"b")]).value;
    var columns := [Column("k", "a\"b")];
    assert HeaderCell("a\"b") == "\"a\"b\"";
    assert HeaderTexts(columns) == ["\"a\"b\""] by {
      assert HeaderTexts(columns)[0] == HeaderCell("a\"b");
    }
    assert CellOf(map[], "k") == Null;
    assert RowTexts(map[], columns) == ["\"\""] by {
      assert RowTexts(map[], columns)[0] == CellText(Null);
    }
    assert RowsTexts([map[]], columns) == [["\"\""]];
    assert text == "\"a\"b\"\n\"\"";
    var inner := "\"b\"\n\"\"";
    assert text[1..] == ['a'] + inner;
    assert inner[1..] == "b\"\n\"\"";
    assert QuotedBody(inner) == Some(("", "b\"\n\"\""));
    assert Field(text).None?;
  }
}
