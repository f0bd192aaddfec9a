/** The CSV printer, and a parser for what it prints: LF ends a record, quotes may enclose a field, CR is data. */
module Csv {
  import opened Basics
  import opened Columns
  import opened Exports

  const HXL_1 := ["#meta+id", "#geo+lat", "#geo+lon", "#date", "#severity+grade"]
  const HXL_2 := ["#severity+raw", "#sector", "#loc+name+infrastructure", "#loc+name+infrastructure+detail", "#cause"]
  const HXL_3 := ["#indicator+electricity", "#indicator+health", "#indicator+needs", "#indicator+possibly", "#indicator+debris"]
  const HXL_4 := ["#loc+building+id", "#status+verification", "#loc+name", "#description", "#geo+code+plus"]
  const HXL_5 := ["#indicator+accuracy", "#loc+adm1+code", "#loc+adm2+code", "#loc+adm3+code", "#geo+h3"]

  const HXL_ROW := HXL_1 + HXL_2 + HXL_3 + HXL_4 + HXL_5

  /** One HXL tag per column of the header. */
  lemma HxlTags()
    ensures HXL_ROW == [
      "#meta+id", "#geo+lat", "#geo+lon", "#date", "#severity+grade",
      "#severity+raw", "#sector", "#loc+name+infrastructure", "#loc+name+infrastructure+detail", "#cause",
      "#indicator+electricity", "#indicator+health", "#indicator+needs", "#indicator+possibly", "#indicator+debris",
      "#loc+building+id", "#status+verification", "#loc+name", "#description", "#geo+code+plus",
      "#indicator+accuracy", "#loc+adm1+code", "#loc+adm2+code", "#loc+adm3+code", "#geo+h3"]
  {}

  // ---- printing -----------------------------------------------------------------------

  predicate NeedsQuote(s: string) {
    '"' in s || ',' in s || '\n' in s
  }

  function Doubled(s: string): string {
    if s == "" then "" else (if s[0] == '"' then "\"\"" else [s[0]]) + Doubled(s[1..])
  }

  /** csvCell */
  function Printed(s: string): string {
    if NeedsQuote(s) then "\"" + Doubled(s) + "\"" else s
  }

  function Commas(cells: seq<string>): string {
    if cells == [] then "" else if |cells| == 1 then cells[0] else cells[0] + "," + Commas(cells[1..])
  }

  function PrintedAll(cells: seq<string>): seq<string> {
    seq(|cells|, i requires 0 <= i < |cells| => Printed(cells[i]))
  }

  function Lines(records: seq<seq<string>>): string {
    if records == [] then ""
    else if |records| == 1 then Commas(PrintedAll(records[0]))
    else Commas(PrintedAll(records[0])) + "\n" + Lines(records[1..])
  }

  // ---- parsing ------------------------------------------------------------------------

  predicate Stops(s: string) {
    s == "" || s[0] == ',' || s[0] == '\n'
  }

  /** The field at the front, and what follows it. */
  function Unquoted(s: string): Option<(string, string)> {
    if Stops(s) then Some(("", s))
    else if s[0] == '"' then None
    else
      var rest := Unquoted(s[1..]);
      if rest == None then None else Some(([s[0]] + rest.value.0, rest.value.1))
  }

  /** The field up to its closing quote; a doubled quote is a quote. */
  function Quoted(s: string): Option<(string, string)> {
    if s == "" then None
    else if s[0] == '"' && |s| >= 2 && s[1] == '"' then
      var rest := Quoted(s[2..]);
      if rest == None then None else Some((['"'] + rest.value.0, rest.value.1))
    else if s[0] == '"' then (if Stops(s[1..]) then Some(("", s[1..])) else None)
    else
      var rest := Quoted(s[1..]);
      if rest == None then None else Some(([s[0]] + rest.value.0, rest.value.1))
  }

  function Field(s: string): Option<(string, string)> {
    if s != "" && s[0] == '"' then Quoted(s[1..]) else Unquoted(s)
  }

  lemma {:induction false} QuotedShrinks(s: string)
    ensures Quoted(s).Some? ==> |Quoted(s).value.1| < |s| && Stops(Quoted(s).value.1)
  {
    if s != "" {
      if s[0] == '"' && |s| >= 2 && s[1] == '"' {
        QuotedShrinks(s[2..]);
      } else if s[0] != '"' {
        QuotedShrinks(s[1..]);
      }
    }
  }

  lemma {:induction false} UnquotedShrinks(s: string)
    ensures Unquoted(s).Some? ==> |Unquoted(s).value.1| <= |s| && Stops(Unquoted(s).value.1)
  {
    if !Stops(s) && s[0] != '"' {
      UnquotedShrinks(s[1..]);
    }
  }

  lemma FieldShrinks(s: string)
    ensures Field(s).Some? ==> |Field(s).value.1| <= |s| && Stops(Field(s).value.1)
  {
    if s != "" {
      QuotedShrinks(s[1..]);
    }
    UnquotedShrinks(s);
  }

  /** One record, and what follows it: nothing, or a line break. */
  function Record(s: string): Option<(seq<string>, string)>
    decreases |s|
  {
    FieldShrinks(s);
    var field := Field(s);
    if field == None then None
    else if field.value.1 == "" || field.value.1[0] == '\n' then Some(([field.value.0], field.value.1))
    else
      var rest := Record(field.value.1[1..]);
      if rest == None then None else Some(([field.value.0] + rest.value.0, rest.value.1))
  }

  lemma {:induction false} RecordShrinks(s: string)
    ensures Record(s).Some? ==> |Record(s).value.1| <= |s| && (Record(s).value.1 == "" || Record(s).value.1[0] == '\n')
    decreases |s|
  {
    FieldShrinks(s);
    var field := Field(s);
    if field.Some? && field.value.1 != "" && field.value.1[0] == ',' {
      RecordShrinks(field.value.1[1..]);
    }
  }

  function Records(s: string): Option<seq<seq<string>>>
    decreases |s|
  {
    RecordShrinks(s);
    var record := Record(s);
    if record == None then None
    else if record.value.1 == "" then Some([record.value.0])
    else
      var rest := Records(record.value.1[1..]);
      if rest == None then None else Some([record.value.0] + rest.value)
  }

  // ---- parsing undoes printing -----------------------------------------------------------

  lemma {:induction false} QuotedInverse(s: string, rest: string)
    requires Stops(rest)
    ensures Quoted(Doubled(s) + "\"" + rest) == Some((s, rest))
  {
    var t := Doubled(s) + "\"" + rest;
    if s == "" {
      assert t == "\"" + rest;
      assert t[1..] == rest;
    } else if s[0] == '"' {
      QuotedInverse(s[1..], rest);
      assert t == "\"\"" + (Doubled(s[1..]) + "\"" + rest);
      assert t[2..] == Doubled(s[1..]) + "\"" + rest;
      assert ['"'] + s[1..] == s;
    } else {
      QuotedInverse(s[1..], rest);
      assert t == [s[0]] + (Doubled(s[1..]) + "\"" + rest);
      assert t[1..] == Doubled(s[1..]) + "\"" + rest;
      assert [s[0]] + s[1..] == s;
    }
  }

  lemma {:induction false} UnquotedInverse(s: string, rest: string)
    requires Stops(rest) && !NeedsQuote(s)
    ensures Unquoted(s + rest) == Some((s, rest))
  {
    if s == "" {
      assert s + rest == rest;
    } else {
      assert s[0] in s;
      assert forall c :: c in s[1..] ==> c in s;
      UnquotedInverse(s[1..], rest);
      assert (s + rest)[1..] == s[1..] + rest;
      assert [s[0]] + s[1..] == s;
    }
  }

  lemma {:induction false} DoubledLonger(s: string)
    ensures |Doubled(s)| >= |s|
  {
    if s != "" {
      DoubledLonger(s[1..]);
    }
  }

  lemma QuotedField(s: string, rest: string)
    requires Stops(rest)
    ensures Field("\"" + Doubled(s) + "\"" + rest) == Some((s, rest))
  {
    QuotedInverse(s, rest);
    Regroup("\"", Doubled(s), "\"", rest);
    TailOf('"', Doubled(s) + "\"" + rest);
  }

  lemma Regroup(a: string, b: string, c: string, d: string)
    ensures a + b + c + d == a + (b + c + d)
  {}

  lemma TailOf(c: char, s: string)
    ensures ([c] + s)[1..] == s
  {}

  lemma UnquotedField(s: string, rest: string)
    requires Stops(rest) && !NeedsQuote(s)
    ensures Field(s + rest) == Some((s, rest))
  {
    UnquotedInverse(s, rest);
    if s == "" {
      assert s + rest == rest;
    } else {
      assert s[0] in s;
    }
  }

  /** Any text at all, printed as a cell, is read back as that text. */
  lemma FieldInverse(s: string, rest: string)
    requires Stops(rest)
    ensures Field(Printed(s) + rest) == Some((s, rest))
    ensures Printed(s) == s <==> '"' !in s && ',' !in s && '\n' !in s
  {
    DoubledLonger(s);
    if NeedsQuote(s) {
      QuotedField(s, rest);
    } else {
      UnquotedField(s, rest);
    }
  }

  lemma {:induction false} RecordInverse(cells: seq<string>, rest: string)
    requires cells != [] && (rest == "" || rest[0] == '\n')
    ensures Record(Commas(PrintedAll(cells)) + rest) == Some((cells, rest))
  {
    if |cells| == 1 {
      FieldInverse(cells[0], rest);
      assert PrintedAll(cells) == [Printed(cells[0])];
      assert cells == [cells[0]];
    } else {
      var more := Commas(PrintedAll(cells[1..])) + rest;
      assert PrintedAll(cells)[1..] == PrintedAll(cells[1..]);
      assert Commas(PrintedAll(cells)) + rest == Printed(cells[0]) + ("," + more);
      FieldInverse(cells[0], "," + more);
      RecordInverse(cells[1..], rest);
      assert ("," + more)[1..] == more;
      assert [cells[0]] + cells[1..] == cells;
    }
  }

  /** Printing any non-empty list of non-empty records and parsing it gives the records back. */
  lemma {:induction false} RecordsInverse(records: seq<seq<string>>)
    requires records != [] && forall i :: 0 <= i < |records| ==> records[i] != []
    ensures Records(Lines(records)) == Some(records)
  {
    var first := Commas(PrintedAll(records[0]));
    if |records| == 1 {
      RecordInverse(records[0], "");
      assert first + "" == first;
      assert [records[0]] == records;
    } else {
      var more := "\n" + Lines(records[1..]);
      assert Lines(records) == first + more;
      RecordInverse(records[0], more);
      RecordsInverse(records[1..]);
      assert more[1..] == Lines(records[1..]);
      assert [records[0]] + records[1..] == records;
    }
  }

  // ---- the stream ------------------------------------------------------------------------

  /** A cell that prints as itself. */
  predicate Plain(s: string) {
    !NeedsQuote(s)
  }

  lemma SafeIsPlain(s: string)
    requires Safe(s)
    ensures Plain(s) && Plain("#indicator+" + s)
  {
    assert forall c :: c in s ==> SafeChar(c);
    assert forall c :: c in "#indicator+" ==> c != '"' && c != ',' && c != '\n';
  }

  lemma PlainAll(cells: seq<string>)
    requires AllPlain(cells)
    ensures PrintedAll(cells) == cells
  {}

  function Tags(extras: seq<string>): seq<string> {
    seq(|extras|, i requires 0 <= i < |extras| => "#indicator+" + extras[i])
  }

  predicate AllPlain(cells: seq<string>) {
    forall i :: 0 <= i < |cells| ==> Plain(cells[i])
  }

  lemma PlainJoin(a: seq<string>, b: seq<string>)
    requires AllPlain(a) && AllPlain(b)
    ensures AllPlain(a + b)
  {}

  lemma Names1Plain()
    ensures AllPlain(CSV_NAMES_1)
  {}

  lemma Tags1Plain()
    ensures AllPlain(HXL_1)
  {}

  lemma Names2Plain()
    ensures AllPlain(CSV_NAMES_2)
  {}

  lemma Tags2Plain()
    ensures AllPlain(HXL_2)
  {}

  lemma Names3Plain()
    ensures AllPlain(CSV_NAMES_3)
  {}

  lemma Tags3Plain()
    ensures AllPlain(HXL_3)
  {}

  lemma Names4Plain()
    ensures AllPlain(CSV_NAMES_4)
  {}

  lemma Tags4Plain()
    ensures AllPlain(HXL_4)
  {}

  lemma Names5Plain()
    ensures AllPlain(CSV_NAMES_5)
  {}

  lemma Tags5Plain()
    ensures AllPlain(HXL_5)
  {}

  lemma NamesPlain()
    ensures AllPlain(CSV_COLUMNS) && AllPlain(HXL_ROW)
  {
    Names1Plain();
    Tags1Plain();
    Names2Plain();
    Tags2Plain();
    Names3Plain();
    Tags3Plain();
    Names4Plain();
    Tags4Plain();
    Names5Plain();
    Tags5Plain();
    PlainJoin(CSV_NAMES_1, CSV_NAMES_2);
    PlainJoin(CSV_NAMES_1 + CSV_NAMES_2, CSV_NAMES_3);
    PlainJoin(CSV_NAMES_1 + CSV_NAMES_2 + CSV_NAMES_3, CSV_NAMES_4);
    PlainJoin(CSV_NAMES_1 + CSV_NAMES_2 + CSV_NAMES_3 + CSV_NAMES_4, CSV_NAMES_5);
    PlainJoin(HXL_1, HXL_2);
    PlainJoin(HXL_1 + HXL_2, HXL_3);
    PlainJoin(HXL_1 + HXL_2 + HXL_3, HXL_4);
    PlainJoin(HXL_1 + HXL_2 + HXL_3 + HXL_4, HXL_5);
  }

  /** The two head records print as themselves when the dynamic columns are safe identifiers. */
  lemma HeadPlain(extras: seq<string>)
    requires forall c :: c in extras ==> Safe(c)
    ensures AllPlain(CSV_COLUMNS + extras) && AllPlain(HXL_ROW + Tags(extras))
  {
    NamesPlain();
    forall i | 0 <= i < |extras| ensures Plain(extras[i]) && Plain(Tags(extras)[i]) {
      SafeIsPlain(extras[i]);
    }
    PlainJoin(CSV_COLUMNS, extras);
    PlainJoin(HXL_ROW, Tags(extras));
  }

  lemma LinesMore(first: seq<string>, rest: seq<seq<string>>)
    requires rest != []
    ensures Lines([first] + rest) == Commas(PrintedAll(first)) + "\n" + Lines(rest)
  {
    assert ([first] + rest)[1..] == rest;
  }

  lemma {:induction false} LinesAppend(records: seq<seq<string>>, row: seq<string>)
    requires records != []
    ensures Lines(records + [row]) == Lines(records) + "\n" + Commas(PrintedAll(row))
  {
    var first := records[0];
    if |records| == 1 {
      LinesMore(first, [row]);
      assert records + [row] == [first] + [row];
      assert records == [first];
    } else {
      LinesAppend(records[1..], row);
      LinesMore(first, records[1..]);
      LinesMore(first, records[1..] + [row]);
      assert records == [first] + records[1..];
      assert records + [row] == [first] + (records[1..] + [row]);
      Regroup(Commas(PrintedAll(first)), "\n", Lines(records[1..]), "\n" + Commas(PrintedAll(row)));
      Regroup(Commas(PrintedAll(first)) + "\n", Lines(records[1..]), "\n", Commas(PrintedAll(row)));
    }
  }

  /** One row's cells, as csvRowCells builds them and csvCell prints them. */
  method PrintRow(u: Unicode, r: Exported, extras: seq<string>) returns (line: string, ghost cells: seq<string>)
    ensures line == Commas(PrintedAll(cells)) && CellsOf(u, r, extras, cells)
  {
    ghost var flat;
    var row;
    row, flat := CsvRowCells(u, r, extras);
    cells := row;
    line := PrintCells(row);
  }

  method PrintCells(cells: seq<string>) returns (line: string)
    ensures line == Commas(PrintedAll(cells))
  {
    var row := cells;
    for i := 0 to |row|
      invariant |row| == |cells|
      invariant forall j :: 0 <= j < i ==> row[j] == Printed(cells[j])
      invariant forall j :: i <= j < |row| ==> row[j] == cells[j]
    {
      row := row[i := Printed(row[i])];
    }
    assert row == PrintedAll(cells);
    line := Commas(row);
  }

  /** The raw cells of a report's row: the quantity of each fixed column, then its answer in each dynamic column. */
  ghost predicate CellsOf(u: Unicode, r: Exported, extras: seq<string>, cells: seq<string>) {
    exists flat :: Flattened(u, Fields(r.modular), flat) && cells == ShownAll(r, flat, CSV_QUANTITIES) + Cells(flat, extras)
  }

  /** The cells by the report's own fields. */
  ghost predicate Faithful(u: Unicode, r: Exported, extras: seq<string>, cells: seq<string>) {
    exists flat :: Flattened(u, Fields(r.modular), flat) && RowShown(r, flat, extras, cells)
  }

  lemma CellsAreFaithful(u: Unicode, r: Exported, extras: seq<string>, cells: seq<string>)
    requires CellsOf(u, r, extras, cells)
    ensures Faithful(u, r, extras, cells)
  {
    var flat :| Flattened(u, Fields(r.modular), flat) && cells == ShownAll(r, flat, CSV_QUANTITIES) + Cells(flat, extras);
    RowIsShown(u, r, flat, extras);
  }

  /** The header and the HXL row, unquoted. */
  method PrintHead(extras: seq<string>) returns (out: string)
    requires forall c :: c in extras ==> Safe(c)
    ensures out == Lines([CSV_COLUMNS + extras, HXL_ROW + Tags(extras)])
  {
    var header := CSV_COLUMNS + extras;
    var hxl := HXL_ROW;
    for k := 0 to |extras|
      invariant hxl == HXL_ROW + Tags(extras[..k])
    {
      hxl := hxl + ["#indicator+" + extras[k]];
    }
    assert extras[..|extras|] == extras;
    out := Commas(header) + "\n" + Commas(hxl);
    HeadPrinted(extras);
  }

  /** The rows, each behind a line break. */
  method PrintRows(u: Unicode, rows: seq<Exported>, extras: seq<string>, head: string, ghost first: seq<seq<string>>)
    returns (out: string, ghost records: seq<seq<string>>)
    requires first != [] && head == Lines(first)
    ensures out == Lines(first + records)
    ensures |records| == |rows| && forall i :: 0 <= i < |rows| ==> CellsOf(u, rows[i], extras, records[i])
  {
    out, records := head, [];
    assert first + records == first;
    for i := 0 to |rows|
      invariant |records| == i && out == Lines(first + records)
      invariant forall j :: 0 <= j < i ==> CellsOf(u, rows[j], extras, records[j])
    {
      ghost var cells;
      var line;
      line, cells := PrintRow(u, rows[i], extras);
      LinesAppend(first + records, cells);
      assert first + records + [cells] == first + (records + [cells]);
      Regroup(out, "\n", line, "");
      assert out + ("\n" + line + "") == out + ("\n" + line);
      out := out + ("\n" + line);
      records := records + [cells];
    }
  }

  lemma RowWidths(u: Unicode, rows: seq<Exported>, extras: seq<string>, records: seq<seq<string>>)
    requires |records| == |rows| && forall i :: 0 <= i < |rows| ==> CellsOf(u, rows[i], extras, records[i])
    ensures forall i :: 0 <= i < |records| ==> |records[i]| == |CSV_COLUMNS + extras|
  {
    forall i | 0 <= i < |records| ensures |records[i]| == |CSV_COLUMNS + extras| {
      assert CellsOf(u, rows[i], extras, records[i]);
    }
  }

  /** The records of a document: the two head records, then one per report, all as wide as the header. */
  ghost predicate DocumentOf(u: Unicode, rows: seq<Exported>, extras: seq<string>, records: seq<seq<string>>) {
    && |records| == 2 + |rows|
    && records[0] == CSV_COLUMNS + extras && records[1] == HXL_ROW + Tags(extras)
    && |HXL_ROW| == 25 && (forall k :: 0 <= k < |extras| ==> records[1][25 + k] == "#indicator+" + extras[k])
    && (forall i :: 0 <= i < |rows| ==>
          CellsOf(u, rows[i], extras, records[2 + i]) && Faithful(u, rows[i], extras, records[2 + i]))
    && (forall i :: 0 <= i < |records| ==> |records[i]| == |CSV_COLUMNS + extras|)
  }

  /**
   StreamCSV: what it writes parses back to the header, the HXL row and every report's raw cells, whatever the cell texts;
   every record has as many cells as the header.
   */
  method StreamCsv(u: Unicode, rows: seq<Exported>, extras: seq<string>) returns (out: string)
    requires forall c :: c in extras ==> Safe(c)
    ensures Records(out).Some? && DocumentOf(u, rows, extras, Records(out).value)
  {
    ghost var first := [CSV_COLUMNS + extras, HXL_ROW + Tags(extras)];
    var head := PrintHead(extras);
    ghost var records;
    out, records := PrintRows(u, rows, extras, head, first);
    RowWidths(u, rows, extras, records);
    RecordsInverse(first + records);
    Documented(u, rows, extras, records);
  }

  lemma Documented(u: Unicode, rows: seq<Exported>, extras: seq<string>, records: seq<seq<string>>)
    requires |records| == |rows| && forall i :: 0 <= i < |rows| ==> CellsOf(u, rows[i], extras, records[i])
    requires forall i :: 0 <= i < |records| ==> |records[i]| == |CSV_COLUMNS + extras|
    ensures DocumentOf(u, rows, extras, [CSV_COLUMNS + extras, HXL_ROW + Tags(extras)] + records)
  {
    var all := [CSV_COLUMNS + extras, HXL_ROW + Tags(extras)] + records;
    forall i | 0 <= i < |rows| ensures CellsOf(u, rows[i], extras, all[2 + i]) && Faithful(u, rows[i], extras, all[2 + i]) {
      assert all[2 + i] == records[i];
      CellsAreFaithful(u, rows[i], extras, records[i]);
    }
  }

  lemma HeadPrinted(extras: seq<string>)
    requires forall c :: c in extras ==> Safe(c)
    ensures Lines([CSV_COLUMNS + extras, HXL_ROW + Tags(extras)])
         == Commas(CSV_COLUMNS + extras) + "\n" + Commas(HXL_ROW + Tags(extras))
  {
    HeadPlain(extras);
    PlainAll(CSV_COLUMNS + extras);
    PlainAll(HXL_ROW + Tags(extras));
    var head := [CSV_COLUMNS + extras, HXL_ROW + Tags(extras)];
    assert head[1..] == [HXL_ROW + Tags(extras)];
  }
}
