/**
  The CSV text of the audit export, and a reader that follows the grammar of section 2 of
  RFC 4180, with TEXTDATA taken as every character other than the comma, the quote, CR and LF.
 */
module Csv {
  import opened Basics
  import Text

  // ---- Printing ----

  /** The characters that ECMAScript's `trimStart` removes. */
  predicate IsSpace(c: char) {
    '\t' <= c <= '\r' || c == ' ' || c == '\U{A0}' || c == '\U{1680}' || '\U{2000}' <= c <= '\U{200A}'
    || c == '\U{2028}' || c == '\U{2029}' || c == '\U{202F}' || c == '\U{205F}' || c == '\U{3000}' || c == '\U{FEFF}'
  }

  function TrimStart(s: string): string {
    if s != [] && IsSpace(s[0]) then TrimStart(s[1..]) else s
  }

  /** A spreadsheet would read the cell as a formula. */
  predicate LooksLikeFormula(text: string) {
    var visible := TrimStart(text);
    visible != [] && visible[0] in {'=', '+', '-', '@'}
  }

  function Guard(text: string): string {
    if LooksLikeFormula(text) then "'" + text else text
  }

  /** `text.replaceAll('"', '""')`. */
  function DoubleQuotes(text: string): string {
    if text == [] then []
    else (if text[0] == '"' then "\"\"" else [text[0]]) + DoubleQuotes(text[1..])
  }

  function Cell(text: string): string { "\"" + DoubleQuotes(Guard(text)) + "\"" }

  function Row(cells: seq<string>): string {
    if cells == [] then [] else if |cells| == 1 then Cell(cells[0]) else Cell(cells[0]) + "," + Row(cells[1..])
  }

  function Table(rows: seq<seq<string>>): string {
    if rows == [] then [] else if |rows| == 1 then Row(rows[0]) else Row(rows[0]) + "\r\n" + Table(rows[1..])
  }

  // ---- Reading ----

  /** What was read, and the text after it. */
  datatype Parsed<T> = Parsed(value: T, rest: string)

  /** The inside of a quoted field, up to and including the closing quote. */
  function ReadQuoted(s: string): (r: Option<Parsed<string>>)
    ensures r.Some? ==> |r.value.rest| < |s|
  {
    if s == [] then None
    else if s[0] != '"' then
      match ReadQuoted(s[1..])
      case Some(p) => Some(Parsed([s[0]] + p.value, p.rest))
      case None => None
    else if |s| > 1 && s[1] == '"' then
      match ReadQuoted(s[2..])
      case Some(p) => Some(Parsed(['"'] + p.value, p.rest))
      case None => None
    else Some(Parsed([], s[1..]))
  }

  function ReadBare(s: string): (r: Parsed<string>)
    ensures |r.rest| <= |s|
  {
    if s == [] || s[0] in {',', '"', '\r', '\n'} then Parsed([], s)
    else var p := ReadBare(s[1..]); Parsed([s[0]] + p.value, p.rest)
  }

  function ReadField(s: string): (r: Option<Parsed<string>>)
    ensures r.Some? ==> |r.value.rest| <= |s|
  {
    if s != [] && s[0] == '"' then ReadQuoted(s[1..]) else Some(ReadBare(s))
  }

  function ReadRecord(s: string): (r: Option<Parsed<seq<string>>>)
    ensures r.Some? ==> |r.value.rest| <= |s|
    decreases |s|
  {
    match ReadField(s)
    case None => None
    case Some(field) =>
      if field.rest == [] || field.rest[0] != ',' then Some(Parsed([field.value], field.rest))
      else
        match ReadRecord(field.rest[1..])
        case Some(p) => Some(Parsed([field.value] + p.value, p.rest))
        case None => None
  }

  /** All records; the last one may or may not end with a line break. */
  function ReadFile(s: string): Option<seq<seq<string>>>
    decreases |s|
  {
    match ReadRecord(s)
    case None => None
    case Some(record) =>
      if record.rest == [] || record.rest == "\r\n" then Some([record.value])
      else if !("\r\n" <= record.rest) then None
      else
        match ReadFile(record.rest[2..])
        case Some(records) => Some([record.value] + records)
        case None => None
  }

  // ---- The round trip ----

  lemma {:induction false} ReadQuotedUndoesDoubling(text: string, rest: string)
    requires rest == [] || rest[0] != '"'
    ensures ReadQuoted(DoubleQuotes(text) + "\"" + rest) == Some(Parsed(text, rest))
  {
    var printed := DoubleQuotes(text) + "\"" + rest;
    if text == [] {
      assert printed == "\"" + rest;
    } else {
      ReadQuotedUndoesDoubling(text[1..], rest);
      assert text == [text[0]] + text[1..];
      var after := DoubleQuotes(text[1..]) + "\"" + rest;
      if text[0] == '"' {
        assert printed == "\"\"" + after;
        assert printed[2..] == after;
      } else {
        assert printed == [text[0]] + after;
        assert printed[1..] == after;
      }
    }
  }

  lemma CellRoundTrip(text: string, rest: string)
    requires rest == [] || rest[0] != '"'
    ensures ReadField(Cell(text) + rest) == Some(Parsed(Guard(text), rest))
  {
    var inside := DoubleQuotes(Guard(text)) + "\"" + rest;
    assert Cell(text) + rest == "\"" + inside;
    ReadQuotedUndoesDoubling(Guard(text), rest);
  }

  predicate IsText(c: char) { c != ',' && c != '"' && c != '\r' && c != '\n' }

  /** The reader also takes a field without quotes: the text before the next delimiter. */
  lemma {:induction false} ReadBareStops(text: string, rest: string)
    requires (forall i :: 0 <= i < |text| ==> IsText(text[i])) && (rest == "" || !IsText(rest[0]))
    ensures ReadBare(text + rest) == Parsed(text, rest)
  {
    if text == "" {
      assert text + rest == rest;
    } else {
      assert (text + rest)[1..] == text[1..] + rest;
      ReadBareStops(text[1..], rest);
      assert text == [text[0]] + text[1..];
    }
  }

  function GuardAll(cells: seq<string>): seq<string> {
    if cells == [] then [] else [Guard(cells[0])] + GuardAll(cells[1..])
  }

  function GuardTable(rows: seq<seq<string>>): seq<seq<string>> {
    if rows == [] then [] else [GuardAll(rows[0])] + GuardTable(rows[1..])
  }

  lemma ReadLastField(s: string, value: string, rest: string)
    requires ReadField(s) == Some(Parsed(value, rest)) && (rest == [] || rest[0] != ',')
    ensures ReadRecord(s) == Some(Parsed([value], rest))
  {
  }

  lemma ReadNextField(s: string, value: string, after: string, values: seq<string>, rest: string)
    requires ReadField(s) == Some(Parsed(value, "," + after))
    requires ReadRecord(after) == Some(Parsed(values, rest))
    ensures ReadRecord(s) == Some(Parsed([value] + values, rest))
  {
    assert ("," + after)[1..] == after;
  }

  lemma RowCons(cells: seq<string>, rest: string)
    requires |cells| > 1
    ensures Row(cells) + rest == Cell(cells[0]) + ("," + (Row(cells[1..]) + rest))
  {
    Reassociate(Cell(cells[0]), Row(cells[1..]), rest);
  }

  lemma Reassociate(cell: string, row: string, rest: string)
    ensures cell + "," + row + rest == cell + ("," + (row + rest))
  {
  }

  lemma {:induction false} RowRoundTrip(cells: seq<string>, rest: string)
    requires cells != [] && (rest == [] || rest[0] == '\r')
    ensures ReadRecord(Row(cells) + rest) == Some(Parsed(GuardAll(cells), rest))
  {
    if |cells| == 1 {
      CellRoundTrip(cells[0], rest);
      assert GuardAll(cells) == [Guard(cells[0])];
      ReadLastField(Row(cells) + rest, Guard(cells[0]), rest);
    } else {
      RowCons(cells, rest);
      CellRoundTrip(cells[0], "," + (Row(cells[1..]) + rest));
      RowRoundTrip(cells[1..], rest);
      ReadNextField(Row(cells) + rest, Guard(cells[0]), Row(cells[1..]) + rest, GuardAll(cells[1..]), rest);
    }
  }

  /** For every table, whatever quotes, commas and line breaks its cells hold, the reader
      returns exactly the guarded cells. */
  lemma {:induction false} TableRoundTrip(rows: seq<seq<string>>)
    requires rows != [] && forall i :: 0 <= i < |rows| ==> rows[i] != []
    ensures ReadFile(Table(rows)) == Some(GuardTable(rows))
  {
    if |rows| == 1 {
      RowRoundTrip(rows[0], "");
      assert Row(rows[0]) + "" == Row(rows[0]);
      assert GuardTable(rows) == [GuardAll(rows[0])];
    } else {
      var rest := "\r\n" + Table(rows[1..]);
      RowRoundTrip(rows[0], rest);
      assert Table(rows) == Row(rows[0]) + rest;
      assert rest[2..] == Table(rows[1..]);
      RowStarts(rows[1]);
      assert Table(rows[1..]) != [];
      TableRoundTrip(rows[1..]);
    }
  }

  lemma RowStarts(cells: seq<string>)
    requires cells != []
    ensures Row(cells) != []
  {
  }

  // ---- The guard ----

  lemma {:induction false} GuardAllAt(cells: seq<string>, j: nat)
    requires j < |cells|
    ensures |GuardAll(cells)| == |cells| && GuardAll(cells)[j] == Guard(cells[j])
  {
    if |cells| > 1 { GuardAllAt(cells[1..], if j == 0 then 0 else j - 1); }
  }

  lemma {:induction false} GuardTableAt(rows: seq<seq<string>>, i: nat)
    requires i < |rows|
    ensures |GuardTable(rows)| == |rows| && GuardTable(rows)[i] == GuardAll(rows[i])
  {
    if |rows| > 1 { GuardTableAt(rows[1..], if i == 0 then 0 else i - 1); }
  }

  /** The browser and the server take the same characters for white space, but for six. */
  lemma WhiteSpaceDiffers(c: char)
    ensures IsSpace(c) && !Text.IsSpace(c) <==> c == '\U{FEFF}'
    ensures Text.IsSpace(c) && !IsSpace(c) <==> c in {'\U{1C}', '\U{1D}', '\U{1E}', '\U{1F}', '\U{85}'}
    ensures IsSpace(c) && c < '\U{80}' <==> c in {'\t', '\n', '\U{0B}', '\U{0C}', '\r', ' '}
  {
  }

  /** At this position, after white space alone, the text has one of the characters that start a formula. */
  ghost predicate FormulaAt(text: string, p: int) {
    && 0 <= p < |text| && (text[p] == '=' || text[p] == '+' || text[p] == '-' || text[p] == '@')
    && forall k :: 0 <= k < p ==> IsSpace(text[k])
  }

  lemma {:induction false} FormulaIsSeen(text: string)
    ensures LooksLikeFormula(text) <==> exists p :: FormulaAt(text, p)
  {
    if text == "" {
    } else if IsSpace(text[0]) {
      FormulaIsSeen(text[1..]);
      if p :| FormulaAt(text, p) { assert p != 0 && FormulaAt(text[1..], p - 1); }
      if p :| FormulaAt(text[1..], p) { assert FormulaAt(text, p + 1); }
    } else if LooksLikeFormula(text) {
      assert FormulaAt(text, 0);
    }
  }

  /** A cell whose text would start a formula reads back with an apostrophe before it, every other one reads
      back as it was, and none that is read back would start a formula. */
  lemma GuardedCellsAreInert(rows: seq<seq<string>>, i: nat, j: nat)
    requires i < |rows| && j < |rows[i]| && forall k :: 0 <= k < |rows| ==> rows[k] != []
    ensures ReadFile(Table(rows)).Some? && |ReadFile(Table(rows)).value| == |rows|
    ensures |ReadFile(Table(rows)).value[i]| == |rows[i]|
    ensures var cell := ReadFile(Table(rows)).value[i][j];
      && ((exists p :: FormulaAt(rows[i][j], p)) ==> cell == "'" + rows[i][j])
      && (!(exists p :: FormulaAt(rows[i][j], p)) ==> cell == rows[i][j])
      && forall p :: !FormulaAt(cell, p)
  {
    TableRoundTrip(rows);
    GuardTableAt(rows, i);
    GuardAllAt(rows[i], j);
    FormulaIsSeen(rows[i][j]);
    FormulaIsSeen(Guard(rows[i][j]));
  }

  /** What a reader cannot tell apart: only a formula, and the same text already quoted. */
  lemma GuardCollisions(a: string, b: string)
    ensures Guard(a) == Guard(b)
      <==> || a == b
           || ((exists p :: FormulaAt(a, p)) && b == "'" + a)
           || ((exists p :: FormulaAt(b, p)) && a == "'" + b)
  {
    FormulaIsSeen(a);
    FormulaIsSeen(b);
    assert !LooksLikeFormula("'" + a) && !LooksLikeFormula("'" + b);
    assert ("'" + a)[1..] == a && ("'" + b)[1..] == b;
  }
}
