/** The exported tables: what the program writes, and what a reader of section 2 of RFC 4180 gets back. */
module Csv {
  import opened Optional

  const BOM := "\U{FEFF}"
  const CRLF := "\r\n"
  const QUOTE: char := '\"'

  // The characters a leading trim removes.
  predicate IsSpace(c: char)
    ensures IsSpace(c) <==>
              || 9 <= c as int <= 13 || 0x2000 <= c as int <= 0x200A
              || c as int in {32, 160, 0x1680, 0x2028, 0x2029, 0x202F, 0x205F, 0x3000, 0xFEFF}
  {
    '\t' <= c <= '\r' || c == ' ' || c == '\U{00A0}' || c == '\U{1680}' || '\U{2000}' <= c <= '\U{200A}'
    || c == '\U{2028}' || c == '\U{2029}' || c == '\U{202F}' || c == '\U{205F}' || c == '\U{3000}' || c == '\U{FEFF}'
  }

  function TrimStart(s: string): string {
    if s != "" && IsSpace(s[0]) then TrimStart(s[1..]) else s
  }

  // Text that a spreadsheet would take for a formula.
  predicate Risky(raw: string) {
    var trimmed := TrimStart(raw);
    trimmed != "" && trimmed[0] in "=+-@"
  }

  function Guarded(raw: string): string {
    if Risky(raw) then "'" + raw else raw
  }

  function Doubled(s: string): string {
    if s == "" then "" else (if s[0] == QUOTE then [QUOTE, QUOTE] else [s[0]]) + Doubled(s[1..])
  }

  function Cell(raw: string): string {
    [QUOTE] + Doubled(Guarded(raw)) + [QUOTE]
  }

  function Line(row: seq<string>): string
    requires row != []
  {
    if |row| == 1 then Cell(row[0]) else Cell(row[0]) + "," + Line(row[1..])
  }

  predicate Grid(rows: seq<seq<string>>) {
    rows != [] && forall i :: 0 <= i < |rows| ==> rows[i] != []
  }

  function Lines(rows: seq<seq<string>>): string
    requires Grid(rows)
  {
    if |rows| == 1 then Line(rows[0]) else Line(rows[0]) + CRLF + Lines(rows[1..])
  }

  function Written(rows: seq<seq<string>>): string
    requires Grid(rows)
  {
    BOM + Lines(rows)
  }

  // ---------- a reader ----------

  datatype Mode = FieldStart | Plain | Quoted | QuoteSeen | CrSeen

  datatype Reader = Reader(mode: Mode, cell: string, row: seq<string>, rows: seq<seq<string>>)

  const START := Reader(FieldStart, "", [], [])

  // The end of a field, before the separator c.
  function FieldEnd(r: Reader, c: char): Option<Reader> {
    if c == ',' then Some(Reader(FieldStart, "", r.row + [r.cell], r.rows))
    else if c == '\r' then Some(Reader(CrSeen, "", r.row + [r.cell], r.rows))
    else None
  }

  function Step(r: Reader, c: char): Option<Reader> {
    match r.mode
    case FieldStart =>
      if c == QUOTE then Some(r.(mode := Quoted))
      else if c == ',' || c == '\r' then FieldEnd(r, c)
      else if c == '\n' then None
      else Some(r.(mode := Plain, cell := [c]))
    case Plain =>
      if c == QUOTE || c == '\n' then None
      else if c == ',' || c == '\r' then FieldEnd(r, c)
      else Some(r.(cell := r.cell + [c]))
    case Quoted =>
      if c == QUOTE then Some(r.(mode := QuoteSeen)) else Some(r.(cell := r.cell + [c]))
    case QuoteSeen =>
      if c == QUOTE then Some(r.(mode := Quoted, cell := r.cell + [QUOTE])) else FieldEnd(r, c)
    case CrSeen =>
      if c == '\n' then Some(Reader(FieldStart, "", [], r.rows + [r.row])) else None
  }

  // The last record may or may not end with a line break.
  function Finish(r: Reader): Option<seq<seq<string>>> {
    match r.mode
    case Quoted => None
    case CrSeen => None
    case FieldStart => if r.row == [] && r.rows != [] then Some(r.rows) else Some(r.rows + [r.row + [r.cell]])
    case _ => Some(r.rows + [r.row + [r.cell]])
  }

  function ReadFrom(r: Reader, text: string): Option<seq<seq<string>>>
    decreases |text|
  {
    if text == "" then Finish(r) else
      match Step(r, text[0])
      case None => None
      case Some(next) => ReadFrom(next, text[1..])
  }

  function Read(text: string): Option<seq<seq<string>>> {
    ReadFrom(START, text)
  }

  // ---------- fields without quotes ----------

  // What may stand in a field that is not quoted.
  predicate Bare(field: string) {
    forall i :: 0 <= i < |field| ==> field[i] != QUOTE && field[i] != ',' && field[i] != '\r' && field[i] != '\n'
  }

  function InField(r: Reader, field: string): Reader {
    if field == "" then r else r.(mode := Plain, cell := field)
  }

  lemma {:induction false} ReadsBare(r: Reader, field: string, rest: string)
    requires r.mode.FieldStart? && r.cell == "" && Bare(field)
    ensures ReadFrom(r, field + rest) == ReadFrom(InField(r, field), rest)
    decreases |field|
  {
    if field == "" {
      assert field + rest == rest;
    } else {
      var n := |field| - 1;
      assert field + rest == field[..n] + ([field[n]] + rest);
      ReadsBare(r, field[..n], [field[n]] + rest);
      assert ([field[n]] + rest)[1..] == rest;
      assert field == field[..n] + [field[n]];
      assert n == 0 ==> [field[0]] == field;
    }
  }

  // The reader takes a field that is not quoted as it stands, up to a comma, a line break or the end of the text,
  // where a record without any character is none unless it is the first; a quote or a line feed in it is an error.
  lemma BareFieldReads(r: Reader, field: string, tail: string)
    requires r.mode.FieldStart? && r.cell == "" && Bare(field)
    ensures ReadFrom(r, field + ("," + tail)) == ReadFrom(Reader(FieldStart, "", r.row + [field], r.rows), tail)
    ensures ReadFrom(r, field + (CRLF + tail)) == ReadFrom(Reader(FieldStart, "", [], r.rows + [r.row + [field]]), tail)
    ensures ReadFrom(r, field) == Some(if field == "" && r.row == [] && r.rows != [] then r.rows
                                       else r.rows + [r.row + [field]])
    ensures field != "" ==> ReadFrom(r, field + ([QUOTE] + tail)) == None
    ensures ReadFrom(r, field + ("\n" + tail)) == None
  {
    ReadsBare(r, field, "," + tail);
    ReadsBare(r, field, CRLF + tail);
    ReadsBare(r, field, "");
    ReadsBare(r, field, [QUOTE] + tail);
    ReadsBare(r, field, "\n" + tail);
    assert field + "" == field;
    BareEnds(InField(r, field), tail);
  }

  lemma BareEnds(r: Reader, tail: string)
    requires r.mode.Plain? || (r.mode.FieldStart? && r.cell == "")
    ensures ReadFrom(r, "," + tail) == ReadFrom(Reader(FieldStart, "", r.row + [r.cell], r.rows), tail)
    ensures ReadFrom(r, CRLF + tail) == ReadFrom(Reader(FieldStart, "", [], r.rows + [r.row + [r.cell]]), tail)
    ensures r.mode.Plain? ==> ReadFrom(r, [QUOTE] + tail) == None
    ensures ReadFrom(r, "\n" + tail) == None
  {
    assert ("," + tail)[1..] == tail;
    assert (CRLF + tail)[1..] == "\n" + tail;
    assert ("\n" + tail)[1..] == tail;
  }

  // A carriage return that no line feed follows is an error, and so is a quoted field that does not end.
  lemma BrokenText(r: Reader, c: char, tail: string)
    requires c != '\n'
    ensures r.mode.CrSeen? ==> ReadFrom(r, [c] + tail) == None && ReadFrom(r, "") == None
    ensures r.mode.Quoted? ==> ReadFrom(r, "") == None
    ensures r.mode.QuoteSeen? && c != QUOTE && c != ',' && c != '\r' ==> ReadFrom(r, [c] + tail) == None
  {}

  // ---------- reading back what was written ----------

  lemma ReadsCharacter(r: Reader, c: char, tail: string)
    requires r.mode.Quoted?
    ensures ReadFrom(r, (if c == QUOTE then [QUOTE, QUOTE] else [c]) + tail) == ReadFrom(r.(cell := r.cell + [c]), tail)
  {
    if c == QUOTE {
      assert ([QUOTE, QUOTE] + tail)[1..] == [QUOTE] + tail;
      assert ([QUOTE] + tail)[1..] == tail;
      assert ReadFrom(r, [QUOTE, QUOTE] + tail) == ReadFrom(r.(mode := QuoteSeen), [QUOTE] + tail);
    } else {
      assert ([c] + tail)[1..] == tail;
    }
  }

  lemma DoubledFront(content: string, rest: string)
    requires content != ""
    ensures Doubled(content) + rest
         == (if content[0] == QUOTE then [QUOTE, QUOTE] else [content[0]]) + (Doubled(content[1..]) + rest)
  {
    var first := if content[0] == QUOTE then [QUOTE, QUOTE] else [content[0]];
    Regroup(first, Doubled(content[1..]), rest);
  }

  lemma Regroup(a: string, b: string, c: string)
    ensures a + b + c == a + (b + c)
  {}

  lemma {:induction false} ReadsDoubled(r: Reader, content: string, rest: string)
    requires r.mode.Quoted?
    ensures ReadFrom(r, Doubled(content) + rest) == ReadFrom(r.(cell := r.cell + content), rest)
    decreases |content|
  {
    if content == "" {
      assert Doubled(content) + rest == rest && r.cell + content == r.cell;
    } else {
      var c, tail := content[0], Doubled(content[1..]) + rest;
      ReadsCharacter(r, c, tail);
      ReadsDoubled(r.(cell := r.cell + [c]), content[1..], rest);
      assert r.cell + content == r.cell + [c] + content[1..];
      DoubledFront(content, rest);
    }
  }

  lemma {:induction false} ReadsCell(r: Reader, raw: string, rest: string)
    requires r.mode.FieldStart? && r.cell == ""
    ensures ReadFrom(r, Cell(raw) + rest) == ReadFrom(r.(mode := QuoteSeen, cell := Guarded(raw)), rest)
  {
    var quoted := r.(mode := Quoted);
    var body := Doubled(Guarded(raw)) + ([QUOTE] + rest);
    assert Cell(raw) + rest == [QUOTE] + body;
    assert ([QUOTE] + body)[1..] == body;
    ReadsDoubled(quoted, Guarded(raw), [QUOTE] + rest);
    assert "" + Guarded(raw) == Guarded(raw);
    assert ([QUOTE] + rest)[1..] == rest;
  }

  lemma ReadsField(r: Reader, raw: string, tail: string)
    requires r.mode.FieldStart? && r.cell == ""
    ensures ReadFrom(r, Cell(raw) + ("," + tail)) == ReadFrom(r.(row := r.row + [Guarded(raw)]), tail)
  {
    ReadsCell(r, raw, "," + tail);
    assert ("," + tail)[1..] == tail;
  }

  function GuardedRow(row: seq<string>): seq<string> {
    if row == [] then [] else [Guarded(row[0])] + GuardedRow(row[1..])
  }

  function GuardedGrid(rows: seq<seq<string>>): seq<seq<string>> {
    if rows == [] then [] else [GuardedRow(rows[0])] + GuardedGrid(rows[1..])
  }

  // The reader at the end of a line's last cell.
  function AfterLine(r: Reader, row: seq<string>): Reader
    requires row != []
    decreases |row|
  {
    if |row| == 1 then r.(mode := QuoteSeen, cell := Guarded(row[0]))
    else AfterLine(r.(row := r.row + [Guarded(row[0])]), row[1..])
  }

  lemma {:induction false} AfterLineHolds(r: Reader, row: seq<string>)
    requires row != []
    ensures var a := AfterLine(r, row);
            a.mode.QuoteSeen? && a.rows == r.rows && a.row + [a.cell] == r.row + GuardedRow(row)
    decreases |row|
  {
    if |row| > 1 {
      AfterLineHolds(r.(row := r.row + [Guarded(row[0])]), row[1..]);
      assert r.row + [Guarded(row[0])] + GuardedRow(row[1..]) == r.row + ([Guarded(row[0])] + GuardedRow(row[1..]));
    } else {
      assert GuardedRow(row[1..]) == [];
    }
  }

  lemma {:induction false} ReadsLine(r: Reader, row: seq<string>, rest: string)
    requires r.mode.FieldStart? && r.cell == "" && row != []
    ensures ReadFrom(r, Line(row) + rest) == ReadFrom(AfterLine(r, row), rest)
    decreases |row|
  {
    if |row| == 1 {
      ReadsCell(r, row[0], rest);
    } else {
      assert Line(row) + rest == Cell(row[0]) + ("," + (Line(row[1..]) + rest));
      ReadsField(r, row[0], Line(row[1..]) + rest);
      ReadsLine(r.(row := r.row + [Guarded(row[0])]), row[1..], rest);
    }
  }

  lemma ReadsWholeLine(done: seq<seq<string>>, row: seq<string>, tail: string)
    requires row != []
    ensures ReadFrom(Reader(FieldStart, "", [], done), Line(row) + CRLF + tail)
         == ReadFrom(Reader(FieldStart, "", [], done + [GuardedRow(row)]), tail)
  {
    var r := Reader(FieldStart, "", [], done);
    ReadsLine(r, row, CRLF + tail);
    assert Line(row) + CRLF + tail == Line(row) + (CRLF + tail);
    AfterLineHolds(r, row);
    assert [] + GuardedRow(row) == GuardedRow(row);
    ReadsBreak(AfterLine(r, row), tail);
  }

  lemma ReadsLastLine(done: seq<seq<string>>, row: seq<string>)
    requires row != []
    ensures ReadFrom(Reader(FieldStart, "", [], done), Line(row)) == Some(done + [GuardedRow(row)])
  {
    var r := Reader(FieldStart, "", [], done);
    AfterLineHolds(r, row);
    assert [] + GuardedRow(row) == GuardedRow(row);
    ReadsLine(r, row, "");
    assert Line(row) + "" == Line(row);
  }

  lemma {:induction false} ReadsLines(done: seq<seq<string>>, rows: seq<seq<string>>)
    requires Grid(rows)
    ensures ReadFrom(Reader(FieldStart, "", [], done), Lines(rows)) == Some(done + GuardedGrid(rows))
    decreases |rows|
  {
    var row := rows[0];
    if |rows| == 1 {
      ReadsLastLine(done, row);
      assert GuardedGrid(rows) == [GuardedRow(row)];
    } else {
      ReadsWholeLine(done, row, Lines(rows[1..]));
      ReadsLines(done + [GuardedRow(row)], rows[1..]);
      assert done + [GuardedRow(row)] + GuardedGrid(rows[1..]) == done + GuardedGrid(rows);
    }
  }

  lemma ReadsBreak(r: Reader, tail: string)
    requires r.mode.QuoteSeen?
    ensures ReadFrom(r, CRLF + tail) == ReadFrom(Reader(FieldStart, "", [], r.rows + [r.row + [r.cell]]), tail)
  {
    assert (CRLF + tail)[1..] == "\n" + tail;
    assert ("\n" + tail)[1..] == tail;
  }

  // Whatever the cells contain, quotes, commas and line breaks included, a reader of the text after the byte order
  // mark gets exactly the grid of guarded cells.
  lemma RoundTrip(rows: seq<seq<string>>)
    requires Grid(rows)
    ensures Written(rows)[..1] == BOM
    ensures Read(Written(rows)[1..]) == Some(GuardedGrid(rows))
  {
    ReadsLines([], rows);
    assert Written(rows)[1..] == Lines(rows);
    assert [] + GuardedGrid(rows) == GuardedGrid(rows);
  }

  lemma {:induction false} GuardedRowAt(row: seq<string>, j: nat)
    requires j < |row|
    ensures |GuardedRow(row)| == |row| && GuardedRow(row)[j] == Guarded(row[j])
  {
    if |row| > 1 { GuardedRowAt(row[1..], if j > 0 then j - 1 else 0); }
  }

  lemma {:induction false} GuardedGridAt(rows: seq<seq<string>>, i: nat, j: nat)
    requires i < |rows| && j < |rows[i]|
    ensures |GuardedGrid(rows)| == |rows| && |GuardedGrid(rows)[i]| == |rows[i]|
    ensures GuardedGrid(rows)[i][j] == Guarded(rows[i][j])
    decreases |rows|
  {
    if i == 0 {
      GuardedRowAt(rows[0], j);
      GuardedGridLength(rows);
    } else {
      GuardedGridAt(rows[1..], i - 1, j);
    }
  }

  lemma {:induction false} GuardedGridLength(rows: seq<seq<string>>)
    ensures |GuardedGrid(rows)| == |rows|
  {
    if rows != [] { GuardedGridLength(rows[1..]); }
  }

  // White space and then one of the four characters a formula starts with.
  ghost predicate FormulaAt(raw: string, k: nat) {
    && k < |raw| && (raw[k] == '=' || raw[k] == '+' || raw[k] == '-' || raw[k] == '@')
    && forall j :: 0 <= j < k ==> IsSpace(raw[j])
  }

  lemma {:induction false} TrimmedAt(raw: string, k: nat)
    requires k <= |raw| && (forall j :: 0 <= j < k ==> IsSpace(raw[j])) && (k < |raw| ==> !IsSpace(raw[k]))
    ensures TrimStart(raw) == raw[k..]
    decreases k
  {
    if k > 0 { TrimmedAt(raw[1..], k - 1); }
  }

  lemma {:induction false} TrimStops(raw: string) returns (k: nat)
    ensures k <= |raw| && (forall j :: 0 <= j < k ==> IsSpace(raw[j])) && (k < |raw| ==> !IsSpace(raw[k]))
  {
    k := 0;
    if raw != "" && IsSpace(raw[0]) {
      var later := TrimStops(raw[1..]);
      k := later + 1;
      assert forall j :: 0 < j < k ==> raw[j] == raw[1..][j - 1];
    }
  }

  // A cell gets an apostrophe in front exactly if it has the form of a formula after white space.
  lemma GuardedIff(raw: string)
    ensures Guarded(raw) == "'" + raw <==> exists k: nat :: FormulaAt(raw, k)
    ensures Guarded(raw) == raw <==> !exists k: nat :: FormulaAt(raw, k)
  {
    var k := TrimStops(raw);
    TrimmedAt(raw, k);
    assert |"'" + raw| > |raw|;
    if k < |raw| && raw[k] in "=+-@" { assert FormulaAt(raw, k); }
    forall j: nat | FormulaAt(raw, j) ensures j == k {
      assert !IsSpace(raw[j]);
    }
  }

  // No exported cell reads as a formula, and a cell that never did is unchanged.
  lemma GuardedIsSafe(raw: string)
    ensures !Risky(Guarded(raw))
    ensures Guarded(raw) == raw <==> !Risky(raw)
  {
    assert TrimStart("'" + raw) == "'" + raw;
    assert |"'" + raw| > |raw|;
  }

  // Two cells are exported alike only if they are the same or one already carries the apostrophe the other gets.
  lemma GuardedCollides(a: string, b: string)
    ensures Guarded(a) == Guarded(b) <==> (a == b || (Risky(a) && b == "'" + a) || (Risky(b) && a == "'" + b))
  {
    GuardedIsSafe(a);
    GuardedIsSafe(b);
    assert ("'" + a)[1..] == a && ("'" + b)[1..] == b;
  }

  // ---------- the rows of a usage chart ----------

  // A curve with its printed values; a bucket without rows has none.
  datatype Column = Column(name: string, points: seq<Option<string>>)

  predicate Before(a: (nat, nat), b: (nat, nat)) {
    a.0 < b.0 || (a.0 == b.0 && a.1 < b.1)
  }

  predicate Drawn(times: seq<string>, columns: seq<Column>, at: (nat, nat)) {
    at.0 < |times| && at.1 < |columns| && at.0 < |columns[at.1].points| && columns[at.1].points[at.0].Some?
  }

  function RowAt(times: seq<string>, columns: seq<Column>, at: (nat, nat)): seq<string>
    requires Drawn(times, columns, at)
  {
    [times[at.0], columns[at.1].name, columns[at.1].points[at.0].value]
  }

  // The rows after the header are those of the positions listed: all of them drawn, in order, none missing so far.
  ghost predicate Lists(
      times: seq<string>, columns: seq<Column>, rows: seq<seq<string>>, at: seq<(nat, nat)>, stop: (nat, nat)) {
    && |rows| == |at| + 1
    && (forall k :: 0 <= k < |at| ==> Drawn(times, columns, at[k]) && rows[k + 1] == RowAt(times, columns, at[k]))
    && (forall k :: 0 <= k < |at| ==> Before(at[k], stop))
    && (forall j, k :: 0 <= j < k < |at| ==> Before(at[j], at[k]))
    && (forall p: (nat, nat) :: Drawn(times, columns, p) && Before(p, stop) ==> p in at)
  }

  // Every point that is drawn gives one row, time by time and curve by curve; an empty bucket gives none.
  method ChartRows(header: seq<string>, times: seq<string>, columns: seq<Column>)
    returns (rows: seq<seq<string>>, ghost at: seq<(nat, nat)>)
    requires header != []
    requires forall j :: 0 <= j < |columns| ==> |columns[j].points| == |times|
    ensures Grid(rows) && rows[0] == header
    ensures Lists(times, columns, rows, at, (|times|, 0))
  {
    rows, at := [header], [];
    var i := 0;
    while i < |times|
      invariant i <= |times|
      invariant Grid(rows) && rows[0] == header
      invariant Lists(times, columns, rows, at, (i, 0))
    {
      var j := 0;
      while j < |columns|
        invariant j <= |columns|
        invariant Grid(rows) && rows[0] == header
        invariant Lists(times, columns, rows, at, (i, j))
      {
        if columns[j].points[i].Some? {
          Listed(times, columns, rows, at, i, j);
          rows := rows + [[times[i], columns[j].name, columns[j].points[i].value]];
          at := at + [(i, j)];
        } else {
          Skipped(times, columns, rows, at, i, j);
        }
        j := j + 1;
      }
      TimeDone(times, columns, rows, at, i);
      i := i + 1;
    }
  }

  lemma Listed(times: seq<string>, columns: seq<Column>, rows: seq<seq<string>>, at: seq<(nat, nat)>, i: nat, j: nat)
    requires Lists(times, columns, rows, at, (i, j)) && Drawn(times, columns, (i, j))
    ensures Lists(times, columns, rows + [RowAt(times, columns, (i, j))], at + [(i, j)], (i, j + 1))
  {
    forall p: (nat, nat) | Drawn(times, columns, p) && Before(p, (i, j + 1)) ensures p in at + [(i, j)] {
      if p != (i, j) { assert Before(p, (i, j)); }
    }
  }

  lemma Skipped(times: seq<string>, columns: seq<Column>, rows: seq<seq<string>>, at: seq<(nat, nat)>, i: nat, j: nat)
    requires Lists(times, columns, rows, at, (i, j)) && !Drawn(times, columns, (i, j))
    ensures Lists(times, columns, rows, at, (i, j + 1))
  {
    forall p: (nat, nat) | Drawn(times, columns, p) && Before(p, (i, j + 1)) ensures p in at {
      assert p != (i, j);
      assert Before(p, (i, j));
    }
  }

  lemma TimeDone(times: seq<string>, columns: seq<Column>, rows: seq<seq<string>>, at: seq<(nat, nat)>, i: nat)
    requires Lists(times, columns, rows, at, (i, |columns|))
    ensures Lists(times, columns, rows, at, (i + 1, 0))
  {
    forall p: (nat, nat) | Drawn(times, columns, p) && Before(p, (i + 1, 0)) ensures p in at {
      assert Before(p, (i, |columns|));
    }
  }
}
