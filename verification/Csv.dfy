/**
 CSV export: a writer after RFC 4180, with formula cells neutralised, and a reader for section 2 of RFC 4180
 that treats the line break as the separator of records. Reading what was written gives every cell back.
 */
module Csv {
  import opened Option

  /** A cell: missing, free text, or a value whose text is its own (a number, boolean or date). */
  datatype Cell = Missing | Text(text: string) | Typed(text: string)

  type Row = map<string, Cell>

  /** What starts a formula. */
  predicate Formula(s: string) {
    s != [] && (s[0] == '=' || s[0] == '+' || s[0] == '-' || s[0] == '@' || s[0] == '\t' || s[0] == '\r')
  }

  /** The text a cell stands for in the file. `numeric` is whether Number(s) is a number. */
  function Neutral(c: Cell, numeric: string -> bool): string {
    match c
    case Missing => ""
    case Typed(s) => s
    case Text(s) => if Formula(s) && !numeric(s) then "'" + s else s
  }

  predicate Special(c: char) {
    c == '"' || c == ',' || c == '\r' || c == '\n'
  }

  predicate NeedsQuotes(s: string) {
    exists c <- s :: Special(c)
  }

  /** replace(/"/g, '""') */
  function Doubled(s: string): string {
    if s == [] then [] else (if s[0] == '"' then ['"', '"'] else [s[0]]) + Doubled(s[1..])
  }

  function Quoted(s: string): string {
    if NeedsQuotes(s) then ['"'] + Doubled(s) + ['"'] else s
  }

  function EscapeCell(c: Cell, numeric: string -> bool): string {
    Quoted(Neutral(c, numeric))
  }

  function Join(parts: seq<string>, separator: string): string {
    if parts == [] then ""
    else if |parts| == 1 then parts[0]
    else parts[0] + (separator + Join(parts[1..], separator))
  }

  function CellOf(row: Row, header: string): Cell {
    if header in row then row[header] else Missing
  }

  /** The cells of one line as text, and the line. */
  function Texts(cells: seq<Cell>, numeric: string -> bool): seq<string> {
    seq(|cells|, i requires 0 <= i < |cells| => Neutral(cells[i], numeric))
  }

  function QuotedAll(texts: seq<string>): seq<string> {
    if texts == [] then [] else [Quoted(texts[0])] + QuotedAll(texts[1..])
  }

  function HeaderCells(headers: seq<string>): seq<Cell> {
    seq(|headers|, i requires 0 <= i < |headers| => Text(headers[i]))
  }

  function RowCells(headers: seq<string>, row: Row): seq<Cell> {
    seq(|headers|, i requires 0 <= i < |headers| => CellOf(row, headers[i]))
  }

  /** Every record of the file as text, the header first. */
  function Records(headers: seq<string>, rows: seq<Row>, numeric: string -> bool): seq<seq<string>> {
    [Texts(HeaderCells(headers), numeric)] + seq(|rows|, i requires 0 <= i < |rows| => Texts(RowCells(headers, rows[i]), numeric))
  }

  function Lines(records: seq<seq<string>>): seq<string> {
    if records == [] then [] else [Join(QuotedAll(records[0]), ",")] + Lines(records[1..])
  }

  const CRLF: string := ['\r', '\n']

  // ---------------------------------------------------------------- the writer

  method EscapeCsvCell(c: Cell, numeric: string -> bool) returns (str: string)
    ensures str == EscapeCell(c, numeric)
  {
    if c.Missing? {
      return "";
    }
    str := c.text;
    if c.Text? && Formula(str) && !numeric(str) {
      str := "'" + str;
    }
    if NeedsQuotes(str) {
      return ['"'] + Doubled(str) + ['"'];
    }
  }

  method EscapeLine(cells: seq<Cell>, numeric: string -> bool) returns (line: string)
    ensures line == Join(QuotedAll(Texts(cells, numeric)), ",")
  {
    var parts := [];
    assert QuotedAll(Texts(cells[..0], numeric)) == [];
    for i := 0 to |cells|
      invariant parts == QuotedAll(Texts(cells[..i], numeric))
    {
      var part := EscapeCsvCell(cells[i], numeric);
      assert Texts(cells[..i + 1], numeric) == Texts(cells[..i], numeric) + [Neutral(cells[i], numeric)];
      QuotedAllAppend(Texts(cells[..i], numeric), Neutral(cells[i], numeric));
      parts := parts + [part];
    }
    assert cells[..|cells|] == cells;
    line := Join(parts, ",");
  }

  /** `headers` are the keys of the first row, in order. */
  method ToCsv(headers: seq<string>, rows: seq<Row>, numeric: string -> bool) returns (csv: string)
    ensures csv == if rows == [] then "" else Join(Lines(Records(headers, rows, numeric)), CRLF)
  {
    if rows == [] {
      return "";
    }
    var first := EscapeLine(HeaderCells(headers), numeric);
    var lines := [first];
    LinesAppend([], Texts(HeaderCells(headers), numeric));
    assert Records(headers, rows[..0], numeric) == [] + [Texts(HeaderCells(headers), numeric)];
    for i := 0 to |rows|
      invariant lines == Lines(Records(headers, rows[..i], numeric))
    {
      var line := EscapeLine(RowCells(headers, rows[i]), numeric);
      assert Records(headers, rows[..i + 1], numeric)
          == Records(headers, rows[..i], numeric) + [Texts(RowCells(headers, rows[i]), numeric)];
      LinesAppend(Records(headers, rows[..i], numeric), Texts(RowCells(headers, rows[i]), numeric));
      lines := lines + [line];
    }
    assert rows[..|rows|] == rows;
    csv := Join(lines, CRLF);
  }

  lemma {:induction false} QuotedAllAppend(texts: seq<string>, t: string)
    ensures QuotedAll(texts + [t]) == QuotedAll(texts) + [Quoted(t)]
  {
    if texts != [] {
      QuotedAllAppend(texts[1..], t);
      assert (texts + [t])[1..] == texts[1..] + [t];
    }
  }

  lemma {:induction false} LinesAppend(records: seq<seq<string>>, r: seq<string>)
    ensures Lines(records + [r]) == Lines(records) + [Join(QuotedAll(r), ",")]
  {
    if records != [] {
      LinesAppend(records[1..], r);
      assert (records + [r])[1..] == records[1..] + [r];
    }
  }

  // ---------------------------------------------------------------- the reader

  /** A field and what follows it. */
  type Parsed<T> = Option<(T, string)>

  /** After an opening quote: up to the quote that is not doubled. */
  function ReadQuoted(s: string): (r: Parsed<string>)
    ensures r.Some? ==> |r.value.1| < |s|
  {
    if s == [] then None
    else if s[0] != '"' then
      var r := ReadQuoted(s[1..]);
      if r.None? then None else Some(([s[0]] + r.value.0, r.value.1))
    else if |s| >= 2 && s[1] == '"' then
      var r := ReadQuoted(s[2..]);
      if r.None? then None else Some((['"'] + r.value.0, r.value.1))
    else Some(("", s[1..]))
  }

  function ReadPlain(s: string): (r: (string, string))
    ensures |r.1| <= |s|
  {
    if s == [] || Special(s[0]) then ("", s)
    else
      var r := ReadPlain(s[1..]);
      ([s[0]] + r.0, r.1)
  }

  function ReadField(s: string): (r: Parsed<string>)
    ensures r.Some? ==> |r.value.1| <= |s|
  {
    if s != [] && s[0] == '"' then ReadQuoted(s[1..]) else Some(ReadPlain(s))
  }

  function ReadRecord(s: string): (r: Parsed<seq<string>>)
    ensures r.Some? ==> |r.value.1| <= |s|
    decreases |s|
  {
    var field := ReadField(s);
    if field.None? then None
    else
      var (text, rest) := field.value;
      if rest != [] && rest[0] == ',' then
        var more := ReadRecord(rest[1..]);
        if more.None? then None else Some(([text] + more.value.0, more.value.1))
      else Some(([text], rest))
  }

  /** Records separated by line breaks; anything else after a record is an error. */
  function Read(s: string): Option<seq<seq<string>>>
    decreases |s|
  {
    var record := ReadRecord(s);
    if record.None? then None
    else
      var (cells, rest) := record.value;
      if rest == [] then Some([cells])
      else if |rest| >= 2 && rest[0] == '\r' && rest[1] == '\n' then
        var more := Read(rest[2..]);
        if more.None? then None else Some([cells] + more.value)
      else None
  }

  // ---------------------------------------------------------------- round trip

  /** Where a field may end. */
  predicate FieldEnds(rest: string) {
    rest == [] || rest[0] == ',' || RecordEnds(rest)
  }

  predicate RecordEnds(rest: string) {
    rest == [] || (|rest| >= 2 && rest[0] == '\r' && rest[1] == '\n')
  }

  lemma {:induction false} ReadsQuoted(s: string, rest: string)
    requires FieldEnds(rest)
    ensures ReadQuoted(Doubled(s) + (['"'] + rest)) == Some((s, rest))
  {
    var all := Doubled(s) + (['"'] + rest);
    if s == [] {
      assert all == ['"'] + rest && all[1..] == rest;
    } else {
      ReadsQuoted(s[1..], rest);
      var tail := Doubled(s[1..]) + (['"'] + rest);
      if s[0] == '"' {
        assert all == ['"', '"'] + tail && all[2..] == tail;
      } else {
        assert all == [s[0]] + tail && all[1..] == tail;
      }
      assert s == [s[0]] + s[1..];
    }
  }

  lemma {:induction false} ReadsPlain(s: string, rest: string)
    requires FieldEnds(rest) && !NeedsQuotes(s)
    ensures ReadPlain(s + rest) == (s, rest)
  {
    if s == [] {
      assert s + rest == rest;
    } else {
      assert s[0] in s;
      ReadsPlain(s[1..], rest);
      assert (s + rest)[1..] == s[1..] + rest && s == [s[0]] + s[1..];
    }
  }

  lemma ReadsField(s: string, rest: string)
    requires FieldEnds(rest)
    ensures ReadField(Quoted(s) + rest) == Some((s, rest))
  {
    hide Doubled, ReadQuoted, ReadPlain;
    if NeedsQuotes(s) {
      ReadsQuoted(s, rest);
      var all := Quoted(s) + rest;
      assert all[0] == '"' && all[1..] == Doubled(s) + (['"'] + rest);
    } else {
      ReadsPlain(s, rest);
      if s != [] {
        assert s[0] in s;
      }
    }
  }

  lemma {:induction false} ReadsRecord(cells: seq<string>, rest: string)
    requires cells != [] && RecordEnds(rest)
    ensures ReadRecord(Join(QuotedAll(cells), ",") + rest) == Some((cells, rest))
  {
    var line := Join(QuotedAll(cells), ",");
    if |cells| == 1 {
      assert QuotedAll(cells[1..]) == [] && cells == [cells[0]];
      ReadsField(cells[0], rest);
    } else {
      var tail := Join(QuotedAll(cells[1..]), ",") + rest;
      ReadsRecord(cells[1..], rest);
      ReadsField(cells[0], [','] + tail);
      assert QuotedAll(cells)[1..] == QuotedAll(cells[1..]) && |QuotedAll(cells)| > 1;
      assert line + rest == Quoted(cells[0]) + ([','] + tail);
      assert ([','] + tail)[1..] == tail;
      assert cells == [cells[0]] + cells[1..];
    }
  }

  /** Every record has a cell. */
  ghost predicate Full(records: seq<seq<string>>) {
    forall i :: 0 <= i < |records| ==> records[i] != []
  }

  lemma {:induction false} ReadsLines(records: seq<seq<string>>)
    requires records != [] && Full(records)
    ensures Read(Join(Lines(records), CRLF)) == Some(records)
  {
    var text := Join(Lines(records), CRLF);
    var line := Join(QuotedAll(records[0]), ",");
    if |records| == 1 {
      assert Lines(records[1..]) == [] && Lines(records) == [line];
      ReadsRecord(records[0], "");
      assert line + "" == line && text == line;
      assert records == [records[0]];
    } else {
      var tail := Join(Lines(records[1..]), CRLF);
      ReadsLines(records[1..]);
      ReadsRecord(records[0], CRLF + tail);
      assert Lines(records)[1..] == Lines(records[1..]) && |Lines(records)| > 1;
      assert text == line + (CRLF + tail) && (CRLF + tail)[2..] == tail;
      assert records == [records[0]] + records[1..];
    }
  }

  lemma RecordsAreFull(headers: seq<string>, rows: seq<Row>, numeric: string -> bool)
    requires headers != []
    ensures Full(Records(headers, rows, numeric)) && forall r <- Records(headers, rows, numeric) :: |r| == |headers|
  {}

  /** Reading the file gives the header and every row, cell for cell, whatever quotes, commas, CRs and LFs they hold. */
  lemma RoundTrip(headers: seq<string>, rows: seq<Row>, numeric: string -> bool)
    requires headers != [] && rows != []
    ensures Read(Join(Lines(Records(headers, rows, numeric)), CRLF)) == Some(Records(headers, rows, numeric))
  {
    RecordsAreFull(headers, rows, numeric);
    ReadsLines(Records(headers, rows, numeric));
  }

  /** What record i, column j of the file was made of; record 0 is the header. */
  function Origin(headers: seq<string>, rows: seq<Row>, i: nat, j: nat): Cell
    requires i <= |rows| && j < |headers|
  {
    if i == 0 then Text(headers[j]) else CellOf(rows[i - 1], headers[j])
  }

  /**
   Whoever reads the file finds a formula in a cell, header included, iff the cell was made of one that the
   writer leaves alone: a typed value, or a free text that is a number. Every other cell starts with something else.
   */
  lemma NoFormulas(headers: seq<string>, rows: seq<Row>, numeric: string -> bool)
    requires headers != [] && rows != []
    ensures var read := Read(Join(Lines(Records(headers, rows, numeric)), CRLF));
            && read.Some? && |read.value| == |rows| + 1
            && forall i, j :: 0 <= i <= |rows| && 0 <= j < |headers| ==>
                 |read.value[i]| == |headers|
                 && var cell := Origin(headers, rows, i, j);
                    (Formula(read.value[i][j]) <==> !cell.Missing? && Formula(cell.text) && (cell.Typed? || numeric(cell.text)))
  {
    RoundTrip(headers, rows, numeric);
    var records := Records(headers, rows, numeric);
    forall i, j | 0 <= i <= |rows| && 0 <= j < |headers|
      ensures |records[i]| == |headers|
      ensures var cell := Origin(headers, rows, i, j);
              Formula(records[i][j]) <==> !cell.Missing? && Formula(cell.text) && (cell.Typed? || numeric(cell.text))
    {
      assert records[i][j] == Neutral(Origin(headers, rows, i, j), numeric);
    }
    hide Read, Join, Lines;
  }

  /** How a reader finds a free text: as it was, or behind an apostrophe when it would start a formula. */
  predicate ReadsAs(read: string, text: string, numeric: string -> bool) {
    if text != "" && text[0] in {'=', '+', '-', '@', '\t', '\r'} && !numeric(text) then read == "'" + text else read == text
  }

  /**
   Cell by cell: a reader finds every header and free text so, every typed value as it is, and nothing where the row
   has nothing.
   */
  lemma CellsReadBack(headers: seq<string>, rows: seq<Row>, numeric: string -> bool, i: nat, j: nat)
    requires headers != [] && rows != [] && i < |rows| && j < |headers|
    ensures var read := Read(Join(Lines(Records(headers, rows, numeric)), CRLF));
            && read.Some? && |read.value| == |rows| + 1 && |read.value[0]| == |read.value[i + 1]| == |headers|
            && ReadsAs(read.value[0][j], headers[j], numeric)
            && if headers[j] !in rows[i] || rows[i][headers[j]].Missing? then read.value[i + 1][j] == ""
               else if rows[i][headers[j]].Typed? then read.value[i + 1][j] == rows[i][headers[j]].text
               else ReadsAs(read.value[i + 1][j], rows[i][headers[j]].text, numeric)
  {
    RoundTrip(headers, rows, numeric);
    hide Read, Join, Lines;
  }

  /** A field is written as it is unless it holds a quote, a comma, a CR or an LF; then it is quoted. */
  lemma QuotedIff(s: string)
    ensures (exists c <- s :: c in {'"', ',', '\r', '\n'}) ==> |Quoted(s)| >= |s| + 2 && Quoted(s)[0] == Quoted(s)[|Quoted(s)| - 1] == '"'
    ensures (forall c <- s :: c !in {'"', ',', '\r', '\n'}) ==> Quoted(s) == s
  {
    DoubledLength(s);
    if c :| c in s && c in {'"', ',', '\r', '\n'} {
      assert Special(c);
    }
    hide Doubled;
  }

  lemma {:induction false} DoubledLength(s: string)
    ensures |Doubled(s)| >= |s|
  {
    if s != [] {
      DoubledLength(s[1..]);
    }
  }

  // ---------------------------------------------------------------- readers that ignore a final line break

  predicate EndsWithBreak(s: string) {
    |s| >= 2 && s[|s| - 2..] == CRLF
  }

  /** The other reading section 2 allows: a line break after the last record is not a separator. */
  function ReadTerminated(s: string): Option<seq<seq<string>>> {
    Read(if EndsWithBreak(s) then s[..|s| - 2] else s)
  }

  lemma QuotedEnd(s: string)
    ensures Quoted(s) == "" <==> s == ""
    ensures s != "" ==> Quoted(s)[|Quoted(s)| - 1] != '\n'
  {
    if !NeedsQuotes(s) && s != "" {
      assert s[|s| - 1] in s;
    }
  }

  lemma JoinSplits(parts: seq<string>, separator: string)
    requires |parts| > 1
    ensures Join(parts, separator) == parts[0] + (separator + Join(parts[1..], separator))
    ensures |Join(parts, separator)| >= |separator|
  {}

  /** A line never ends in a line feed: it is empty only when it is one empty cell. */
  lemma {:induction false} LineEnd(cells: seq<string>)
    requires cells != []
    ensures var line := Join(QuotedAll(cells), ",");
            (line == "" <==> cells == [""]) && (line != "" ==> line[|line| - 1] != '\n')
  {
    hide Quoted;
    QuotedEnd(cells[0]);
    if |cells| == 1 {
      assert QuotedAll(cells[1..]) == [] && cells == [cells[0]];
    } else {
      LineEnd(cells[1..]);
      assert QuotedAll(cells)[1..] == QuotedAll(cells[1..]) && |QuotedAll(cells)| > 1;
      JoinSplits(QuotedAll(cells), ",");
    }
  }

  lemma {:induction false} TextEnd(records: seq<seq<string>>)
    requires records != [] && Full(records)
    ensures var text := Join(Lines(records), CRLF);
            && (EndsWithBreak(text) <==> |records| > 1 && records[|records| - 1] == [""])
            && (|records| == 1 ==> text == Join(QuotedAll(records[0]), ","))
            && (EndsWithBreak(text) ==> text[..|text| - 2] == Join(Lines(records[..|records| - 1]), CRLF))
    decreases |records|, 1
  {
    var text := Join(Lines(records), CRLF);
    LineEnd(records[0]);
    if |records| == 1 {
      assert Lines(records[1..]) == [];
    } else {
      TailEnd(records);
    }
  }

  lemma EndOfTwo(line: string, last: string)
    requires last == "" || last[|last| - 1] != '\n'
    ensures EndsWithBreak(line + (CRLF + last)) <==> last == ""
    ensures last == "" ==> (line + (CRLF + last))[..|line + (CRLF + last)| - 2] == line
  {
    var text := line + (CRLF + last);
    if last == "" {
      assert text[|text| - 2..] == CRLF;
    } else {
      assert text[|text| - 2..][1] == last[|last| - 1];
    }
  }

  lemma EndOfMany(line: string, tail: string)
    requires |tail| >= 2
    ensures var text := line + (CRLF + tail);
            && (EndsWithBreak(text) <==> EndsWithBreak(tail))
            && text[..|text| - 2] == line + (CRLF + tail[..|tail| - 2])
  {
    var text := line + (CRLF + tail);
    assert text[|text| - 2..] == tail[|tail| - 2..];
  }

  lemma LinesSplit(records: seq<seq<string>>)
    requires |records| > 1
    ensures |Lines(records[1..])| == |records| - 1
    ensures Join(Lines(records), CRLF) == Join(QuotedAll(records[0]), ",") + (CRLF + Join(Lines(records[1..]), CRLF))
  {
    LinesCount(records[1..]);
    assert Lines(records)[1..] == Lines(records[1..]);
    JoinSplits(Lines(records), CRLF);
  }

  lemma LinesOfOne(record: seq<string>)
    ensures Join(Lines([record]), CRLF) == Join(QuotedAll(record), ",")
  {}

  lemma TailEnd(records: seq<seq<string>>)
    requires |records| > 1 && Full(records)
    ensures var text := Join(Lines(records), CRLF);
            && (EndsWithBreak(text) <==> records[|records| - 1] == [""])
            && (EndsWithBreak(text) ==> text[..|text| - 2] == Join(Lines(records[..|records| - 1]), CRLF))
    decreases |records|, 0
  {
    hide EndsWithBreak, QuotedAll, Lines, Join;
    var rest, shorter := records[1..], records[..|records| - 1];
    var line, tail := Join(QuotedAll(records[0]), ","), Join(Lines(rest), CRLF);
    TextEnd(rest);
    LinesSplit(records);
    if |records| == 2 {
      LineEnd(records[1]);
      EndOfTwo(line, tail);
      assert shorter == [records[0]];
      LinesOfOne(records[0]);
    } else {
      JoinSplits(Lines(rest), CRLF);
      EndOfMany(line, tail);
      LinesSplit(shorter);
      assert rest[..|rest| - 1] == shorter[1..];
    }
  }

  lemma {:induction false} LinesCount(records: seq<seq<string>>)
    ensures |Lines(records)| == |records|
  {
    if records != [] {
      LinesCount(records[1..]);
    }
  }

  /** Such a reader loses a record exactly when the file has one column and its last cell is empty. */
  lemma TerminatedRoundTripIff(headers: seq<string>, rows: seq<Row>, numeric: string -> bool)
    requires headers != [] && rows != []
    ensures ReadTerminated(Join(Lines(Records(headers, rows, numeric)), CRLF)) == Some(Records(headers, rows, numeric))
            <==> !(|headers| == 1 && Neutral(CellOf(rows[|rows| - 1], headers[0]), numeric) == "")
  {
    hide *;
    RecordsAreFull(headers, rows, numeric);
    LastRecord(headers, rows, numeric);
    TerminatedReads(Records(headers, rows, numeric));
  }

  lemma LastRecord(headers: seq<string>, rows: seq<Row>, numeric: string -> bool)
    requires headers != [] && rows != []
    ensures var records := Records(headers, rows, numeric);
            && |records| > 1
            && (records[|records| - 1] == [""] <==> |headers| == 1 && Neutral(CellOf(rows[|rows| - 1], headers[0]), numeric) == "")
  {
    var records := Records(headers, rows, numeric);
    var last := records[|records| - 1];
    assert last == Texts(RowCells(headers, rows[|rows| - 1]), numeric);
    hide Records, Neutral;
    assert |last| == |headers| && last[0] == Neutral(CellOf(rows[|rows| - 1], headers[0]), numeric);
  }

  lemma TerminatedReads(records: seq<seq<string>>)
    requires |records| > 1 && Full(records)
    ensures ReadTerminated(Join(Lines(records), CRLF)) == Some(records) <==> records[|records| - 1] != [""]
  {
    hide Join, Lines, Read, EndsWithBreak;
    ReadsLines(records);
    TextEnd(records);
    ReadsLines(records[..|records| - 1]);
  }
}
