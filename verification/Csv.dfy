/** CSV rows as the export service writes them, and a reader for rules 5 to 7 of section 2 of RFC 4180. */
module Csv {
  import opened Wrappers

  /** A cell before printing: null and undefined print as nothing. */
  type Cell = Option<string>

  function Text(v: Cell): string {
    v.GetOr("")
  }

  predicate NeedsQuotes(s: string) {
    exists i :: 0 <= i < |s| && s[i] in {',', '"', '\n'}
  }

  function Doubled(s: string): string {
    if s == "" then "" else (if s[0] == '"' then "\"\"" else [s[0]]) + Doubled(s[1..])
  }

  function Field(s: string): string {
    if NeedsQuotes(s) then "\"" + Doubled(s) + "\"" else s
  }

  function Joined(fields: seq<string>): string {
    if fields == [] then ""
    else if |fields| == 1 then Field(fields[0])
    else Field(fields[0]) + "," + Joined(fields[1..])
  }

  function Texts(row: seq<Cell>): (texts: seq<string>)
    ensures |texts| == |row|
  {
    seq(|row|, i requires 0 <= i < |row| => Text(row[i]))
  }

  function CsvRow(row: seq<Cell>): string {
    Joined(Texts(row)) + "\n"
  }

  function CsvRows(rows: seq<seq<Cell>>): string {
    if rows == [] then "" else CsvRow(rows[0]) + CsvRows(rows[1..])
  }

  // The reader

  datatype Read<T> = Read(value: T, rest: string)

  /** After an opening quote: up to the closing quote, a doubled quote standing for one. */
  function ReadQuoted(s: string): Option<Read<string>> {
    if s == "" then None
    else if s[0] != '"' then
      var tail := ReadQuoted(s[1..]);
      if tail.None? then None else Some(Read([s[0]] + tail.value.value, tail.value.rest))
    else if |s| >= 2 && s[1] == '"' then
      var tail := ReadQuoted(s[2..]);
      if tail.None? then None else Some(Read("\"" + tail.value.value, tail.value.rest))
    else Some(Read("", s[1..]))
  }

  /** An unquoted field ends before a comma or a line feed and holds no quote. */
  function ReadPlain(s: string): Option<Read<string>> {
    if s == "" || s[0] in {',', '\n'} then Some(Read("", s))
    else if s[0] == '"' then None
    else
      var tail := ReadPlain(s[1..]);
      if tail.None? then None else Some(Read([s[0]] + tail.value.value, tail.value.rest))
  }

  function ReadField(s: string): Option<Read<string>> {
    if s != "" && s[0] == '"' then ReadQuoted(s[1..]) else ReadPlain(s)
  }

  lemma {:induction false} QuotedShrinks(s: string)
    ensures ReadQuoted(s).Some? ==> |ReadQuoted(s).value.rest| < |s|
    decreases |s|
  {
    if s == "" {
    } else if s[0] != '"' {
      QuotedShrinks(s[1..]);
    } else if |s| >= 2 && s[1] == '"' {
      QuotedShrinks(s[2..]);
    }
  }

  lemma {:induction false} PlainShrinks(s: string)
    ensures ReadPlain(s).Some? ==> |ReadPlain(s).value.rest| <= |s|
  {
    if s != "" && s[0] !in {',', '\n', '"'} {
      PlainShrinks(s[1..]);
    }
  }

  lemma FieldShrinks(s: string)
    ensures ReadField(s).Some? ==> |ReadField(s).value.rest| <= |s|
  {
    if s != "" && s[0] == '"' {
      QuotedShrinks(s[1..]);
    } else {
      PlainShrinks(s);
    }
  }

  /** Fields separated by commas up to the line feed that ends the row. */
  function ReadRow(s: string): Option<Read<seq<string>>>
    decreases |s|
  {
    FieldShrinks(s);
    var f := ReadField(s);
    if f.None? || f.value.rest == "" then None
    else if f.value.rest[0] == '\n' then Some(Read([f.value.value], f.value.rest[1..]))
    else if f.value.rest[0] == ',' then
      var tail := ReadRow(f.value.rest[1..]);
      if tail.None? then None else Some(Read([f.value.value] + tail.value.value, tail.value.rest))
    else None
  }

  lemma {:induction false} RowShrinks(s: string)
    ensures ReadRow(s).Some? ==> |ReadRow(s).value.rest| < |s|
    decreases |s|
  {
    FieldShrinks(s);
    var f := ReadField(s);
    if f.Some? && f.value.rest != "" && f.value.rest[0] == ',' {
      RowShrinks(f.value.rest[1..]);
    }
  }

  function ReadRows(s: string): Option<seq<seq<string>>>
    decreases |s|
  {
    if s == "" then Some([])
    else
      RowShrinks(s);
      var row := ReadRow(s);
      if row.None? then None
      else
        var tail := ReadRows(row.value.rest);
        if tail.None? then None else Some([row.value.value] + tail.value)
  }

  // The round trip

  /** A field is followed by a separator, so the reader can tell where it ends. */
  predicate Ends(rest: string) {
    rest != "" && rest[0] in {',', '\n'}
  }

  lemma {:induction false} QuotedRoundTrip(s: string, rest: string)
    requires Ends(rest)
    ensures ReadQuoted(Doubled(s) + "\"" + rest) == Some(Read(s, rest))
  {
    var text := Doubled(s) + "\"" + rest;
    if s == "" {
      assert text == "\"" + rest && text[1..] == rest;
    } else {
      QuotedRoundTrip(s[1..], rest);
      var tail := Doubled(s[1..]) + "\"" + rest;
      assert text == (if s[0] == '"' then "\"\"" else [s[0]]) + tail;
      ReadOneMore(s[0], tail, s[1..], rest);
      assert s == [s[0]] + s[1..];
    }
  }

  /** One more character in front, doubled if it is a quote. */
  lemma ReadOneMore(c: char, tail: string, v: string, rest: string)
    requires ReadQuoted(tail) == Some(Read(v, rest))
    ensures ReadQuoted((if c == '"' then "\"\"" else [c]) + tail) == Some(Read([c] + v, rest))
  {
    if c == '"' {
      ReadDoubled(tail);
    } else {
      ReadOther(c, tail);
    }
  }

  lemma ReadDoubled(tail: string)
    requires ReadQuoted(tail).Some?
    ensures ReadQuoted("\"\"" + tail) == Some(Read("\"" + ReadQuoted(tail).value.value, ReadQuoted(tail).value.rest))
  {
    assert ("\"\"" + tail)[2..] == tail;
  }

  lemma ReadOther(c: char, tail: string)
    requires c != '"' && ReadQuoted(tail).Some?
    ensures ReadQuoted([c] + tail) == Some(Read([c] + ReadQuoted(tail).value.value, ReadQuoted(tail).value.rest))
  {
    assert ([c] + tail)[1..] == tail;
  }

  lemma {:induction false} PlainRoundTrip(s: string, rest: string)
    requires Ends(rest) && !NeedsQuotes(s)
    ensures ReadPlain(s + rest) == Some(Read(s, rest))
  {
    if s == "" {
      assert s + rest == rest;
    } else {
      assert s[0] !in {',', '"', '\n'};
      assert forall i :: 0 <= i < |s[1..]| ==> s[1..][i] == s[i + 1];
      PlainRoundTrip(s[1..], rest);
      assert (s + rest)[1..] == s[1..] + rest && s == [s[0]] + s[1..];
    }
  }

  lemma FieldRoundTrip(s: string, rest: string)
    requires Ends(rest)
    ensures ReadField(Field(s) + rest) == Some(Read(s, rest))
  {
    if NeedsQuotes(s) {
      var quoted := Doubled(s) + "\"" + rest;
      QuotedRoundTrip(s, rest);
      assert Field(s) + rest == ['"'] + quoted;
      assert (['"'] + quoted)[1..] == quoted;
    } else {
      PlainRoundTrip(s, rest);
      PlainStart(s, rest);
    }
  }

  lemma {:induction false} DoubledGrows(s: string)
    ensures |Doubled(s)| >= |s|
  {
    if s != "" {
      DoubledGrows(s[1..]);
    }
  }

  /** A text is written as it is exactly when it holds no comma, quote or line feed. */
  lemma PlainIff(s: string)
    ensures Field(s) == s <==> ',' !in s && '"' !in s && '\n' !in s
  {
    if NeedsQuotes(s) {
      DoubledGrows(s);
    }
  }

  lemma PlainStart(s: string, rest: string)
    requires Ends(rest) && !NeedsQuotes(s)
    ensures (s + rest)[0] != '"'
  {
    if s == "" {
      assert s + rest == rest;
    }
  }

  /** One field and its separator, in front of what is already known to read back. */
  lemma RowStep(text: string, v: string, sep: string, tail: string, vs: seq<string>, rest: string)
    requires ReadField(text) == Some(Read(v, sep))
    requires sep == [','] + tail && ReadRow(tail) == Some(Read(vs, rest))
    ensures ReadRow(text) == Some(Read([v] + vs, rest))
  {
    assert sep[0] == ',' && sep[1..] == tail;
  }

  lemma RowEnd(text: string, v: string, sep: string, rest: string)
    requires ReadField(text) == Some(Read(v, sep)) && sep == ['\n'] + rest
    ensures ReadRow(text) == Some(Read([v], rest))
  {
    assert sep[0] == '\n' && sep[1..] == rest;
  }

  lemma {:induction false} RowRoundTrip(fields: seq<string>, rest: string)
    requires fields != []
    ensures ReadRow(Joined(fields) + "\n" + rest) == Some(Read(fields, rest))
  {
    if |fields| == 1 {
      var sep := ['\n'] + rest;
      FieldRoundTrip(fields[0], sep);
      LastText(fields, rest);
      RowEnd(Joined(fields) + "\n" + rest, fields[0], sep, rest);
      assert fields == [fields[0]];
    } else {
      var tail := Joined(fields[1..]) + "\n" + rest;
      var sep := [','] + tail;
      RowRoundTrip(fields[1..], rest);
      FieldRoundTrip(fields[0], sep);
      FirstText(fields, rest);
      RowStep(Joined(fields) + "\n" + rest, fields[0], sep, tail, fields[1..], rest);
      assert fields == [fields[0]] + fields[1..];
    }
  }

  lemma LastText(fields: seq<string>, rest: string)
    requires |fields| == 1
    ensures Joined(fields) + "\n" + rest == Field(fields[0]) + (['\n'] + rest)
  {
  }

  lemma FirstText(fields: seq<string>, rest: string)
    requires |fields| > 1
    ensures Joined(fields) + "\n" + rest == Field(fields[0]) + ([','] + (Joined(fields[1..]) + "\n" + rest))
  {
    Regroup(Field(fields[0]), [','], Joined(fields[1..]), "\n", rest);
  }

  lemma Regroup(a: string, sep: string, b: string, c: string, d: string)
    ensures a + sep + b + c + d == a + (sep + (b + c + d))
  {
  }

  function AllTexts(rows: seq<seq<Cell>>): seq<seq<string>> {
    if rows == [] then [] else [Texts(rows[0])] + AllTexts(rows[1..])
  }

  /** For rows of one or more arbitrary cells, reading the written text gives back exactly their texts. */
  lemma {:induction false} RowsRoundTrip(rows: seq<seq<Cell>>)
    requires forall r :: r in rows ==> r != []
    ensures ReadRows(CsvRows(rows)) == Some(AllTexts(rows))
  {
    if rows != [] {
      assert rows[0] in rows && forall r :: r in rows[1..] ==> r in rows;
      RowsRoundTrip(rows[1..]);
      RowRoundTrip(Texts(rows[0]), CsvRows(rows[1..]));
      assert CsvRows(rows) == Joined(Texts(rows[0])) + "\n" + CsvRows(rows[1..]);
    }
  }

  /** A row without cells is written like a row with one empty cell. */
  lemma EmptyRowIsAmbiguous()
    ensures CsvRow([]) == CsvRow([Some("")]) && ReadRows(CsvRow([])) == Some([[""]])
  {
    var row := [Some("")];
    assert Texts(row) == [""] && Texts([]) == [];
    assert CsvRow([]) == CsvRow(row) == "\n";
    assert CsvRows([row]) == CsvRow(row) + CsvRows([]) && CsvRows([row]) == "\n";
    RowsRoundTrip([row]);
    assert [row][1..] == [];
    assert AllTexts([row]) == [Texts(row)] + AllTexts([]) == [[""]];
  }
}

/** The streamed export against the buffered one. */
module CsvExport {
  import opened Wrappers
  import opened Csv

  const FETCH_SIZE: nat := 500

  lemma {:induction false} CsvRowsConcat(a: seq<seq<Cell>>, b: seq<seq<Cell>>)
    ensures CsvRows(a + b) == CsvRows(a) + CsvRows(b)
  {
    if a == [] {
      assert a + b == b;
    } else {
      assert (a + b)[1..] == a[1..] + b;
      CsvRowsConcat(a[1..], b);
    }
  }

  /** The server-side cursor over a query's rows. */
  class Cursor {
    const rows: seq<seq<Cell>>
    var position: nat

    constructor (rows: seq<seq<Cell>>)
      ensures this.rows == rows && position == 0
    {
      this.rows := rows;
      position := 0;
    }

    method Fetch(count: nat) returns (batch: seq<seq<Cell>>)
      requires position <= |rows|
      modifies this`position
      ensures position == (if old(position) + count < |rows| then old(position) + count else |rows|)
      ensures rows[..position] == rows[..old(position)] + batch
      ensures batch == [] <==> old(position) == |rows| || count == 0
    {
      var end := if position + count < |rows| then position + count else |rows|;
      batch := rows[position..end];
      position := end;
    }
  }

  lemma WrittenMore(header: seq<Cell>, done: seq<seq<Cell>>, batch: seq<seq<Cell>>)
    ensures CsvRow(header) + CsvRows(done) + CsvRows(batch) == CsvRow(header) + CsvRows(done + batch)
  {
    CsvRowsConcat(done, batch);
  }

  /** How many rows that many fetches bring. */
  function Fetched(fetches: nat, total: nat): nat {
    if fetches * FETCH_SIZE < total then fetches * FETCH_SIZE else total
  }

  /** The last fetch of a complete stream is the one that brings nothing. */
  predicate Completes(failsAfter: Option<nat>, total: nat) {
    failsAfter.None? || (failsAfter.value > 0 && (failsAfter.value - 1) * FETCH_SIZE >= total)
  }

  /** `failsAfter` is how many fetches succeed before the connection fails, if it does. */
  method PipeQueryToCsv(header: seq<Cell>, rows: seq<seq<Cell>>, failsAfter: Option<nat>)
    returns (written: string, complete: bool)
    ensures complete == Completes(failsAfter, |rows|)
    ensures written == CsvRow(header)
      + CsvRows(if complete then rows else rows[..Fetched(failsAfter.value, |rows|)])
  {
    written := CsvRow(header);
    var cursor := new Cursor(rows);
    var fetches := 0;
    while true
      invariant fresh(cursor) && cursor.rows == rows && cursor.position == Fetched(fetches, |rows|)
      invariant failsAfter.Some? ==> fetches <= failsAfter.value
      invariant fetches > 0 ==> (fetches - 1) * FETCH_SIZE < |rows|
      invariant written == CsvRow(header) + CsvRows(rows[..cursor.position])
      decreases |rows| - cursor.position
    {
      if failsAfter == Some(fetches) {
        return written, false;
      }
      ghost var done := rows[..cursor.position];
      var batch := cursor.Fetch(FETCH_SIZE);
      fetches := fetches + 1;
      if |batch| == 0 { break; }
      WrittenMore(header, done, batch);
      var chunk := RenderChunk(batch);
      written := written + chunk;
    }
    assert rows[..cursor.position] == rows;
    return written, true;
  }

  /** Maps each row to its line and joins the lines. */
  method RenderChunk(batch: seq<seq<Cell>>) returns (chunk: string)
    ensures chunk == CsvRows(batch)
  {
    chunk := "";
    var i := 0;
    while i < |batch|
      invariant 0 <= i <= |batch|
      invariant chunk == CsvRows(batch[..i])
    {
      assert batch[..i + 1] == batch[..i] + [batch[i]];
      CsvRowsConcat(batch[..i], [batch[i]]);
      assert CsvRows([batch[i]]) == CsvRow(batch[i]) + CsvRows([]);
      chunk := chunk + CsvRow(batch[i]);
      i := i + 1;
    }
    assert batch[..i] == batch;
  }

  function BuildCsv(header: seq<Cell>, rows: seq<seq<Cell>>): string {
    CsvRow(header) + CsvRows(rows)
  }

  /** Read back, a completed stream or a buffered build is the header and the rows, no more and no less. */
  lemma ExportReadsBack(header: seq<Cell>, rows: seq<seq<Cell>>)
    requires header != [] && forall r :: r in rows ==> r != []
    ensures ReadRows(BuildCsv(header, rows)) == Some([Texts(header)] + AllTexts(rows))
  {
    RowsRoundTrip([header] + rows);
    assert ([header] + rows)[1..] == rows;
  }
}
