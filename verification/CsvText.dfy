/**
 * CSV lines (escapeCsvValue and the csv writer of export.service.ts) and a reader for
 * them after section 2 of RFC 4180, with LF as the end of a record.
 */
module CsvText {
  import opened Prelude
  import opened TextOps

  /** A value: null and undefined are None, anything else is already in its string form. */
  type Value = Option<string>

  function ValueString(v: Value): string {
    match v
    case None => ""
    case Some(s) => s
  }

  predicate NeedsQuotes(s: string) {
    '"' in s || ',' in s || '\r' in s || '\n' in s
  }

  function EscapeCsvValue(v: Value): string {
    var s := ValueString(v);
    if NeedsQuotes(s) then "\"" + Replaced(s, '"', "\"\"") + "\"" else s
  }

  function Line(row: seq<Value>): string {
    Join(seq(|row|, i requires 0 <= i < |row| => EscapeCsvValue(row[i])), ",") + "\n"
  }

  function Lines(rows: seq<seq<Value>>): string {
    if rows == [] then "" else Line(rows[0]) + Lines(rows[1..])
  }

  // ── Reader ──

  /** The rest of an escaped field: a doubled quote is one quote, a single one ends the field. */
  function ReadQuoted(s: string): (r: Option<(string, string)>)
    ensures r.Some? ==> |r.value.1| < |s|
  {
    if s == "" then None
    else if s[0] == '"' then
      if |s| > 1 && s[1] == '"' then
        var rest := ReadQuoted(s[2..]);
        if rest.None? then None else Some(("\"" + rest.value.0, rest.value.1))
      else Some(("", s[1..]))
    else
      var rest := ReadQuoted(s[1..]);
      if rest.None? then None else Some(([s[0]] + rest.value.0, rest.value.1))
  }

  function ReadBare(s: string): (r: Option<(string, string)>)
    ensures r.Some? ==> |r.value.1| <= |s|
  {
    if s == "" || s[0] == ',' || s[0] == '\n' then Some(("", s))
    else if s[0] == '"' || s[0] == '\r' then None
    else
      var rest := ReadBare(s[1..]);
      if rest.None? then None else Some(([s[0]] + rest.value.0, rest.value.1))
  }

  function ReadField(s: string): (r: Option<(string, string)>)
    ensures r.Some? ==> |r.value.1| <= |s|
  {
    if s != "" && s[0] == '"' then ReadQuoted(s[1..]) else ReadBare(s)
  }

  function ReadRecord(s: string): (r: Option<(seq<string>, string)>)
    ensures r.Some? && s != "" ==> |r.value.1| < |s|
    decreases |s|
  {
    var f := ReadField(s);
    if f.None? then None
    else
      var (field, rest) := f.value;
      if rest == "" then Some(([field], ""))
      else if rest[0] == '\n' then Some(([field], rest[1..]))
      else if rest[0] == ',' then
        var more := ReadRecord(rest[1..]);
        if more.None? then None else Some(([field] + more.value.0, more.value.1))
      else None
  }

  function ReadCsv(s: string): Option<seq<seq<string>>>
    decreases |s|
  {
    if s == "" then Some([])
    else
      var r := ReadRecord(s);
      if r.None? then None
      else
        var more := ReadCsv(r.value.1);
        if more.None? then None else Some([r.value.0] + more.value)
  }

  // ── Round trip ──

  predicate EndsField(rest: string) {
    rest != "" && (rest[0] == ',' || rest[0] == '\n')
  }

  lemma {:induction false} QuotedReadsBack(s: string, rest: string)
    requires EndsField(rest)
    ensures ReadQuoted(Replaced(s, '"', "\"\"") + "\"" + rest) == Some((s, rest))
  {
    var t := Replaced(s, '"', "\"\"") + "\"" + rest;
    if s == "" {
      assert t[1..] == rest;
    } else {
      QuotedReadsBack(s[1..], rest);
      var tail := Replaced(s[1..], '"', "\"\"") + "\"" + rest;
      if s[0] == '"' {
        assert t == "\"\"" + tail && t[2..] == tail;
      } else {
        assert t == [s[0]] + tail && t[1..] == tail;
      }
      assert [s[0]] + s[1..] == s;
    }
  }

  lemma {:induction false} BareReadsBack(s: string, rest: string)
    requires EndsField(rest) && !NeedsQuotes(s)
    ensures ReadBare(s + rest) == Some((s, rest))
  {
    if s == "" {
      assert s + rest == rest;
    } else {
      assert s[0] in s && forall c :: c in s[1..] ==> c in s;
      BareReadsBack(s[1..], rest);
      assert (s + rest)[1..] == s[1..] + rest;
      assert [s[0]] + s[1..] == s;
    }
  }

  lemma FieldReadsBack(v: Value, rest: string)
    requires EndsField(rest)
    ensures ReadField(EscapeCsvValue(v) + rest) == Some((ValueString(v), rest))
  {
    hide Replaced, ReadQuoted;
    var s := ValueString(v);
    if NeedsQuotes(s) {
      QuotedReadsBack(s, rest);
      assert EscapeCsvValue(v) + rest == "\"" + (Replaced(s, '"', "\"\"") + "\"" + rest);
    } else {
      BareReadsBack(s, rest);
      hide ReadBare;
      if s != "" { assert s[0] in s; }
    }
  }

  function Strings(row: seq<Value>): seq<string> {
    seq(|row|, i requires 0 <= i < |row| => ValueString(row[i]))
  }

  /** What a reader makes of a row: a line without columns is one empty field. */
  function ReadableRow(row: seq<Value>): seq<string> {
    if row == [] then [""] else Strings(row)
  }

  lemma LastField(s: string, field: string, tail: string)
    requires ReadField(s) == Some((field, tail)) && tail != "" && tail[0] == '\n'
    ensures ReadRecord(s) == Some(([field], tail[1..]))
  {
  }

  lemma AnotherField(s: string, field: string, tail: string, fields: seq<string>, rest: string)
    requires ReadField(s) == Some((field, tail)) && tail != "" && tail[0] == ','
    requires ReadRecord(tail[1..]) == Some((fields, rest))
    ensures ReadRecord(s) == Some(([field] + fields, rest))
  {
  }

  lemma {:induction false} LineReadsBack(row: seq<Value>, rest: string)
    ensures ReadRecord(Line(row) + rest) == Some((ReadableRow(row), rest))
  {
    hide ReadRecord, EscapeCsvValue;
    var s := Line(row) + rest;
    if row == [] {
      assert s == "\n" + rest && s[1..] == rest;
      LastField(s, "", s);
    } else if |row| == 1 {
      var tail := "\n" + rest;
      FieldReadsBack(row[0], tail);
      assert s == EscapeCsvValue(row[0]) + tail && tail[1..] == rest;
      LastField(s, ValueString(row[0]), tail);
      assert Strings(row) == [ValueString(row[0])];
    } else {
      var tail := "," + (Line(row[1..]) + rest);
      FieldReadsBack(row[0], tail);
      LineReadsBack(row[1..], rest);
      LineSplits(row);
      assert s == EscapeCsvValue(row[0]) + tail && tail[1..] == Line(row[1..]) + rest;
      AnotherField(s, ValueString(row[0]), tail, ReadableRow(row[1..]), rest);
      assert Strings(row) == [ValueString(row[0])] + Strings(row[1..]);
    }
  }

  lemma LineSplits(row: seq<Value>)
    requires |row| > 1
    ensures Line(row) == EscapeCsvValue(row[0]) + "," + Line(row[1..])
  {
    var cells := seq(|row|, i requires 0 <= i < |row| => EscapeCsvValue(row[i]));
    assert cells[1..] == seq(|row[1..]|, i requires 0 <= i < |row[1..]| => EscapeCsvValue(row[1..][i]));
  }

  function ReadableRows(rows: seq<seq<Value>>): seq<seq<string>> {
    seq(|rows|, i requires 0 <= i < |rows| => ReadableRow(rows[i]))
  }

  lemma {:induction false} LinesReadBack(rows: seq<seq<Value>>)
    ensures ReadCsv(Lines(rows)) == Some(ReadableRows(rows))
  {
    if rows == [] {
      assert ReadableRows(rows) == [];
    } else {
      LineReadsBack(rows[0], Lines(rows[1..]));
      LinesReadBack(rows[1..]);
      assert Line(rows[0]) != "";
      assert Lines(rows) == Line(rows[0]) + Lines(rows[1..]) && Lines(rows) != "";
      assert ReadableRows(rows) == [ReadableRow(rows[0])] + ReadableRows(rows[1..]);
    }
  }

  function AllStrings(rows: seq<seq<Value>>): seq<seq<string>> {
    seq(|rows|, i requires 0 <= i < |rows| => Strings(rows[i]))
  }

  /** The reader recovers the cells of every row exactly when every row has a column. */
  lemma CsvReadsBack(rows: seq<seq<Value>>)
    ensures ReadCsv(Lines(rows)) == Some(AllStrings(rows)) <==> forall i :: 0 <= i < |rows| ==> rows[i] != []
  {
    LinesReadBack(rows);
    if i :| 0 <= i < |rows| && rows[i] == [] {
      assert ReadableRows(rows)[i] == [""] && AllStrings(rows)[i] == [];
    } else {
      assert ReadableRows(rows) == AllStrings(rows);
    }
  }
}
