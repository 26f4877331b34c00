/**
 * The streaming writers of export.service.ts and the two export loops that feed them in
 * batches. What a client receives for a table depends on its rows alone.
 */
module ExportWriter {
  import opened Prelude
  import opened TextOps
  import opened SqlNames
  import opened SqlText
  import JsonText
  import CsvText

  /**
   * A cell in the three forms the formats need: its JSON value, its CSV value and its SQL
   * literal in the source database's dialect (escaped by the driver libraries).
   */
  datatype Cell = Cell(column: string, json: JsonText.Json, csv: CsvText.Value, literal: string)

  type Row = seq<Cell>

  datatype Table = Table(name: string, rows: seq<Row>)

  datatype Format = Json | Csv | Sql

  /** The database's name and dialect, and the time stamp of an SQL export. */
  datatype Source = Source(database: string, generated: string, dialect: Dialect) {
    const quote: char := if dialect == Pg then '"' else '`'
  }

  const BATCH_SIZE: nat := 5000

  // ── Text of rows ──

  function JsonObject(row: Row): JsonText.Json {
    JsonText.JObject(seq(|row|, i requires 0 <= i < |row| => JsonText.Member(row[i].column, row[i].json)))
  }

  function CsvHeader(row: Row): string {
    CsvText.Line(seq(|row|, i requires 0 <= i < |row| => Some(row[i].column)))
  }

  function CsvLine(row: Row): string {
    CsvText.Line(seq(|row|, i requires 0 <= i < |row| => row[i].csv))
  }

  /** The columns a row names, in order. */
  function ColumnNames(row: Row): seq<string> {
    seq(|row|, i requires 0 <= i < |row| => row[i].column)
  }

  function SqlColumns(src: Source, row: Row): string {
    NamesText(ColumnNames(row), src.quote)
  }

  function SqlHead(src: Source, table: string): string {
    "INSERT INTO " + QuoteName(table, src.quote) + " ("
  }

  function SqlLine(src: Source, table: string, columns: string, row: Row): string {
    SqlHead(src, table) + columns + ") VALUES ("
    + Join(seq(|row|, i requires 0 <= i < |row| => row[i].literal), ", ") + ");\n"
  }

  function JsonRows(rows: seq<Row>, started: bool): string {
    if rows == [] then ""
    else (if started then "," else "") + "\n    " + JsonText.JsonText(JsonObject(rows[0])) + JsonRows(rows[1..], true)
  }

  function CsvLines(rows: seq<Row>): string {
    if rows == [] then "" else CsvLine(rows[0]) + CsvLines(rows[1..])
  }

  function SqlLines(src: Source, table: string, columns: string, rows: seq<Row>): string {
    if rows == [] then "" else SqlLine(src, table, columns, rows[0]) + SqlLines(src, table, columns, rows[1..])
  }

  /** One batch, when `started` says whether the table already had a row. */
  function RowsText(f: Format, src: Source, table: string, started: bool, rows: seq<Row>): string {
    match f
    case Json => JsonRows(rows, started)
    case Csv => (if !started && rows != [] then CsvHeader(rows[0]) else "") + CsvLines(rows)
    case Sql => if rows == [] then "" else SqlLines(src, table, SqlColumns(src, rows[0]), rows)
  }

  function TableHead(f: Format, name: string, index: nat): string {
    match f
    case Json => (if index > 0 then "," else "") + "\n  " + JsonText.StringText(name) + ": ["
    case Csv => "# TABLE: " + name + "\n"
    case Sql => "-- Table: " + name + "\n"
  }

  function TableEnd(f: Format, started: bool): string {
    match f
    case Json => if started then "\n  ]" else "]"
    case Csv => "\n"
    case Sql => "\n"
  }

  function TableText(f: Format, src: Source, t: Table, index: nat): string {
    TableHead(f, t.name, index) + RowsText(f, src, t.name, false, t.rows) + TableEnd(f, t.rows != [])
  }

  function TablesText(f: Format, src: Source, tables: seq<Table>, index: nat): string {
    if tables == [] then "" else TableText(f, src, tables[0], index) + TablesText(f, src, tables[1..], index + 1)
  }

  function Begin(f: Format, src: Source): string {
    match f
    case Json => "{"
    case Csv => ""
    case Sql => "-- Export of database: " + src.database + "\n-- Generated: " + src.generated + "\n\n"
  }

  function End(f: Format): string {
    if f == Json then "\n}\n" else ""
  }

  /** What a client receives: rows only, no batches. */
  function ExportText(f: Format, src: Source, tables: seq<Table>): string {
    Begin(f, src) + TablesText(f, src, tables, 0) + End(f)
  }

  // ── Batches ──

  /** Every row names the columns the first one does. Rows of one query do; only the SQL text needs it. */
  ghost predicate SameColumns(rows: seq<Row>) {
    forall i :: 0 <= i < |rows| ==> ColumnNames(rows[i]) == ColumnNames(rows[0])
  }

  lemma SameHeader(src: Source, r: Row, q: Row)
    ensures SqlColumns(src, r) == SqlColumns(src, q) <==> ColumnNames(r) == ColumnNames(q)
  {
    NamesTextInjective(ColumnNames(r), ColumnNames(q), src.quote);
  }

  lemma {:induction false} JsonRowsJoin(a: seq<Row>, b: seq<Row>, started: bool)
    ensures JsonRows(a + b, started) == JsonRows(a, started) + JsonRows(b, started || a != [])
  {
    hide JsonText.JsonText, JsonObject;
    if a == [] {
      assert a + b == b;
    } else {
      JsonRowsJoin(a[1..], b, true);
      assert (a + b)[1..] == a[1..] + b;
    }
  }

  lemma {:induction false} CsvLinesJoin(a: seq<Row>, b: seq<Row>)
    ensures CsvLines(a + b) == CsvLines(a) + CsvLines(b)
  {
    hide CsvLine;
    if a == [] {
      assert a + b == b;
    } else {
      CsvLinesJoin(a[1..], b);
      assert (a + b)[0] == a[0] && (a + b)[1..] == a[1..] + b;
      var first, rest, more := CsvLine(a[0]), CsvLines(a[1..]), CsvLines(b);
      assert CsvLines(a + b) == first + (rest + more) == (first + rest) + more;
    }
  }

  lemma {:induction false} SqlLinesJoin(src: Source, table: string, columns: string, a: seq<Row>, b: seq<Row>)
    ensures SqlLines(src, table, columns, a + b) == SqlLines(src, table, columns, a) + SqlLines(src, table, columns, b)
  {
    hide SqlLine;
    if a == [] {
      assert a + b == b;
    } else {
      SqlLinesJoin(src, table, columns, a[1..], b);
      assert (a + b)[1..] == a[1..] + b;
    }
  }

  /** Two batches one after the other write what one batch of all their rows writes. */
  lemma BatchesJoin(f: Format, src: Source, table: string, started: bool, a: seq<Row>, b: seq<Row>)
    requires f == Sql ==> SameColumns(a + b)
    ensures RowsText(f, src, table, started, a + b)
            == RowsText(f, src, table, started, a) + RowsText(f, src, table, started || a != [], b)
  {
    match f
    case Json => JsonRowsJoin(a, b, started);
    case Csv =>
      CsvLinesJoin(a, b);
      if a == [] { assert a + b == b; } else { assert (a + b)[0] == a[0]; }
    case Sql =>
      if a == [] {
        assert a + b == b;
      } else if b == [] {
        assert a + b == a;
      } else {
        assert (a + b)[0] == a[0] && (a + b)[|a|] == b[0];
        SameHeader(src, b[0], a[0]);
        SqlLinesJoin(src, table, SqlColumns(src, a[0]), a, b);
      }
  }

  function Flatten(batches: seq<seq<Row>>): seq<Row> {
    if batches == [] then [] else batches[0] + Flatten(batches[1..])
  }

  function BatchedText(f: Format, src: Source, table: string, started: bool, batches: seq<seq<Row>>): string
    decreases batches
  {
    if batches == [] then ""
    else RowsText(f, src, table, started, batches[0]) + BatchedText(f, src, table, started || batches[0] != [], batches[1..])
  }

  /** However the rows are split, empty and full batches included, the text is that of the rows. */
  lemma {:induction false} SplitDoesNotShow(f: Format, src: Source, table: string, started: bool, batches: seq<seq<Row>>)
    requires f == Sql ==> SameColumns(Flatten(batches))
    ensures BatchedText(f, src, table, started, batches) == RowsText(f, src, table, started, Flatten(batches))
    decreases batches
  {
    if batches != [] {
      var rest := Flatten(batches[1..]);
      if f == Sql {
        forall i | 0 <= i < |rest| ensures ColumnNames(rest[i]) == ColumnNames(rest[0]) {
          assert Flatten(batches)[|batches[0]| + i] == rest[i] && Flatten(batches)[|batches[0]|] == rest[0];
        }
      }
      SplitDoesNotShow(f, src, table, started || batches[0] != [], batches[1..]);
      BatchesJoin(f, src, table, started, batches[0], rest);
    }
  }

  ghost predicate SameWhateverTheBatches(f: Format, src: Source, table: string, rows: seq<Row>) {
    forall xs, ys :: Flatten(xs) == rows && Flatten(ys) == rows ==>
      BatchedText(f, src, table, false, xs) == BatchedText(f, src, table, false, ys)
  }

  /**
   * Two exports of the same rows are the same text whatever batches each was written in:
   * always as JSON and CSV, and as SQL exactly when all rows name the same columns in the same order.
   */
  lemma BatchingIsInvisible(f: Format, src: Source, table: string, rows: seq<Row>)
    ensures SameWhateverTheBatches(f, src, table, rows) <==> f != Sql || SameColumns(rows)
  {
    if f != Sql || SameColumns(rows) {
      forall xs, ys | Flatten(xs) == rows && Flatten(ys) == rows
        ensures BatchedText(f, src, table, false, xs) == BatchedText(f, src, table, false, ys)
      {
        SplitDoesNotShow(f, src, table, false, xs);
        SplitDoesNotShow(f, src, table, false, ys);
      }
    } else {
      var i :| 0 <= i < |rows| && ColumnNames(rows[i]) != ColumnNames(rows[0]);
      MixedColumnsShow(src, table, rows, i);
    }
  }

  lemma {:induction false} LongerColumnsLongerLines(src: Source, table: string, c: string, d: string, rows: seq<Row>)
    requires |c| < |d|
    ensures |SqlLines(src, table, c, rows)| <= |SqlLines(src, table, d, rows)|
    ensures rows != [] ==> |SqlLines(src, table, c, rows)| < |SqlLines(src, table, d, rows)|
  {
    if rows != [] {
      LongerColumnsLongerLines(src, table, c, d, rows[1..]);
    }
  }

  lemma OtherColumnsOtherLines(src: Source, table: string, c: string, d: string, rows: seq<Row>)
    requires c != d && rows != []
    ensures SqlLines(src, table, c, rows) != SqlLines(src, table, d, rows)
  {
    var head := SqlHead(src, table);
    var x, y := SqlLines(src, table, c, rows), SqlLines(src, table, d, rows);
    if |c| < |d| {
      LongerColumnsLongerLines(src, table, c, d, rows);
    } else if |d| < |c| {
      LongerColumnsLongerLines(src, table, d, c, rows);
    } else {
      assert x[|head|..|head| + |c|] == c;
      assert y[|head|..|head| + |d|] == d;
    }
  }

  lemma MixedColumnsShow(src: Source, table: string, rows: seq<Row>, i: nat)
    requires i < |rows| && ColumnNames(rows[i]) != ColumnNames(rows[0])
    ensures !SameWhateverTheBatches(Sql, src, table, rows)
  {
    hide SqlLine;
    var a: seq<Row>, b: seq<Row> := rows[..i], rows[i..];
    assert a + b == rows && a[0] == rows[0] && b[0] == rows[i];
    assert [rows][1..] == [] && [a, b][1..] == [b] && [b][1..] == [];
    assert Flatten([rows]) == rows && Flatten([b]) == b && Flatten([a, b]) == rows;
    var c, d := SqlColumns(src, rows[0]), SqlColumns(src, rows[i]);
    SameHeader(src, rows[i], rows[0]);
    SqlLinesJoin(src, table, c, a, b);
    OtherColumnsOtherLines(src, table, c, d, b);
    assert BatchedText(Sql, src, table, false, [rows]) == SqlLines(src, table, c, a) + SqlLines(src, table, c, b);
    assert BatchedText(Sql, src, table, true, [b]) == SqlLines(src, table, d, b);
    assert BatchedText(Sql, src, table, false, [a, b]) == SqlLines(src, table, c, a) + SqlLines(src, table, d, b);
    var p, x, y := SqlLines(src, table, c, a), SqlLines(src, table, c, b), SqlLines(src, table, d, b);
    assert (p + x)[|p|..] == x && (p + y)[|p|..] == y;
  }

  // ── The writer and the two loops ──

  /** makeWriter's closure variables: what was written, and what is known about the current table. */
  class Writer {
    const format: Format
    const src: Source
    var out: string
    var firstRow: bool
    var header: bool
    var current: string

    constructor (format: Format, src: Source)
      ensures this.format == format && this.src == src && out == ""
    {
      this.format, this.src := format, src;
      out, firstRow, header, current := "", true, false, "";
    }

    /** Whether the current table has had a row, for the formats that remember it. */
    ghost predicate Started(name: string, started: bool)
      reads this
    {
      match format
      case Json => firstRow == !started
      case Csv => header == started
      case Sql => current == QuoteName(name, src.quote)
    }

    method WriteBegin()
      modifies this`out
      ensures out == old(out) + Begin(format, src)
    {
      match format {
        case Json => out := out + "{";
        case Csv =>
        case Sql => out := out + "-- Export of database: " + src.database + "\n-- Generated: " + src.generated + "\n\n";
      }
      assert out == old(out) + Begin(format, src);
    }

    method WriteTable(name: string, index: nat)
      modifies this
      ensures out == old(out) + TableHead(format, name, index) && Started(name, false)
    {
      match format {
        case Json =>
          firstRow := true;
          out := out + ((if index > 0 then "," else "") + "\n  " + JsonText.StringText(name) + ": [");
        case Csv =>
          header := false;
          out := out + ("# TABLE: " + name + "\n");
        case Sql =>
          current := QuoteName(name, src.quote);
          out := out + ("-- Table: " + name + "\n");
      }
    }

    method WriteRows(ghost name: string, ghost started: bool, rows: seq<Row>)
      requires Started(name, started)
      modifies this
      ensures out == old(out) + RowsText(format, src, name, started, rows)
      ensures Started(name, started || rows != [])
    {
      match format {
        case Json => WriteJsonRows(name, started, rows);
        case Csv => WriteCsvRows(name, started, rows);
        case Sql => WriteSqlRows(name, started, rows);
      }
    }

    method WriteJsonRows(ghost name: string, ghost started: bool, rows: seq<Row>)
      requires format == Json && Started(name, started)
      modifies this
      ensures out == old(out) + RowsText(format, src, name, started, rows)
      ensures Started(name, started || rows != [])
    {
      hide JsonText.JsonText, JsonObject;
      var chunk := "";
      for i := 0 to |rows|
        invariant chunk + JsonRows(rows[i..], started || i > 0) == JsonRows(rows, started)
        invariant firstRow == !(started || i > 0) && out == old(out)
      {
        assert rows[i..][1..] == rows[i + 1..];
        ghost var before, rest := chunk, JsonRows(rows[i + 1..], true);
        var text := (if firstRow then "" else ",") + "\n    " + JsonText.JsonText(JsonObject(rows[i]));
        assert JsonRows(rows[i..], started || i > 0) == text + rest;
        assert before + (text + rest) == (before + text) + rest;
        chunk := chunk + text;
        firstRow := false;
      }
      out := out + chunk;
    }

    method WriteCsvRows(ghost name: string, ghost started: bool, rows: seq<Row>)
      requires format == Csv && Started(name, started)
      modifies this
      ensures out == old(out) + RowsText(format, src, name, started, rows)
      ensures Started(name, started || rows != [])
    {
      hide CsvLine, CsvHeader;
      var chunk := "";
      if !header && rows != [] {
        chunk := chunk + CsvHeader(rows[0]);
        header := true;
      }
      for i := 0 to |rows|
        invariant chunk + CsvLines(rows[i..]) == RowsText(Csv, src, name, started, rows)
      {
        assert rows[i..][1..] == rows[i + 1..];
        chunk := chunk + CsvLine(rows[i]);
      }
      out := out + chunk;
    }

    method SqlInsert(cols: string, row: Row) returns (line: string)
      ensures forall name :: current == QuoteName(name, src.quote) ==> line == SqlLine(src, name, cols, row)
    {
      var values := Join(seq(|row|, j requires 0 <= j < |row| => row[j].literal), ", ");
      line := "INSERT INTO " + current + " (" + cols + ") VALUES (" + values + ");\n";
    }

    method WriteSqlRows(ghost name: string, ghost started: bool, rows: seq<Row>)
      requires format == Sql && Started(name, started)
      modifies this
      ensures out == old(out) + RowsText(format, src, name, started, rows)
      ensures Started(name, started || rows != [])
    {
      hide SqlLine, SqlColumns, QuoteName;
      if rows == [] {
        return;
      }
      var cols := SqlColumns(src, rows[0]);
      var chunk := "";
      for i := 0 to |rows|
        invariant out == old(out) && current == QuoteName(name, src.quote)
        invariant chunk + SqlLines(src, name, cols, rows[i..]) == SqlLines(src, name, cols, rows)
      {
        assert rows[i..][1..] == rows[i + 1..];
        var line := SqlInsert(cols, rows[i]);
        chunk := chunk + line;
      }
      out := out + chunk;
    }

    method WriteTableEnd(ghost name: string, ghost started: bool)
      requires Started(name, started)
      modifies this`out
      ensures out == old(out) + TableEnd(format, started)
    {
      match format {
        case Json => out := out + if firstRow then "]" else "\n  ]";
        case Csv => out := out + "\n";
        case Sql => out := out + "\n";
      }
    }

    method WriteEnd()
      modifies this`out
      ensures out == old(out) + End(format)
    {
      if format == Json {
        out := out + "\n}\n";
      }
    }

    /** The MySQL loop: rows arrive one by one and are flushed at BATCH_SIZE, the rest at the end. */
    method StreamTable(t: Table, index: nat)
      requires format == Sql ==> SameColumns(t.rows)
      modifies this
      ensures out == old(out) + TableText(format, src, t, index)
    {
      hide RowsText, TableHead, TableEnd, SameColumns, Started;
      WriteTable(t.name, index);
      ghost var head := out;
      NoRows(format, src, t.name);
      ghost var done: seq<Row> := [];
      var batch: seq<Row> := [];
      for i := 0 to |t.rows|
        invariant done + batch == t.rows[..i] && |batch| < BATCH_SIZE
        invariant out == head + RowsText(format, src, t.name, false, done)
        invariant Started(t.name, done != [])
      {
        batch := batch + [t.rows[i]];
        assert done + batch == t.rows[..i + 1];
        if |batch| >= BATCH_SIZE {
          PrefixBatch(format, src, t, done, batch);
          WriteRows(t.name, done != [], batch);
          done, batch := done + batch, [];
        }
      }
      assert t.rows[..|t.rows|] == t.rows;
      PrefixBatch(format, src, t, done, batch);
      WriteRows(t.name, done != [], batch);
      WriteTableEnd(t.name, t.rows != []);
    }

    /** The PostgreSQL loop: FETCH until a batch is short; every row is fetched once. */
    method FetchTable(t: Table, index: nat)
      requires format == Sql ==> SameColumns(t.rows)
      modifies this
      ensures out == old(out) + TableText(format, src, t, index)
    {
      hide RowsText, TableHead, TableEnd, SameColumns, Started;
      WriteTable(t.name, index);
      ghost var head := out;
      NoRows(format, src, t.name);
      var cursor := 0;
      while true
        invariant cursor <= |t.rows|
        invariant out == head + RowsText(format, src, t.name, false, t.rows[..cursor])
        invariant Started(t.name, cursor > 0)
        decreases |t.rows| - cursor
      {
        var next := Min(cursor + BATCH_SIZE, |t.rows|);
        var rows := t.rows[cursor..next];
        PrefixBatch(format, src, t, t.rows[..cursor], rows);
        assert t.rows[..cursor] + rows == t.rows[..next];
        WriteRows(t.name, cursor > 0, rows);
        cursor := next;
        if |rows| < BATCH_SIZE {
          break;
        }
      }
      assert cursor == |t.rows| && t.rows[..cursor] == t.rows;
      WriteTableEnd(t.name, t.rows != []);
    }

    /** resolvePostgresTables: a map from the requested names, so a repeated name counts once, where it first stood. */
    static method ResolveTables(tables: seq<Table>) returns (resolved: seq<Table>)
      ensures resolved == Distinct(tables)
    {
      resolved := [];
      for i := 0 to |tables|
        invariant resolved == Distinct(tables[..i])
      {
        assert tables[..i + 1][..i] == tables[..i] && tables[..i + 1][i] == tables[i];
        if forall j :: 0 <= j < |resolved| ==> resolved[j].name != tables[i].name {
          resolved := resolved + [tables[i]];
        }
      }
      assert tables[..|tables|] == tables;
    }

    method WriteOne(t: Table, index: nat)
      requires format == Sql ==> SameColumns(t.rows)
      modifies this
      ensures out == old(out) + TableText(format, src, t, index)
    {
      hide TableText, SameColumns;
      if src.dialect == MySql {
        StreamTable(t, index);
      } else {
        FetchTable(t, index);
      }
    }

    method ExportTables(tables: seq<Table>)
      requires out == ""
      requires format == Sql ==> forall t :: t in tables ==> SameColumns(t.rows)
      modifies this
      ensures out == ExportText(format, src, tables)
    {
      hide TableText, TablesText, Begin, End, SameColumns;
      WriteBegin();
      NoTables(format, src);
      ghost var all := Begin(format, src) + TablesText(format, src, tables, 0);
      for index := 0 to |tables|
        invariant out + TablesText(format, src, tables[index..], index) == all
      {
        TablesStep(format, src, tables[index..], index);
        assert tables[index..][1..] == tables[index + 1..];
        ghost var before := out;
        WriteOne(tables[index], index);
        ghost var one, rest := TableText(format, src, tables[index], index), TablesText(format, src, tables[index + 1..], index + 1);
        assert (before + one) + rest == before + (one + rest);
      }
      WriteEnd();
    }

    /** A whole export, by either loop: exactly the text of the tables' rows. */
    method Export(tables: seq<Table>)
      requires out == ""
      requires format == Sql ==> forall t :: t in tables ==> SameColumns(t.rows)
      modifies this
      ensures out == ExportText(format, src, Exported(src, tables))
    {
      hide ExportText, SameColumns;
      if src.dialect == Pg {
        var resolved := ResolveTables(tables);
        DistinctTables(tables);
        ExportTables(resolved);
      } else {
        ExportTables(tables);
      }
    }
  }

  /** The tables by name, each where its name first stands. */
  function Distinct(tables: seq<Table>): seq<Table> {
    if tables == [] then [] else
      var n := |tables| - 1;
      var d := Distinct(tables[..n]);
      if forall j :: 0 <= j < |d| ==> d[j].name != tables[n].name then d + [tables[n]] else d
  }

  /** What an export of these tables covers: PostgreSQL writes a name requested twice once, MySQL twice. */
  function Exported(src: Source, tables: seq<Table>): seq<Table> {
    if src.dialect == Pg then Distinct(tables) else tables
  }

  ghost predicate NamesOnce(d: seq<Table>) {
    forall i, j :: 0 <= i < j < |d| ==> d[i].name != d[j].name
  }

  ghost predicate Has(d: seq<Table>, name: string) {
    exists i :: 0 <= i < |d| && d[i].name == name
  }

  lemma HasMore(d: seq<Table>, t: Table)
    ensures Has(d + [t], t.name) && forall name :: Has(d, name) ==> Has(d + [t], name)
  {
    assert (d + [t])[|d|] == t;
    forall name | Has(d, name) ensures Has(d + [t], name) {
      var i :| 0 <= i < |d| && d[i].name == name;
      assert (d + [t])[i] == d[i];
    }
  }

  /** No name twice, no name lost, only requested tables. */
  ghost predicate Covers(d: seq<Table>, tables: seq<Table>) {
    NamesOnce(d) && (forall t :: t in d ==> t in tables) && (forall t :: t in tables ==> Has(d, t.name))
  }

  lemma CoversMore(d: seq<Table>, tables: seq<Table>, t: Table)
    requires Covers(d, tables)
    ensures Covers(if Has(d, t.name) then d else d + [t], tables + [t])
  {
    HasMore(d, t);
    if !Has(d, t.name) { NamesOnceMore(d, t); }
    hide Has, NamesOnce;
  }

  lemma NamesOnceMore(d: seq<Table>, t: Table)
    requires NamesOnce(d) && !Has(d, t.name)
    ensures NamesOnce(d + [t])
  {
  }

  lemma DistinctStep(tables: seq<Table>)
    requires tables != []
    ensures var n := |tables| - 1; var d := Distinct(tables[..n]);
            Distinct(tables) == if Has(d, tables[n].name) then d else d + [tables[n]]
  {
  }

  lemma {:induction false} DistinctTables(tables: seq<Table>)
    ensures Covers(Distinct(tables), tables)
    ensures forall t :: t in Distinct(tables) ==> t in tables
  {
    if tables != [] {
      hide Distinct, Has, NamesOnce;
      var n := |tables| - 1;
      DistinctTables(tables[..n]);
      DistinctStep(tables);
      assert tables == tables[..n] + [tables[n]];
      CoversMore(Distinct(tables[..n]), tables[..n], tables[n]);
    }
  }

  /** When no name is repeated, every table is exported. */
  lemma {:induction false} DistinctAlready(tables: seq<Table>)
    requires NamesOnce(tables)
    ensures Distinct(tables) == tables
  {
    if tables != [] {
      var n := |tables| - 1;
      assert forall j :: 0 <= j < n ==> tables[..n][j] == tables[j];
      DistinctAlready(tables[..n]);
      DistinctStep(tables);
      assert tables == tables[..n] + [tables[n]];
      hide Distinct;
    }
  }

  lemma NoTables(f: Format, src: Source)
    ensures forall index :: TablesText(f, src, [], index) == ""
  {
  }

  lemma TablesStep(f: Format, src: Source, tables: seq<Table>, index: nat)
    requires tables != []
    ensures TablesText(f, src, tables, index) == TableText(f, src, tables[0], index) + TablesText(f, src, tables[1..], index + 1)
  {
  }

  lemma NoRows(f: Format, src: Source, name: string)
    ensures RowsText(f, src, name, false, []) == ""
  {
  }

  lemma PrefixBatch(f: Format, src: Source, t: Table, done: seq<Row>, batch: seq<Row>)
    requires done + batch <= t.rows && (f == Sql ==> SameColumns(t.rows))
    ensures RowsText(f, src, t.name, false, done + batch)
            == RowsText(f, src, t.name, false, done) + RowsText(f, src, t.name, done != [], batch)
  {
    var sum := done + batch;
    if f == Sql {
      forall i | 0 <= i < |sum| ensures ColumnNames(sum[i]) == ColumnNames(sum[0]) {
        assert sum[i] == t.rows[i] && sum[0] == t.rows[0];
      }
    }
    BatchesJoin(f, src, t.name, false, done, batch);
  }

  // ── The JSON document ──

  function TableValue(t: Table): JsonText.Member {
    JsonText.Member(t.name, JsonText.JArray(RowObjects(t.rows)))
  }

  function RowObjects(rows: seq<Row>): seq<JsonText.Json> {
    seq(|rows|, i requires 0 <= i < |rows| => JsonObject(rows[i]))
  }

  function TableValues(tables: seq<Table>): seq<JsonText.Member> {
    seq(|tables|, i requires 0 <= i < |tables| => TableValue(tables[i]))
  }

  lemma SpacedValue(space: string, s: string)
    requires forall c :: c in space ==> JsonText.IsSpace(c)
    ensures JsonText.ReadValue(space + s) == JsonText.ReadValue(s)
  {
    JsonText.SkipSpaces(space, s);
  }

  lemma FirstRowText(rows: seq<Row>, rest: string)
    requires rows != []
    ensures JsonRows(rows, false) + rest == "\n    " + (JsonText.JsonText(JsonObject(rows[0])) + (JsonRows(rows[1..], true) + rest))
  {
    hide JsonText.JsonText, JsonObject;
    var text, more := JsonText.JsonText(JsonObject(rows[0])), JsonRows(rows[1..], true);
    assert JsonRows(rows, false) == "" + "\n    " + text + more;
    Regroup("\n    ", text, more, rest);
  }

  lemma CommaThenRows(rows: seq<Row>)
    requires rows != []
    ensures JsonRows(rows, true) == "," + JsonRows(rows, false)
  {
    hide JsonText.JsonText, JsonObject;
    var text, more := JsonText.JsonText(JsonObject(rows[0])), JsonRows(rows[1..], true);
    assert JsonRows(rows, true) == "," + "\n    " + text + more;
    assert JsonRows(rows, false) == "" + "\n    " + text + more;
    Regroup(",", "\n    ", text, more);
    Regroup("", "\n    ", text, more);
  }

  lemma Regroup(a: string, b: string, c: string, d: string)
    ensures "" + a + b + c + d == a + (b + (c + d))
  {
  }

  lemma ClosingBracket(rest: string)
    ensures JsonText.SkipSpace("\n  ]" + rest) == "]" + rest
  {
    JsonText.SkipSpaces("\n  ", "]" + rest);
    JsonText.SkipNothing("]" + rest);
    assert "\n  ]" + rest == "\n  " + ("]" + rest);
  }

  lemma {:induction false} MoreRowsRead(rows: seq<Row>, rest: string)
    requires rows != []
    ensures JsonText.ReadMoreItems(JsonRows(rows, false) + ("\n  ]" + rest)) == Some((RowObjects(rows), rest))
  {
    hide JsonText.ReadMoreItems, JsonText.ReadValue, JsonText.JsonText, JsonRows;
    var v := JsonObject(rows[0]);
    var end := "\n  ]" + rest;
    var s := JsonRows(rows, false) + end;
    FirstRowText(rows, end);
    var tail := JsonRows(rows[1..], true) + end;
    SpacedValue("\n    ", JsonText.JsonText(v) + tail);
    if |rows| == 1 {
      NoMoreRows(rows);
      assert tail == end;
      JsonText.ValueReadsBack(v, tail);
      ClosingBracket(rest);
      JsonText.LastItem(s, v, tail);
      assert RowObjects(rows) == [v];
    } else {
      CommaThenRows(rows[1..]);
      assert tail == "," + (JsonRows(rows[1..], false) + end);
      JsonText.ValueReadsBack(v, tail);
      MoreRowsRead(rows[1..], rest);
      JsonText.SkipNothing(tail);
      JsonText.AnotherItem(s, v, tail, RowObjects(rows[1..]), rest);
      assert RowObjects(rows) == [v] + RowObjects(rows[1..]);
    }
  }

  lemma NoMoreRows(rows: seq<Row>)
    requires |rows| == 1
    ensures JsonRows(rows[1..], true) == ""
  {
  }

  lemma RowsRead(rows: seq<Row>, rest: string)
    ensures JsonText.ReadItems(JsonRows(rows, false) + (TableEnd(Json, rows != []) + rest)) == Some((RowObjects(rows), rest))
  {
    hide JsonText.ReadMoreItems, JsonText.JsonText;
    var s := JsonRows(rows, false) + (TableEnd(Json, rows != []) + rest);
    if rows == [] {
      assert s == "]" + rest;
      JsonText.SkipNothing(s);
      assert RowObjects(rows) == [];
    } else {
      MoreRowsRead(rows, rest);
      var v := JsonObject(rows[0]);
      var tail := JsonRows(rows[1..], true) + ("\n  ]" + rest);
      FirstRowText(rows, "\n  ]" + rest);
      JsonText.FirstOfValue(v);
      JsonText.SkipSpaces("\n    ", JsonText.JsonText(v) + tail);
      JsonText.SkipNothing(JsonText.JsonText(v) + tail);
    }
  }

  /** A table's text in the document after the comma, and what follows it. */
  function TableBody(t: Table, rest: string): string {
    "\n  " + (JsonText.StringText(t.name) + (": [" + (JsonRows(t.rows, false) + (TableEnd(Json, t.rows != []) + rest))))
  }

  lemma TableTextIs(src: Source, t: Table, index: nat, rest: string)
    ensures TableText(Json, src, t, index) + rest == (if index > 0 then "," else "") + TableBody(t, rest)
  {
    hide JsonText.StringText, JsonRows, TableEnd;
  }

  lemma TableStarts(t: Table, rest: string)
    ensures JsonText.SkipSpace(TableBody(t, rest)) != "" && JsonText.SkipSpace(TableBody(t, rest))[0] == '"'
  {
    var key := JsonText.StringText(t.name) + (": [" + (JsonRows(t.rows, false) + (TableEnd(Json, t.rows != []) + rest)));
    JsonText.SkipSpaces("\n  ", key);
    JsonText.SkipNothing(key);
  }

  lemma TableReads(t: Table, rest: string)
    ensures JsonText.ReadMember(TableBody(t, rest)) == Some((TableValue(t), rest))
  {
    var body := JsonRows(t.rows, false) + (TableEnd(Json, t.rows != []) + rest);
    RowsRead(t.rows, rest);
    hide JsonText.ReadItems, JsonText.Escaped, JsonRows, TableEnd, JsonText.ReadString, RowObjects;
    var items := "[" + body;
    JsonText.OpenedValue(items, JsonText.JArray(RowObjects(t.rows)), rest);
    SpacedValue(" ", items);
    var colon := ": [" + body;
    JsonText.StringReadsBack(t.name, colon);
    var key := JsonText.StringText(t.name) + colon;
    assert key == "\"" + (JsonText.Escaped(t.name) + "\"" + colon);
    JsonText.SkipSpaces("\n  ", key);
    JsonText.SkipNothing(key);
    JsonText.SkipNothing(colon);
    assert colon[1..] == " " + items;
  }

  /** The members' text after the first comma, if it has one. */
  function MembersBody(src: Source, tables: seq<Table>, index: nat, rest: string): string
    requires tables != []
  {
    TableBody(tables[0], TablesText(Json, src, tables[1..], index + 1) + rest)
  }

  lemma TablesTextIs(src: Source, tables: seq<Table>, index: nat, rest: string)
    requires tables != []
    ensures TablesText(Json, src, tables, index) + rest == (if index > 0 then "," else "") + MembersBody(src, tables, index, rest)
  {
    hide TableText, TableBody;
    var tail := TablesText(Json, src, tables[1..], index + 1) + rest;
    TableTextIs(src, tables[0], index, tail);
    assert TablesText(Json, src, tables, index) + rest == TableText(Json, src, tables[0], index) + tail;
  }

  lemma {:induction false} MoreTablesRead(src: Source, tables: seq<Table>, index: nat, rest: string)
    requires tables != []
    ensures JsonText.ReadMoreMembers(MembersBody(src, tables, index, "\n}" + rest)) == Some((TableValues(tables), rest))
    decreases tables
  {
    hide JsonText.ReadMoreMembers, JsonText.ReadMember, TableText, TableBody;
    var t := tables[0];
    var end := "\n}" + rest;
    var tail := TablesText(Json, src, tables[1..], index + 1) + end;
    var s := TableBody(t, tail);
    TableReads(t, tail);
    if |tables| == 1 {
      assert tail == end;
      ClosingBrace(rest);
      JsonText.LastMember(s, TableValue(t), tail);
      assert TableValues(tables) == [TableValue(t)];
    } else {
      TablesTextIs(src, tables[1..], index + 1, end);
      JsonText.SkipNothing(tail);
      MoreTablesRead(src, tables[1..], index + 1, rest);
      assert tail[1..] == MembersBody(src, tables[1..], index + 1, end);
      JsonText.AnotherMember(s, TableValue(t), tail, TableValues(tables[1..]), rest);
      assert TableValues(tables) == [TableValue(t)] + TableValues(tables[1..]);
    }
  }

  lemma ClosingBrace(rest: string)
    ensures JsonText.SkipSpace("\n}" + rest) == "}" + rest
  {
    JsonText.SkipSpaces("\n", "}" + rest);
    JsonText.SkipNothing("}" + rest);
    assert "\n}" + rest == "\n" + ("}" + rest);
  }

  /** The JSON export is one object: a member per table in order, each the array of its rows in order. */
  lemma JsonExportReads(src: Source, tables: seq<Table>)
    ensures JsonText.ReadJson(ExportText(Json, src, tables)) == Some(JsonText.JObject(TableValues(tables)))
  {
    var s := ExportText(Json, src, tables);
    var body := TablesText(Json, src, tables, 0) + ("\n}" + "\n");
    assert s == "{" + body;
    if tables == [] {
      assert body == "\n}" + "\n";
      ClosingBrace("\n");
      assert TableValues(tables) == [];
    } else {
      TablesTextIs(src, tables, 0, "\n}" + "\n");
      MoreTablesRead(src, tables, 0, "\n");
      TableStarts(tables[0], TablesText(Json, src, tables[1..], 1) + ("\n}" + "\n"));
      assert body == MembersBody(src, tables, 0, "\n}" + "\n");
    }
    assert JsonText.ReadMembers(body) == Some((TableValues(tables), "\n"));
    JsonText.OpenedValue(s, JsonText.JObject(TableValues(tables)), "\n");
    JsonText.SkipSpaces("\n", "");
    assert "\n" + "" == "\n";
  }

  // ── The CSV text of a table, read back ──

  function Columns(row: Row): seq<CsvText.Value> {
    seq(|row|, i requires 0 <= i < |row| => Some(row[i].column))
  }

  function Cells(row: Row): seq<CsvText.Value> {
    seq(|row|, i requires 0 <= i < |row| => row[i].csv)
  }

  function AllCells(rows: seq<Row>): seq<seq<CsvText.Value>> {
    seq(|rows|, i requires 0 <= i < |rows| => Cells(rows[i]))
  }

  lemma {:induction false} CsvLinesAre(rows: seq<Row>)
    ensures CsvLines(rows) == CsvText.Lines(AllCells(rows))
  {
    hide CsvText.Line;
    if rows != [] {
      CsvLinesAre(rows[1..]);
      assert AllCells(rows) == [Cells(rows[0])] + AllCells(rows[1..]);
    }
  }

  /** What stands between a table's title and its closing blank line: the column names, then every row's cells. */
  lemma CsvTableReads(src: Source, t: Table)
    requires t.rows != [] && forall i :: 0 <= i < |t.rows| ==> t.rows[i] != []
    ensures CsvText.ReadCsv(RowsText(Csv, src, t.name, false, t.rows))
         == Some(CsvText.AllStrings([Columns(t.rows[0])] + AllCells(t.rows)))
  {
    var records := [Columns(t.rows[0])] + AllCells(t.rows);
    CsvLinesAre(t.rows);
    assert records[1..] == AllCells(t.rows);
    forall i | 0 <= i < |records| ensures records[i] != [] {
      if i > 0 { assert records[i] == Cells(t.rows[i - 1]); }
    }
    CsvText.CsvReadsBack(records);
    hide CsvText.Line, CsvText.ReadCsv, CsvText.AllStrings;
    assert CsvText.Lines(records) == CsvText.Line(records[0]) + CsvText.Lines(records[1..]);
  }

  // ── The SQL text of a table, read back ──

  function Literals(row: Row): seq<string> {
    seq(|row|, i requires 0 <= i < |row| => row[i].literal)
  }

  function Inserts(table: string, rows: seq<Row>): seq<Insert> {
    seq(|rows|, i requires 0 <= i < |rows| => Insert(table, ColumnNames(rows[i]), Literals(rows[i])))
  }

  predicate LiteralsClosed(src: Source, rows: seq<Row>) {
    forall row, l :: row in rows && l in Literals(row) ==> IsLiteral(src.dialect, l)
  }

  /** One statement: the table, the columns and the values of its row, in order. */
  lemma SqlLineReads(src: Source, table: string, row: Row, rest: string)
    requires forall l :: l in Literals(row) ==> IsLiteral(src.dialect, l)
    ensures ReadInsert(src.dialect, SqlLine(src, table, SqlColumns(src, row), row) + rest)
            == Some((Insert(table, ColumnNames(row), Literals(row)), rest))
  {
    InsertReadsBack(src.dialect, table, ColumnNames(row), Literals(row), rest);
    assert SqlLine(src, table, SqlColumns(src, row), row) + rest
        == "INSERT INTO " + QuoteName(table, src.quote) + " (" + NamesText(ColumnNames(row), src.quote) + ") VALUES ("
           + Join(Literals(row), ", ") + ");\n" + rest;
  }

  lemma {:induction false} SqlLinesRead(src: Source, table: string, columns: string, rows: seq<Row>)
    requires LiteralsClosed(src, rows) && forall row :: row in rows ==> SqlColumns(src, row) == columns
    ensures ReadInserts(src.dialect, SqlLines(src, table, columns, rows)) == Some(Inserts(table, rows))
  {
    hide SqlLine, SqlColumns, ReadInsert, IsLiteral;
    if rows != [] {
      var rest := SqlLines(src, table, columns, rows[1..]);
      assert rows[0] in rows;
      SqlLineReads(src, table, rows[0], rest);
      SqlLinesRead(src, table, columns, rows[1..]);
      assert SqlLines(src, table, columns, rows) == SqlLine(src, table, columns, rows[0]) + rest;
      OneStatementMore(src.dialect, SqlLines(src, table, columns, rows), Insert(table, ColumnNames(rows[0]), Literals(rows[0])), rest, Inserts(table, rows[1..]));
      assert Inserts(table, rows) == [Insert(table, ColumnNames(rows[0]), Literals(rows[0]))] + Inserts(table, rows[1..]);
    }
  }

  lemma OneStatementMore(dialect: Dialect, s: string, one: Insert, rest: string, more: seq<Insert>)
    requires s != "" && ReadInsert(dialect, s) == Some((one, rest)) && ReadInserts(dialect, rest) == Some(more)
    ensures ReadInserts(dialect, s) == Some([one] + more)
  {
  }

  /**
   * The statements of a table read back as one INSERT per row, in order, into that table, with the
   * row's columns and its literals in order, whatever quotes the names hold.
   */
  lemma SqlTableReads(src: Source, t: Table)
    requires SameColumns(t.rows) && LiteralsClosed(src, t.rows)
    ensures ReadInserts(src.dialect, RowsText(Sql, src, t.name, false, t.rows)) == Some(Inserts(t.name, t.rows))
  {
    hide SqlLine, ReadInserts, NamesText, IsLiteral;
    if t.rows == [] {
      NothingReads(src.dialect);
      assert Inserts(t.name, []) == [];
    } else {
      forall row | row in t.rows ensures SqlColumns(src, row) == SqlColumns(src, t.rows[0]) {
        var i :| 0 <= i < |t.rows| && t.rows[i] == row;
      }
      SqlLinesRead(src, t.name, SqlColumns(src, t.rows[0]), t.rows);
    }
  }

  lemma NothingReads(dialect: Dialect)
    ensures ReadInserts(dialect, "") == Some([])
  {
  }
}
