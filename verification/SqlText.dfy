/**
 * A reader for the INSERT statements of an SQL export (the sql writer of export.service.ts): table,
 * column list, and the list of values, each a literal of the source database's dialect.
 */
module SqlText {
  import opened Prelude
  import opened TextOps
  import opened SqlNames

  datatype Dialect = Pg | MySql

  datatype Insert = Insert(table: string, columns: seq<string>, literals: seq<string>)

  // ── Literals ──

  /**
   * A literal stands for itself up to the next comma or parenthesis outside quotes. Inside, a quote
   * ends the string or, doubled, starts it again; MySQL escapes the next character with a backslash.
   */
  predicate Closed(dialect: Dialect, l: string, quoted: bool) {
    if l == "" then !quoted
    else if quoted then
      if dialect == MySql && l[0] == '\\' then |l| > 1 && Closed(dialect, l[2..], true)
      else Closed(dialect, l[1..], l[0] != '\'')
    else l[0] != ',' && l[0] != ')' && Closed(dialect, l[1..], l[0] == '\'')
  }

  predicate IsLiteral(dialect: Dialect, l: string) {
    l != "" && Closed(dialect, l, false)
  }

  /** How far the literal at the head of the text reaches. */
  function LiteralRun(dialect: Dialect, s: string, quoted: bool): (n: nat)
    ensures n <= |s|
  {
    if s == "" then 0
    else if quoted then
      if dialect == MySql && s[0] == '\\' && |s| > 1 then 2 + LiteralRun(dialect, s[2..], true)
      else 1 + LiteralRun(dialect, s[1..], s[0] != '\'')
    else if s[0] == ',' || s[0] == ')' then 0
    else 1 + LiteralRun(dialect, s[1..], s[0] == '\'')
  }

  lemma {:induction false} LiteralStops(dialect: Dialect, l: string, quoted: bool, rest: string)
    requires Closed(dialect, l, quoted) && rest != "" && (rest[0] == ',' || rest[0] == ')')
    ensures LiteralRun(dialect, l + rest, quoted) == |l|
  {
    if l == "" {
      assert l + rest == rest;
    } else if quoted && dialect == MySql && l[0] == '\\' {
      assert (l + rest)[2..] == l[2..] + rest;
      LiteralStops(dialect, l[2..], true, rest);
    } else {
      assert (l + rest)[1..] == l[1..] + rest;
      LiteralStops(dialect, l[1..], if quoted then l[0] != '\'' else l[0] == '\'', rest);
    }
  }

  /** Keywords and numbers are literals, and so is any text with its quotes doubled, for PostgreSQL. */
  lemma {:induction false} PlainIsClosed(dialect: Dialect, l: string)
    requires forall i :: 0 <= i < |l| ==> l[i] != ',' && l[i] != ')' && l[i] != '\''
    ensures Closed(dialect, l, false)
  {
    if l != "" { PlainIsClosed(dialect, l[1..]); }
  }

  lemma InsideQuotes(c: char, tail: string)
    ensures Closed(Pg, "''" + tail, true) == Closed(Pg, tail, true)
    ensures c != '\'' ==> Closed(Pg, [c] + tail, true) == Closed(Pg, tail, true)
  {
    assert ("''" + tail)[1..] == "'" + tail && ("'" + tail)[1..] == tail && ([c] + tail)[1..] == tail;
  }

  lemma {:induction false} DoubledStaysQuoted(text: string, rest: string)
    ensures Closed(Pg, Replaced(text, '\'', "''") + rest, true) == Closed(Pg, rest, true)
  {
    hide Closed;
    if text == "" {
      assert Replaced(text, '\'', "''") + rest == rest;
    } else {
      var tail := Replaced(text[1..], '\'', "''") + rest;
      DoubledStaysQuoted(text[1..], rest);
      InsideQuotes(text[0], tail);
      assert Replaced(text, '\'', "''") + rest == (if text[0] == '\'' then "''" else [text[0]]) + tail;
    }
  }

  lemma QuotedTextIsLiteral(text: string)
    ensures IsLiteral(Pg, "'" + Replaced(text, '\'', "''") + "'")
  {
    var l := "'" + Replaced(text, '\'', "''") + "'";
    DoubledStaysQuoted(text, "'");
    assert l[1..] == Replaced(text, '\'', "''") + "'";
    assert "'"[1..] == "";
  }

  // ── Reader ──

  /** The rest of a text that must begin with this one. */
  function After(s: string, head: string): (r: Option<string>)
    ensures r.Some? ==> |r.value| == |s| - |head|
  {
    if StartsWith(s, head) then Some(s[|head|..]) else None
  }

  /** Quoted names up to a closing parenthesis. */
  function ReadColumns(s: string, quote: char): (r: Option<(seq<string>, string)>)
    ensures r.Some? ==> |r.value.1| < |s|
    decreases |s|
  {
    if s == "" then None
    else if s[0] == ')' then Some(([], s[1..]))
    else if s[0] != quote then None
    else
      var name := ReadQuoted(s[1..], quote);
      if name.None? || name.value.1 == "" then None
      else
        var rest := name.value.1;
        if rest[0] == ')' then Some(([name.value.0], rest[1..]))
        else if !StartsWith(rest, ", ") || !StartsWith(rest[2..], [quote]) then None
        else
          var more := ReadColumns(rest[2..], quote);
          if more.None? then None else Some(([name.value.0] + more.value.0, more.value.1))
  }

  /** Literals up to a closing parenthesis. */
  function ReadLiterals(dialect: Dialect, s: string): (r: Option<(seq<string>, string)>)
    ensures r.Some? ==> |r.value.1| < |s|
    decreases |s|
  {
    if s == "" then None
    else if s[0] == ')' then Some(([], s[1..]))
    else
      var n := LiteralRun(dialect, s, false);
      var rest := s[n..];
      if n == 0 || rest == "" then None
      else if rest[0] == ')' then Some(([s[..n]], rest[1..]))
      else if !StartsWith(rest, ", ") || StartsWith(rest[2..], ")") then None
      else
        var more := ReadLiterals(dialect, rest[2..]);
        if more.None? then None else Some(([s[..n]] + more.value.0, more.value.1))
  }

  /** One statement, in the quoting of its dialect, and what follows it. */
  function ReadInsert(dialect: Dialect, s: string): (r: Option<(Insert, string)>)
    ensures r.Some? ==> |r.value.1| < |s|
  {
    var quote := if dialect == Pg then '"' else '`';
    var head := After(s, "INSERT INTO " + [quote]);
    if head.None? then None
    else
      var table := ReadQuoted(head.value, quote);
      if table.None? then None
      else
        var opening := After(table.value.1, " (");
        if opening.None? then None
        else
          var columns := ReadColumns(opening.value, quote);
          if columns.None? then None
          else
            var values := After(columns.value.1, " VALUES (");
            if values.None? then None
            else
              var literals := ReadLiterals(dialect, values.value);
              if literals.None? then None
              else
                var end := After(literals.value.1, ";\n");
                if end.None? then None
                else Some((Insert(table.value.0, columns.value.0, literals.value.0), end.value))
  }

  /** Statements to the end of the text. */
  function ReadInserts(dialect: Dialect, s: string): Option<seq<Insert>>
    decreases |s|
  {
    if s == "" then Some([])
    else
      var one := ReadInsert(dialect, s);
      if one.None? then None
      else
        var more := ReadInserts(dialect, one.value.1);
        if more.None? then None else Some([one.value.0] + more.value)
  }

  // ── Round trips of the parts ──

  lemma AfterHead(head: string, rest: string)
    ensures After(head + rest, head) == Some(rest)
  {
    assert (head + rest)[..|head|] == head && (head + rest)[|head|..] == rest;
  }

  lemma {:induction false} ColumnsReadBack(names: seq<string>, quote: char, rest: string)
    requires quote != ',' && quote != ')'
    ensures ReadColumns(NamesText(names, quote) + ")" + rest, quote) == Some((names, rest))
  {
    var s := NamesText(names, quote) + ")" + rest;
    if names == [] {
      assert s == ")" + rest;
    } else if |names| == 1 {
      NameThenRest(names[0], quote, ")" + rest);
      assert s == QuoteName(names[0], quote) + (")" + rest);
      assert names == [names[0]];
    } else {
      var tail := NamesText(names[1..], quote) + ")" + rest;
      ColumnsReadBack(names[1..], quote, rest);
      NamesSplit(names, quote);
      FirstQuote(names[1..], quote);
      assert s == QuoteName(names[0], quote) + (", " + tail);
      NameThenRest(names[0], quote, ", " + tail);
      assert (", " + tail)[..2] == ", " && (", " + tail)[2..] == tail && tail[0] == quote;
      MoreColumns(s, names[0], tail, names[1..], quote, rest);
      assert names == [names[0]] + names[1..];
    }
  }

  lemma MoreColumns(s: string, name: string, tail: string, names: seq<string>, quote: char, rest: string)
    requires s != "" && s[0] == quote != ')' && ReadQuoted(s[1..], quote) == Some((name, ", " + tail))
    requires tail != "" && tail[0] == quote && ReadColumns(tail, quote) == Some((names, rest))
    ensures ReadColumns(s, quote) == Some(([name] + names, rest))
  {
    assert (", " + tail)[..2] == ", " && (", " + tail)[2..] == tail;
  }

  lemma LiteralThenRest(dialect: Dialect, l: string, rest: string)
    requires IsLiteral(dialect, l) && rest != "" && (rest[0] == ',' || rest[0] == ')')
    ensures var s := l + rest;
            l != "" && LiteralRun(dialect, s, false) == |l| && s[..|l|] == l && s[|l|..] == rest && s[0] != ')'
  {
    LiteralStops(dialect, l, false, rest);
  }

  lemma {:induction false} LiteralsReadBack(dialect: Dialect, literals: seq<string>, rest: string)
    requires forall l :: l in literals ==> IsLiteral(dialect, l)
    ensures ReadLiterals(dialect, Join(literals, ", ") + ")" + rest) == Some((literals, rest))
  {
    hide IsLiteral, LiteralRun, ReadLiterals;
    var s := Join(literals, ", ") + ")" + rest;
    if literals == [] {
      assert s == ")" + rest;
      NoLiterals(dialect, rest);
    } else if |literals| == 1 {
      assert s == literals[0] + (")" + rest);
      LastLiteral(dialect, literals[0], rest);
      assert literals == [literals[0]];
    } else {
      var tail := Join(literals[1..], ", ") + ")" + rest;
      LiteralsReadBack(dialect, literals[1..], rest);
      assert s == literals[0] + (", " + tail);
      LiteralThenRest(dialect, literals[0], ", " + tail);
      TailIsLiteral(dialect, literals[1..], rest);
      MoreLiterals(dialect, s, literals[0], tail, literals[1..], rest);
      assert literals == [literals[0]] + literals[1..];
    }
  }

  lemma NoLiterals(dialect: Dialect, rest: string)
    ensures ReadLiterals(dialect, ")" + rest) == Some(([], rest))
  {
  }

  lemma LastLiteral(dialect: Dialect, l: string, rest: string)
    requires IsLiteral(dialect, l)
    ensures ReadLiterals(dialect, l + (")" + rest)) == Some(([l], rest))
  {
    LiteralThenRest(dialect, l, ")" + rest);
    hide LiteralRun;
  }

  lemma TailIsLiteral(dialect: Dialect, literals: seq<string>, rest: string)
    requires literals != [] && forall l :: l in literals ==> IsLiteral(dialect, l)
    ensures var tail := Join(literals, ", ") + ")" + rest; tail != "" && tail[0] != ')'
  {
    assert IsLiteral(dialect, literals[0]);
    assert Join(literals, ", ")[0] == literals[0][0];
  }

  lemma MoreLiterals(dialect: Dialect, s: string, l: string, tail: string, literals: seq<string>, rest: string)
    requires s == l + (", " + tail) && l != "" && s[0] != ')' && LiteralRun(dialect, s, false) == |l|
    requires tail != "" && tail[0] != ')' && ReadLiterals(dialect, tail) == Some((literals, rest))
    ensures ReadLiterals(dialect, s) == Some(([l] + literals, rest))
  {
    assert s[..|l|] == l && s[|l|..] == ", " + tail;
    assert (", " + tail)[..2] == ", " && (", " + tail)[2..] == tail;
  }

  /** A statement with these parts, in the text a writer gives it, reads back as them. */
  lemma InsertReadsBack(dialect: Dialect, table: string, columns: seq<string>, literals: seq<string>, rest: string)
    requires forall l :: l in literals ==> IsLiteral(dialect, l)
    ensures var quote := if dialect == Pg then '"' else '`';
            ReadInsert(dialect, "INSERT INTO " + QuoteName(table, quote) + " (" + NamesText(columns, quote) + ") VALUES ("
                                + Join(literals, ", ") + ");\n" + rest)
            == Some((Insert(table, columns, literals), rest))
  {
    var quote := if dialect == Pg then '"' else '`';
    hide After, ReadQuoted, ReadColumns, ReadLiterals, NamesText, Join, Replaced;
    var s5 := ";\n" + rest;
    var s4 := Join(literals, ", ") + ")" + s5;
    var s3 := " VALUES (" + s4;
    var s2 := NamesText(columns, quote) + ")" + s3;
    var s1 := " (" + s2;
    var s0 := Replaced(table, quote, [quote, quote]) + [quote] + s1;
    AfterHead("INSERT INTO " + [quote], s0);
    QuotedReadsBack(table, quote, s1);
    AfterHead(" (", s2);
    ColumnsReadBack(columns, quote, s3);
    AfterHead(" VALUES (", s4);
    LiteralsReadBack(dialect, literals, s5);
    AfterHead(";\n", rest);
    StatementParts([quote], Replaced(table, quote, [quote, quote]), NamesText(columns, quote), Join(literals, ", "), rest);
  }

  /** The same text, in the pieces a writer puts together and in those a reader takes off. */
  lemma StatementParts(q: string, table: string, columns: string, literals: string, rest: string)
    ensures "INSERT INTO " + (q + table + q) + " (" + columns + ") VALUES (" + literals + ");\n" + rest
         == "INSERT INTO " + q + (table + q + (" (" + (columns + ")" + (" VALUES (" + (literals + ")" + (";\n" + rest))))))
  {
    var tail := literals + ")" + (";\n" + rest);
    assert literals + ");\n" + rest == tail;
    assert columns + ") VALUES (" + tail == columns + ")" + (" VALUES (" + tail);
  }
}
