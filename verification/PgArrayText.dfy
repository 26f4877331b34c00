/**
 * The text form of PostgreSQL array values (pgArrayText of export.service.ts), and a
 * reader for that form after section 8.15.6 of the PostgreSQL documentation.
 */
module PgArrayText {
  import opened Prelude
  import opened TextOps

  /**
   * An array element. `Text` is any scalar, already in the string form the program gives it;
   * null and undefined are both `Null`.
   */
  datatype Cell = Null | Text(text: string) | Arr(items: seq<Cell>)

  function Quoted(text: string): string {
    "\"" + Replaced(Replaced(text, '\\', "\\\\"), '"', "\\\"") + "\""
  }

  function CellText(c: Cell): string
    decreases c, 1
  {
    match c
    case Null => "NULL"
    case Text(text) => Quoted(text)
    case Arr(items) => ArrayText(items)
  }

  function ArrayText(items: seq<Cell>): string
    decreases items, 1
  {
    "{" + ItemsText(items) + "}"
  }

  function ItemsText(items: seq<Cell>): string
    decreases items, 0
  {
    if items == [] then ""
    else if |items| == 1 then CellText(items[0])
    else CellText(items[0]) + "," + ItemsText(items[1..])
  }

  // ── The two replacements are one escape per character ──

  function Escape(c: char): string {
    if c == '\\' || c == '"' then ['\\', c] else [c]
  }

  function Escaped(text: string): string {
    if text == "" then "" else Escape(text[0]) + Escaped(text[1..])
  }

  lemma {:induction false} TwoReplacementsAreOneEscape(text: string)
    ensures Replaced(Replaced(text, '\\', "\\\\"), '"', "\\\"") == Escaped(text)
  {
    if text != "" {
      TwoReplacementsAreOneEscape(text[1..]);
      var first := if text[0] == '\\' then "\\\\" else [text[0]];
      ReplacedConcat(first, Replaced(text[1..], '\\', "\\\\"), '"', "\\\"");
      assert Replaced(first, '"', "\\\"") == Escape(text[0]) by {
        if text[0] == '\\' {
          assert first[1..] == "\\" && first[1..][1..] == "";
        } else {
          assert first[1..] == "";
        }
      }
    }
  }

  // ── Reader ──

  predicate IsSpace(c: char) {
    c == ' ' || c == '\t' || c == '\n' || c == '\r'
  }

  function SkipSpace(s: string): (r: string)
    ensures |r| <= |s|
  {
    if s != "" && IsSpace(s[0]) then SkipSpace(s[1..]) else s
  }

  function TrimEnd(s: string): string {
    if s != "" && IsSpace(s[|s| - 1]) then TrimEnd(s[..|s| - 1]) else s
  }

  function Upper(c: char): char {
    if 'a' <= c <= 'z' then c - 'a' + 'A' else c
  }

  predicate IsNullWord(s: string) {
    |s| == 4 && Upper(s[0]) == 'N' && Upper(s[1]) == 'U' && Upper(s[2]) == 'L' && Upper(s[3]) == 'L'
  }

  /** The rest of a quoted element: a backslash protects the next character, a quote ends it. */
  function ReadQuoted(s: string): (r: Option<(string, string)>)
    ensures r.Some? ==> |r.value.1| < |s|
  {
    if s == "" then None
    else if s[0] == '"' then Some(("", s[1..]))
    else if s[0] == '\\' then
      if |s| < 2 then None
      else
        var rest := ReadQuoted(s[2..]);
        if rest.None? then None else Some(([s[1]] + rest.value.0, rest.value.1))
    else
      var rest := ReadQuoted(s[1..]);
      if rest.None? then None else Some(([s[0]] + rest.value.0, rest.value.1))
  }

  /** An unquoted element runs to the next delimiter or closing brace. */
  function ReadBare(s: string): (r: Option<(string, string)>)
    ensures r.Some? ==> |r.value.1| <= |s|
    ensures r.Some? && r.value.0 != "" ==> |r.value.1| < |s|
  {
    if s == "" || s[0] == '{' || s[0] == '"' then None
    else if s[0] == ',' || s[0] == '}' then Some(("", s))
    else if s[0] == '\\' then
      if |s| < 2 then None
      else
        var rest := ReadBare(s[2..]);
        if rest.None? then None else Some(([s[1]] + rest.value.0, rest.value.1))
    else
      var rest := ReadBare(s[1..]);
      if rest.None? then None else Some(([s[0]] + rest.value.0, rest.value.1))
  }

  function ReadElement(s: string): (r: Option<(Cell, string)>)
    ensures r.Some? ==> |r.value.1| < |s|
    decreases |s|, 0
  {
    var t := SkipSpace(s);
    if t == "" then None
    else if t[0] == '{' then
      var a := ReadItems(t[1..]);
      if a.None? then None else Some((Arr(a.value.0), a.value.1))
    else if t[0] == '"' then
      var q := ReadQuoted(t[1..]);
      if q.None? then None else Some((Text(q.value.0), q.value.1))
    else
      var b := ReadBare(t);
      if b.None? || TrimEnd(b.value.0) == "" then None
      else Some((if IsNullWord(TrimEnd(b.value.0)) then Null else Text(TrimEnd(b.value.0)), b.value.1))
  }

  /** What follows an opening brace, up to and with its closing brace. */
  function ReadItems(s: string): (r: Option<(seq<Cell>, string)>)
    ensures r.Some? ==> |r.value.1| < |s|
    decreases |s|, 2
  {
    var t := SkipSpace(s);
    if t != "" && t[0] == '}' then Some(([], t[1..])) else ReadMore(s)
  }

  function ReadMore(s: string): (r: Option<(seq<Cell>, string)>)
    ensures r.Some? ==> |r.value.1| < |s|
    decreases |s|, 1
  {
    var e := ReadElement(s);
    if e.None? then None
    else
      var t := SkipSpace(e.value.1);
      if t != "" && t[0] == '}' then Some(([e.value.0], t[1..]))
      else if t != "" && t[0] == ',' then
        var rest := ReadMore(t[1..]);
        if rest.None? then None else Some(([e.value.0] + rest.value.0, rest.value.1))
      else None
  }

  /** A whole array value. */
  function ReadArray(s: string): Option<seq<Cell>> {
    var e := ReadElement(s);
    if e.Some? && e.value.0.Arr? && SkipSpace(e.value.1) == "" then Some(e.value.0.items) else None
  }

  // ── Round trip ──

  predicate EndsElement(rest: string) {
    rest != "" && (rest[0] == ',' || rest[0] == '}')
  }

  lemma {:induction false} QuotedReadsBack(text: string, rest: string)
    ensures ReadQuoted(Escaped(text) + "\"" + rest) == Some((text, rest))
  {
    var s := Escaped(text) + "\"" + rest;
    if text == "" {
      assert s[1..] == rest;
    } else {
      QuotedReadsBack(text[1..], rest);
      var tail := Escaped(text[1..]) + "\"" + rest;
      assert s == Escape(text[0]) + tail;
      if text[0] == '\\' || text[0] == '"' {
        assert s[2..] == tail;
      } else {
        assert s[1..] == tail;
      }
      assert [text[0]] + text[1..] == text;
    }
  }

  lemma BareStep(c: char, tail: string, word: string, rest: string)
    requires c !in "{}\",\\" && ReadBare(tail) == Some((word, rest))
    ensures ReadBare([c] + tail) == Some(([c] + word, rest))
  {
    assert ([c] + tail)[1..] == tail;
  }

  lemma NullReadsBack(rest: string)
    requires EndsElement(rest)
    ensures ReadElement("NULL" + rest) == Some((Null, rest))
  {
    assert ReadBare(rest) == Some(("", rest));
    hide ReadBare;
    assert ['L'] + "" == "L" && ['L'] + "L" == "LL" && ['U'] + "LL" == "ULL";
    BareStep('L', rest, "", rest);
    BareStep('L', "L" + rest, "L", rest);
    BareStep('U', "L" + ("L" + rest), "LL", rest);
    BareStep('N', "U" + ("L" + ("L" + rest)), "ULL", rest);
    assert "NULL" + rest == "N" + ("U" + ("L" + ("L" + rest)));
    assert "N" + ("U" + ("L" + "L")) == "NULL";
  }

  lemma {:induction false} CellReadsBack(c: Cell, rest: string)
    requires c.Null? ==> EndsElement(rest)
    ensures ReadElement(CellText(c) + rest) == Some((c, rest))
    decreases c, 1
  {
    var s := CellText(c) + rest;
    match c {
      case Null => NullReadsBack(rest);
      case Text(text) =>
        TwoReplacementsAreOneEscape(text);
        QuotedReadsBack(text, rest);
        assert s[1..] == Escaped(text) + "\"" + rest;
      case Arr(items) =>
        ItemsReadBack(items, rest);
        assert CellText(c) == ArrayText(items);
        assert s == "{" + (ItemsText(items) + "}" + rest);
    }
  }

  lemma FirstOfCell(c: Cell)
    ensures CellText(c) != "" && !IsSpace(CellText(c)[0]) && CellText(c)[0] != '}' && CellText(c)[0] != ','
  {
  }

  lemma {:induction false} ItemsReadBack(items: seq<Cell>, rest: string)
    ensures ReadItems(ItemsText(items) + "}" + rest) == Some((items, rest))
    decreases items, 1
  {
    var s := ItemsText(items) + "}" + rest;
    if items == [] {
      assert s[1..] == rest;
    } else {
      FirstOfCell(items[0]);
      assert s[0] == CellText(items[0])[0];
      MoreReadsBack(items, rest);
    }
  }

  lemma {:induction false} MoreReadsBack(items: seq<Cell>, rest: string)
    requires items != []
    ensures ReadMore(ItemsText(items) + "}" + rest) == Some((items, rest))
    decreases items, 0
  {
    hide ReadMore, ReadElement, CellText;
    var s := ItemsText(items) + "}" + rest;
    if |items| == 1 {
      var tail := "}" + rest;
      CellReadsBack(items[0], tail);
      assert s == CellText(items[0]) + tail;
      LastElement(s, items[0], tail);
      assert [items[0]] == items;
    } else {
      var more := ItemsText(items[1..]) + "}" + rest;
      var tail := "," + more;
      CellReadsBack(items[0], tail);
      MoreReadsBack(items[1..], rest);
      assert s == CellText(items[0]) + tail;
      AnotherElement(s, items[0], tail, items[1..], rest);
      assert [items[0]] + items[1..] == items;
    }
  }

  lemma LastElement(s: string, c: Cell, tail: string)
    requires ReadElement(s) == Some((c, tail)) && tail != "" && tail[0] == '}'
    ensures ReadMore(s) == Some(([c], tail[1..]))
  {
  }

  lemma AnotherElement(s: string, c: Cell, tail: string, items: seq<Cell>, rest: string)
    requires ReadElement(s) == Some((c, tail)) && tail != "" && tail[0] == ','
    requires ReadMore(tail[1..]) == Some((items, rest))
    ensures ReadMore(s) == Some(([c] + items, rest))
  {
  }

  /** Every array, however nested, is read back exactly; in particular the text "NULL" is not null. */
  lemma ArrayReadsBack(items: seq<Cell>)
    ensures ReadArray(ArrayText(items)) == Some(items)
  {
    CellReadsBack(Arr(items), "");
    assert CellText(Arr(items)) + "" == ArrayText(items);
  }

  /** Distinct arrays have distinct text. */
  lemma ArrayTextInjective(a: seq<Cell>, b: seq<Cell>)
    ensures ArrayText(a) == ArrayText(b) <==> a == b
  {
    ArrayReadsBack(a);
    ArrayReadsBack(b);
  }
}
