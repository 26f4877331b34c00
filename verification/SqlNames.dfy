/**
 * Quoted SQL identifiers (quoteCol of export.service.ts): the quote character doubled inside, the
 * list of a table's columns separated by ", ", and a reader that takes such a list apart again.
 */
module SqlNames {
  import opened Prelude
  import opened TextOps

  function QuoteName(name: string, quote: char): string {
    [quote] + Replaced(name, quote, [quote, quote]) + [quote]
  }

  function NamesText(names: seq<string>, quote: char): string {
    Join(seq(|names|, i requires 0 <= i < |names| => QuoteName(names[i], quote)), ", ")
  }

  // ── Reader ──

  /** The rest of a quoted name: a doubled quote is one, a single one ends the name. */
  function ReadQuoted(s: string, quote: char): (r: Option<(string, string)>)
    ensures r.Some? ==> |r.value.1| < |s|
  {
    if s == "" then None
    else if s[0] == quote then
      if |s| > 1 && s[1] == quote then
        var rest := ReadQuoted(s[2..], quote);
        if rest.None? then None else Some(([quote] + rest.value.0, rest.value.1))
      else Some(("", s[1..]))
    else
      var rest := ReadQuoted(s[1..], quote);
      if rest.None? then None else Some(([s[0]] + rest.value.0, rest.value.1))
  }

  /** A list of names up to the end of the text; empty text is no name. */
  function ReadNames(s: string, quote: char): Option<seq<string>>
    decreases |s|
  {
    if s == "" then Some([])
    else if s[0] != quote then None
    else
      var name := ReadQuoted(s[1..], quote);
      if name.None? then None
      else
        var rest := name.value.1;
        if rest == "" then Some([name.value.0])
        else if !StartsWith(rest, ", ") || rest == ", " then None
        else
          var more := ReadNames(rest[2..], quote);
          if more.None? then None else Some([name.value.0] + more.value)
  }

  lemma {:induction false} QuotedReadsBack(name: string, quote: char, rest: string)
    requires rest == "" || rest[0] != quote
    ensures ReadQuoted(Replaced(name, quote, [quote, quote]) + [quote] + rest, quote) == Some((name, rest))
  {
    var s := Replaced(name, quote, [quote, quote]) + [quote] + rest;
    if name == "" {
      assert s == [quote] + rest && s[1..] == rest;
    } else {
      QuotedReadsBack(name[1..], quote, rest);
      var tail := Replaced(name[1..], quote, [quote, quote]) + [quote] + rest;
      if name[0] == quote {
        assert s == [quote, quote] + tail && s[2..] == tail;
      } else {
        assert s == [name[0]] + tail && s[1..] == tail;
      }
      assert name == [name[0]] + name[1..];
    }
  }

  lemma NamesSplit(names: seq<string>, quote: char)
    requires |names| > 1
    ensures NamesText(names, quote) == QuoteName(names[0], quote) + ", " + NamesText(names[1..], quote)
  {
    var quoted := seq(|names|, i requires 0 <= i < |names| => QuoteName(names[i], quote));
    assert quoted[1..] == seq(|names[1..]|, i requires 0 <= i < |names[1..]| => QuoteName(names[1..][i], quote));
  }

  lemma FirstQuote(names: seq<string>, quote: char)
    requires names != []
    ensures NamesText(names, quote) != "" && NamesText(names, quote)[0] == quote
  {
    if |names| > 1 { NamesSplit(names, quote); }
  }

  /** One name and what follows it. */
  lemma NameThenRest(name: string, quote: char, rest: string)
    requires rest == "" || rest[0] != quote
    ensures var s := QuoteName(name, quote) + rest; s[0] == quote && ReadQuoted(s[1..], quote) == Some((name, rest))
  {
    QuotedReadsBack(name, quote, rest);
    var s := QuoteName(name, quote) + rest;
    assert s[1..] == Replaced(name, quote, [quote, quote]) + [quote] + rest;
  }

  /** Every list of names is read back exactly, whatever quotes, commas and spaces the names hold. */
  lemma {:induction false} NamesReadBack(names: seq<string>, quote: char)
    requires quote != ','
    ensures ReadNames(NamesText(names, quote), quote) == Some(names)
  {
    if |names| == 1 {
      NameThenRest(names[0], quote, "");
      assert NamesText(names, quote) == QuoteName(names[0], quote) + "";
      assert names == [names[0]];
    } else if |names| > 1 {
      var more := NamesText(names[1..], quote);
      NamesReadBack(names[1..], quote);
      NamesSplit(names, quote);
      FirstQuote(names[1..], quote);
      assert NamesText(names, quote) == QuoteName(names[0], quote) + (", " + more);
      NameThenRest(names[0], quote, ", " + more);
      assert (", " + more)[..2] == ", " && (", " + more)[2..] == more;
      assert names == [names[0]] + names[1..];
    }
  }

  /** Two lists are written alike only if they are equal. */
  lemma NamesTextInjective(a: seq<string>, b: seq<string>, quote: char)
    requires quote != ','
    ensures NamesText(a, quote) == NamesText(b, quote) <==> a == b
  {
    NamesReadBack(a, quote);
    NamesReadBack(b, quote);
  }
}
