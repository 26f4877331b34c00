/**
 * JSON text as JSON.stringify writes it without indentation, and a reader for any JSON
 * text after RFC 8259. Strings are sequences of Unicode scalar values: an escaped surrogate
 * pair reads as one of them, and a lone surrogate, escaped or not, is none.
 */
module JsonText {
  import opened Prelude

  // ── Numbers (section 6 of RFC 8259) ──

  predicate IsDigit(c: char) {
    '0' <= c <= '9'
  }

  predicate AllDigits(s: string) {
    s != "" && forall i :: 0 <= i < |s| ==> IsDigit(s[i])
  }

  predicate IsExponent(s: string) {
    || s == ""
    || ((s[0] == 'e' || s[0] == 'E') && AllDigits(if |s| > 1 && (s[1] == '+' || s[1] == '-') then s[2..] else s[1..]))
  }

  function DigitRun(s: string): (n: nat)
    ensures n <= |s|
  {
    if s != "" && IsDigit(s[0]) then 1 + DigitRun(s[1..]) else 0
  }

  predicate IsFraction(s: string) {
    if s != "" && s[0] == '.' then
      var n := DigitRun(s[1..]);
      n > 0 && IsExponent(s[1..][n..])
    else IsExponent(s)
  }

  predicate IsNumber(s: string) {
    var t := if s != "" && s[0] == '-' then s[1..] else s;
    var n := DigitRun(t);
    n > 0 && (t[0] == '0' ==> n == 1) && IsFraction(t[n..])
  }

  predicate IsNumberChar(c: char) {
    IsDigit(c) || c == '-' || c == '+' || c == '.' || c == 'e' || c == 'E'
  }

  /** A finite number in the decimal form the runtime prints it in. */
  type NumberToken = s: string | IsNumber(s) && forall c :: c in s ==> IsNumberChar(c) witness NumberWitness()

  function NumberWitness(): (s: string)
    ensures IsNumber(s) && forall c :: c in s ==> IsNumberChar(c)
  {
    assert DigitRun("0") == 1 + DigitRun(""[..]);
    "0"
  }

  datatype Json =
    | JNull
    | JBool(b: bool)
    | JNumber(token: NumberToken)
    | JString(s: string)
    | JArray(items: seq<Json>)
    | JObject(members: seq<Member>)

  datatype Member = Member(key: string, value: Json)

  // ── Printer ──

  function HexDigit(n: nat): char
    requires n < 16
  {
    "0123456789abcdef"[n]
  }

  function EscapeChar(c: char): string {
    if c == '"' then "\\\""
    else if c == '\\' then "\\\\"
    else if c == '\U{8}' then "\\b"
    else if c == '\t' then "\\t"
    else if c == '\n' then "\\n"
    else if c == '\U{c}' then "\\f"
    else if c == '\r' then "\\r"
    else if c < ' ' then "\\u00" + [HexDigit(c as int / 16), HexDigit(c as int % 16)]
    else [c]
  }

  function Escaped(s: string): string {
    if s == "" then "" else EscapeChar(s[0]) + Escaped(s[1..])
  }

  function StringText(s: string): string {
    "\"" + Escaped(s) + "\""
  }

  function JsonText(v: Json): string
    decreases v, 1
  {
    match v
    case JNull => "null"
    case JBool(b) => if b then "true" else "false"
    case JNumber(token) => token
    case JString(s) => StringText(s)
    case JArray(items) => "[" + ItemsText(items) + "]"
    case JObject(members) => "{" + MembersText(members) + "}"
  }

  function ItemsText(items: seq<Json>): string
    decreases items, 0
  {
    if items == [] then ""
    else if |items| == 1 then JsonText(items[0])
    else JsonText(items[0]) + "," + ItemsText(items[1..])
  }

  function MemberText(m: Member): string
    decreases m, 1
  {
    StringText(m.key) + ":" + JsonText(m.value)
  }

  function MembersText(members: seq<Member>): string
    decreases members, 0
  {
    if members == [] then ""
    else if |members| == 1 then MemberText(members[0])
    else MemberText(members[0]) + "," + MembersText(members[1..])
  }

  // ── Reader ──

  predicate IsSpace(c: char) {
    c == ' ' || c == '\t' || c == '\n' || c == '\r'
  }

  function SkipSpace(s: string): (r: string)
    ensures |r| <= |s|
    ensures r != "" ==> !IsSpace(r[0])
  {
    if s != "" && IsSpace(s[0]) then SkipSpace(s[1..]) else s
  }

  function HexValue(c: char): Option<nat> {
    if '0' <= c <= '9' then Some(c as int - '0' as int)
    else if 'a' <= c <= 'f' then Some(c as int - 'a' as int + 10)
    else if 'A' <= c <= 'F' then Some(c as int - 'A' as int + 10)
    else None
  }

  /** The code unit of a \u escape. */
  function HexCode(s: string): (r: Option<nat>)
    requires |s| == 4
    ensures r.Some? ==> r.value < 0x1_0000
  {
    var a, b, c, d := HexValue(s[0]), HexValue(s[1]), HexValue(s[2]), HexValue(s[3]);
    if a.None? || b.None? || c.None? || d.None? then None
    else Some(((a.value * 16 + b.value) * 16 + c.value) * 16 + d.value)
  }

  /** A code unit on its own; half a surrogate pair is no character. */
  function UnitChar(code: nat): Option<char> {
    if code < 0xD800 || 0xE000 <= code < 0x1_0000 then Some(code as char) else None
  }

  /** Two code units, the halves of a surrogate pair. */
  function PairChar(high: nat, low: nat): Option<char> {
    if 0xD800 <= high < 0xDC00 && 0xDC00 <= low < 0xE000 then
      Some((0x1_0000 + (high - 0xD800) * 0x400 + (low - 0xDC00)) as char)
    else None
  }

  /** One or two \u escapes at the head of the text. */
  function ReadHex(s: string): (r: Option<(char, nat)>)
    requires |s| >= 6
    ensures r.Some? ==> 0 < r.value.1 <= |s|
  {
    var code := HexCode(s[2..6]);
    if code.None? then None
    else if UnitChar(code.value).Some? then Some((UnitChar(code.value).value, 6))
    else if |s| >= 12 && s[6] == '\\' && s[7] == 'u' then
      var low := HexCode(s[8..12]);
      if low.Some? && PairChar(code.value, low.value).Some? then Some((PairChar(code.value, low.value).value, 12)) else None
    else None
  }

  function SimpleEscape(c: char): Option<char> {
    if c == '"' || c == '\\' || c == '/' then Some(c)
    else if c == 'b' then Some('\U{8}')
    else if c == 't' then Some('\t')
    else if c == 'n' then Some('\n')
    else if c == 'f' then Some('\U{c}')
    else if c == 'r' then Some('\r')
    else None
  }

  /** One character of a string, and how much text it took. */
  function ReadChar(s: string): (r: Option<(char, nat)>)
    requires s != ""
    ensures r.Some? ==> 0 < r.value.1 <= |s|
  {
    if s[0] == '"' || s[0] < ' ' then None
    else if s[0] != '\\' then Some((s[0], 1))
    else if |s| >= 6 && s[1] == 'u' then ReadHex(s)
    else if |s| >= 2 && SimpleEscape(s[1]).Some? then Some((SimpleEscape(s[1]).value, 2))
    else None
  }

  /** The rest of a string after its opening quote. */
  function ReadString(s: string): (r: Option<(string, string)>)
    ensures r.Some? ==> |r.value.1| < |s|
  {
    if s == "" then None
    else if s[0] == '"' then Some(("", s[1..]))
    else
      var c := ReadChar(s);
      if c.None? then None
      else
        var rest := ReadString(s[c.value.1..]);
        if rest.None? then None else Some(([c.value.0] + rest.value.0, rest.value.1))
  }

  function NumberRun(s: string): (n: nat)
    ensures n <= |s|
    ensures forall c :: c in s[..n] ==> IsNumberChar(c)
  {
    if s != "" && IsNumberChar(s[0]) then
      assert s[..1 + NumberRun(s[1..])] == [s[0]] + s[1..][..NumberRun(s[1..])];
      1 + NumberRun(s[1..])
    else 0
  }

  function ReadValue(s: string): (r: Option<(Json, string)>)
    ensures r.Some? ==> |r.value.1| < |s|
    decreases |s|, 0
  {
    var t := SkipSpace(s);
    if t == "" then None
    else if t[0] == '"' then
      var q := ReadString(t[1..]);
      if q.None? then None else Some((JString(q.value.0), q.value.1))
    else if t[0] == '[' then
      var a := ReadItems(t[1..]);
      if a.None? then None else Some((JArray(a.value.0), a.value.1))
    else if t[0] == '{' then
      var o := ReadMembers(t[1..]);
      if o.None? then None else Some((JObject(o.value.0), o.value.1))
    else if StartsWith(t, "null") then Some((JNull, t[4..]))
    else if StartsWith(t, "true") then Some((JBool(true), t[4..]))
    else if StartsWith(t, "false") then Some((JBool(false), t[5..]))
    else
      var n := NumberRun(t);
      if IsNumber(t[..n]) then Some((JNumber(t[..n]), t[n..])) else None
  }

  function ReadItems(s: string): (r: Option<(seq<Json>, string)>)
    ensures r.Some? ==> |r.value.1| < |s|
    decreases |s|, 2
  {
    var t := SkipSpace(s);
    if t != "" && t[0] == ']' then Some(([], t[1..])) else ReadMoreItems(s)
  }

  function ReadMoreItems(s: string): (r: Option<(seq<Json>, string)>)
    ensures r.Some? ==> |r.value.1| < |s|
    decreases |s|, 1
  {
    var v := ReadValue(s);
    if v.None? then None
    else
      var t := SkipSpace(v.value.1);
      if t != "" && t[0] == ']' then Some(([v.value.0], t[1..]))
      else if t != "" && t[0] == ',' then
        var rest := ReadMoreItems(t[1..]);
        if rest.None? then None else Some(([v.value.0] + rest.value.0, rest.value.1))
      else None
  }

  function ReadMember(s: string): (r: Option<(Member, string)>)
    ensures r.Some? ==> |r.value.1| < |s|
    decreases |s|, 1
  {
    var t := SkipSpace(s);
    if t == "" || t[0] != '"' then None
    else
      var key := ReadString(t[1..]);
      if key.None? then None
      else
        var u := SkipSpace(key.value.1);
        if u == "" || u[0] != ':' then None
        else
          var v := ReadValue(u[1..]);
          if v.None? then None else Some((Member(key.value.0, v.value.0), v.value.1))
  }

  function ReadMembers(s: string): (r: Option<(seq<Member>, string)>)
    ensures r.Some? ==> |r.value.1| < |s|
    decreases |s|, 3
  {
    var t := SkipSpace(s);
    if t != "" && t[0] == '}' then Some(([], t[1..])) else ReadMoreMembers(s)
  }

  function ReadMoreMembers(s: string): (r: Option<(seq<Member>, string)>)
    ensures r.Some? ==> |r.value.1| < |s|
    decreases |s|, 2
  {
    var m := ReadMember(s);
    if m.None? then None
    else
      var t := SkipSpace(m.value.1);
      if t != "" && t[0] == '}' then Some(([m.value.0], t[1..]))
      else if t != "" && t[0] == ',' then
        var rest := ReadMoreMembers(t[1..]);
        if rest.None? then None else Some(([m.value.0] + rest.value.0, rest.value.1))
      else None
  }

  /** A whole document: one value and nothing but space after it. */
  function ReadJson(s: string): Option<Json> {
    var v := ReadValue(s);
    if v.Some? && SkipSpace(v.value.1) == "" then Some(v.value.0) else None
  }

  // ── Round trip ──

  /** What may follow a printed value: nothing a number could continue with. */
  predicate Ends(rest: string) {
    rest != "" ==> !IsNumberChar(rest[0])
  }

  lemma HexReadsBack(c: char)
    requires c < ' '
    ensures HexCode("00" + [HexDigit(c as int / 16), HexDigit(c as int % 16)]) == Some(c as int)
  {
    var n := c as int;
    assert HexValue(HexDigit(n / 16)) == Some(n / 16);
    assert HexValue(HexDigit(n % 16)) == Some(n % 16);
    assert n == 16 * (n / 16) + n % 16;
  }

  /** A character outside the basic plane reads from its two escapes. */
  lemma PairReadsBack(high: string, low: string, c: char, rest: string)
    requires |high| == 4 && |low| == 4 && c as int >= 0x1_0000
    requires HexCode(high) == Some(0xD800 + (c as int - 0x1_0000) / 0x400) && HexCode(low) == Some(0xDC00 + (c as int - 0x1_0000) % 0x400)
    ensures ReadChar("\\u" + high + "\\u" + low + rest) == Some((c, 12))
  {
    hide HexCode;
    var s := "\\u" + high + "\\u" + low + rest;
    assert s[2..6] == high && s[8..12] == low && s[6] == '\\' && s[7] == 'u';
  }

  lemma ControlReadsBack(c: char, rest: string)
    requires c < ' ' && EscapeChar(c) == "\\u00" + [HexDigit(c as int / 16), HexDigit(c as int % 16)]
    ensures ReadChar(EscapeChar(c) + rest) == Some((c, 6))
  {
    var s := EscapeChar(c) + rest;
    HexReadsBack(c);
    hide EscapeChar, HexCode, HexDigit;
    assert s[2..6] == "00" + [HexDigit(c as int / 16), HexDigit(c as int % 16)];
  }

  lemma CharReadsBack(c: char, rest: string)
    ensures ReadChar(EscapeChar(c) + rest) == Some((c, |EscapeChar(c)|))
    ensures EscapeChar(c)[0] != '"'
  {
    if c < ' ' && c != '\U{8}' && c != '\t' && c != '\n' && c != '\U{c}' && c != '\r' {
      ControlReadsBack(c, rest);
    } else {
      hide ReadHex, HexDigit;
    }
  }

  lemma {:induction false} StringReadsBack(s: string, rest: string)
    ensures ReadString(Escaped(s) + "\"" + rest) == Some((s, rest))
  {
    hide ReadChar, EscapeChar;
    var t := Escaped(s) + "\"" + rest;
    if s == "" {
      assert t[1..] == rest;
    } else {
      var tail := Escaped(s[1..]) + "\"" + rest;
      StringReadsBack(s[1..], rest);
      CharReadsBack(s[0], tail);
      assert t == EscapeChar(s[0]) + tail && t[|EscapeChar(s[0])|..] == tail;
      assert [s[0]] + s[1..] == s;
    }
  }

  lemma {:induction false} NumberRunStops(token: string, rest: string)
    requires Ends(rest) && forall c :: c in token ==> IsNumberChar(c)
    ensures NumberRun(token + rest) == |token|
  {
    if token == "" {
      assert token + rest == rest;
    } else {
      assert token[0] in token && forall c :: c in token[1..] ==> c in token;
      NumberRunStops(token[1..], rest);
      assert (token + rest)[1..] == token[1..] + rest;
    }
  }

  lemma NotPrefix(s: string, word: string)
    requires s != "" && word != "" && s[0] != word[0]
    ensures !StartsWith(s, word)
  {
  }

  lemma NumberReadsBack(token: NumberToken, rest: string)
    requires Ends(rest)
    ensures ReadValue(token + rest) == Some((JNumber(token), rest))
  {
    var s := token + rest;
    assert token[0] in token;
    assert s[0] == token[0];
    NumberRunStops(token, rest);
    assert s[..|token|] == token && s[|token|..] == rest;
    assert !IsSpace(s[0]) && s[0] !in "\"[{ntf";
    NotPrefix(s, "null");
    NotPrefix(s, "true");
    NotPrefix(s, "false");
  }

  lemma SkipNothing(s: string)
    requires s != "" ==> !IsSpace(s[0])
    ensures SkipSpace(s) == s
  {
  }

  /** Space before a value is not part of it. */
  lemma {:induction false} SkipSpaces(space: string, s: string)
    requires forall c :: c in space ==> IsSpace(c)
    ensures SkipSpace(space + s) == SkipSpace(s)
  {
    if space == "" {
      assert space + s == s;
    } else {
      assert space[0] in space && forall c :: c in space[1..] ==> c in space;
      SkipSpaces(space[1..], s);
      assert (space + s)[1..] == space[1..] + s;
    }
  }

  lemma FirstOfValue(v: Json)
    ensures JsonText(v) != "" && !IsSpace(JsonText(v)[0]) && JsonText(v)[0] != ']' && JsonText(v)[0] != '}'
  {
    match v
    case JNumber(token) => assert token[0] in token;
    case _ =>
  }

  lemma WordReadsBack(v: Json, rest: string)
    requires v.JNull? || v.JBool?
    ensures ReadValue(JsonText(v) + rest) == Some((v, rest))
  {
    var s := JsonText(v) + rest;
    SkipNothing(s);
    assert StartsWith(s, JsonText(v)) && s[|JsonText(v)|..] == rest;
    if v != JNull {
      NotPrefix(s, "null");
      if v == JBool(false) { NotPrefix(s, "true"); }
    }
  }

  lemma OpenedValue(s: string, v: Json, rest: string)
    requires s != ""
    requires || (v.JString? && s[0] == '"' && ReadString(s[1..]) == Some((v.s, rest)))
             || (v.JArray? && s[0] == '[' && ReadItems(s[1..]) == Some((v.items, rest)))
             || (v.JObject? && s[0] == '{' && ReadMembers(s[1..]) == Some((v.members, rest)))
    ensures ReadValue(s) == Some((v, rest))
  {
    SkipNothing(s);
  }

  lemma {:induction false} ValueReadsBack(v: Json, rest: string)
    requires Ends(rest)
    ensures ReadValue(JsonText(v) + rest) == Some((v, rest))
    decreases v, 1
  {
    hide ReadValue, ReadItems, ReadMembers, ReadString, Escaped, ItemsText, MembersText, IsNumber;
    var s := JsonText(v) + rest;
    match v {
      case JNull => WordReadsBack(v, rest);
      case JBool(b) => WordReadsBack(v, rest);
      case JNumber(token) => NumberReadsBack(token, rest);
      case JString(t) =>
        StringReadsBack(t, rest);
        assert s == "\"" + (Escaped(t) + "\"" + rest);
        OpenedValue(s, v, rest);
      case JArray(items) =>
        ItemsReadBack(items, rest);
        assert s == "[" + (ItemsText(items) + "]" + rest);
        OpenedValue(s, v, rest);
      case JObject(members) =>
        MembersReadBack(members, rest);
        assert s == "{" + (MembersText(members) + "}" + rest);
        OpenedValue(s, v, rest);
    }
  }

  lemma LastItem(s: string, v: Json, tail: string)
    requires ReadValue(s) == Some((v, tail)) && SkipSpace(tail) != "" && SkipSpace(tail)[0] == ']'
    ensures ReadMoreItems(s) == Some(([v], SkipSpace(tail)[1..]))
  {
  }

  lemma AnotherItem(s: string, v: Json, tail: string, items: seq<Json>, rest: string)
    requires ReadValue(s) == Some((v, tail)) && SkipSpace(tail) != "" && SkipSpace(tail)[0] == ','
    requires ReadMoreItems(SkipSpace(tail)[1..]) == Some((items, rest))
    ensures ReadMoreItems(s) == Some(([v] + items, rest))
  {
  }

  lemma {:induction false} ItemsReadBack(items: seq<Json>, rest: string)
    ensures ReadItems(ItemsText(items) + "]" + rest) == Some((items, rest))
    decreases items, 1
  {
    hide ReadMoreItems, JsonText;
    var s := ItemsText(items) + "]" + rest;
    if items == [] {
      SkipNothing(s);
      assert s[1..] == rest;
    } else {
      FirstOfValue(items[0]);
      assert s[0] == JsonText(items[0])[0];
      SkipNothing(s);
      MoreItemsReadBack(items, rest);
    }
  }

  lemma {:induction false} MoreItemsReadBack(items: seq<Json>, rest: string)
    requires items != []
    ensures ReadMoreItems(ItemsText(items) + "]" + rest) == Some((items, rest))
    decreases items, 0
  {
    hide ReadMoreItems, ReadValue, JsonText, IsNumber;
    var s := ItemsText(items) + "]" + rest;
    if |items| == 1 {
      var tail := "]" + rest;
      ValueReadsBack(items[0], tail);
      assert s == JsonText(items[0]) + tail;
      SkipNothing(tail);
      LastItem(s, items[0], tail);
      assert [items[0]] == items;
    } else {
      var tail := "," + (ItemsText(items[1..]) + "]" + rest);
      ValueReadsBack(items[0], tail);
      MoreItemsReadBack(items[1..], rest);
      assert s == JsonText(items[0]) + tail;
      SkipNothing(tail);
      AnotherItem(s, items[0], tail, items[1..], rest);
      assert [items[0]] + items[1..] == items;
    }
  }

  lemma {:induction false} MemberReadsBack(m: Member, rest: string)
    requires Ends(rest)
    ensures ReadMember(MemberText(m) + rest) == Some((m, rest))
    decreases m, 1
  {
    hide ReadValue, JsonText, ReadString, Escaped;
    var s := MemberText(m) + rest;
    var colon := ":" + (JsonText(m.value) + rest);
    StringReadsBack(m.key, colon);
    ValueReadsBack(m.value, rest);
    assert s == "\"" + (Escaped(m.key) + "\"" + colon);
    SkipNothing(s);
    SkipNothing(colon);
  }

  lemma LastMember(s: string, m: Member, tail: string)
    requires ReadMember(s) == Some((m, tail)) && SkipSpace(tail) != "" && SkipSpace(tail)[0] == '}'
    ensures ReadMoreMembers(s) == Some(([m], SkipSpace(tail)[1..]))
  {
  }

  lemma AnotherMember(s: string, m: Member, tail: string, members: seq<Member>, rest: string)
    requires ReadMember(s) == Some((m, tail)) && SkipSpace(tail) != "" && SkipSpace(tail)[0] == ','
    requires ReadMoreMembers(SkipSpace(tail)[1..]) == Some((members, rest))
    ensures ReadMoreMembers(s) == Some(([m] + members, rest))
  {
  }

  lemma {:induction false} MembersReadBack(members: seq<Member>, rest: string)
    ensures ReadMembers(MembersText(members) + "}" + rest) == Some((members, rest))
    decreases members, 1
  {
    hide ReadMoreMembers, JsonText;
    var s := MembersText(members) + "}" + rest;
    if members == [] {
      SkipNothing(s);
      assert s[1..] == rest;
    } else {
      assert MemberText(members[0])[0] == '"';
      assert s[0] == '"';
      SkipNothing(s);
      MoreMembersReadBack(members, rest);
    }
  }

  lemma {:induction false} MoreMembersReadBack(members: seq<Member>, rest: string)
    requires members != []
    ensures ReadMoreMembers(MembersText(members) + "}" + rest) == Some((members, rest))
    decreases members, 0
  {
    hide ReadMoreMembers, ReadMember, MemberText;
    var s := MembersText(members) + "}" + rest;
    if |members| == 1 {
      var tail := "}" + rest;
      MemberReadsBack(members[0], tail);
      assert s == MemberText(members[0]) + tail;
      SkipNothing(tail);
      LastMember(s, members[0], tail);
      assert [members[0]] == members;
    } else {
      var tail := "," + (MembersText(members[1..]) + "}" + rest);
      MemberReadsBack(members[0], tail);
      MoreMembersReadBack(members[1..], rest);
      assert s == MemberText(members[0]) + tail;
      SkipNothing(tail);
      AnotherMember(s, members[0], tail, members[1..], rest);
      assert [members[0]] + members[1..] == members;
    }
  }

  /** Any value is read back exactly from its text. */
  lemma JsonReadsBack(v: Json)
    ensures ReadJson(JsonText(v)) == Some(v)
  {
    ValueReadsBack(v, "");
    assert JsonText(v) + "" == JsonText(v);
  }
}
