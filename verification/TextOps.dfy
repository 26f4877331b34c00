/** The two string operations the printers are made of: global replacement and joining. */
module TextOps {

  /** s.replace(/c/g, by) for a single character c. */
  function Replaced(s: string, c: char, with: string): string {
    if s == "" then ""
    else (if s[0] == c then with else [s[0]]) + Replaced(s[1..], c, with)
  }

  lemma {:induction false} ReplacedConcat(a: string, b: string, c: char, with: string)
    ensures Replaced(a + b, c, with) == Replaced(a, c, with) + Replaced(b, c, with)
  {
    if a == "" {
      assert a + b == b;
    } else {
      ReplacedConcat(a[1..], b, c, with);
      assert (a + b)[0] == a[0] && (a + b)[1..] == a[1..] + b;
      var first, rest, more := if a[0] == c then with else [a[0]], Replaced(a[1..], c, with), Replaced(b, c, with);
      assert Replaced(a + b, c, with) == first + (rest + more) == (first + rest) + more;
    }
  }

  /** Array.join */
  function Join(parts: seq<string>, sep: string): string {
    if parts == [] then ""
    else if |parts| == 1 then parts[0]
    else parts[0] + sep + Join(parts[1..], sep)
  }
}
