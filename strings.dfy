/** The Python string operations the configuration code relies on. */
module Strings {
  import opened Wrappers

  /** `sub` stands in `s` starting at index `i`. */
  predicate OccursAt(s: string, sub: string, i: int) {
    0 <= i <= |s| - |sub| && s[i..i + |sub|] == sub
  }

  /** Python's `sub in s` on strings: `sub` occurs at some position of `s`. */
  predicate Contains(s: string, sub: string) {
    exists i | 0 <= i <= |s| - |sub| :: OccursAt(s, sub, i)
  }

  /** Python's `s.removeprefix(prefix)`. */
  function RemovePrefix(s: string, prefix: string): (r: string)
    ensures prefix <= s ==> prefix + r == s
    ensures !(prefix <= s) ==> r == s
  {
    if prefix <= s then s[|prefix|..] else s
  }

  /** Python's `separator.join(items)`. */
  function Join(separator: string, items: seq<string>): string {
    if |items| == 0 then ""
    else if |items| == 1 then items[0]
    else items[0] + separator + Join(separator, items[1..])
  }

  /** How a Python f-string prints an optional string: `None` for an absent one. */
  function Show(value: Option<string>): string {
    match value
    case None => "None"
    case Some(s) => s
  }

  /** Every string contains itself. */
  lemma ContainsItself(s: string)
    ensures Contains(s, s)
  {
    assert OccursAt(s, s, 0);
  }

  /** A string that occurs in `s` occurs in any string built around `s`. */
  lemma ContainsInContext(before: string, s: string, after: string, sub: string)
    requires Contains(s, sub)
    ensures Contains(before + s + after, sub)
  {
    var i :| 0 <= i <= |s| - |sub| && OccursAt(s, sub, i);
    var whole := before + s + after;
    assert whole[|before| + i..|before| + i + |sub|] == s[i..i + |sub|];
    assert OccursAt(whole, sub, |before| + i);
  }

  /** Joining keeps every item: each one occurs in the result. */
  lemma {:induction false} JoinKeepsItem(separator: string, items: seq<string>, i: int)
    requires 0 <= i < |items|
    ensures Contains(Join(separator, items), items[i])
  {
    if |items| == 1 {
      ContainsItself(items[0]);
    } else {
      var rest := Join(separator, items[1..]);
      var joined := items[0] + separator + rest;
      assert Join(separator, items) == joined;
      if i == 0 {
        ContainsItself(items[0]);
        ContainsInContext("", items[0], separator + rest, items[0]);
        assert "" + items[0] + (separator + rest) == joined;
      } else {
        JoinKeepsItem(separator, items[1..], i - 1);
        assert items[1..][i - 1] == items[i];
        ContainsInContext(items[0] + separator, rest, "", items[i]);
        assert items[0] + separator + rest + "" == joined;
      }
    }
  }
}
