/** The parts of Go's `strings` package that the bot relies on, over `seq<char>`. */
module Strings {

  /** `sub` occurs in `s` starting at index `i`. */
  predicate OccursAt(s: string, sub: string, i: int)
  {
    0 <= i && i + |sub| <= |s| && s[i..i + |sub|] == sub
  }

  /** `strings.Contains(s, sub)`: some occurrence of `sub` in `s` (the empty string occurs everywhere). */
  function Contains(s: string, sub: string): (r: bool)
    ensures r <==> exists i :: OccursAt(s, sub, i)
    decreases |s|
  {
    if |sub| > |s| then
      assert forall i :: !OccursAt(s, sub, i);
      false
    else if s[..|sub|] == sub then
      assert OccursAt(s, sub, 0);
      true
    else
      ShiftOccurrence(s, sub);
      Contains(s[1..], sub)
  }

  /** An occurrence in `s` that is not at index 0 is an occurrence in `s[1..]`, one place earlier. */
  lemma ShiftOccurrence(s: string, sub: string)
    requires |sub| <= |s| && s[..|sub|] != sub
    ensures (exists i :: OccursAt(s, sub, i)) <==> (exists i :: OccursAt(s[1..], sub, i))
  {
    forall i | OccursAt(s, sub, i)
      ensures OccursAt(s[1..], sub, i - 1)
    {
      assert i != 0;
      assert s[1..][i - 1..i - 1 + |sub|] == s[i..i + |sub|];
    }
    forall i | OccursAt(s[1..], sub, i)
      ensures OccursAt(s, sub, i + 1)
    {
      assert s[1..][i..i + |sub|] == s[i + 1..i + 1 + |sub|];
    }
  }

  /** `strings.Split(s, string(c))[0]`: the part of `s` before the first `c`, or all of `s` when it has none. */
  function BeforeFirst(s: string, c: char): (r: string)
    ensures c !in r
    ensures r <= s
    ensures |r| < |s| ==> s[|r|] == c
  {
    if s == [] || s[0] == c then []
    else [s[0]] + BeforeFirst(s[1..], c)
  }

  /** `strings.ReplaceAll(s, " ", "%20")`: every space becomes `%20`. */
  function EscapeSpaces(s: string): (r: string)
    ensures ' ' !in r
  {
    if s == [] then []
    else (if s[0] == ' ' then "%20" else [s[0]]) + EscapeSpaces(s[1..])
  }

  /** The inverse reading of `EscapeSpaces`: every `%20` becomes a space again. */
  function UnescapeSpaces(s: string): string
  {
    if s == [] then []
    else if |s| >= 3 && s[..3] == "%20" then " " + UnescapeSpaces(s[3..])
    else [s[0]] + UnescapeSpaces(s[1..])
  }

  /** Escaping is undone by unescaping whenever the keywords hold no `%` of their own. */
  lemma {:induction false} EscapeRoundTrip(s: string)
    requires '%' !in s
    ensures UnescapeSpaces(EscapeSpaces(s)) == s
  {
    if s != [] {
      EscapeRoundTrip(s[1..]);
      var rest := EscapeSpaces(s[1..]);
      if s[0] == ' ' {
        assert EscapeSpaces(s) == "%20" + rest;
        assert ("%20" + rest)[..3] == "%20";
        assert ("%20" + rest)[3..] == rest;
      } else {
        assert EscapeSpaces(s) == [s[0]] + rest;
        assert ([s[0]] + rest)[1..] == rest;
      }
    }
  }

  /** Escaping works character by character, so it keeps the order of the text. */
  lemma {:induction false} EscapeConcat(a: string, b: string)
    ensures EscapeSpaces(a + b) == EscapeSpaces(a) + EscapeSpaces(b)
  {
    if a != [] {
      assert (a + b)[1..] == a[1..] + b;
      EscapeConcat(a[1..], b);
    } else {
      assert a + b == b;
    }
  }

  /** Text without spaces passes through unchanged. */
  lemma {:induction false} EscapeKeepsOtherCharacters(s: string)
    requires ' ' !in s
    ensures EscapeSpaces(s) == s
  {
    if s != [] {
      assert ' ' !in s[1..];
      EscapeKeepsOtherCharacters(s[1..]);
    }
  }
}
