/** The string operations the transaction list relies on: `toLowerCase`,
    `toUpperCase` (ASCII letters only), `includes`, and capitalising the first
    character. */
module Text {

  function LowerChar(c: char): (d: char)
    ensures 'A' <= c <= 'Z' ==> d as int == c as int + 32
    ensures !('A' <= c <= 'Z') ==> d == c
  {
    if 'A' <= c <= 'Z' then (c as int + 32) as char else c
  }

  function UpperChar(c: char): (d: char)
    ensures 'a' <= c <= 'z' ==> d as int == c as int - 32
    ensures !('a' <= c <= 'z') ==> d == c
  {
    if 'a' <= c <= 'z' then (c as int - 32) as char else c
  }

  /** `s.toLowerCase()`. */
  function ToLower(s: string): (r: string)
    ensures |r| == |s|
    ensures forall i :: 0 <= i < |s| ==> r[i] == LowerChar(s[i])
  {
    if s == [] then [] else [LowerChar(s[0])] + ToLower(s[1..])
  }

  /** Lower-casing twice is lower-casing once. */
  lemma ToLowerIdempotent(s: string)
    ensures ToLower(ToLower(s)) == ToLower(s)
  {
  }

  /** `pattern` occurs in `text` starting at index `i`. */
  predicate OccursAt(text: string, pattern: string, i: int)
  {
    0 <= i && i + |pattern| <= |text| && text[i..i + |pattern|] == pattern
  }

  /** `pattern` occurs somewhere in `text`: the meaning of `includes`. */
  ghost predicate Occurs(text: string, pattern: string)
  {
    exists i :: OccursAt(text, pattern, i)
  }

  /** `text.includes(pattern)`, searched from the front. */
  function Includes(text: string, pattern: string): (b: bool)
    ensures pattern == [] ==> b
    ensures b ==> |pattern| <= |text|
    decreases |text|
  {
    pattern <= text || (text != [] && Includes(text[1..], pattern))
  }

  /** `Includes` finds exactly the patterns that occur somewhere in the text. */
  lemma {:induction false} IncludesIff(text: string, pattern: string)
    ensures Includes(text, pattern) <==> Occurs(text, pattern)
    decreases |text|
  {
    if pattern <= text {
      assert OccursAt(text, pattern, 0);
    } else if text != [] {
      IncludesIff(text[1..], pattern);
      if exists i :: OccursAt(text[1..], pattern, i) {
        var i :| OccursAt(text[1..], pattern, i);
        TailSlice(text, i + 1, |pattern|);
        assert OccursAt(text, pattern, i + 1);
      }
      if exists i :: OccursAt(text, pattern, i) {
        var i :| OccursAt(text, pattern, i);
        if i != 0 {
          TailSlice(text, i, |pattern|);
          assert OccursAt(text[1..], pattern, i - 1);
        }
      }
    }
  }

  /** A slice of the tail is the slice of the text one position on. */
  lemma TailSlice(text: string, j: int, n: nat)
    requires 1 <= j && j + n <= |text|
    ensures text[1..][j - 1..j - 1 + n] == text[j..j + n]
  {
    var a, b := text[1..][j - 1..j - 1 + n], text[j..j + n];
    assert |a| == |b|;
    assert forall m :: 0 <= m < n ==> a[m] == b[m];
  }

  /** `s.charAt(0).toUpperCase() + s.slice(1)`: the first character
      upper-cased, the rest unchanged; the empty string stays empty. */
  function Capitalize(s: string): (r: string)
    ensures |r| == |s|
    ensures |s| > 0 ==> r[0] == UpperChar(s[0]) && r[1..] == s[1..]
  {
    if s == [] then "" else [UpperChar(s[0])] + s[1..]
  }
}
