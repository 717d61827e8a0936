/** Lower-casing and substring search on strings. */
module Text {

  predicate IsUpperChar(c: char) {
    'A' <= c <= 'Z'
  }

  /** ASCII lower-casing of one character; every other character is left alone. */
  function LowerChar(c: char): (r: char)
    ensures !IsUpperChar(r)
    ensures !IsUpperChar(c) ==> r == c
    ensures IsUpperChar(c) ==> r as int == c as int + 32
  {
    if IsUpperChar(c) then (c as int + 32) as char else c
  }

  /** `str.lower()`, restricted to ASCII letters. */
  function Lower(s: string): (r: string)
    ensures |r| == |s|
    ensures forall i :: 0 <= i < |s| ==> r[i] == LowerChar(s[i])
  {
    if s == [] then [] else [LowerChar(s[0])] + Lower(s[1..])
  }

  /** No character of `s` is an upper-case letter. */
  predicate IsLower(s: string) {
    forall i :: 0 <= i < |s| ==> !IsUpperChar(s[i])
  }

  /** Lower-casing leaves no upper-case letter. */
  lemma LowerIsLower(s: string)
    ensures IsLower(Lower(s))
  {
  }

  /** Lower-casing leaves an already lower-case string unchanged. */
  lemma LowerOfLower(s: string)
    requires IsLower(s)
    ensures Lower(s) == s
  {
  }

  /** Lower-casing twice is lower-casing once. */
  lemma LowerIdempotent(s: string)
    ensures Lower(Lower(s)) == Lower(s)
  {
  }

  /** `pattern` occurs somewhere in `text` as a contiguous run of characters. */
  predicate Contains(text: string, pattern: string)
    decreases |text|
  {
    pattern <= text || (|text| > 0 && Contains(text[1..], pattern))
  }

  /** `pattern` occurs in `text` starting at offset `i`. */
  predicate OccursAt(text: string, pattern: string, i: int) {
    0 <= i <= |text| - |pattern| && text[i..i + |pattern|] == pattern
  }

  /** `Contains` agrees with the definition by an explicit offset. */
  lemma {:induction false} ContainsAtOffset(text: string, pattern: string)
    ensures Contains(text, pattern) <==> exists i :: OccursAt(text, pattern, i)
    decreases |text|
  {
    if pattern <= text {
      assert OccursAt(text, pattern, 0);
    } else if |text| == 0 {
    } else {
      ContainsAtOffset(text[1..], pattern);
      if Contains(text[1..], pattern) {
        var i :| OccursAt(text[1..], pattern, i);
        assert text[i + 1..i + 1 + |pattern|] == text[1..][i..i + |pattern|];
        assert OccursAt(text, pattern, i + 1);
      } else {
        forall i ensures !OccursAt(text, pattern, i) {
          if 0 < i <= |text| - |pattern| {
            assert text[i..i + |pattern|] == text[1..][i - 1..i - 1 + |pattern|];
            assert !OccursAt(text[1..], pattern, i - 1);
          }
        }
      }
    }
  }

  /** The case-insensitive substring test: both sides are lower-cased first. */
  predicate ContainsIgnoreCase(text: string, pattern: string) {
    Contains(Lower(text), Lower(pattern))
  }
}
