/** The two string operations the error classifier relies on: `in` and `lower()`. */
module Text {

  /** Python's `str.lower()` on one character, for the ASCII range. */
  function LowerChar(c: char): char
  {
    if 'A' <= c <= 'Z' then (c as int + 32) as char else c
  }

  function Lower(s: string): (r: string)
    ensures |r| == |s|
    ensures forall i :: 0 <= i < |s| ==> r[i] == LowerChar(s[i])
  {
    seq(|s|, i requires 0 <= i < |s| => LowerChar(s[i]))
  }

  /** `needle` occurs in `hay` starting at index `i`. */
  predicate OccursAt(hay: string, needle: string, i: int)
  {
    0 <= i <= |hay| - |needle| && hay[i..i + |needle|] == needle
  }

  /** Python's `needle in hay` for strings. */
  predicate Contains(hay: string, needle: string)
  {
    exists i | 0 <= i <= |hay| - |needle| :: OccursAt(hay, needle, i)
  }

  /** Lowering both sides keeps an occurrence. */
  lemma ContainsLower(hay: string, needle: string)
    requires Contains(hay, needle)
    ensures Contains(Lower(hay), Lower(needle))
  {
    var i :| 0 <= i <= |hay| - |needle| && OccursAt(hay, needle, i);
    var lh, ln := Lower(hay), Lower(needle);
    forall k | 0 <= k < |needle|
      ensures lh[i..i + |needle|][k] == ln[k]
    {
      assert hay[i..i + |needle|][k] == hay[i + k];
    }
    assert lh[i..i + |needle|] == ln;
    assert OccursAt(lh, ln, i);
  }

  /** An occurrence of any case variant of `needle` is found once both sides are lowered. */
  lemma ContainsCaseVariant(hay: string, variant: string, needle: string)
    requires Lower(variant) == Lower(needle)
    requires Contains(hay, variant)
    ensures Contains(Lower(hay), Lower(needle))
  {
    ContainsLower(hay, variant);
  }
}
