/**
 * The tag alphabet shared by the three chunk encodings of the CRF slot filler:
 * the schemes themselves, the two-character prefixes, the outside marker, and
 * the token and slot records that tags are aligned with.
 */
module TagAlphabet {

  /** Inside/outside, begin/inside/outside and begin/inside/last/outside/unit. */
  datatype TaggingScheme = IO | BIO | BILOU

  const BEGINNING_PREFIX: string := "B-"
  const INSIDE_PREFIX: string := "I-"
  const LAST_PREFIX: string := "L-"
  const UNIT_PREFIX: string := "U-"
  const OUTSIDE: string := "O"

  /** A token: its text and its half-open character range [start, end). */
  datatype Token = Token(value: string, start: int, end: int)

  /** A slot recovered from a tag sequence: a character range and a slot name. */
  datatype Slot = Slot(start: int, end: int, name: string)

  /** The four prefixes a non-outside tag can carry. */
  predicate IsPrefix(p: string) {
    p == BEGINNING_PREFIX || p == INSIDE_PREFIX || p == LAST_PREFIX || p == UNIT_PREFIX
  }

  /** Python's `str.startswith`. */
  predicate StartsWith(s: string, prefix: string) {
    |prefix| <= |s| && s[..|prefix|] == prefix
  }

  /**
   * The slot name a tag carries: what follows its two-character prefix.
   * A tag shorter than two characters (the outside marker) gives the empty
   * name, as slicing past the end does.
   */
  function TagNameToSlotName(tag: string): (name: string)
    ensures |tag| >= 2 ==> tag == tag[..2] + name
    ensures |tag| <= 2 ==> name == []
  {
    if |tag| < 2 then [] else tag[2..]
  }

  /**
   * A tag built from a prefix and a slot name gives the name back, is never
   * the outside marker, and starts with exactly one of the four prefixes.
   */
  lemma PrefixedTag(p: string, name: string)
    requires IsPrefix(p)
    ensures TagNameToSlotName(p + name) == name
    ensures p + name != OUTSIDE
    ensures StartsWith(p + name, BEGINNING_PREFIX) <==> p == BEGINNING_PREFIX
    ensures StartsWith(p + name, INSIDE_PREFIX) <==> p == INSIDE_PREFIX
    ensures StartsWith(p + name, LAST_PREFIX) <==> p == LAST_PREFIX
    ensures StartsWith(p + name, UNIT_PREFIX) <==> p == UNIT_PREFIX
  {
    assert (p + name)[..2] == p;
    assert (p + name)[2..] == name;
    assert |p + name| != |OUTSIDE|;
  }
}
