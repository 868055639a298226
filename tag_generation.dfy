/**
 * Tag generation: the tags of one labelled slot (positive tagging), the tags
 * of unlabelled text (negative tagging), and the prefix one token position of
 * a slot receives.
 */
module TagGeneration {
  import opened TagAlphabet

  /**
   * The tags of a slot of `slotSize` tokens. For `slotSize >= 1` there is one
   * tag per token; a slot of no tokens still yields the fixed tags the scheme
   * starts (and, for BILOU, ends) with.
   */
  function PositiveTagging(scheme: TaggingScheme, slotName: string, slotSize: nat): (tags: seq<string>)
    ensures slotSize >= 1 ==> |tags| == slotSize
    ensures slotSize == 0 ==> |tags| == match scheme case IO => 0 case BIO => 1 case BILOU => 2
  {
    match scheme
    case IO => seq(slotSize, _ => INSIDE_PREFIX + slotName)
    case BIO =>
      [BEGINNING_PREFIX + slotName]
      + seq(if slotSize >= 1 then slotSize - 1 else 0, _ => INSIDE_PREFIX + slotName)
    case BILOU =>
      if slotSize == 1 then [UNIT_PREFIX + slotName]
      else
        [BEGINNING_PREFIX + slotName]
        + seq(if slotSize >= 2 then slotSize - 2 else 0, _ => INSIDE_PREFIX + slotName)
        + [LAST_PREFIX + slotName]
  }

  /** The tags of `size` unlabelled tokens: all outside. */
  function NegativeTagging(size: nat): (tags: seq<string>)
    ensures |tags| == size
    ensures forall k :: 0 <= k < size ==> tags[k] == OUTSIDE
  {
    seq(size, _ => OUTSIDE)
  }

  /**
   * The prefix of token `index` in a slot whose token positions are `indexes`.
   * Under BIO and BILOU the first (and last) position is looked up, so the
   * list must not be empty.
   */
  function GetSchemePrefix(index: int, indexes: seq<int>, scheme: TaggingScheme): (prefix: string)
    requires scheme != IO ==> |indexes| >= 1
    ensures IsPrefix(prefix)
    ensures prefix == UNIT_PREFIX <==> scheme == BILOU && |indexes| == 1
    ensures prefix == BEGINNING_PREFIX <==>
              scheme != IO && index == indexes[0] && !(scheme == BILOU && |indexes| == 1)
    ensures prefix == LAST_PREFIX <==>
              scheme == BILOU && |indexes| >= 2 && index != indexes[0] && index == indexes[|indexes| - 1]
  {
    match scheme
    case IO => INSIDE_PREFIX
    case BIO => if index == indexes[0] then BEGINNING_PREFIX else INSIDE_PREFIX
    case BILOU =>
      if |indexes| == 1 then UNIT_PREFIX
      else if index == indexes[0] then BEGINNING_PREFIX
      else if index == indexes[|indexes| - 1] then LAST_PREFIX
      else INSIDE_PREFIX
  }

  /** The prefix the tag at position `k` of a slot of `size >= 1` tokens carries. */
  function PrefixAt(scheme: TaggingScheme, k: nat, size: nat): string
  {
    match scheme
    case IO => INSIDE_PREFIX
    case BIO => if k == 0 then BEGINNING_PREFIX else INSIDE_PREFIX
    case BILOU =>
      if size == 1 then UNIT_PREFIX
      else if k == 0 then BEGINNING_PREFIX
      else if k == size - 1 then LAST_PREFIX
      else INSIDE_PREFIX
  }

  /**
   * The shape of positive tagging, scheme by scheme: IO tags every token
   * inside; BIO begins and then stays inside; BILOU tags a single token as a
   * unit and otherwise begins, stays inside and ends on a last tag.
   */
  lemma PositiveTaggingShape(scheme: TaggingScheme, slotName: string, slotSize: nat)
    requires slotSize >= 1
    ensures var tags := PositiveTagging(scheme, slotName, slotSize);
      |tags| == slotSize &&
      forall k :: 0 <= k < slotSize ==> tags[k] == PrefixAt(scheme, k, slotSize) + slotName
  {
  }

  /**
   * Positive tagging of an empty slot does not yield an empty sequence under
   * BIO and BILOU, so the tag count only matches the token count for slots of
   * at least one token.
   */
  lemma PositiveTaggingOfEmptySlot(slotName: string)
    ensures PositiveTagging(IO, slotName, 0) == []
    ensures PositiveTagging(BIO, slotName, 0) == [BEGINNING_PREFIX + slotName]
    ensures PositiveTagging(BILOU, slotName, 0) == [BEGINNING_PREFIX + slotName, LAST_PREFIX + slotName]
  {
  }

  /**
   * Prefixing the slot name with the scheme prefix of each position of a
   * sorted, duplicate-free index list reproduces positive tagging of a slot of
   * that many tokens.
   */
  lemma {:induction false} SchemePrefixAgreesWithPositiveTagging(
    scheme: TaggingScheme, slotName: string, indexes: seq<int>)
    requires |indexes| >= 1
    requires forall j, k :: 0 <= j < k < |indexes| ==> indexes[j] < indexes[k]
    ensures seq(|indexes|, k requires 0 <= k < |indexes| => GetSchemePrefix(indexes[k], indexes, scheme) + slotName)
         == PositiveTagging(scheme, slotName, |indexes|)
  {
    var n := |indexes|;
    PositiveTaggingShape(scheme, slotName, n);
    forall k | 0 <= k < n
      ensures GetSchemePrefix(indexes[k], indexes, scheme) == PrefixAt(scheme, k, n)
    {
      assert k > 0 ==> indexes[0] < indexes[k];
      assert k < n - 1 ==> indexes[k] < indexes[n - 1];
    }
  }
}
