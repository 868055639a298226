/**
 * Slot extraction: the per-scheme boundary predicates and the left-to-right
 * scan that turns a tag sequence back into slots.
 */
module SlotExtraction {
  import opened TagAlphabet

  /** IO: a slot starts at a non-outside tag that opens the sequence or follows an outside tag. */
  function StartOfIOSlot(tags: seq<string>, i: nat): (b: bool)
    requires i < |tags|
    ensures b <==> tags[i] != OUTSIDE && (i == 0 || tags[i - 1] == OUTSIDE)
  {
    if i == 0 then tags[i] != OUTSIDE
    else if tags[i] == OUTSIDE then false
    else tags[i - 1] == OUTSIDE
  }

  /** IO: a slot ends at a non-outside tag that closes the sequence or precedes an outside tag. */
  function EndOfIOSlot(tags: seq<string>, i: nat): (b: bool)
    requires i < |tags|
    ensures b <==> tags[i] != OUTSIDE && (i + 1 == |tags| || tags[i + 1] == OUTSIDE)
  {
    if i + 1 == |tags| then tags[i] != OUTSIDE
    else if tags[i] == OUTSIDE then false
    else tags[i + 1] == OUTSIDE
  }

  /**
   * BIO: a slot starts at a non-outside tag that opens the sequence, carries the
   * beginning prefix, or follows an outside tag.
   */
  function StartOfBIOSlot(tags: seq<string>, i: nat): (b: bool)
    requires i < |tags|
    ensures b <==> tags[i] != OUTSIDE &&
                   (i == 0 || StartsWith(tags[i], BEGINNING_PREFIX) || tags[i - 1] == OUTSIDE)
  {
    if i == 0 then tags[i] != OUTSIDE
    else if tags[i] == OUTSIDE then false
    else if StartsWith(tags[i], BEGINNING_PREFIX) then true
    else if tags[i - 1] != OUTSIDE then false
    else true
  }

  /** BIO: a slot ends at a non-outside tag unless the next tag carries the inside prefix. */
  function EndOfBIOSlot(tags: seq<string>, i: nat): (b: bool)
    requires i < |tags|
    ensures b <==> tags[i] != OUTSIDE &&
                   (i + 1 == |tags| || !StartsWith(tags[i + 1], INSIDE_PREFIX))
  {
    if i + 1 == |tags| then tags[i] != OUTSIDE
    else if tags[i] == OUTSIDE then false
    else if StartsWith(tags[i + 1], INSIDE_PREFIX) then false
    else true
  }

  /**
   * BILOU: a slot starts at a non-outside tag that opens the sequence, carries
   * the beginning or unit prefix, or follows a unit, last or outside tag.
   */
  function StartOfBILOUSlot(tags: seq<string>, i: nat): (b: bool)
    requires i < |tags|
    ensures b <==> tags[i] != OUTSIDE &&
                   (i == 0 ||
                    StartsWith(tags[i], BEGINNING_PREFIX) || StartsWith(tags[i], UNIT_PREFIX) ||
                    StartsWith(tags[i - 1], UNIT_PREFIX) || StartsWith(tags[i - 1], LAST_PREFIX) ||
                    tags[i - 1] == OUTSIDE)
  {
    if i == 0 then tags[i] != OUTSIDE
    else if tags[i] == OUTSIDE then false
    else if StartsWith(tags[i], BEGINNING_PREFIX) then true
    else if StartsWith(tags[i], UNIT_PREFIX) then true
    else if StartsWith(tags[i - 1], UNIT_PREFIX) then true
    else if StartsWith(tags[i - 1], LAST_PREFIX) then true
    else if tags[i - 1] != OUTSIDE then false
    else true
  }

  /**
   * BILOU: a slot ends at a non-outside tag that closes the sequence, carries
   * the last or unit prefix, or precedes an outside, beginning or unit tag.
   */
  function EndOfBILOUSlot(tags: seq<string>, i: nat): (b: bool)
    requires i < |tags|
    ensures b <==> tags[i] != OUTSIDE &&
                   (i + 1 == |tags| || tags[i + 1] == OUTSIDE ||
                    StartsWith(tags[i], LAST_PREFIX) || StartsWith(tags[i], UNIT_PREFIX) ||
                    StartsWith(tags[i + 1], BEGINNING_PREFIX) || StartsWith(tags[i + 1], UNIT_PREFIX))
  {
    if i + 1 == |tags| then tags[i] != OUTSIDE
    else if tags[i] == OUTSIDE then false
    else if tags[i + 1] == OUTSIDE then true
    else if StartsWith(tags[i], LAST_PREFIX) then true
    else if StartsWith(tags[i], UNIT_PREFIX) then true
    else if StartsWith(tags[i + 1], BEGINNING_PREFIX) then true
    else if StartsWith(tags[i + 1], UNIT_PREFIX) then true
    else false
  }

  /** The start predicate the scheme selects. */
  function IsSlotStart(scheme: TaggingScheme, tags: seq<string>, i: nat): bool
    requires i < |tags|
  {
    match scheme
    case IO => StartOfIOSlot(tags, i)
    case BIO => StartOfBIOSlot(tags, i)
    case BILOU => StartOfBILOUSlot(tags, i)
  }

  /** The end predicate the scheme selects. */
  function IsSlotEnd(scheme: TaggingScheme, tags: seq<string>, i: nat): bool
    requires i < |tags|
  {
    match scheme
    case IO => EndOfIOSlot(tags, i)
    case BIO => EndOfBIOSlot(tags, i)
    case BILOU => EndOfBILOUSlot(tags, i)
  }

  /** A slot as token positions: its first and last token and its name. */
  datatype Span = Span(first: nat, last: nat, name: string)

  /**
   * The scan from position `i` on, with `cur` as the current slot start and
   * `emitted` the spans emitted before `i`: where a slot starts the current
   * start moves to `i`; where one ends a span from the current start to `i`
   * is emitted and the current start moves to `i`.
   */
  function Scan(scheme: TaggingScheme, tags: seq<string>, i: nat, cur: nat, emitted: seq<Span>): seq<Span>
    requires cur <= i <= |tags|
    decreases |tags| - i
  {
    if i == |tags| then emitted
    else
      var start := if IsSlotStart(scheme, tags, i) then i else cur;
      if IsSlotEnd(scheme, tags, i) then
        Scan(scheme, tags, i + 1, i, emitted + [Span(start, i, TagNameToSlotName(tags[i]))])
      else
        Scan(scheme, tags, i + 1, start, emitted)
  }

  /** The spans of a whole tag sequence. */
  function Spans(scheme: TaggingScheme, tags: seq<string>): seq<Span>
  {
    Scan(scheme, tags, 0, 0, [])
  }

  /** The scan only ever appends to what was emitted before. */
  lemma {:induction false} ScanKeepsEmitted(
    scheme: TaggingScheme, tags: seq<string>, i: nat, cur: nat, emitted: seq<Span>)
    requires cur <= i <= |tags|
    ensures Scan(scheme, tags, i, cur, emitted) == emitted + Scan(scheme, tags, i, cur, [])
    decreases |tags| - i
  {
    if i < |tags| {
      var start := if IsSlotStart(scheme, tags, i) then i else cur;
      if IsSlotEnd(scheme, tags, i) {
        var span := Span(start, i, TagNameToSlotName(tags[i]));
        ScanKeepsEmitted(scheme, tags, i + 1, i, emitted + [span]);
        ScanKeepsEmitted(scheme, tags, i + 1, i, [span]);
        assert [] + [span] == [span];
      } else {
        ScanKeepsEmitted(scheme, tags, i + 1, start, emitted);
      }
    }
  }

  /** One step of the scan, with the spans still to come listed after the one emitted at `i`. */
  lemma ScanStep(scheme: TaggingScheme, tags: seq<string>, i: nat, cur: nat)
    requires cur <= i < |tags|
    ensures var start := if IsSlotStart(scheme, tags, i) then i else cur;
      Scan(scheme, tags, i, cur, []) ==
        if IsSlotEnd(scheme, tags, i) then
          [Span(start, i, TagNameToSlotName(tags[i]))] + Scan(scheme, tags, i + 1, i, [])
        else Scan(scheme, tags, i + 1, start, [])
  {
    var start := if IsSlotStart(scheme, tags, i) then i else cur;
    if IsSlotEnd(scheme, tags, i) {
      var span := Span(start, i, TagNameToSlotName(tags[i]));
      assert [] + [span] == [span];
      ScanKeepsEmitted(scheme, tags, i + 1, i, [span]);
    }
  }

  /**
   * What the scan emits from position `i` on, with `cur` as the current slot
   * start: each span starts no earlier than `cur`, is non-empty and ends at a
   * position at or after `i`; their last positions strictly increase, so
   * there are at most as many spans as positions left.
   */
  predicate ScannedFrom(tags: seq<string>, i: nat, cur: nat, spans: seq<Span>)
    requires i <= |tags|
  {
    |spans| <= |tags| - i &&
    (forall k :: 0 <= k < |spans| ==>
       cur <= spans[k].first <= spans[k].last < |tags| && i <= spans[k].last) &&
    (forall k, l :: 0 <= k < l < |spans| ==> spans[k].last < spans[l].last)
  }

  /** A span ending at `i`, put before what the scan emits after `i`. */
  lemma EmitKeepsScanned(tags: seq<string>, i: nat, start: nat, span: Span, rest: seq<Span>)
    requires start <= i < |tags| && span.first == start && span.last == i
    requires ScannedFrom(tags, i + 1, i, rest)
    ensures ScannedFrom(tags, i, start, [span] + rest)
  {
    var spans := [span] + rest;
    assert forall k :: 1 <= k < |spans| ==> spans[k] == rest[k - 1];
  }

  /** The scan emits well-formed spans, as `ScannedFrom` says. */
  lemma {:induction false} ScanWellFormed(scheme: TaggingScheme, tags: seq<string>, i: nat, cur: nat)
    requires cur <= i <= |tags|
    ensures ScannedFrom(tags, i, cur, Scan(scheme, tags, i, cur, []))
    decreases |tags| - i
  {
    if i < |tags| {
      ScanStep(scheme, tags, i, cur);
      var start := if IsSlotStart(scheme, tags, i) then i else cur;
      if IsSlotEnd(scheme, tags, i) {
        ScanWellFormed(scheme, tags, i + 1, i);
        EmitKeepsScanned(tags, i, start, Span(start, i, TagNameToSlotName(tags[i])), Scan(scheme, tags, i + 1, i, []));
      } else {
        ScanWellFormed(scheme, tags, i + 1, start);
      }
    }
  }

  /**
   * Every span ends at a position where the scheme's end predicate holds, and
   * is named after the tag at that position.
   */
  predicate EndAtSlotEnds(scheme: TaggingScheme, tags: seq<string>, spans: seq<Span>) {
    forall k :: 0 <= k < |spans| ==>
      spans[k].last < |tags| && IsSlotEnd(scheme, tags, spans[k].last) &&
      spans[k].name == TagNameToSlotName(tags[spans[k].last])
  }

  /** A span closed at an end position, put before spans that end at end positions. */
  lemma EmitKeepsEnds(scheme: TaggingScheme, tags: seq<string>, span: Span, rest: seq<Span>)
    requires span.last < |tags| && IsSlotEnd(scheme, tags, span.last)
    requires span.name == TagNameToSlotName(tags[span.last])
    requires EndAtSlotEnds(scheme, tags, rest)
    ensures EndAtSlotEnds(scheme, tags, [span] + rest)
  {
    var spans := [span] + rest;
    assert forall k :: 1 <= k < |spans| ==> spans[k] == rest[k - 1];
  }

  /** The scan emits spans only at end positions, named after the tag there. */
  lemma {:induction false} ScanEndsAtSlotEnds(scheme: TaggingScheme, tags: seq<string>, i: nat, cur: nat)
    requires cur <= i <= |tags|
    ensures EndAtSlotEnds(scheme, tags, Scan(scheme, tags, i, cur, []))
    decreases |tags| - i
  {
    if i < |tags| {
      ScanStep(scheme, tags, i, cur);
      var start := if IsSlotStart(scheme, tags, i) then i else cur;
      if IsSlotEnd(scheme, tags, i) {
        ScanEndsAtSlotEnds(scheme, tags, i + 1, i);
        EmitKeepsEnds(scheme, tags, Span(start, i, TagNameToSlotName(tags[i])), Scan(scheme, tags, i + 1, i, []));
      } else {
        ScanEndsAtSlotEnds(scheme, tags, i + 1, start);
      }
    }
  }

  /** Outside tags neither start nor end a slot, so the scan passes over them unchanged. */
  lemma {:induction false} ScanSkipsOutside(scheme: TaggingScheme, tags: seq<string>, i: nat, j: nat, cur: nat)
    requires cur <= i <= j <= |tags|
    requires forall p :: i <= p < j ==> tags[p] == OUTSIDE
    ensures Scan(scheme, tags, i, cur, []) == Scan(scheme, tags, j, cur, [])
    decreases j - i
  {
    if i < j {
      ScanSkipsOutside(scheme, tags, i + 1, j, cur);
    }
  }

  /** A tag sequence of outside tags only has no slots, under every scheme. */
  lemma OutsideOnlyHasNoSlots(scheme: TaggingScheme, tags: seq<string>)
    requires forall p :: 0 <= p < |tags| ==> tags[p] == OUTSIDE
    ensures Spans(scheme, tags) == []
  {
    ScanSkipsOutside(scheme, tags, 0, |tags|, 0);
  }

  /**
   * The tags the scheme itself produces. IO and BILOU need no restriction;
   * under BIO every non-outside tag carries the beginning or inside prefix.
   */
  predicate SchemeTags(scheme: TaggingScheme, tags: seq<string>) {
    scheme == BIO ==>
      forall p :: 0 <= p < |tags| && tags[p] != OUTSIDE ==>
        StartsWith(tags[p], BEGINNING_PREFIX) || StartsWith(tags[p], INSIDE_PREFIX)
  }

  /**
   * Right after a slot ends, a non-outside tag starts a new slot. This is what
   * makes resetting the current start to the end position harmless.
   */
  lemma StartAfterEnd(scheme: TaggingScheme, tags: seq<string>, i: nat)
    requires SchemeTags(scheme, tags)
    requires i + 1 < |tags| && IsSlotEnd(scheme, tags, i) && tags[i + 1] != OUTSIDE
    ensures IsSlotStart(scheme, tags, i + 1)
  {
  }

  /**
   * After a slot ends at `e` and only outside tags follow up to `i`, the next
   * span the scan emits starts after `e`.
   */
  lemma {:induction false} NextSpanStartsAfter(scheme: TaggingScheme, tags: seq<string>, e: nat, i: nat)
    requires SchemeTags(scheme, tags)
    requires e < i <= |tags| && IsSlotEnd(scheme, tags, e)
    requires forall p :: e < p < i ==> tags[p] == OUTSIDE
    ensures var spans := Scan(scheme, tags, i, e, []);
      spans != [] ==> e < spans[0].first
    decreases |tags| - i
  {
    if i < |tags| {
      ScanStep(scheme, tags, i, e);
      if tags[i] == OUTSIDE {
        NextSpanStartsAfter(scheme, tags, e, i + 1);
      } else {
        if i == e + 1 {
          StartAfterEnd(scheme, tags, e);
        }
        assert IsSlotStart(scheme, tags, i);
        ScanWellFormed(scheme, tags, i + 1, i);
      }
    }
  }

  /** From position `i` on, each span the scan emits ends before the next one starts. */
  lemma {:induction false} ScanDisjoint(scheme: TaggingScheme, tags: seq<string>, i: nat, cur: nat)
    requires SchemeTags(scheme, tags)
    requires cur <= i <= |tags|
    ensures var spans := Scan(scheme, tags, i, cur, []);
      forall k :: 0 <= k < |spans| - 1 ==> spans[k].last < spans[k + 1].first
    decreases |tags| - i
  {
    if i < |tags| {
      ScanStep(scheme, tags, i, cur);
      var start := if IsSlotStart(scheme, tags, i) then i else cur;
      if IsSlotEnd(scheme, tags, i) {
        ScanDisjoint(scheme, tags, i + 1, i);
        NextSpanStartsAfter(scheme, tags, i, i + 1);
        var rest := Scan(scheme, tags, i + 1, i, []);
        var spans := [Span(start, i, TagNameToSlotName(tags[i]))] + rest;
        forall k | 0 <= k < |spans| - 1
          ensures spans[k].last < spans[k + 1].first
        {
          if k > 0 {
            assert spans[k] == rest[k - 1] && spans[k + 1] == rest[k];
          }
        }
      } else {
        ScanDisjoint(scheme, tags, i + 1, start);
      }
    }
  }

  /**
   * The spans of tags the scheme produces are ordered and do not overlap:
   * each span ends before the next one starts.
   */
  lemma SpansDisjoint(scheme: TaggingScheme, tags: seq<string>)
    requires SchemeTags(scheme, tags)
    ensures var spans := Spans(scheme, tags);
      forall k :: 0 <= k < |spans| - 1 ==> spans[k].last < spans[k + 1].first
  {
    ScanDisjoint(scheme, tags, 0, 0);
    assert Spans(scheme, tags) == Scan(scheme, tags, 0, 0, []);
  }

  /**
   * Under BIO a stray unit tag after a slot neither starts a slot nor is
   * rejected: the current start stays on the previous slot's end, and the two
   * spans share token 0.
   */
  lemma StrayTagUnderBIOOverlaps()
    ensures Spans(BIO, ["B-a", "U-b"]) == [Span(0, 0, "a"), Span(0, 1, "b")]
  {
    var tags := ["B-a", "U-b"];
    assert tags[1][..2] == "U-";
    assert !StartsWith(tags[1], INSIDE_PREFIX) && !StartsWith(tags[1], BEGINNING_PREFIX);
    assert TagNameToSlotName(tags[0]) == "a" && TagNameToSlotName(tags[1]) == "b";
    assert Scan(BIO, tags, 0, 0, []) == Scan(BIO, tags, 1, 0, [Span(0, 0, "a")]);
    assert Scan(BIO, tags, 1, 0, [Span(0, 0, "a")]) == Scan(BIO, tags, 2, 1, [Span(0, 0, "a"), Span(0, 1, "b")]);
  }

  /**
   * Under IO two slots that touch are read back as one: the inside tags of
   * both run together, and the merged span takes the second slot's name.
   */
  lemma AdjacentSlotsMergeUnderIO()
    ensures Spans(IO, ["I-a", "I-b"]) == [Span(0, 1, "b")]
  {
    var tags := ["I-a", "I-b"];
    assert TagNameToSlotName(tags[1]) == "b";
    assert Scan(IO, tags, 0, 0, []) == Scan(IO, tags, 1, 0, []);
    assert Scan(IO, tags, 1, 0, []) == Scan(IO, tags, 2, 1, [Span(0, 1, "b")]);
  }

  /** The slot of a span: from its first token's start to its last token's end. */
  function SlotOf(tokens: seq<Token>, span: Span): Slot
    requires span.first < |tokens| && span.last < |tokens|
  {
    Slot(tokens[span.first].start, tokens[span.last].end, span.name)
  }

  /** Every span lies within the first `n` tokens. */
  predicate SpansWithin(spans: seq<Span>, n: nat) {
    forall k :: 0 <= k < |spans| ==> spans[k].first < n && spans[k].last < n
  }

  /** The slots of spans over tokens, one per span, in order. */
  function SlotsOf(tokens: seq<Token>, spans: seq<Span>): seq<Slot>
    requires SpansWithin(spans, |tokens|)
  {
    seq(|spans|, k requires 0 <= k < |spans| => SlotOf(tokens, spans[k]))
  }

  /** A span put after spans puts its slot after their slots. */
  lemma SlotsOfAppend(tokens: seq<Token>, spans: seq<Span>, span: Span)
    requires SpansWithin(spans, |tokens|) && span.first < |tokens| && span.last < |tokens|
    ensures SpansWithin(spans + [span], |tokens|)
    ensures SlotsOf(tokens, spans + [span]) == SlotsOf(tokens, spans) + [SlotOf(tokens, span)]
  {
  }

  /**
   * The slots of a tag sequence over its tokens, scanning left to right. Only
   * the tokens a slot reaches are looked up, so the tokens must cover every
   * span; there is no length check beyond that.
   */
  method TagsToSlots(tokens: seq<Token>, tags: seq<string>, scheme: TaggingScheme) returns (slots: seq<Slot>)
    requires SpansWithin(Spans(scheme, tags), |tokens|)
    ensures slots == SlotsOf(tokens, Spans(scheme, tags))
    ensures |slots| <= |tags|
  {
    slots := [];
    var currentSlotStart: nat := 0;
    ghost var emitted: seq<Span> := [];
    for i := 0 to |tags|
      invariant currentSlotStart <= i
      invariant Scan(scheme, tags, i, currentSlotStart, emitted) == Spans(scheme, tags)
      invariant SpansWithin(emitted, |tokens|)
      invariant slots == SlotsOf(tokens, emitted)
    {
      if IsSlotStart(scheme, tags, i) {
        currentSlotStart := i;
      }
      if IsSlotEnd(scheme, tags, i) {
        ghost var span := Span(currentSlotStart, i, TagNameToSlotName(tags[i]));
        NextSpanWithin(scheme, tags, i, emitted, span, |tokens|);
        var slot := Slot(tokens[currentSlotStart].start, tokens[i].end, TagNameToSlotName(tags[i]));
        SlotsOfAppend(tokens, emitted, span);
        slots := slots + [slot];
        emitted := emitted + [span];
        currentSlotStart := i;
      }
    }
    ScanWellFormed(scheme, tags, 0, 0);
  }

  /** Every span lies within the tags, so one token per tag is always enough. */
  lemma SpansWithinTags(scheme: TaggingScheme, tags: seq<string>)
    ensures SpansWithin(Spans(scheme, tags), |tags|)
  {
    ScanWellFormed(scheme, tags, 0, 0);
  }

  /** A span the scan is about to emit is one of the spans of the whole sequence. */
  lemma NextSpanWithin(scheme: TaggingScheme, tags: seq<string>, i: nat, emitted: seq<Span>, span: Span, n: nat)
    requires span.first <= i < |tags| && span.last == i
    requires Scan(scheme, tags, i + 1, i, emitted + [span]) == Spans(scheme, tags)
    requires SpansWithin(Spans(scheme, tags), n)
    ensures span.first < n && span.last < n
  {
    ScanKeepsEmitted(scheme, tags, i + 1, i, emitted + [span]);
    assert Spans(scheme, tags)[|emitted|] == span;
  }
}
