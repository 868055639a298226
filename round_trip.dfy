/**
 * Round trips between tag generation and slot extraction: the tags generated
 * for a slot are extracted back as that slot, alone or inside a training
 * sample.
 */
module RoundTrip {
  import opened Wrappers
  import opened TagAlphabet
  import opened TagGeneration
  import opened SlotExtraction
  import opened SampleBuilding

  /** The tags at `a .. a + n` are those of one slot of `n` tokens, tag by tag. */
  predicate RunAt(scheme: TaggingScheme, tags: seq<string>, name: string, a: nat, n: nat)
    requires a + n <= |tags|
  {
    forall k :: 0 <= k < n ==> tags[a + k] == PrefixAt(scheme, k, n) + name
  }

  /**
   * What follows a run lets its last tag end the slot: under IO an outside
   * tag, under BIO anything but an inside tag, under BILOU anything.
   */
  predicate RunClosed(scheme: TaggingScheme, tags: seq<string>, e: nat)
    requires e <= |tags|
  {
    e < |tags| ==>
      (scheme == IO ==> tags[e] == OUTSIDE) &&
      (scheme == BIO ==> !StartsWith(tags[e], INSIDE_PREFIX))
  }

  /** Inside a run of two or more tags the scan neither starts nor ends a slot before the last tag. */
  lemma {:induction false} RunInterior(scheme: TaggingScheme, tags: seq<string>, name: string, a: nat, n: nat, k: nat)
    requires 2 <= n && 1 <= k < n && a + n <= |tags|
    requires RunAt(scheme, tags, name, a, n) && RunClosed(scheme, tags, a + n)
    ensures Scan(scheme, tags, a + k, a, []) == [Span(a, a + n - 1, name)] + Scan(scheme, tags, a + n, a + n - 1, [])
    decreases n - k
  {
    var p := a + k;
    PrefixedTag(PrefixAt(scheme, k - 1, n), name);
    PrefixedTag(PrefixAt(scheme, k, n), name);
    assert tags[p - 1] == PrefixAt(scheme, k - 1, n) + name;
    assert tags[p] == PrefixAt(scheme, k, n) + name;
    assert !IsSlotStart(scheme, tags, p);
    ScanStep(scheme, tags, p, a);
    if k < n - 1 {
      PrefixedTag(PrefixAt(scheme, k + 1, n), name);
      assert tags[p + 1] == PrefixAt(scheme, k + 1, n) + name;
      assert !IsSlotEnd(scheme, tags, p);
      RunInterior(scheme, tags, name, a, n, k + 1);
    } else {
      assert IsSlotEnd(scheme, tags, p);
    }
  }

  /**
   * A run of the tags of one slot, preceded by an outside tag when the scheme
   * is IO and closed as `RunClosed` says, is emitted as exactly one span
   * whatever the current slot start was.
   */
  lemma RunEmitsOneSpan(scheme: TaggingScheme, tags: seq<string>, name: string, a: nat, n: nat, cur: nat)
    requires 1 <= n && cur <= a && a + n <= |tags|
    requires RunAt(scheme, tags, name, a, n) && RunClosed(scheme, tags, a + n)
    requires scheme == IO && a > 0 ==> tags[a - 1] == OUTSIDE
    ensures Scan(scheme, tags, a, cur, []) == [Span(a, a + n - 1, name)] + Scan(scheme, tags, a + n, a + n - 1, [])
  {
    PrefixedTag(PrefixAt(scheme, 0, n), name);
    assert tags[a] == PrefixAt(scheme, 0, n) + name;
    assert IsSlotStart(scheme, tags, a);
    ScanStep(scheme, tags, a, cur);
    if n == 1 {
      assert IsSlotEnd(scheme, tags, a);
    } else {
      PrefixedTag(PrefixAt(scheme, 1, n), name);
      assert tags[a + 1] == PrefixAt(scheme, 1, n) + name;
      assert !IsSlotEnd(scheme, tags, a);
      RunInterior(scheme, tags, name, a, n, 1);
    }
  }

  /** A run of one slot's tags with only outside tags around it is extracted as that slot alone. */
  lemma OutsideAroundRun(scheme: TaggingScheme, tags: seq<string>, name: string, a: nat, n: nat)
    requires 1 <= n && a + n <= |tags|
    requires forall p :: 0 <= p < a ==> tags[p] == OUTSIDE
    requires forall p :: a + n <= p < |tags| ==> tags[p] == OUTSIDE
    requires RunAt(scheme, tags, name, a, n)
    ensures Spans(scheme, tags) == [Span(a, a + n - 1, name)]
  {
    ScanSkipsOutside(scheme, tags, 0, a, 0);
    RunEmitsOneSpan(scheme, tags, name, a, n, 0);
    ScanSkipsOutside(scheme, tags, a + n, |tags|, a + n - 1);
  }

  /** Positive tagging padded with outside tags: a run with only outside tags around it. */
  lemma PaddedTags(scheme: TaggingScheme, name: string, a: nat, n: nat, b: nat)
    requires n >= 1
    ensures var tags := NegativeTagging(a) + PositiveTagging(scheme, name, n) + NegativeTagging(b);
      |tags| == a + n + b &&
      (forall p :: 0 <= p < a ==> tags[p] == OUTSIDE) &&
      (forall p :: a + n <= p < |tags| ==> tags[p] == OUTSIDE) &&
      RunAt(scheme, tags, name, a, n)
  {
    var tags := NegativeTagging(a) + PositiveTagging(scheme, name, n) + NegativeTagging(b);
    PositiveTaggingShape(scheme, name, n);
    forall k | 0 <= k < n
      ensures tags[a + k] == PrefixAt(scheme, k, n) + name
    {
      assert tags[a + k] == PositiveTagging(scheme, name, n)[k];
    }
  }

  /**
   * Positive tagging of a slot of `n >= 1` tokens, with any number of outside
   * tags around it, is extracted as exactly that slot, under every scheme.
   */
  lemma PaddedRoundTrip(scheme: TaggingScheme, name: string, a: nat, n: nat, b: nat)
    requires n >= 1
    ensures Spans(scheme, NegativeTagging(a) + PositiveTagging(scheme, name, n) + NegativeTagging(b))
         == [Span(a, a + n - 1, name)]
  {
    PaddedTags(scheme, name, a, n, b);
    OutsideAroundRun(scheme, NegativeTagging(a) + PositiveTagging(scheme, name, n) + NegativeTagging(b), name, a, n);
  }

  /**
   * Extracting slots from `n >= 1` tokens tagged as one slot gives back that
   * slot, from the first token's start to the last token's end.
   */
  lemma TagsToSlotsRoundTrip(scheme: TaggingScheme, name: string, tokens: seq<Token>, n: nat)
    requires 1 <= n <= |tokens|
    ensures SpansWithin(Spans(scheme, PositiveTagging(scheme, name, n)), |tokens|)
    ensures SlotsOf(tokens, Spans(scheme, PositiveTagging(scheme, name, n)))
         == [Slot(tokens[0].start, tokens[n - 1].end, name)]
  {
    PaddedRoundTrip(scheme, name, 0, n, 0);
    assert NegativeTagging(0) + PositiveTagging(scheme, name, n) + NegativeTagging(0)
        == PositiveTagging(scheme, name, n);
  }

  /** Chunk `m` is unlabelled and yields a token: an IO slot cannot run across it. */
  predicate Separates(chunks: seq<Chunk>, tokenize: string -> seq<Token>, m: nat)
    requires m < |chunks|
  {
    chunks[m].slotName.None? && |tokenize(chunks[m].text)| >= 1
  }

  /** Some chunk at a position in `lo .. hi` separates. */
  predicate SeparatorIn(chunks: seq<Chunk>, tokenize: string -> seq<Token>, lo: nat, hi: nat) {
    exists m :: lo <= m < hi && m < |chunks| && Separates(chunks, tokenize, m)
  }

  /**
   * Under IO two slots with nothing but outside-free text between them would
   * merge, so between any two labelled chunks some unlabelled chunk must yield
   * a token. BIO and BILOU mark slot boundaries themselves and need nothing.
   */
  predicate SeparatedUnderIO(scheme: TaggingScheme, chunks: seq<Chunk>, tokenize: string -> seq<Token>) {
    scheme == IO ==>
      forall k, l :: 0 <= k < l < |chunks| && chunks[k].slotName.Some? && chunks[l].slotName.Some? ==>
        SeparatorIn(chunks, tokenize, k + 1, l)
  }

  /** Every labelled chunk has a separating chunk somewhere before it. */
  predicate GuardedStart(chunks: seq<Chunk>, tokenize: string -> seq<Token>) {
    forall l :: 0 <= l < |chunks| && chunks[l].slotName.Some? ==> SeparatorIn(chunks, tokenize, 0, l)
  }

  /** A separator among all chunks but the first is one among the chunks after it. */
  lemma SeparatorInRest(chunks: seq<Chunk>, tokenize: string -> seq<Token>, lo: nat, hi: nat)
    requires chunks != [] && 1 <= hi && SeparatorIn(chunks, tokenize, lo, hi)
    requires lo == 0 ==> !Separates(chunks, tokenize, 0)
    ensures SeparatorIn(chunks[1..], tokenize, if lo == 0 then 0 else lo - 1, hi - 1)
  {
    var m :| lo <= m < hi && m < |chunks| && Separates(chunks, tokenize, m);
    assert chunks[1..][m - 1] == chunks[m];
    assert Separates(chunks[1..], tokenize, m - 1);
  }

  /** Under IO, after a labelled chunk every later labelled chunk has a separator before it. */
  lemma GuardedAfterSlot(chunks: seq<Chunk>, tokenize: string -> seq<Token>)
    requires chunks != [] && chunks[0].slotName.Some? && SeparatedUnderIO(IO, chunks, tokenize)
    ensures GuardedStart(chunks[1..], tokenize)
  {
    forall l | 0 <= l < |chunks[1..]| && chunks[1..][l].slotName.Some?
      ensures SeparatorIn(chunks[1..], tokenize, 0, l)
    {
      assert chunks[1..][l] == chunks[l + 1];
      assert SeparatorIn(chunks, tokenize, 1, l + 1);
      SeparatorInRest(chunks, tokenize, 1, l + 1);
    }
  }

  /** A first chunk that does not separate does not help the later labelled chunks. */
  lemma GuardedRest(chunks: seq<Chunk>, tokenize: string -> seq<Token>)
    requires chunks != [] && GuardedStart(chunks, tokenize) && !Separates(chunks, tokenize, 0)
    ensures GuardedStart(chunks[1..], tokenize)
  {
    forall l | 0 <= l < |chunks[1..]| && chunks[1..][l].slotName.Some?
      ensures SeparatorIn(chunks[1..], tokenize, 0, l)
    {
      assert chunks[1..][l] == chunks[l + 1];
      assert SeparatorIn(chunks, tokenize, 0, l + 1);
      SeparatorInRest(chunks, tokenize, 0, l + 1);
    }
  }

  /** Under IO, the tags of chunks whose labelled chunks all have a separator before them open on an outside tag. */
  lemma {:induction false} GuardedOpensOutside(chunks: seq<Chunk>, tokenize: string -> seq<Token>)
    requires GuardedStart(chunks, tokenize) && SampleTags(IO, chunks, tokenize) != []
    ensures SampleTags(IO, chunks, tokenize)[0] == OUTSIDE
    decreases |chunks|
  {
    assert chunks[0].slotName.None? by {
      assert !SeparatorIn(chunks, tokenize, 0, 0);
    }
    var own := ChunkTags(IO, chunks[0], |tokenize(chunks[0].text)|);
    if own == [] {
      assert SampleTags(IO, chunks, tokenize) == SampleTags(IO, chunks[1..], tokenize);
      GuardedRest(chunks, tokenize);
      GuardedOpensOutside(chunks[1..], tokenize);
    } else {
      assert own[0] == OUTSIDE;
    }
  }

  /**
   * The spans a sample's tags stand for: one per labelled chunk, over that
   * chunk's tokens, where `p` is the position of the first chunk's first token.
   */
  function ChunkSpans(chunks: seq<Chunk>, tokenize: string -> seq<Token>, p: nat): seq<Span>
  {
    if chunks == [] then []
    else
      var n := |tokenize(chunks[0].text)|;
      var own := match chunks[0].slotName
        case None => []
        case Some(name) => if n == 0 then [] else [Span(p, p + n - 1, name)];
      own + ChunkSpans(chunks[1..], tokenize, p + n)
  }

  /**
   * The slots a sample's tags stand for: one per labelled chunk, from its
   * first token's start to its last token's end, moved to where the chunk
   * starts in the utterance (`offset` plus the earlier chunks' text).
   */
  function ChunkSlots(chunks: seq<Chunk>, tokenize: string -> seq<Token>, offset: int): seq<Slot>
  {
    if chunks == [] then []
    else
      var tokens := tokenize(chunks[0].text);
      var own := match chunks[0].slotName
        case None => []
        case Some(name) =>
          if tokens == [] then []
          else [Slot(offset + tokens[0].start, offset + tokens[|tokens| - 1].end, name)];
      own + ChunkSlots(chunks[1..], tokenize, offset + |chunks[0].text|)
  }

  /** The spans of chunks: the first chunk's own span, if any, then the others'. */
  lemma ChunkSpansHead(chunks: seq<Chunk>, tokenize: string -> seq<Token>, p: nat, q: nat)
    requires chunks != [] && q == p + |tokenize(chunks[0].text)|
    ensures chunks[0].slotName.None? ==> ChunkSpans(chunks, tokenize, p) == ChunkSpans(chunks[1..], tokenize, q)
    ensures chunks[0].slotName.Some? && p < q ==>
      ChunkSpans(chunks, tokenize, p) == [Span(p, q - 1, chunks[0].slotName.value)] + ChunkSpans(chunks[1..], tokenize, q)
  {
    if chunks[0].slotName.None? {
      assert [] + ChunkSpans(chunks[1..], tokenize, q) == ChunkSpans(chunks[1..], tokenize, q);
    }
  }

  /** Under BIO a sample's tags never open on an inside tag. */
  lemma {:induction false} SampleTagsOpen(chunks: seq<Chunk>, tokenize: string -> seq<Token>)
    requires SampleTags(BIO, chunks, tokenize) != []
    ensures !StartsWith(SampleTags(BIO, chunks, tokenize)[0], INSIDE_PREFIX)
    decreases |chunks|
  {
    var own := ChunkTags(BIO, chunks[0], |tokenize(chunks[0].text)|);
    match chunks[0].slotName
    case None =>
      if own == [] {
        SampleTagsOpen(chunks[1..], tokenize);
      } else {
        assert own[0] == OUTSIDE;
      }
    case Some(name) =>
      PrefixedTag(BEGINNING_PREFIX, name);
      assert own[0] == BEGINNING_PREFIX + name;
  }

  /** The round-trip hypotheses hold for all chunks but the first. */
  lemma SuffixConditions(scheme: TaggingScheme, chunks: seq<Chunk>, tokenize: string -> seq<Token>)
    requires chunks != []
    requires LabelledChunksTokenize(chunks, tokenize) && SeparatedUnderIO(scheme, chunks, tokenize)
    ensures LabelledChunksTokenize(chunks[1..], tokenize) && SeparatedUnderIO(scheme, chunks[1..], tokenize)
  {
    LabelledRest(chunks, tokenize);
    if scheme == IO {
      var rest := chunks[1..];
      forall k, l | 0 <= k < l < |rest| && rest[k].slotName.Some? && rest[l].slotName.Some?
        ensures SeparatorIn(rest, tokenize, k + 1, l)
      {
        assert rest[k] == chunks[k + 1] && rest[l] == chunks[l + 1];
        assert SeparatorIn(chunks, tokenize, k + 2, l + 1);
        SeparatorInRest(chunks, tokenize, k + 2, l + 1);
      }
    }
  }

  /** A suffix that is a concatenation splits into its two parts. */
  lemma SuffixSplits<T>(s: seq<T>, p: nat, x: seq<T>, y: seq<T>, q: nat)
    requires p <= |s| && s[p..] == x + y && q == p + |x|
    ensures q <= |s| && s[p..q] == x && s[q..] == y
  {
    assert s[p..q] == (x + y)[..|x|];
    assert s[q..] == (x + y)[|x|..];
  }

  /** The elements of a slice are those of the sequence, shifted. */
  lemma SliceElements<T>(s: seq<T>, p: nat, q: nat, x: seq<T>)
    requires p <= q <= |s| && s[p..q] == x
    ensures forall i :: p <= i < q ==> s[i] == x[i - p]
  {
    forall i | p <= i < q
      ensures s[i] == x[i - p]
    {
      assert s[i] == s[p..q][i - p];
    }
  }

  /** The tags from the first token of `chunks` on: the first chunk's tags, then the others'. */
  lemma SampleHead(
    scheme: TaggingScheme, tags: seq<string>, p: nat, chunks: seq<Chunk>, tokenize: string -> seq<Token>, q: nat)
    requires p <= |tags| && chunks != []
    requires tags[p..] == SampleTags(scheme, chunks, tokenize)
    requires LabelledChunksTokenize(chunks, tokenize)
    requires q == p + |tokenize(chunks[0].text)|
    ensures q <= |tags|
    ensures tags[p..q] == ChunkTags(scheme, chunks[0], |tokenize(chunks[0].text)|)
    ensures tags[q..] == SampleTags(scheme, chunks[1..], tokenize)
  {
    var m := |tokenize(chunks[0].text)|;
    assert chunks[0].slotName.Some? ==> m >= 1;
    SuffixSplits(tags, p, ChunkTags(scheme, chunks[0], m), SampleTags(scheme, chunks[1..], tokenize), q);
  }

  /** The tags of a labelled chunk form a run that the next chunk's tags close. */
  lemma LabelledChunkRun(
    scheme: TaggingScheme, tags: seq<string>, p: nat, chunks: seq<Chunk>, tokenize: string -> seq<Token>, q: nat)
    requires chunks != [] && chunks[0].slotName.Some?
    requires LabelledChunksTokenize(chunks, tokenize) && SeparatedUnderIO(scheme, chunks, tokenize)
    requires q == p + |tokenize(chunks[0].text)| && q <= |tags|
    requires tags[p..q] == ChunkTags(scheme, chunks[0], |tokenize(chunks[0].text)|)
    requires tags[q..] == SampleTags(scheme, chunks[1..], tokenize)
    ensures p < q
    ensures RunAt(scheme, tags, chunks[0].slotName.value, p, |tokenize(chunks[0].text)|)
    ensures RunClosed(scheme, tags, q)
  {
    var name := chunks[0].slotName.value;
    var m := |tokenize(chunks[0].text)|;
    assert m >= 1;
    var later := SampleTags(scheme, chunks[1..], tokenize);
    PositiveTaggingShape(scheme, name, m);
    SliceElements(tags, p, q, PositiveTagging(scheme, name, m));
    if q < |tags| {
      assert tags[q] == later[0];
      if scheme == BIO {
        SampleTagsOpen(chunks[1..], tokenize);
      }
      if scheme == IO {
        GuardedAfterSlot(chunks, tokenize);
        GuardedOpensOutside(chunks[1..], tokenize);
      }
    }
  }

  /**
   * The tags from position `p` on are the tags of the chunks `rest`. The fact
   * is kept under a quantifier over the position, so that a proof that only
   * passes it along does not unfold the tags of the chunks.
   */
  predicate TaggedFrom(scheme: TaggingScheme, tags: seq<string>, p: nat, rest: seq<Chunk>, tokenize: string -> seq<Token>)
  {
    forall i :: i == p ==> i <= |tags| && tags[i..] == SampleTags(scheme, rest, tokenize)
  }

  /**
   * Under IO, after a slot tag right before position `p` every labelled chunk
   * of `rest` must have a separator before it, so that it does not merge into
   * that slot.
   */
  predicate EnteredCleanly(scheme: TaggingScheme, tags: seq<string>, p: nat, rest: seq<Chunk>, tokenize: string -> seq<Token>)
    requires p <= |tags|
  {
    scheme == IO && p > 0 && tags[p - 1] != OUTSIDE ==> GuardedStart(rest, tokenize)
  }

  /** The tags of an unlabelled chunk are all outside tags. */
  lemma UnlabelledTags(
    scheme: TaggingScheme, tags: seq<string>, p: nat, rest: seq<Chunk>, tokenize: string -> seq<Token>, q: nat)
    requires p <= |tags| && rest != [] && rest[0].slotName.None?
    requires TaggedFrom(scheme, tags, p, rest, tokenize) && LabelledChunksTokenize(rest, tokenize)
    requires EnteredCleanly(scheme, tags, p, rest, tokenize)
    requires q == p + |tokenize(rest[0].text)|
    ensures q <= |tags| && TaggedFrom(scheme, tags, q, rest[1..], tokenize)
    ensures forall i :: p <= i < q ==> tags[i] == OUTSIDE
    ensures EnteredCleanly(scheme, tags, q, rest[1..], tokenize)
  {
    assert tags[p..] == SampleTags(scheme, rest, tokenize);
    SampleHead(scheme, tags, p, rest, tokenize, q);
    SliceElements(tags, p, q, NegativeTagging(|tokenize(rest[0].text)|));
    if scheme == IO && q == p && p > 0 && tags[p - 1] != OUTSIDE {
      GuardedRest(rest, tokenize);
    }
  }

  /** The scan passes over outside tags without emitting anything. */
  lemma UnlabelledScan(
    scheme: TaggingScheme, tags: seq<string>, p: nat, cur: nat, rest: seq<Chunk>, tokenize: string -> seq<Token>, q: nat)
    requires cur <= p <= q <= |tags| && rest != [] && rest[0].slotName.None?
    requires q == p + |tokenize(rest[0].text)|
    requires forall i :: p <= i < q ==> tags[i] == OUTSIDE
    ensures Scan(scheme, tags, q, cur, []) == ChunkSpans(rest[1..], tokenize, q) ==>
      Scan(scheme, tags, p, cur, []) == ChunkSpans(rest, tokenize, p)
  {
    ChunkSpansHead(rest, tokenize, p, q);
    ScanSkipsOutside(scheme, tags, p, q, cur);
  }

  /** The scan passes over an unlabelled chunk without emitting anything. */
  lemma UnlabelledStep(
    scheme: TaggingScheme, tags: seq<string>, p: nat, cur: nat, rest: seq<Chunk>, tokenize: string -> seq<Token>, q: nat)
    requires cur <= p <= |tags| && rest != [] && rest[0].slotName.None?
    requires TaggedFrom(scheme, tags, p, rest, tokenize) && LabelledChunksTokenize(rest, tokenize)
    requires EnteredCleanly(scheme, tags, p, rest, tokenize)
    requires q == p + |tokenize(rest[0].text)|
    ensures q <= |tags| && TaggedFrom(scheme, tags, q, rest[1..], tokenize)
    ensures EnteredCleanly(scheme, tags, q, rest[1..], tokenize)
    ensures Scan(scheme, tags, q, cur, []) == ChunkSpans(rest[1..], tokenize, q) ==>
      Scan(scheme, tags, p, cur, []) == ChunkSpans(rest, tokenize, p)
  {
    UnlabelledTags(scheme, tags, p, rest, tokenize, q);
    UnlabelledScan(scheme, tags, p, cur, rest, tokenize, q);
  }

  /** The tags of a labelled chunk form a run of its slot, closed by what follows. */
  lemma LabelledTags(
    scheme: TaggingScheme, tags: seq<string>, p: nat, rest: seq<Chunk>, tokenize: string -> seq<Token>, q: nat)
    requires p <= |tags| && rest != [] && rest[0].slotName.Some?
    requires TaggedFrom(scheme, tags, p, rest, tokenize)
    requires LabelledChunksTokenize(rest, tokenize) && SeparatedUnderIO(scheme, rest, tokenize)
    requires q == p + |tokenize(rest[0].text)|
    ensures p < q <= |tags| && TaggedFrom(scheme, tags, q, rest[1..], tokenize)
    ensures RunAt(scheme, tags, rest[0].slotName.value, p, |tokenize(rest[0].text)|)
    ensures RunClosed(scheme, tags, q)
    ensures EnteredCleanly(scheme, tags, q, rest[1..], tokenize)
  {
    assert tags[p..] == SampleTags(scheme, rest, tokenize);
    SampleHead(scheme, tags, p, rest, tokenize, q);
    LabelledChunkRun(scheme, tags, p, rest, tokenize, q);
    if scheme == IO {
      GuardedAfterSlot(rest, tokenize);
    }
  }

  /** The scan emits one span over a run of a slot's tags. */
  lemma LabelledScan(
    scheme: TaggingScheme, tags: seq<string>, p: nat, cur: nat, rest: seq<Chunk>, tokenize: string -> seq<Token>, q: nat)
    requires cur <= p < q <= |tags| && rest != [] && rest[0].slotName.Some?
    requires q == p + |tokenize(rest[0].text)|
    requires RunAt(scheme, tags, rest[0].slotName.value, p, |tokenize(rest[0].text)|)
    requires RunClosed(scheme, tags, q)
    requires scheme == IO && p > 0 ==> tags[p - 1] == OUTSIDE
    ensures Scan(scheme, tags, q, q - 1, []) == ChunkSpans(rest[1..], tokenize, q) ==>
      Scan(scheme, tags, p, cur, []) == ChunkSpans(rest, tokenize, p)
  {
    ChunkSpansHead(rest, tokenize, p, q);
    RunEmitsOneSpan(scheme, tags, rest[0].slotName.value, p, |tokenize(rest[0].text)|, cur);
  }

  /** The scan emits one span over a labelled chunk's tokens. */
  lemma LabelledStep(
    scheme: TaggingScheme, tags: seq<string>, p: nat, cur: nat, rest: seq<Chunk>, tokenize: string -> seq<Token>, q: nat)
    requires cur <= p <= |tags| && rest != [] && rest[0].slotName.Some?
    requires TaggedFrom(scheme, tags, p, rest, tokenize)
    requires LabelledChunksTokenize(rest, tokenize) && SeparatedUnderIO(scheme, rest, tokenize)
    requires EnteredCleanly(scheme, tags, p, rest, tokenize)
    requires q == p + |tokenize(rest[0].text)|
    ensures p < q <= |tags| && TaggedFrom(scheme, tags, q, rest[1..], tokenize)
    ensures EnteredCleanly(scheme, tags, q, rest[1..], tokenize)
    ensures Scan(scheme, tags, q, q - 1, []) == ChunkSpans(rest[1..], tokenize, q) ==>
      Scan(scheme, tags, p, cur, []) == ChunkSpans(rest, tokenize, p)
  {
    LabelledTags(scheme, tags, p, rest, tokenize, q);
    LabelledScan(scheme, tags, p, cur, rest, tokenize, q);
  }

  /** Once the tags run out, the scan emits nothing more. */
  lemma NothingLeftToScan(
    scheme: TaggingScheme, tags: seq<string>, p: nat, cur: nat, rest: seq<Chunk>, tokenize: string -> seq<Token>)
    requires cur <= p <= |tags| && rest == []
    requires TaggedFrom(scheme, tags, p, rest, tokenize)
    ensures Scan(scheme, tags, p, cur, []) == ChunkSpans(rest, tokenize, p)
  {
    assert tags[p..] == SampleTags(scheme, rest, tokenize);
  }

  /**
   * From the first token `p` of the chunks `rest` on, the scan emits one span
   * per labelled chunk, whatever the current slot start.
   */
  lemma {:induction false} ScanSample(
    scheme: TaggingScheme, tags: seq<string>, p: nat, cur: nat, rest: seq<Chunk>, tokenize: string -> seq<Token>)
    requires cur <= p <= |tags|
    requires TaggedFrom(scheme, tags, p, rest, tokenize)
    requires LabelledChunksTokenize(rest, tokenize) && SeparatedUnderIO(scheme, rest, tokenize)
    requires EnteredCleanly(scheme, tags, p, rest, tokenize)
    ensures Scan(scheme, tags, p, cur, []) == ChunkSpans(rest, tokenize, p)
    decreases |rest|
  {
    if rest == [] {
      NothingLeftToScan(scheme, tags, p, cur, rest, tokenize);
    } else {
      var q := p + |tokenize(rest[0].text)|;
      SuffixConditions(scheme, rest, tokenize);
      if rest[0].slotName.None? {
        UnlabelledStep(scheme, tags, p, cur, rest, tokenize, q);
        ScanSample(scheme, tags, q, cur, rest[1..], tokenize);
      } else {
        LabelledStep(scheme, tags, p, cur, rest, tokenize, q);
        ScanSample(scheme, tags, q, q - 1, rest[1..], tokenize);
      }
    }
  }

  /**
   * Extracting slots from the tags of a training sample recovers its labelled
   * chunks, as spans of token positions: one per labelled chunk, in order.
   */
  lemma SampleSpansRoundTrip(scheme: TaggingScheme, chunks: seq<Chunk>, tokenize: string -> seq<Token>)
    requires LabelledChunksTokenize(chunks, tokenize) && SeparatedUnderIO(scheme, chunks, tokenize)
    ensures Spans(scheme, SampleTags(scheme, chunks, tokenize)) == ChunkSpans(chunks, tokenize, 0)
  {
    var tags := SampleTags(scheme, chunks, tokenize);
    assert tags[0..] == tags;
    ScanSample(scheme, tags, 0, 0, chunks, tokenize);
  }

  /** `slots` are the slots of `spans` over `tokens`. */
  predicate SlotsMatch(tokens: seq<Token>, spans: seq<Span>, slots: seq<Slot>) {
    SpansWithin(spans, |tokens|) && SlotsOf(tokens, spans) == slots
  }

  /** A span put in front of spans puts its slot in front of their slots. */
  lemma SlotsMatchCons(tokens: seq<Token>, span: Span, spans: seq<Span>, slot: Slot, slots: seq<Slot>)
    requires span.first < |tokens| && span.last < |tokens| && SlotOf(tokens, span) == slot
    requires SlotsMatch(tokens, spans, slots)
    ensures SlotsMatch(tokens, [span] + spans, [slot] + slots)
  {
    var all := [span] + spans;
    assert forall k :: 1 <= k < |all| ==> all[k] == spans[k - 1];
    assert SlotsOf(tokens, all) == [slot] + slots;
  }

  /**
   * The slot of the span over a labelled chunk's shifted tokens runs from its
   * first token's start to its last token's end, moved by the offset.
   */
  lemma ShiftedChunkSlot(
    tokens: seq<Token>, pre: seq<Token>, own: seq<Token>, offset: int, later: seq<Token>, name: string, q: nat)
    requires |own| >= 1 && tokens == pre + Shift(own, offset) + later && q == |pre| + |own|
    ensures q - 1 < |tokens|
    ensures SlotOf(tokens, Span(|pre|, q - 1, name)) == Slot(offset + own[0].start, offset + own[|own| - 1].end, name)
  {
    var shifted := Shift(own, offset);
    assert tokens[|pre|] == shifted[0];
    assert tokens[q - 1] == shifted[|own| - 1];
  }

  /** The slots of chunks: the first chunk's own slot, if any, then the others'. */
  lemma ChunkSlotsHead(chunks: seq<Chunk>, tokenize: string -> seq<Token>, offset: int)
    requires chunks != []
    ensures chunks[0].slotName.None? ==>
      ChunkSlots(chunks, tokenize, offset) == ChunkSlots(chunks[1..], tokenize, offset + |chunks[0].text|)
    ensures var own := tokenize(chunks[0].text);
      chunks[0].slotName.Some? && own != [] ==>
        ChunkSlots(chunks, tokenize, offset) ==
          [Slot(offset + own[0].start, offset + own[|own| - 1].end, chunks[0].slotName.value)]
          + ChunkSlots(chunks[1..], tokenize, offset + |chunks[0].text|)
  {
    if chunks[0].slotName.None? {
      var later := ChunkSlots(chunks[1..], tokenize, offset + |chunks[0].text|);
      assert [] + later == later;
    }
  }

  /** The tokens of chunks after `pre`: the first chunk's shifted tokens join `pre`. */
  lemma SampleTokensHead(chunks: seq<Chunk>, tokenize: string -> seq<Token>, pre: seq<Token>, offset: int)
    requires chunks != []
    ensures pre + SampleTokens(chunks, tokenize, offset)
         == (pre + Shift(tokenize(chunks[0].text), offset)) + SampleTokens(chunks[1..], tokenize, offset + |chunks[0].text|)
  {
    var shifted := Shift(tokenize(chunks[0].text), offset);
    var later := SampleTokens(chunks[1..], tokenize, offset + |chunks[0].text|);
    assert pre + (shifted + later) == (pre + shifted) + later;
  }

  /**
   * The slots of the spans of `chunks` over their tokens, which follow the
   * tokens `pre`, are the chunks' own slots.
   */
  lemma {:induction false} ChunkSlotsFrom(chunks: seq<Chunk>, tokenize: string -> seq<Token>, pre: seq<Token>, offset: int)
    requires LabelledChunksTokenize(chunks, tokenize)
    ensures SlotsMatch(pre + SampleTokens(chunks, tokenize, offset), ChunkSpans(chunks, tokenize, |pre|), ChunkSlots(chunks, tokenize, offset))
    decreases |chunks|
  {
    var tokens := pre + SampleTokens(chunks, tokenize, offset);
    if chunks == [] {
      assert SlotsOf(tokens, []) == [];
    } else {
      var own := tokenize(chunks[0].text);
      var next := offset + |chunks[0].text|;
      var pre2 := pre + Shift(own, offset);
      var q := |pre2|;
      LabelledRest(chunks, tokenize);
      SampleTokensHead(chunks, tokenize, pre, offset);
      ChunkSlotsFrom(chunks[1..], tokenize, pre2, next);
      ChunkSpansHead(chunks, tokenize, |pre|, q);
      ChunkSlotsHead(chunks, tokenize, offset);
      assert tokens == pre2 + SampleTokens(chunks[1..], tokenize, next);
      assert SlotsMatch(tokens, ChunkSpans(chunks[1..], tokenize, q), ChunkSlots(chunks[1..], tokenize, next));
      if chunks[0].slotName.None? {
        assert ChunkSpans(chunks, tokenize, |pre|) == ChunkSpans(chunks[1..], tokenize, q);
        assert ChunkSlots(chunks, tokenize, offset) == ChunkSlots(chunks[1..], tokenize, next);
      }
      if chunks[0].slotName.Some? {
        var name := chunks[0].slotName.value;
        var later := SampleTokens(chunks[1..], tokenize, next);
        ShiftedChunkSlot(tokens, pre, own, offset, later, name, q);
        SlotsMatchCons(tokens, Span(|pre|, q - 1, name), ChunkSpans(chunks[1..], tokenize, q),
          Slot(offset + own[0].start, offset + own[|own| - 1].end, name), ChunkSlots(chunks[1..], tokenize, next));
      }
    }
  }

  /**
   * Extracting slots from a training sample, over the sample's own tokens,
   * gives back one slot per labelled chunk: its character range in the
   * utterance and its slot name.
   */
  lemma SampleSlotsRoundTrip(scheme: TaggingScheme, chunks: seq<Chunk>, tokenize: string -> seq<Token>)
    requires LabelledChunksTokenize(chunks, tokenize) && SeparatedUnderIO(scheme, chunks, tokenize)
    ensures var tokens := SampleTokens(chunks, tokenize, 0);
      var spans := Spans(scheme, SampleTags(scheme, chunks, tokenize));
      SpansWithin(spans, |tokens|) && SlotsOf(tokens, spans) == ChunkSlots(chunks, tokenize, 0)
  {
    SampleSpansRoundTrip(scheme, chunks, tokenize);
    ChunkSlotsFrom(chunks, tokenize, [], 0);
    assert [] + SampleTokens(chunks, tokenize, 0) == SampleTokens(chunks, tokenize, 0);
  }

  /** A tokenizer that reads a non-empty text as one token. */
  function WholeText(t: string): seq<Token>
  {
    if t == [] then [] else [Token(t, 0, |t|)]
  }

  /** A slot `x`, a token-free chunk, an unlabelled chunk with a token, and a slot `y`. */
  const GapLaterChunks: seq<Chunk> := [Chunk("a", Some("x")), Chunk("", None), Chunk("b", None), Chunk("c", Some("y"))]

  /** The token-free chunk right after slot `x` does not stop the chunks from being separated. */
  lemma GapLaterSeparated()
    ensures LabelledChunksTokenize(GapLaterChunks, WholeText)
    ensures SeparatedUnderIO(IO, GapLaterChunks, WholeText)
  {
    var chunks := GapLaterChunks;
    forall k, l | 0 <= k < l < |chunks| && chunks[k].slotName.Some? && chunks[l].slotName.Some?
      ensures SeparatorIn(chunks, WholeText, k + 1, l)
    {
      assert k == 0 && l == 3;
      assert Separates(chunks, WholeText, 2);
    }
  }

  /** The spans of the chunks: token 0 for `x`, token 2 for `y`. */
  lemma GapLaterSpans()
    ensures ChunkSpans(GapLaterChunks, WholeText, 0) == [Span(0, 0, "x"), Span(2, 2, "y")]
  {
    var chunks := GapLaterChunks;
    var c1, c2, c3 := chunks[1..], chunks[2..], chunks[3..];
    assert c1[1..] == c2 && c2[1..] == c3 && c3[1..] == [];
    assert ChunkSpans(c3, WholeText, 2) == [Span(2, 2, "y")];
    assert ChunkSpans(c2, WholeText, 1) == [Span(2, 2, "y")];
    assert ChunkSpans(c1, WholeText, 1) == [Span(2, 2, "y")];
  }

  /**
   * Under IO a token-free chunk right after a slot does no harm when a later
   * unlabelled chunk yields a token: `x`, an empty chunk, `b` and `y` tag as
   * `I-x O I-y`, and their two slots come back.
   */
  lemma SeparatorNeedNotFollowDirectly()
    ensures SeparatedUnderIO(IO, GapLaterChunks, WholeText)
    ensures Spans(IO, SampleTags(IO, GapLaterChunks, WholeText)) == [Span(0, 0, "x"), Span(2, 2, "y")]
  {
    GapLaterSeparated();
    GapLaterSpans();
    SampleSpansRoundTrip(IO, GapLaterChunks, WholeText);
  }
}
