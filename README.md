# CRF slot-filler tagging utilities, modelled in Dafny

This project models the tagging utilities of the Snips NLU CRF slot filler
(`snips_nlu/slot_filler/crf_utils.py`). A slot in an utterance is encoded as
one tag per token under one of three schemes:

- **IO**: inside or outside.
- **BIO**: begin, inside or outside.
- **BILOU**: begin, inside, last, outside or unit.

A tag is a two-character prefix (`B-`, `I-`, `L-` or `U-`) followed by the
slot name, or the outside tag `O`.

The model covers both directions:

- **Tag generation.** Positive tagging of a slot of n tokens, negative tagging
  of unlabelled tokens, the per-position scheme prefix, and building a training
  sample (tokens and tags) from an utterance given as labelled and unlabelled
  chunks.
- **Slot extraction.** The six start/end predicates and the left-to-right scan
  that turns tags and tokens back into slots: character ranges with slot names.

Modules:

- `TagAlphabet` (`tag_alphabet.dfy`): schemes, prefixes, tokens and slots, and
  `tag_name_to_slot_name`.
- `TagGeneration` (`tag_generation.dfy`): `positive_tagging`,
  `negative_tagging` and `get_scheme_prefix`.
- `SlotExtraction` (`slot_extraction.dfy`): the six boundary predicates,
  `_tags_to_slots` and `tags_to_slots`. The scan is specified by the pure
  function `Scan`/`Spans` over token positions. The imperative loop
  `TagsToSlots` is proved to compute the slots of those spans.
- `SampleBuilding` (`sample_building.dfy`): `utterance_to_sample`, an
  imperative loop proved against the functions `SampleTokens` and
  `SampleTags`.
- `RoundTrip` (`round_trip.dfy`): extraction undoes generation. This holds for
  one slot padded with outside tags, and for a whole training sample, at the
  level of token spans and at the level of character-range slots.
- `Wrappers` (`wrappers.dfy`): `Option`.

Python's `tag[2:]` is modelled as the empty string for tags shorter than two
characters, as slicing past the end does. The tokenizer is a function
parameter. The sample round-trip lemmas assume the tokenizer yields at least
one token for every labelled chunk (`LabelledChunksTokenize`). Under IO they
also assume that between any two labelled chunks some unlabelled chunk yields
a token (`SeparatedUnderIO`), because IO cannot mark where one slot ends and
the next begins. `AdjacentSlotsMergeUnderIO` shows what happens otherwise.
Only the token-location property of `UtteranceToSample` and
`SampleTokensLocated` assumes that the tokenizer places each token's character
range inside its own chunk (`TokenizerLocates`).

## Model

| member | source | states |
|---|---|---|
| TagAlphabet.TagNameToSlotName | snips_nlu/slot_filler/crf_utils.py:24-25 | the slot name is what follows the two-character prefix; a tag of two or fewer characters gives the empty name |
| TagAlphabet.PrefixedTag | snips_nlu/slot_filler/crf_utils.py:6-10 | a tag made of any of the four prefixes and a name gives that name back, is never `O`, and starts with exactly the prefix it was built from |
| SlotExtraction.StartOfIOSlot | snips_nlu/slot_filler/crf_utils.py:28-33 | true exactly when the tag is not outside and is first or follows an outside tag |
| SlotExtraction.EndOfIOSlot | snips_nlu/slot_filler/crf_utils.py:36-41 | true exactly when the tag is not outside and is last or precedes an outside tag |
| SlotExtraction.StartOfBIOSlot | snips_nlu/slot_filler/crf_utils.py:44-53 | true exactly when the tag is not outside and is first, carries `B-`, or follows an outside tag |
| SlotExtraction.EndOfBIOSlot | snips_nlu/slot_filler/crf_utils.py:56-63 | true exactly when the tag is not outside and is last or the next tag does not carry `I-` |
| SlotExtraction.StartOfBILOUSlot | snips_nlu/slot_filler/crf_utils.py:66-81 | true exactly when the tag is not outside and is first, carries `B-` or `U-`, or follows a `U-`, `L-` or outside tag |
| SlotExtraction.EndOfBILOUSlot | snips_nlu/slot_filler/crf_utils.py:84-99 | true exactly when the tag is not outside and is last, carries `L-` or `U-`, or precedes an outside, `B-` or `U-` tag |
| SlotExtraction.TagsToSlots | snips_nlu/slot_filler/crf_utils.py:102-126 | the loop returns, in order, the slot of every span `Spans` emits: first token's start, last token's end, and the name of the tag where the span ends; there are at most as many slots as tags; it requires only that every span lies within the tokens, as the source indexes only the tokens a slot reaches |
| SlotExtraction.SpansWithinTags | snips_nlu/slot_filler/crf_utils.py:105-113 | every span lies within the tag positions, so one token per tag always satisfies `TagsToSlots` |
| SlotExtraction.ScanKeepsEmitted | snips_nlu/slot_filler/crf_utils.py:103-114 | the scan only appends to the slots already collected |
| SlotExtraction.ScanWellFormed | snips_nlu/slot_filler/crf_utils.py:103-114 | every emitted span starts no earlier than the current slot start, has first <= last < number of tags; the spans' last positions strictly increase |
| SlotExtraction.ScanEndsAtSlotEnds | snips_nlu/slot_filler/crf_utils.py:108-113 | every emitted span ends at a position where the scheme's end predicate holds and is named after the tag there |
| SlotExtraction.ScanSkipsOutside | snips_nlu/slot_filler/crf_utils.py:105-108 | a stretch of outside tags changes neither the current start nor the output |
| SlotExtraction.OutsideOnlyHasNoSlots | snips_nlu/slot_filler/crf_utils.py:117-124 | tags that are all outside give no slots, under every scheme |
| SlotExtraction.StartAfterEnd | snips_nlu/slot_filler/crf_utils.py:28-99 | for tags the scheme produces, a non-outside tag right after a slot end starts a new slot |
| SlotExtraction.SpansDisjoint | snips_nlu/slot_filler/crf_utils.py:102-124 | for tags the scheme produces (under BIO: only `B-`/`I-` besides `O`), each extracted span ends before the next one starts |
| SlotExtraction.StrayTagUnderBIOOverlaps | snips_nlu/slot_filler/crf_utils.py:44-63 | under BIO, the tags `B-a U-b` give two spans that share token 0: a tag BIO does not produce is not rejected |
| SlotExtraction.AdjacentSlotsMergeUnderIO | snips_nlu/slot_filler/crf_utils.py:28-41 | under IO, the tags `I-a I-b` give one span over both tokens, named `b` |
| TagGeneration.PositiveTagging | snips_nlu/slot_filler/crf_utils.py:129-145 | a slot of n >= 1 tokens gets n tags; a slot of 0 tokens gets 0 tags under IO, 1 under BIO and 2 under BILOU |
| TagGeneration.PositiveTaggingShape | snips_nlu/slot_filler/crf_utils.py:129-145 | tag k of a slot of n >= 1 tokens is the scheme's prefix for position k of n, followed by the slot name |
| TagGeneration.PositiveTaggingOfEmptySlot | snips_nlu/slot_filler/crf_utils.py:132-142 | a slot of no tokens tags as `[]`, `[B-name]` and `[B-name, L-name]` under IO, BIO and BILOU |
| TagGeneration.NegativeTagging | snips_nlu/slot_filler/crf_utils.py:148-149 | exactly `size` tags, all outside |
| TagGeneration.GetSchemePrefix | snips_nlu/slot_filler/crf_utils.py:168-186 | the result is one of the four prefixes; it is `U-` exactly under BILOU with one index, `B-` exactly when the index is the first one under BIO/BILOU and not the BILOU single-index case, and `L-` exactly under BILOU with two or more indexes when the index is the last one and not the first; otherwise `I-` (so always `I-` under IO); the index list must be non-empty under BIO and BILOU |
| TagGeneration.SchemePrefixAgreesWithPositiveTagging | snips_nlu/slot_filler/crf_utils.py:129-186 | for a strictly increasing, non-empty index list, prefixing the name with each index's scheme prefix gives exactly the positive tagging of a slot of that many tokens |
| SampleBuilding.UtteranceToSample | snips_nlu/slot_filler/crf_utils.py:152-165 | the loop returns the chunks' tokens, each shifted by the length of the text before its chunk, and the chunks' tags (negative for unlabelled, positive for labelled); one tag per token when every labelled chunk has a token; every token located in the utterance when the tokenizer locates each chunk's tokens |
| SampleBuilding.SampleAligned | snips_nlu/slot_filler/crf_utils.py:155-164 | as many tags as tokens whenever every labelled chunk yields a token |
| SampleBuilding.SampleTokensLocated | snips_nlu/slot_filler/crf_utils.py:156-159 | shifting by the running text length maps each chunk's tokens to the same text inside the whole utterance |
| SampleBuilding.UtteranceSplits | snips_nlu/slot_filler/crf_utils.py:159 | the text of the first i+1 chunks is the text of the first i chunks followed by chunk i's text |
| RoundTrip.RunEmitsOneSpan | snips_nlu/slot_filler/crf_utils.py:102-114 | the positive tags of one slot, closed by a tag the scheme reads as an end, are emitted as exactly one span, whatever the current start |
| RoundTrip.PaddedRoundTrip | snips_nlu/slot_filler/crf_utils.py:102-149 | negative tags, then the positive tags of a slot of n >= 1 tokens, then negative tags, give back exactly that slot's span, under every scheme |
| RoundTrip.TagsToSlotsRoundTrip | snips_nlu/slot_filler/crf_utils.py:117-145 | extracting slots from the positive tagging of n >= 1 tokens gives one slot from token 0's start to token n-1's end, with the slot's name |
| RoundTrip.SampleSpansRoundTrip | snips_nlu/slot_filler/crf_utils.py:102-165 | the spans extracted from a sample's tags are exactly one span per labelled chunk over that chunk's tokens, in order, under every scheme |
| RoundTrip.SeparatorNeedNotFollowDirectly | snips_nlu/slot_filler/crf_utils.py:152-165 | under IO, the chunks `a`:x, an empty unlabelled chunk, unlabelled `b`, `c`:y meet the separation hypothesis although a token-free chunk follows slot x directly, and their tags give back the spans of x and y |
| RoundTrip.SampleSlotsRoundTrip | snips_nlu/slot_filler/crf_utils.py:102-165 | extracting slots from a sample's tokens and tags gives back each labelled chunk's slot: from its first token's start to its last token's end, shifted to the chunk's place in the utterance, with its name |

## Left out

- The tokenizer (`snips_nlu.tokenization.tokenize`) is not part of this model. It is a function parameter; properties that depend on it take explicit hypotheses about it.
- The `ValueError` branches for an unknown tagging scheme (lines 125-126, 143-144, 185-186) cannot be reached: the scheme is a closed datatype.
- The dictionary shapes (`RANGE`, `TAGS`, `TOKENS`, `TEXT`, `SLOT_NAME`) are records: `Slot`, `Sample` and `Chunk`. A chunk without a slot-name key is `Chunk(text, None)`.
- The `Enum` machinery and `@unique` are left out; the datatype's constructors are distinct by construction.
- `_tags_to_slots` takes the boundary predicates as arguments; the model merges it with `tags_to_slots` into `TagsToSlots`, which selects them by scheme with `IsSlotStart`/`IsSlotEnd`.
- SlotExtraction.TagsToSlots: requires every extracted span to lie within the tokens. Where a span reaches past the tokens, the source raises `IndexError`; that error path is not modelled.
- TagGeneration.GetSchemePrefix: requires a non-empty index list under BIO and BILOU, where the source raises `IndexError` on `indexes[0]`; that error path is not modelled.
- RoundTrip.SampleSpansRoundTrip holds only when every labelled chunk yields at least one token and, under IO, some unlabelled chunk that yields a token lies between any two labelled chunks. Without these hypotheses the source does not round-trip: a labelled chunk with no tokens still gets BIO/BILOU tags, and under IO two slots with only token-free text between them merge.
- RoundTrip.SampleSlotsRoundTrip holds only under the same two hypotheses as `SampleSpansRoundTrip`: every labelled chunk yields a token, and under IO some unlabelled chunk with a token lies between any two labelled chunks.
- SlotExtraction.SpansDisjoint is stated only for tags the scheme produces. Under BIO, a stray `U-`/`L-` tag can give overlapping spans, as `StrayTagUnderBIOOverlaps` shows.
- Python 2 string and `xrange` details are left out: strings are sequences of characters, and the ranges are written as sequence comprehensions.
