/**
 * Sample building: an annotated utterance, given as chunks of text that are
 * either unlabelled or labelled with a slot name, becomes aligned token and
 * tag sequences. The tokenizer is a parameter.
 */
module SampleBuilding {
  import opened Wrappers
  import opened TagAlphabet
  import opened TagGeneration

  /** A piece of an annotated utterance, with the slot it belongs to, if any. */
  datatype Chunk = Chunk(text: string, slotName: Option<string>)

  /** A training sample: the utterance's tokens and one tag per token. */
  datatype Sample = Sample(tokens: seq<Token>, tags: seq<string>)

  /** Tokens of a chunk moved to the offset the chunk starts at in the utterance. */
  function Shift(tokens: seq<Token>, offset: int): (shifted: seq<Token>)
    ensures |shifted| == |tokens|
  {
    seq(|tokens|, k requires 0 <= k < |tokens| =>
      Token(tokens[k].value, offset + tokens[k].start, offset + tokens[k].end))
  }

  /** The tags of a chunk of `count` tokens. */
  function ChunkTags(scheme: TaggingScheme, chunk: Chunk, count: nat): seq<string>
  {
    match chunk.slotName
    case None => NegativeTagging(count)
    case Some(name) => PositiveTagging(scheme, name, count)
  }

  /** The text of the utterance: its chunks' texts in order. */
  function Utterance(chunks: seq<Chunk>): string
  {
    if chunks == [] then [] else chunks[0].text + Utterance(chunks[1..])
  }

  /** The tokens of `chunks`, each chunk tokenized alone and shifted to `offset` plus the earlier chunks' text. */
  function SampleTokens(chunks: seq<Chunk>, tokenize: string -> seq<Token>, offset: int): seq<Token>
  {
    if chunks == [] then []
    else
      Shift(tokenize(chunks[0].text), offset)
      + SampleTokens(chunks[1..], tokenize, offset + |chunks[0].text|)
  }

  /** The tags of `chunks`: each chunk's tags in order. */
  function SampleTags(scheme: TaggingScheme, chunks: seq<Chunk>, tokenize: string -> seq<Token>): seq<string>
  {
    if chunks == [] then []
    else
      ChunkTags(scheme, chunks[0], |tokenize(chunks[0].text)|)
      + SampleTags(scheme, chunks[1..], tokenize)
  }

  /** Every labelled chunk yields at least one token. */
  predicate LabelledChunksTokenize(chunks: seq<Chunk>, tokenize: string -> seq<Token>) {
    forall k :: 0 <= k < |chunks| && chunks[k].slotName.Some? ==> |tokenize(chunks[k].text)| >= 1
  }

  /** Every token lies in `text` and its value is the text it covers. */
  predicate TokensLocated(tokens: seq<Token>, text: string) {
    forall k :: 0 <= k < |tokens| ==>
      0 <= tokens[k].start <= tokens[k].end <= |text| &&
      tokens[k].value == text[tokens[k].start..tokens[k].end]
  }

  /** The tokenizer locates the tokens of every chunk in that chunk's text. */
  predicate TokenizerLocates(chunks: seq<Chunk>, tokenize: string -> seq<Token>) {
    forall k :: 0 <= k < |chunks| ==> TokensLocated(tokenize(chunks[k].text), chunks[k].text)
  }

  /** The chunks after the first still yield a token each when labelled. */
  lemma LabelledRest(chunks: seq<Chunk>, tokenize: string -> seq<Token>)
    requires chunks != [] && LabelledChunksTokenize(chunks, tokenize)
    ensures LabelledChunksTokenize(chunks[1..], tokenize)
    ensures chunks[0].slotName.Some? ==> |tokenize(chunks[0].text)| >= 1
  {
    forall k | 0 <= k < |chunks[1..]| && chunks[1..][k].slotName.Some?
      ensures |tokenize(chunks[1..][k].text)| >= 1
    {
      assert chunks[1..][k] == chunks[k + 1];
    }
  }

  /**
   * One tag per token, provided every labelled chunk yields a token (positive
   * tagging of an empty slot still yields tags under BIO and BILOU).
   */
  lemma {:induction false} SampleAligned(scheme: TaggingScheme, chunks: seq<Chunk>, tokenize: string -> seq<Token>, offset: int)
    requires LabelledChunksTokenize(chunks, tokenize)
    ensures |SampleTags(scheme, chunks, tokenize)| == |SampleTokens(chunks, tokenize, offset)|
    decreases |chunks|
  {
    if chunks != [] {
      LabelledRest(chunks, tokenize);
      SampleAligned(scheme, chunks[1..], tokenize, offset + |chunks[0].text|);
      assert chunks[0].slotName.Some? ==> |tokenize(chunks[0].text)| >= 1;
    }
  }

  /** Tokens located in `text` stay located once shifted past `before` and followed by `after`. */
  lemma ShiftedLocated(tokens: seq<Token>, text: string, before: string, after: string)
    requires TokensLocated(tokens, text)
    ensures TokensLocated(Shift(tokens, |before|), before + text + after)
  {
    var whole := before + text + after;
    var shifted := Shift(tokens, |before|);
    forall k | 0 <= k < |shifted|
      ensures 0 <= shifted[k].start <= shifted[k].end <= |whole|
      ensures shifted[k].value == whole[shifted[k].start..shifted[k].end]
    {
      var s, e := tokens[k].start, tokens[k].end;
      assert whole[|before| + s..|before| + e] == text[s..e];
    }
  }

  /** Two token sequences located in the same text, one after the other. */
  lemma LocatedAppend(first: seq<Token>, second: seq<Token>, text: string)
    requires TokensLocated(first, text) && TokensLocated(second, text)
    ensures TokensLocated(first + second, text)
  {
    var all := first + second;
    forall k | 0 <= k < |all|
      ensures 0 <= all[k].start <= all[k].end <= |text|
      ensures all[k].value == text[all[k].start..all[k].end]
    {
      if k >= |first| {
        assert all[k] == second[k - |first|];
      }
    }
  }

  /** The tokenizer still locates the tokens of all chunks but the first. */
  lemma LocatesRest(chunks: seq<Chunk>, tokenize: string -> seq<Token>)
    requires chunks != [] && TokenizerLocates(chunks, tokenize)
    ensures TokenizerLocates(chunks[1..], tokenize)
    ensures TokensLocated(tokenize(chunks[0].text), chunks[0].text)
  {
    forall k | 0 <= k < |chunks[1..]|
      ensures TokensLocated(tokenize(chunks[1..][k].text), chunks[1..][k].text)
    {
      assert chunks[1..][k] == chunks[k + 1];
    }
  }

  /**
   * Shifting by the length of the text before each chunk keeps every token on
   * its own text: tokens located in their chunks are located in the utterance.
   */
  lemma {:induction false} SampleTokensLocated(chunks: seq<Chunk>, tokenize: string -> seq<Token>, before: string)
    requires TokenizerLocates(chunks, tokenize)
    ensures TokensLocated(SampleTokens(chunks, tokenize, |before|), before + Utterance(chunks))
    decreases |chunks|
  {
    if chunks != [] {
      var text := chunks[0].text;
      var rest := Utterance(chunks[1..]);
      LocatesRest(chunks, tokenize);
      SampleTokensLocated(chunks[1..], tokenize, before + text);
      ShiftedLocated(tokenize(text), text, before, rest);
      assert before + Utterance(chunks) == before + text + rest;
      assert |before + text| == |before| + |text|;
      LocatedAppend(Shift(tokenize(text), |before|), SampleTokens(chunks[1..], tokenize, |before| + |text|),
        before + text + rest);
    }
  }

  /**
   * The sample of an annotated utterance. Each chunk is tokenized on its own,
   * its tokens are shifted by the length of the text of the chunks before it,
   * and its tags are the negative tagging of its tokens when it is unlabelled
   * and the positive tagging of its slot otherwise.
   */
  method UtteranceToSample(chunks: seq<Chunk>, scheme: TaggingScheme, tokenize: string -> seq<Token>)
    returns (sample: Sample)
    ensures sample.tokens == SampleTokens(chunks, tokenize, 0)
    ensures sample.tags == SampleTags(scheme, chunks, tokenize)
    ensures LabelledChunksTokenize(chunks, tokenize) ==> |sample.tags| == |sample.tokens|
    ensures TokenizerLocates(chunks, tokenize) ==> TokensLocated(sample.tokens, Utterance(chunks))
  {
    var tokens: seq<Token> := [];
    var tags: seq<string> := [];
    var currentLength := 0;
    for i := 0 to |chunks|
      invariant currentLength == |Utterance(chunks[..i])|
      invariant tokens + SampleTokens(chunks[i..], tokenize, currentLength) == SampleTokens(chunks, tokenize, 0)
      invariant tags + SampleTags(scheme, chunks[i..], tokenize) == SampleTags(scheme, chunks, tokenize)
    {
      var chunk := chunks[i];
      var chunkTokens := tokenize(chunk.text);
      var chunkTags: seq<string>;
      match chunk.slotName {
        case None => chunkTags := NegativeTagging(|chunkTokens|);
        case Some(name) => chunkTags := PositiveTagging(scheme, name, |chunkTokens|);
      }
      SampleTokensGrow(chunks, tokenize, i, currentLength, tokens);
      SampleTagsGrow(scheme, chunks, tokenize, i, tags);
      UtteranceSplits(chunks, i);
      tokens := tokens + Shift(chunkTokens, currentLength);
      tags := tags + chunkTags;
      currentLength := currentLength + |chunk.text|;
    }
    assert chunks[|chunks|..] == [];
    assert chunks[..0] == [];
    sample := Sample(tokens, tags);
    if LabelledChunksTokenize(chunks, tokenize) {
      SampleAligned(scheme, chunks, tokenize, 0);
    }
    if TokenizerLocates(chunks, tokenize) {
      SampleTokensLocated(chunks, tokenize, []);
      assert [] + Utterance(chunks) == Utterance(chunks);
    }
  }

  /** Adding the tokens of chunk `i` to those of the chunks before it. */
  lemma SampleTokensGrow(chunks: seq<Chunk>, tokenize: string -> seq<Token>, i: nat, offset: int, tokens: seq<Token>)
    requires i < |chunks|
    requires tokens + SampleTokens(chunks[i..], tokenize, offset) == SampleTokens(chunks, tokenize, 0)
    ensures (tokens + Shift(tokenize(chunks[i].text), offset))
            + SampleTokens(chunks[i + 1..], tokenize, offset + |chunks[i].text|)
         == SampleTokens(chunks, tokenize, 0)
  {
    var shifted := Shift(tokenize(chunks[i].text), offset);
    var later := SampleTokens(chunks[i + 1..], tokenize, offset + |chunks[i].text|);
    assert chunks[i..][1..] == chunks[i + 1..];
    assert SampleTokens(chunks[i..], tokenize, offset) == shifted + later;
    assert (tokens + shifted) + later == tokens + (shifted + later);
  }

  /** Adding the tags of chunk `i` to those of the chunks before it. */
  lemma SampleTagsGrow(scheme: TaggingScheme, chunks: seq<Chunk>, tokenize: string -> seq<Token>, i: nat, tags: seq<string>)
    requires i < |chunks|
    requires tags + SampleTags(scheme, chunks[i..], tokenize) == SampleTags(scheme, chunks, tokenize)
    ensures (tags + ChunkTags(scheme, chunks[i], |tokenize(chunks[i].text)|))
            + SampleTags(scheme, chunks[i + 1..], tokenize)
         == SampleTags(scheme, chunks, tokenize)
  {
    var own := ChunkTags(scheme, chunks[i], |tokenize(chunks[i].text)|);
    var later := SampleTags(scheme, chunks[i + 1..], tokenize);
    assert chunks[i..][1..] == chunks[i + 1..];
    assert SampleTags(scheme, chunks[i..], tokenize) == own + later;
    assert (tags + own) + later == tags + (own + later);
  }

  /** The utterance text grows chunk by chunk. */
  lemma {:induction false} UtteranceSplits(chunks: seq<Chunk>, i: nat)
    requires i < |chunks|
    ensures Utterance(chunks[..i + 1]) == Utterance(chunks[..i]) + chunks[i].text
    decreases i
  {
    if i == 0 {
      assert chunks[..1][1..] == [];
    } else {
      assert chunks[..i + 1][1..] == chunks[1..][..i];
      assert chunks[..i][1..] == chunks[1..][..i - 1];
      UtteranceSplits(chunks[1..], i - 1);
    }
  }
}
