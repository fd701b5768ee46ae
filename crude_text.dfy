/**
 * `presswork/text/_crude_markov.py` (and its byte-identical copy
 * `presswork/text_makers/_crude.py`): the older crude n-gram model, built
 * straight from text and generated from without a size check.
 */
module CrudeText {
  import opened PyStr
  import opened RandomSource
  import CrudeMarkov

  /** `_crude_split_sentences`: one sentence per line. */
  function CrudeSplitSentences(text: string): seq<string> {
    SplitLines(text)
  }

  /** `_crude_split_words`: words separated by whitespace. */
  function CrudeSplitWords(sentence: string): seq<string> {
    Split(sentence)
  }

  /** The word lists the model is built from: each line of the text,
      split by the word splitter. */
  function SentencesOf(text: string, splitWords: string -> seq<string>): (r: seq<seq<string>>)
    ensures |r| == |CrudeSplitSentences(text)|
    ensures forall i :: 0 <= i < |r| ==> r[i] == splitWords(CrudeSplitSentences(text)[i])
  {
    var lines := CrudeSplitSentences(text);
    seq(|lines|, i requires 0 <= i < |lines| => splitWords(lines[i]))
  }

  /** `crude_markov_chain(source_text, ngram_size, fn_to_split_sentences,
      fn_to_split_words)`: the sentence splitter argument is ignored and
      the text always split into lines; empty text gives `{}`. */
  method CrudeMarkovChain(text: string, n: nat := CrudeMarkov.DefaultNgramSize, splitWords: string -> seq<string> := CrudeSplitWords) returns (model: CrudeMarkov.Model)
    ensures model == CrudeMarkov.Chain(SentencesOf(text, splitWords), n)
    ensures text == "" ==> model == map[]
  {
    model := map[];
    if text == "" {
      return;
    }
    var lines := CrudeSplitSentences(text);
    ghost var sentences := SentencesOf(text, splitWords);
    var s := 0;
    while s < |lines|
      invariant 0 <= s <= |lines|
      invariant model == CrudeMarkov.Chain(sentences[..s], n)
    {
      var words := splitWords(lines[s]);
      model := CrudeMarkov.RecordSentence(model, words, n);
      CrudeMarkov.ChainSnoc(sentences, s, n);
      s := s + 1;
    }
    assert sentences[..|lines|] == sentences;
  }

  /** `list(iter_make_sentences(model, ngram_size, count, max_loops))`:
      one empty sentence for an empty model, else the generator loop,
      whatever the model's n-gram size. */
  method IterMakeSentences(m: CrudeMarkov.Model, n: nat := CrudeMarkov.DefaultNgramSize, count: int := 100, maxLoops: int := 25, draws: Draws, pos: nat)
    returns (sentences: seq<seq<string>>, next: nat)
    ensures CrudeMarkov.IsEmptyModel(m) ==> (sentences, next) == ([[]], pos)
    ensures !CrudeMarkov.IsEmptyModel(m) ==> (sentences, next) == CrudeMarkov.Generate(m, n, count, maxLoops, draws, pos)
  {
    if CrudeMarkov.IsEmptyModel(m) {
      return [[]], pos;
    }
    sentences, next := CrudeMarkov.MakeSentences(m, n, count, maxLoops, draws, pos);
  }

  /** Generating with an n-gram size other than the model's finds no
      sentence start: every one of the `count` sentences is empty and no
      number is drawn. */
  lemma MismatchedSizeYieldsEmptySentences(text: string, splitWords: string -> seq<string>, built: nat, asked: nat,
                                           count: int, maxLoops: int, draws: Draws, pos: nat)
    requires built != asked
    ensures CrudeMarkov.Generate(CrudeMarkov.Chain(SentencesOf(text, splitWords), built), asked, count, maxLoops, draws, pos)
      == (CrudeMarkov.EmptySentences(CrudeMarkov.Wanted(count)), pos)
  {
    var m := CrudeMarkov.Chain(SentencesOf(text, splitWords), built);
    CrudeMarkov.ChainKeyLengths(SentencesOf(text, splitWords), built);
    assert CrudeMarkov.NgramForSentenceStart(asked) !in m;
    CrudeMarkov.RunWithoutStart(m, asked, CrudeMarkov.Wanted(count), maxLoops, draws, pos);
  }

  /** Text whose lines hold no words gives a model the generator treats
      as empty (a single key), so it yields one empty sentence. */
  lemma BlankTextIsEmptyModel(text: string, n: nat)
    requires forall i :: 0 <= i < |CrudeSplitSentences(text)| ==> AllSpace(CrudeSplitSentences(text)[i])
    ensures CrudeMarkov.IsEmptyModel(CrudeMarkov.Chain(SentencesOf(text, CrudeSplitWords), n))
  {
    var ss := SentencesOf(text, CrudeSplitWords);
    forall i | 0 <= i < |ss| ensures ss[i] == [] {
      SplitAllSpace(CrudeSplitSentences(text)[i]);
    }
    CrudeMarkov.ChainOfEmptySentences(ss, n);
  }
}
