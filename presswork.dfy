/**
 * `presswork/presswork.py`: `MarkovChainTextMaker`, the PyMarkovChain fork
 * with NLTK tokenization whose sentences are joined with single spaces and
 * stripped, with no phrase-end clean-up, and joined by two spaces in
 * `make_sentences`.
 */
module Presswork {
  import opened Wrappers
  import opened PyStr
  import opened RandomSource
  import opened MarkovDb
  import opened MarkovGeneration
  import PyMarkovChainFork
  import TextMakerPyMarkovChainFork
  import PhraseEnd

  type Tokenizer = PyMarkovChainFork.Tokenizer

  /** `DEFAULT_WINDOW_SIZE_WORDS`. */
  const DefaultWindow := 2

  /** The strings of several sentences. */
  function SentenceStrings(sentences: seq<seq<string>>): (r: seq<string>)
    ensures |r| == |sentences|
  {
    seq(|sentences|, i requires 0 <= i < |sentences| => StrippedText(sentences[i]))
  }

  /** `make_sentences(number)`: the sentence strings joined by two spaces,
      as they are. */
  function SentencesString(sentences: seq<seq<string>>): string {
    Join("  ", SentenceStrings(sentences))
  }

  /** The words each sentence adds after its seed, the end token. */
  function GeneratedWords(sentences: seq<seq<string>>): seq<string> {
    if sentences == [] then []
    else (if sentences[0] == [] then [] else sentences[0][1..]) + GeneratedWords(sentences[1..])
  }

  /** The words of each string, in order. */
  function WordsOf(strs: seq<string>): seq<string> {
    if strs == [] then [] else Split(strs[0]) + WordsOf(strs[1..])
  }

  /** A sentence grown from the special tuple whose words hold no
      whitespace. */
  predicate Spaceless(sentence: seq<string>) {
    sentence != [] && sentence[0] == SpecialToken
    && forall j :: 1 <= j < |sentence| ==> sentence[j] != [] && NoSpace(sentence[j])
  }

  /** `split()` gives such a sentence's words back from its string. */
  lemma SentenceWordsRecovered(sentence: seq<string>)
    requires Spaceless(sentence)
    ensures Split(StrippedText(sentence)) == sentence[1..]
  {
    var rest := sentence[1..];
    assert sentence == [SpecialToken] + rest;
    StripAfterSpecial(rest);
    SplitStrip(Join(" ", rest));
    SplitJoinRoundTrip(rest);
  }

  /** Strings joined by whitespace split into the words of each. */
  lemma {:induction false} SplitJoinedStrings(sep: string, strs: seq<string>)
    requires sep != [] && AllSpace(sep)
    ensures Split(Join(sep, strs)) == WordsOf(strs)
  {
    if |strs| == 1 {
      assert WordsOf(strs) == Split(strs[0]) + WordsOf([]);
    } else if |strs| > 1 {
      var rest := Join(sep, strs[1..]);
      calc {
        Split(Join(sep, strs));
      == { assert Join(sep, strs) == strs[0] + (sep + rest); }
        Split(strs[0] + (sep + rest));
      == { SplitAppend(strs[0], sep + rest); }
        Split(strs[0]) + Split(sep + rest);
      == { SplitAppend(sep, rest); SplitAllSpace(sep); }
        Split(strs[0]) + Split(rest);
      == { SplitJoinedStrings(sep, strs[1..]); }
        Split(strs[0]) + WordsOf(strs[1..]);
      }
    }
  }

  /** What `make_sentences` returns splits back into the generated words,
      sentence after sentence: nothing is merged or lost in the joins. */
  lemma {:induction false} SentencesWordsRecovered(sentences: seq<seq<string>>)
    requires forall i :: 0 <= i < |sentences| ==> Spaceless(sentences[i])
    ensures Split(SentencesString(sentences)) == GeneratedWords(sentences)
  {
    SplitJoinedStrings("  ", SentenceStrings(sentences));
    StringsWords(sentences);
  }

  lemma {:induction false} StringsWords(sentences: seq<seq<string>>)
    requires forall i :: 0 <= i < |sentences| ==> Spaceless(sentences[i])
    ensures WordsOf(SentenceStrings(sentences)) == GeneratedWords(sentences)
  {
    if sentences != [] {
      var strs := SentenceStrings(sentences);
      var tail := sentences[1..];
      assert strs[1..] == SentenceStrings(tail) by {
        forall i | 0 <= i < |tail|
          ensures strs[1..][i] == SentenceStrings(tail)[i]
        {
          assert tail[i] == sentences[i + 1];
        }
      }
      assert forall i :: 0 <= i < |tail| ==> Spaceless(tail[i]) by {
        forall i | 0 <= i < |tail|
          ensures Spaceless(tail[i])
        {
          assert tail[i] == sentences[i + 1];
        }
      }
      assert WordsOf(strs) == Split(strs[0]) + WordsOf(strs[1..]);
      assert strs[0] == StrippedText(sentences[0]);
      SentenceWordsRecovered(sentences[0]);
      StringsWords(tail);
    }
  }

  /** Without the phrase-end clean-up, the space in front of a final
      punctuation mark stays; the `presswork/text_maker/` version
      removes it. */
  lemma SpaceBeforePunctuationKept(w: string, p: char)
    requires w != [] && NoSpace(w) && !PhraseEnd.IsPhraseEnd(w[|w| - 1]) && PhraseEnd.IsPhraseEnd(p)
    ensures StrippedText([SpecialToken, w, [p]]) == w + [' ', p]
    ensures TextMakerPyMarkovChainFork.SentenceString([SpecialToken, w, [p]]) == w + [p]
  {
    StrippedWithSpace(w, p);
    PhraseEndWithoutSpace(w, p);
  }

  lemma StrippedWithSpace(w: string, p: char)
    requires w != [] && NoSpace(w) && PhraseEnd.IsPhraseEnd(p)
    ensures StrippedText([SpecialToken, w, [p]]) == w + [' ', p]
  {
    var s := w + [' ', p];
    calc {
      StrippedText([SpecialToken, w, [p]]);
    == { assert [SpecialToken, w, [p]] == [SpecialToken] + [w, [p]]; StripAfterSpecial([w, [p]]); }
      StrippedText([w, [p]]);
    == { JoinCons(" ", w, [[p]]); assert Join(" ", [w, [p]]) == s; }
      Strip(s);
    == { assert s[0] == w[0] && s[|s| - 1] == p; StripEnds(s); }
      s;
    }
  }

  lemma PhraseEndWithoutSpace(w: string, p: char)
    requires w != [] && NoSpace(w) && !PhraseEnd.IsPhraseEnd(w[|w| - 1]) && PhraseEnd.IsPhraseEnd(p)
    requires StrippedText([SpecialToken, w, [p]]) == w + [' ', p]
    ensures PhraseEnd.PostProcess(w + [' ', p]) == w + [p]
  {
    assert PhraseEnd.ClosedText(w);
    forall i | 0 <= i < |w|
      ensures !PhraseEnd.SpaceBeforePhraseEndAt(w, i)
    {
      assert !IsSpace(w[i]);
    }
    PhraseEnd.PhraseEndUnchanged(w);
    PhraseEnd.SpaceBeforePhraseEndRemoved(w, p, "");
  }

  class MarkovChainTextMaker {
    const window: int
    var db: Db
    /** The parent `TreebankWordTokenizer.tokenize`. */
    const treebank: Tokenizer
    /** `RE_PUNCTUATION.match`. */
    const isPunctuation: string -> bool
    /** NLTK's punkt sentence tokenizer. */
    const sentenceTokenizer: Tokenizer

    /** `MarkovChainTextMaker(window=...)` without a database file. */
    constructor (window: int, treebank: Tokenizer, isPunctuation: string -> bool, punkt: Tokenizer)
      ensures this.window == window && db == map[]
      ensures this.treebank == treebank && this.isPunctuation == isPunctuation && sentenceTokenizer == punkt
    {
      this.window := window;
      db := map[];
      this.treebank := treebank;
      this.isPunctuation := isPunctuation;
      sentenceTokenizer := punkt;
    }

    /** `increment_words(words)`; an empty list inserts the special tuple
        and then raises `IndexError`. */
    method IncrementWords(words: seq<string>) returns (r: Result<()>)
      modifies this
      ensures words != [] ==> r == Success(()) && db == Increment(old(db), (Special, words[0]))
      ensures words == [] ==> r == Failure(IndexError) && db == Touch(old(db))
    {
      if words == [] {
        db := Touch(db);
        return Failure(IndexError);
      }
      db := db[Special := AddOne(Entry(db, Special), words[0])];
      r := Success(());
    }

    /** `database_init(text)`: punkt sentences, each cut into words by
        `WordTokenizer` (the same passthrough
        as in `presswork/text_maker/`), counted and normalised. */
    method DatabaseInit(text: string)
      modifies this
      ensures db == Trained(old(db), PyMarkovChainFork.WordLists(sentenceTokenizer(text), treebank), window)
    {
      var lines := sentenceTokenizer(text);
      var lists := TextMakerPyMarkovChainFork.TokenizeLines(treebank, isPunctuation, lines);
      db := Train(db, lists, window);
    }

    /** `make_sentences(number)`: `number` calls of `make_sentence()`. */
    method MakeSentences(number: int, draws: Draws, pos: nat, fuel: nat) returns (r: Result<string>, next: nat)
      modifies this
      ensures var b := SentencesFrom(old(db), Special, Times(number), draws, pos, fuel);
        (b.Success? ==> r == Success(SentencesString(b.value.sentences)) && db == b.value.db && next == b.value.pos)
        && (b.Failure? ==> r == Failure(b.error) && db == old(db) && next == pos)
    {
      var b := SentencesList(db, Special, number, draws, pos, fuel);
      if b.Failure? {
        return Failure(b.error), pos;
      }
      db := b.value.db;
      r, next := Success(SentencesString(b.value.sentences)), b.value.pos;
    }

    /** `make_sentence()`: one sentence from the special tuple. */
    method MakeSentence(draws: Draws, pos: nat, fuel: nat) returns (r: Result<string>, next: nat)
      modifies this
      ensures var g := GenerateSentence(old(db), Special, draws, pos, fuel);
        (g.Success? ==> r == Success(StrippedText(g.value.words)) && db == g.value.db && next == g.value.pos)
        && (g.Failure? ==> r == Failure(g.error) && db == old(db) && next == pos)
    {
      var g := GenerateSentenceList(db, Special, draws, pos, fuel);
      if g.Failure? {
        return Failure(g.error), pos;
      }
      db := g.value.db;
      r, next := Success(StrippedText(g.value.words)), g.value.pos;
    }

    /** `make_sentence_with_seed(seed)`: `seed.split()` must end in a word
        that is a key on its own (`IndexError` for a blank seed,
        `EndOfChainException` for an unknown last word). */
    method MakeSentenceWithSeed(seed: string, draws: Draws, pos: nat, fuel: nat) returns (r: Result<string>, next: nat)
      modifies this
      ensures SeedTokens(old(db), seed).Failure? ==>
        r == Failure(SeedTokens(old(db), seed).error) && db == old(db) && next == pos
      ensures SeedTokens(old(db), seed).Success? ==>
        var g := GenerateSentence(old(db), SeedTokens(old(db), seed).value, draws, pos, fuel);
        (g.Success? ==> r == Success(StrippedText(g.value.words)) && db == g.value.db && next == g.value.pos)
        && (g.Failure? ==> r == Failure(g.error) && db == old(db) && next == pos)
    {
      var words := SeedTokens(db, seed);
      if words.Failure? {
        return Failure(words.error), pos;
      }
      var g := GenerateSentenceList(db, words.value, draws, pos, fuel);
      if g.Failure? {
        return Failure(g.error), pos;
      }
      db := g.value.db;
      r, next := Success(StrippedText(g.value.words)), g.value.pos;
    }
  }
}
