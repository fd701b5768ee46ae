/**
 * `presswork/text_maker/_pymarkovchain_fork.py`: the PyMarkovChain fork
 * with NLTK tokenization, in the version whose `_accumulate_with_seed`
 * strips the joined sentence before the phrase-end clean-up. Its word
 * tokenizer is the Treebank tokenizer passed through unchanged.
 */
module TextMakerPyMarkovChainFork {
  import opened Wrappers
  import opened PyStr
  import opened RandomSource
  import opened MarkovDb
  import opened MarkovGeneration
  import opened PhraseEnd
  import PyMarkovChainFork

  type Tokenizer = PyMarkovChainFork.Tokenizer

  /** `DEFAULT_WINDOW_SIZE_WORDS`. */
  const DefaultWindow := 2

  /** `WordTokenizer.tokenize(text)`: the parent Treebank tokenizer's
      tokens, each yielded by one of two branches of a punctuation test
      that both yield it. */
  method WordTokenize(treebank: Tokenizer, isPunctuation: string -> bool, text: string) returns (out: seq<string>)
    ensures out == treebank(text)
  {
    var tokens := treebank(text);
    out := [];
    var i := 0;
    while i < |tokens|
      invariant 0 <= i <= |tokens| && out == tokens[..i]
    {
      if isPunctuation(tokens[i]) {
        out := out + [tokens[i]];
      } else {
        out := out + [tokens[i]];
      }
      i := i + 1;
    }
    assert tokens[..|tokens|] == tokens;
  }

  /** Each sentence's words by the word tokenizer. */
  method TokenizeLines(treebank: Tokenizer, isPunctuation: string -> bool, lines: seq<string>)
    returns (lists: seq<seq<string>>)
    ensures lists == PyMarkovChainFork.WordLists(lines, treebank)
  {
    lists := [];
    var i := 0;
    while i < |lines|
      invariant 0 <= i <= |lines| && |lists| == i
      invariant forall j :: 0 <= j < i ==> lists[j] == treebank(lines[j])
    {
      var words := WordTokenize(treebank, isPunctuation, lines[i]);
      lists := lists + [words];
      i := i + 1;
    }
  }

  /** `make_sentence()`'s string for a generated word list: joined with
      single spaces, stripped, then post-processed. */
  function SentenceString(words: seq<string>): string {
    PostProcess(StrippedText(words))
  }

  /** The strings of several sentences. */
  function SentenceStrings(sentences: seq<seq<string>>): (r: seq<string>)
    ensures |r| == |sentences|
  {
    seq(|sentences|, i requires 0 <= i < |sentences| => SentenceString(sentences[i]))
  }

  /** `make_sentences(number)`: the sentence strings joined by two spaces,
      post-processed once more. */
  function SentencesString(sentences: seq<seq<string>>): string {
    PostProcess(Join("  ", SentenceStrings(sentences)))
  }

  /** A sentence string has no whitespace at either end, is no longer than
      the stripped text, and keeps every other character of it in order. */
  lemma SentenceStringShape(words: seq<string>)
    ensures var r := SentenceString(words);
      (r == [] || (!IsSpace(r[0]) && !IsSpace(r[|r| - 1])))
      && |r| <= |StrippedText(words)|
      && RemoveWhere(r, IsAsciiSpace) == RemoveWhere(StrippedText(words), IsAsciiSpace)
  {
    var t := StrippedText(words);
    PhraseEndKeepsText(t);
    if t != [] {
      PhraseEndKeepsEnds(t);
    }
  }

  /** Unlike the `presswork/text` version, the space the empty word leaves
      in front of a sentence grown from the special tuple is stripped. */
  lemma SpecialSentenceString(rest: seq<string>)
    ensures SentenceString([SpecialToken] + rest) == SentenceString(rest)
  {
    StripAfterSpecial(rest);
  }

  class PyMarkovChainWithNLTK {
    const window: int
    var db: Db
    /** The parent `TreebankWordTokenizer.tokenize`. */
    const treebank: Tokenizer
    /** `RE_PUNCTUATION.match`. */
    const isPunctuation: string -> bool
    /** NLTK's punkt sentence tokenizer. */
    const sentenceTokenizer: Tokenizer

    /** `PyMarkovChainWithNLTK(window=...)` without a database file. */
    constructor (window: int, treebank: Tokenizer, isPunctuation: string -> bool, punkt: Tokenizer)
      ensures this.window == window && db == map[]
      ensures this.treebank == treebank && this.isPunctuation == isPunctuation && sentenceTokenizer == punkt
    {
      this.window := window;
      db := map[];
      this.treebank := treebank;
      this.isPunctuation := isPunctuation;
      sentenceTokenizer := punkt;
    }

    /** `increment_words(words)`; an empty list inserts the special tuple
        and then raises `IndexError`. */
    method IncrementWords(words: seq<string>) returns (r: Result<()>)
      modifies this
      ensures words != [] ==> r == Success(()) && db == Increment(old(db), (Special, words[0]))
      ensures words == [] ==> r == Failure(IndexError) && db == Touch(old(db))
    {
      if words == [] {
        db := Touch(db);
        return Failure(IndexError);
      }
      db := db[Special := AddOne(Entry(db, Special), words[0])];
      r := Success(());
    }

    /** `database_init(text)`: punkt sentences, each cut into words by
        `WordTokenizer`, counted and normalised. */
    method DatabaseInit(text: string)
      modifies this
      ensures db == Trained(old(db), PyMarkovChainFork.WordLists(sentenceTokenizer(text), treebank), window)
    {
      var lines := sentenceTokenizer(text);
      var lists := TokenizeLines(treebank, isPunctuation, lines);
      db := Train(db, lists, window);
    }

    /** `make_sentences(number)`: `number` calls of `make_sentence()`. */
    method MakeSentences(number: int, draws: Draws, pos: nat, fuel: nat) returns (r: Result<string>, next: nat)
      modifies this
      ensures var b := SentencesFrom(old(db), Special, Times(number), draws, pos, fuel);
        (b.Success? ==> r == Success(SentencesString(b.value.sentences)) && db == b.value.db && next == b.value.pos)
        && (b.Failure? ==> r == Failure(b.error) && db == old(db) && next == pos)
    {
      var b := SentencesList(db, Special, number, draws, pos, fuel);
      if b.Failure? {
        return Failure(b.error), pos;
      }
      db := b.value.db;
      r, next := Success(SentencesString(b.value.sentences)), b.value.pos;
    }

    /** `make_sentence()`: one sentence from the special tuple. */
    method MakeSentence(draws: Draws, pos: nat, fuel: nat) returns (r: Result<string>, next: nat)
      modifies this
      ensures var g := GenerateSentence(old(db), Special, draws, pos, fuel);
        (g.Success? ==> r == Success(SentenceString(g.value.words)) && db == g.value.db && next == g.value.pos)
        && (g.Failure? ==> r == Failure(g.error) && db == old(db) && next == pos)
    {
      var g := GenerateSentenceList(db, Special, draws, pos, fuel);
      if g.Failure? {
        return Failure(g.error), pos;
      }
      db := g.value.db;
      r, next := Success(SentenceString(g.value.words)), g.value.pos;
    }

    /** `make_sentence_with_seed(seed)`: `seed.split()` must end in a word
        that is a key on its own (`IndexError` for a blank seed,
        `EndOfChainException` for an unknown last word). */
    method MakeSentenceWithSeed(seed: string, draws: Draws, pos: nat, fuel: nat) returns (r: Result<string>, next: nat)
      modifies this
      ensures SeedTokens(old(db), seed).Failure? ==>
        r == Failure(SeedTokens(old(db), seed).error) && db == old(db) && next == pos
      ensures SeedTokens(old(db), seed).Success? ==>
        var g := GenerateSentence(old(db), SeedTokens(old(db), seed).value, draws, pos, fuel);
        (g.Success? ==> r == Success(SentenceString(g.value.words)) && db == g.value.db && next == g.value.pos)
        && (g.Failure? ==> r == Failure(g.error) && db == old(db) && next == pos)
    {
      var words := SeedTokens(db, seed);
      if words.Failure? {
        return Failure(words.error), pos;
      }
      var g := GenerateSentenceList(db, words.value, draws, pos, fuel);
      if g.Failure? {
        return Failure(g.error), pos;
      }
      db := g.value.db;
      r, next := Success(SentenceString(g.value.words)), g.value.pos;
    }
  }
}
