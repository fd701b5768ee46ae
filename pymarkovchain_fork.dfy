/**
 * `presswork/text/_pymarkovchain_fork.py`: the PyMarkovChain fork that
 * tokenizes raw text itself (NLTK's punkt sentence tokenizer, then a word
 * tokenizer), and turns generated sentences into strings with a clean-up
 * of the space before phrase-ending punctuation.
 */
module PyMarkovChainFork {
  import opened Wrappers
  import opened PyStr
  import opened RandomSource
  import opened MarkovDb
  import opened MarkovGeneration
  import opened PhraseEnd

  /** A tokenizer from outside the model: NLTK's punkt sentence tokenizer,
      or a word tokenizer such as NLTK's `TreebankWordTokenizer`. */
  type Tokenizer = string -> seq<string>

  /** `DEFAULT_WINDOW_SIZE_WORDS`. */
  const DefaultWindow := 2

  /** Each sentence's words, by the word tokenizer. */
  function WordLists(lines: seq<string>, tokenize: Tokenizer): (r: seq<seq<string>>)
    ensures |r| == |lines|
  {
    seq(|lines|, i requires 0 <= i < |lines| => tokenize(lines[i]))
  }

  /** A sentence made from the special tuple starts with the end token, so
      its string starts with a space, which the clean-up keeps unless the
      first word opens with phrase punctuation. */
  lemma SpecialSentenceKeepsLeadingSpace(rest: seq<string>)
    requires rest != [] && rest[0] != [] && !IsPhraseEnd(rest[0][0])
    ensures SentenceString([SpecialToken] + rest) == " " + RemoveSpaceBeforePhraseEnd(Join(" ", rest))
  {
    JoinAfterSpecial(rest);
    var t := " " + Join(" ", rest);
    assert rest != [] && rest[0] != [] ==> Join(" ", rest)[0] == rest[0][0] by {
      if |rest| > 1 {
        assert Join(" ", rest) == rest[0] + " " + Join(" ", rest[1..]);
      }
    }
    assert MatchLength(t) == 0;
    assert t[1..] == Join(" ", rest);
  }

  // ---------------------------------------------------------------------
  // Strings of generated sentences

  /** `make_sentence()`'s string for a generated word list: `' '.join`,
      not stripped, then post-processed. */
  function SentenceString(words: seq<string>): string {
    PostProcess(Join(" ", words))
  }

  /** The strings of several sentences. */
  function SentenceStrings(sentences: seq<seq<string>>): (r: seq<string>)
    ensures |r| == |sentences|
  {
    seq(|sentences|, i requires 0 <= i < |sentences| => SentenceString(sentences[i]))
  }

  /** The body of `make_sentences(number)`: `number` sentence strings
      joined by two spaces, post-processed once more. */
  function SentencesString(sentences: seq<seq<string>>): string {
    PostProcess(Join("  ", SentenceStrings(sentences)))
  }

  class PyMarkovChainWithNLTK {
    const window: int
    var db: Db
    const wordTokenizer: Tokenizer
    const sentenceTokenizer: Tokenizer

    /** `PyMarkovChainWithNLTK(window=..., word_tokenizer=...)` without a
        database file: the given word tokenizer or else a
        `TreebankWordTokenizer`, and the punkt sentence tokenizer. */
    constructor (window: int, wordTokenizer: Option<Tokenizer>, treebank: Tokenizer, punkt: Tokenizer)
      ensures this.window == window && db == map[]
      ensures this.wordTokenizer == (if wordTokenizer.Some? then wordTokenizer.value else treebank)
      ensures sentenceTokenizer == punkt
    {
      this.window := window;
      db := map[];
      var chosen: Tokenizer := if wordTokenizer.Some? then wordTokenizer.value else treebank;
      this.wordTokenizer := chosen;
      sentenceTokenizer := punkt;
    }

    /** `increment_words(words)`; an empty list inserts the special tuple
        and then raises `IndexError`. */
    method IncrementWords(words: seq<string>) returns (r: Result<()>)
      modifies this
      ensures words != [] ==> r == Success(()) && db == Increment(old(db), (Special, words[0]))
      ensures words == [] ==> r == Failure(IndexError) && db == Touch(old(db))
    {
      if words == [] {
        db := Touch(db);
        return Failure(IndexError);
      }
      db := db[Special := AddOne(Entry(db, Special), words[0])];
      r := Success(());
    }

    /** `database_init(text)`: the text cut into sentences, each sentence
        into words, and those counted and normalised. */
    method DatabaseInit(text: string)
      modifies this
      ensures db == Trained(old(db), WordLists(sentenceTokenizer(text), wordTokenizer), window)
    {
      var lines := sentenceTokenizer(text);
      db := Train(db, WordLists(lines, wordTokenizer), window);
    }

    /** `make_sentences_list(number, seed_str)`: a non-empty seed string is
        checked and split into the seed words; otherwise the special tuple
        is the seed. */
    method MakeSentencesList(number: int, seedStr: string, draws: Draws, pos: nat, fuel: nat)
      returns (r: Result<seq<seq<string>>>, next: nat)
      modifies this
      ensures seedStr != [] && SeedTokens(old(db), seedStr).Failure? ==>
        r == Failure(SeedTokens(old(db), seedStr).error) && db == old(db) && next == pos
      ensures seedStr == [] || SeedTokens(old(db), seedStr).Success? ==>
        var seed := if seedStr == [] then Special else SeedTokens(old(db), seedStr).value;
        var b := SentencesFrom(old(db), seed, Times(number), draws, pos, fuel);
        (b.Success? ==> r == Success(b.value.sentences) && db == b.value.db && next == b.value.pos)
        && (b.Failure? ==> r == Failure(b.error) && db == old(db) && next == pos)
    {
      var seed := Special;
      if seedStr != [] {
        var words := SeedTokens(db, seedStr);
        if words.Failure? {
          return Failure(words.error), pos;
        }
        seed := words.value;
      }
      var b := SentencesList(db, seed, number, draws, pos, fuel);
      if b.Failure? {
        return Failure(b.error), pos;
      }
      db := b.value.db;
      r, next := Success(b.value.sentences), b.value.pos;
    }

    /** `make_sentences(number)` as written: the method is decorated with
        `@DeprecationWarning`, which replaces it by an exception instance,
        so every call raises `TypeError` before doing anything. */
    method MakeSentences(number: int) returns (r: Result<string>)
      ensures r == Failure(TypeError)
    {
      r := Failure(TypeError);
    }

    /** The body of `make_sentences(number)` as its authors wrote it:
        `number` calls of `make_sentence()`, joined by two spaces and
        post-processed. */
    method MakeSentencesUndecorated(number: int, draws: Draws, pos: nat, fuel: nat)
      returns (r: Result<string>, next: nat)
      modifies this
      ensures var b := SentencesFrom(old(db), Special, Times(number), draws, pos, fuel);
        (b.Success? ==> r == Success(SentencesString(b.value.sentences)) && db == b.value.db && next == b.value.pos)
        && (b.Failure? ==> r == Failure(b.error) && db == old(db) && next == pos)
    {
      var b := SentencesList(db, Special, number, draws, pos, fuel);
      if b.Failure? {
        return Failure(b.error), pos;
      }
      db := b.value.db;
      r, next := Success(SentencesString(b.value.sentences)), b.value.pos;
    }

    /** `make_sentence()`: one sentence from the special tuple. */
    method MakeSentence(draws: Draws, pos: nat, fuel: nat) returns (r: Result<string>, next: nat)
      modifies this
      ensures var g := GenerateSentence(old(db), Special, draws, pos, fuel);
        (g.Success? ==> r == Success(SentenceString(g.value.words)) && db == g.value.db && next == g.value.pos)
        && (g.Failure? ==> r == Failure(g.error) && db == old(db) && next == pos)
    {
      var g := GenerateSentenceList(db, Special, draws, pos, fuel);
      if g.Failure? {
        return Failure(g.error), pos;
      }
      db := g.value.db;
      r, next := Success(SentenceString(g.value.words)), g.value.pos;
    }

    /** `make_sentence_with_seed(seed)`: the seed words, then the generated
        ones. */
    method MakeSentenceWithSeed(seed: string, draws: Draws, pos: nat, fuel: nat) returns (r: Result<string>, next: nat)
      modifies this
      ensures SeedTokens(old(db), seed).Failure? ==>
        r == Failure(SeedTokens(old(db), seed).error) && db == old(db) && next == pos
      ensures SeedTokens(old(db), seed).Success? ==>
        var g := GenerateSentence(old(db), SeedTokens(old(db), seed).value, draws, pos, fuel);
        (g.Success? ==> r == Success(SentenceString(g.value.words)) && db == g.value.db && next == g.value.pos)
        && (g.Failure? ==> r == Failure(g.error) && db == old(db) && next == pos)
    {
      var words := SeedTokens(db, seed);
      if words.Failure? {
        return Failure(words.error), pos;
      }
      var g := GenerateSentenceList(db, words.value, draws, pos, fuel);
      if g.Failure? {
        return Failure(g.error), pos;
      }
      db := g.value.db;
      r, next := Success(SentenceString(g.value.words)), g.value.pos;
    }
  }

  /** As written, `make_sentences` fails on a fresh model, where its body
      would return the empty string: the one sentence from an empty
      database is the end token alone. */
  lemma UndecoratedBodyReturnsEmpty(draws: Draws, pos: nat, fuel: nat)
    ensures SentencesFrom(map[], Special, 1, draws, pos, fuel).Success?
    ensures SentencesString(SentencesFrom(map[], Special, 1, draws, pos, fuel).value.sentences) == ""
  {
    var db := Touch(map[]);
    assert db[Special] == [];
    assert NextWordOf(map[], Special, draws, pos) == Step(SpecialToken, db, pos + 1);
    assert GenerateSentence(map[], Special, draws, pos, fuel) == Success(Generated(Special, db, pos + 1));
    assert SentencesFrom(db, Special, 0, draws, pos + 1, fuel) == Success(Batch([], db, pos + 1));
    var b := SentencesFrom(map[], Special, 1, draws, pos, fuel);
    assert [Special] + [] == [Special];
    assert b == Success(Batch([Special], db, pos + 1));
    assert SentenceString(Special) == "";
    assert SentenceStrings([Special]) == [""];
  }

  /** The sentences `make_sentences` would join: each starts with the end
      token and continues with non-empty candidates of the database. */
  lemma UndecoratedSentencesShape(db: Db, number: int, draws: Draws, pos: nat, fuel: nat)
    ensures var b := SentencesFrom(db, Special, Times(number), draws, pos, fuel);
      b.Success? ==>
        |SentenceStrings(b.value.sentences)| == Times(number)
        && forall i :: 0 <= i < |b.value.sentences| ==> Continues(db, Special, b.value.sentences[i])
  {
    SentencesFromShape(db, Special, Times(number), draws, pos, fuel);
  }
}
