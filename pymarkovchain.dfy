/**
 * `presswork/text/markov/thirdparty/_pymarkovchain.py`: the PyMarkovChain
 * fork that trains on word lists already tokenized by the caller. Its
 * database lives in the object; `random` is the module-level generator,
 * given here as the stream `draws` and a position in it.
 */
module PyMarkovChain {
  import opened Wrappers
  import opened RandomSource
  import opened MarkovDb
  import opened MarkovGeneration

  /** `DEFAULT_WINDOW_SIZE_WORDS`, from `constants.DEFAULT_NGRAM_SIZE`. */
  const DefaultWindow := 2

  class PyMarkovChainForked {
    const window: int
    var db: Db

    /** `PyMarkovChainForked(window=...)` without a database file: an empty
        database. */
    constructor (window: int := DefaultWindow)
      ensures this.window == window && db == map[]
    {
      this.window := window;
      db := map[];
    }

    /** `increment_words(words)`: one more count of the first word after the
        special tuple. The special tuple is looked up before `words[0]`, so
        an empty list still inserts it and then raises `IndexError`. */
    method IncrementWords(words: seq<string>) returns (r: Result<()>)
      modifies this
      ensures words != [] ==> r == Success(()) && db == Increment(old(db), (Special, words[0]))
      ensures words == [] ==> r == Failure(IndexError) && db == Touch(old(db))
    {
      if words == [] {
        db := Touch(db);
        return Failure(IndexError);
      }
      db := db[Special := AddOne(Entry(db, Special), words[0])];
      r := Success(());
    }

    /** `database_init(sentences_as_word_lists)`: counts added to the
        database it already holds, then every key normalised. */
    method DatabaseInit(sentences: seq<seq<string>>)
      modifies this
      ensures db == Trained(old(db), sentences, window)
    {
      db := Train(db, sentences, window);
    }

    /** `make_sentences_list(number)`: `number` sentences from the special
        tuple, each a list that starts with the end token. */
    method MakeSentencesList(number: int, draws: Draws, pos: nat, fuel: nat)
      returns (r: Result<seq<seq<string>>>, next: nat)
      modifies this
      ensures var b := SentencesFrom(old(db), Special, Times(number), draws, pos, fuel);
        (b.Success? ==> r == Success(b.value.sentences) && db == b.value.db && next == b.value.pos)
        && (b.Failure? ==> r == Failure(b.error) && db == old(db) && next == pos)
    {
      var b := SentencesList(db, Special, number, draws, pos, fuel);
      if b.Failure? {
        return Failure(b.error), pos;
      }
      db := b.value.db;
      r, next := Success(b.value.sentences), b.value.pos;
    }
  }

  /** What `make_sentences_list` returns: `number` lists (none when it is
      not positive), each the special tuple's end token followed by
      non-empty candidates of the database. */
  lemma SentencesListShape(db: Db, number: int, draws: Draws, pos: nat, fuel: nat)
    ensures var b := SentencesFrom(db, Special, Times(number), draws, pos, fuel);
      b.Success? ==>
        |b.value.sentences| == (if number < 0 then 0 else number)
        && forall i :: 0 <= i < |b.value.sentences| ==>
             b.value.sentences[i] != [] && b.value.sentences[i][0] == SpecialToken
             && Continues(db, Special, b.value.sentences[i])
  {
    SentencesFromShape(db, Special, Times(number), draws, pos, fuel);
    var b := SentencesFrom(db, Special, Times(number), draws, pos, fuel);
    if b.Success? {
      forall i | 0 <= i < |b.value.sentences|
        ensures b.value.sentences[i] != [] && b.value.sentences[i][0] == SpecialToken
      {
        assert Continues(db, Special, b.value.sentences[i]);
        assert Special <= b.value.sentences[i];
      }
    }
  }

  /** A database that has seen no sentence makes only empty sentences: the
      special tuple holds nothing but the end token. */
  lemma UntrainedMakesEmptySentences(window: int, draws: Draws, pos: nat)
    ensures NextWordOf(Trained(map[], [], window), Special, draws, pos).word == SpecialToken
  {
    var db := Trained(map[], [], window);
    assert Observations([], window) == [];
    assert Count(Initialized(map[]), []) == Initialized(map[]);
    assert Initialized(map[]) == map[Special := [(SpecialToken, 0.0)]];
    assert Sum([(SpecialToken, 0.0)]) == 0.0 by {
      assert [(SpecialToken, 0.0)][..0] == [];
    }
    assert db[Special] == [(SpecialToken, 0.0)];
    WalkIsCandidate(db[Special], draws(pos), 0.0, SpecialToken);
  }
}
