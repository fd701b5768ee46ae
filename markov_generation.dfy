/**
 * Sentence generation from a probability database, shared by the four
 * PyMarkovChain-derived classes: `_next_word` backs off to the longest
 * known suffix of the words so far and walks its candidates with one
 * `random()` draw, and `_generate_sentence_as_list` (or
 * `_accumulate_with_seed`) appends words until the end token comes up.
 */
module MarkovGeneration {
  import opened Wrappers
  import opened PyStr
  import opened RandomSource
  import opened MarkovDb

  // ---------------------------------------------------------------------
  // Walking a key's candidates

  /** The `for candidate in probmap` loop for the draw `sample`: the first
      candidate whose weight is not below what is left of the sample, else
      the first candidate of strictly greatest weight above `maxProb`, else
      `maxWord`. */
  function Walk(ws: Weights, sample: real, maxProb: real, maxWord: string): string
    decreases |ws|
  {
    if ws == [] then maxWord
    else
      var p := ws[0].1;
      var maxProb' := if p > maxProb then p else maxProb;
      var maxWord' := if p > maxProb then ws[0].0 else maxWord;
      if sample > p then Walk(ws[1..], sample - p, maxProb', maxWord') else ws[0].0
  }

  /** The word the loop falls back to: the running maximum at its end. */
  function MaxWord(ws: Weights, maxProb: real, maxWord: string): string
    decreases |ws|
  {
    if ws == [] then maxWord
    else if ws[0].1 > maxProb then MaxWord(ws[1..], ws[0].1, ws[0].0)
    else MaxWord(ws[1..], maxProb, maxWord)
  }

  lemma {:induction false} SumFront(ws: Weights)
    requires ws != []
    ensures Sum(ws) == ws[0].1 + Sum(ws[1..])
    decreases |ws|
  {
    if |ws| == 1 {
      assert ws[..0] == [] && ws[1..] == [];
    } else {
      var init := ws[..|ws| - 1];
      SumFront(init);
      assert init[1..] == ws[1..][..|ws| - 2];
      assert ws[1..][|ws| - 2] == ws[|ws| - 1];
    }
  }

  /** The weights of the candidates up to and including the i-th. */
  function Running(ws: Weights, i: nat): real
    requires i < |ws|
  {
    Sum(ws[..i + 1])
  }

  lemma RunningFront(ws: Weights, i: nat)
    requires i < |ws|
    ensures i == 0 ==> Running(ws, i) == ws[0].1
    ensures i > 0 ==> Running(ws, i) == ws[0].1 + Running(ws[1..], i - 1)
  {
    assert ws[..1][..0] == [];
    assert Sum(ws[..1]) == Sum(ws[..1][..0]) + ws[0].1;
    if i > 0 {
      SumFront(ws[..i + 1]);
      assert ws[..i + 1][1..] == ws[1..][..i];
    }
  }

  /** The walk returns the first candidate j whose running total reaches
      the sample: each candidate is picked for a stretch of samples as wide
      as its weight. */
  lemma {:induction false} WalkReaches(ws: Weights, s: real, maxProb: real, maxWord: string, j: nat)
    requires j < |ws| && s <= Running(ws, j)
    requires forall i :: 0 <= i < j ==> s > Running(ws, i)
    ensures Walk(ws, s, maxProb, maxWord) == ws[j].0
    decreases j
  {
    RunningFront(ws, j);
    if j > 0 {
      var p := ws[0].1;
      var rest := ws[1..];
      RunningFront(ws, 0);
      forall i | 0 <= i < j - 1
        ensures s - p > Running(rest, i)
      {
        RunningFront(ws, i + 1);
      }
      WalkReaches(rest, s - p, if p > maxProb then p else maxProb, if p > maxProb then ws[0].0 else maxWord, j - 1);
    }
  }

  /** When no running total reaches the sample, the walk returns the
      fallback word. */
  lemma {:induction false} WalkFallsBack(ws: Weights, s: real, maxProb: real, maxWord: string)
    requires forall i :: 0 <= i < |ws| ==> s > Running(ws, i)
    ensures Walk(ws, s, maxProb, maxWord) == MaxWord(ws, maxProb, maxWord)
    decreases |ws|
  {
    if ws != [] {
      var p := ws[0].1;
      var rest := ws[1..];
      RunningFront(ws, 0);
      forall i | 0 <= i < |rest|
        ensures s - p > Running(rest, i)
      {
        RunningFront(ws, i + 1);
      }
      WalkFallsBack(rest, s - p, if p > maxProb then p else maxProb, if p > maxProb then ws[0].0 else maxWord);
    }
  }

  /** The fallback is `maxWord` when no weight exceeds `maxProb`. */
  lemma {:induction false} MaxWordWithoutLarger(ws: Weights, maxProb: real, maxWord: string)
    requires forall i :: 0 <= i < |ws| ==> ws[i].1 <= maxProb
    ensures MaxWord(ws, maxProb, maxWord) == maxWord
    decreases |ws|
  {
    if ws != [] {
      assert forall k :: 1 <= k < |ws| ==> ws[k] == ws[1..][k - 1];
      MaxWordWithoutLarger(ws[1..], maxProb, maxWord);
    }
  }

  /** The i-th weight is the greatest, and the first one that great. */
  predicate FirstMaximum(ws: Weights, i: nat) {
    i < |ws| && (forall k :: 0 <= k < |ws| ==> ws[k].1 <= ws[i].1)
    && forall k :: 0 <= k < i ==> ws[k].1 < ws[i].1
  }

  /** Otherwise the fallback is the first candidate of greatest weight
      (the comparison is strict, so a later tie does not replace it). */
  lemma {:induction false} MaxWordIsFirstMaximum(ws: Weights, maxProb: real, maxWord: string, i: nat)
    requires FirstMaximum(ws, i) && ws[i].1 > maxProb
    ensures MaxWord(ws, maxProb, maxWord) == ws[i].0
    decreases |ws|
  {
    var rest := ws[1..];
    assert forall k :: 1 <= k < |ws| ==> ws[k] == rest[k - 1];
    if i == 0 {
      MaxWordWithoutLarger(rest, ws[0].1, ws[0].0);
    } else {
      assert ws[0].1 < ws[i].1;
      assert FirstMaximum(rest, i - 1);
      MaxWordIsFirstMaximum(rest, if ws[0].1 > maxProb then ws[0].1 else maxProb,
                            if ws[0].1 > maxProb then ws[0].0 else maxWord, i - 1);
    }
  }

  /** A key's candidates together cover every sample up to their sum: such
      a sample always picks a candidate and never needs the fallback. */
  lemma {:induction false} WalkWithinSum(ws: Weights, s: real, maxProb: real, maxWord: string)
    requires ws != [] && s <= Sum(ws)
    ensures Walk(ws, s, maxProb, maxWord) in Candidates(ws)
    decreases |ws|
  {
    SumFront(ws);
    var p := ws[0].1;
    if s > p && ws[1..] != [] {
      WalkWithinSum(ws[1..], s - p, if p > maxProb then p else maxProb, if p > maxProb then ws[0].0 else maxWord);
    }
  }

  /** The walk returns a candidate or the fallback word. */
  lemma {:induction false} WalkIsCandidate(ws: Weights, s: real, maxProb: real, maxWord: string)
    ensures Walk(ws, s, maxProb, maxWord) == maxWord || Walk(ws, s, maxProb, maxWord) in Candidates(ws)
    decreases |ws|
  {
    if ws != [] {
      var p := ws[0].1;
      WalkIsCandidate(ws[1..], s - p, if p > maxProb then p else maxProb, if p > maxProb then ws[0].0 else maxWord);
    }
  }

  /** A database key normalised to sum 1 never needs the fallback, since
      every draw is below 1. */
  lemma NormalizedKeyPicksCandidate(db: Db, k: seq<string>, r: Unit)
    requires k in db && Sum(db[k]) != 0.0
    ensures Walk(Normalize(db)[k], r, 0.0, SpecialToken) in Candidates(db[k])
  {
    NormalizeWeightsSumToOne(db, k, SpecialToken);
    WalkWithinSum(Normalize(db)[k], r, 0.0, SpecialToken);
  }

  /** The `for candidate in probmap` loop. */
  method PickCandidate(probmap: Weights, sample: real) returns (word: string)
    ensures word == Walk(probmap, sample, 0.0, SpecialToken)
  {
    var left := sample;
    var maxprob := 0.0;
    var maxprobword := SpecialToken;
    var i := 0;
    while i < |probmap|
      invariant 0 <= i <= |probmap|
      invariant Walk(probmap, sample, 0.0, SpecialToken) == Walk(probmap[i..], left, maxprob, maxprobword)
    {
      var (candidate, p) := probmap[i];
      if p > maxprob {
        maxprob := p;
        maxprobword := candidate;
      }
      if left > p {
        left := left - p;
      } else {
        return candidate;
      }
      assert probmap[i..][1..] == probmap[i + 1..];
      i := i + 1;
    }
    word := maxprobword;
  }

  // ---------------------------------------------------------------------
  // The next word

  /** The `while last_words not in self.db` back-off: the longest suffix of
      `ctx` that is a key, dropping words from the front, and giving up
      once a single word is not a key. */
  function Backoff(db: Db, ctx: seq<string>): (r: Option<seq<string>>)
    ensures r.Some? ==> r.value in db
    decreases |ctx|
  {
    if ctx in db then Some(ctx)
    else if |ctx| <= 1 then None
    else Backoff(db, ctx[1..])
  }

  /** The back-off finds the longest suffix of the context that is a key;
      when it finds none, no non-empty suffix is a key. */
  lemma {:induction false} BackoffLongestSuffix(db: Db, ctx: seq<string>)
    ensures var r := Backoff(db, ctx);
      (r.Some? ==> |r.value| <= |ctx| && r.value == ctx[|ctx| - |r.value|..])
      && (r.Some? ==> forall j :: 0 <= j < |ctx| - |r.value| ==> ctx[j..] !in db)
      && (r.None? ==> forall j :: 0 <= j < |ctx| ==> ctx[j..] !in db)
    decreases |ctx|
  {
    if ctx !in db && |ctx| > 1 {
      BackoffLongestSuffix(db, ctx[1..]);
      assert forall j :: 1 <= j < |ctx| ==> ctx[j..] == ctx[1..][j - 1..];
    }
  }

  /** The word `_next_word` returns, the database after it, and the
      position in the draws. */
  datatype Step = Step(word: string, db: Db, pos: nat)

  /** `_next_word(last_words)`: the special tuple is looked up directly
      (inserting it if needed); any other tuple backs off to a known
      suffix, and when there is none the end token comes without a draw. */
  function NextWordOf(db: Db, ctx: seq<string>, draws: Draws, pos: nat): Step {
    if ctx == Special then
      var db' := Touch(db);
      Step(Walk(db'[Special], draws(pos), 0.0, SpecialToken), db', pos + 1)
    else
      match Backoff(db, ctx)
      case None => Step(SpecialToken, db, pos)
      case Some(k) => Step(Walk(db[k], draws(pos), 0.0, SpecialToken), db, pos + 1)
  }

  /** `_next_word(last_words)`. */
  method NextWord(db: Db, lastWords: seq<string>, draws: Draws, pos: nat) returns (word: string, db': Db, next: nat)
    ensures Step(word, db', next) == NextWordOf(db, lastWords, draws, pos)
  {
    var key := lastWords;
    db' := db;
    if key != Special {
      while key !in db
        invariant Backoff(db, lastWords) == Backoff(db, key)
        decreases |key|
      {
        if |key| <= 1 {
          return SpecialToken, db, pos;
        }
        key := key[1..];
      }
    } else if Special !in db' {
      db' := db'[Special := []];
    }
    var probmap := db'[key];
    var sample := draws(pos);
    word := PickCandidate(probmap, sample);
    next := pos + 1;
  }

  /** A word of some key's candidates. */
  predicate InVocabulary(db: Db, w: string) {
    w in Vocabulary(db)
  }

  /** Every candidate of every key. */
  function Vocabulary(db: Db): set<string> {
    set k, w | k in db && w in Candidates(db[k]) :: w
  }

  lemma TouchCandidates(db: Db, w: string)
    ensures InVocabulary(Touch(db), w) <==> InVocabulary(db, w)
  {
    if InVocabulary(Touch(db), w) {
      var k :| k in Touch(db) && w in Candidates(Touch(db)[k]);
      assert k in db && Touch(db)[k] == db[k];
    }
    if InVocabulary(db, w) {
      var k :| k in db && w in Candidates(db[k]);
      assert k in Touch(db) && Touch(db)[k] == db[k];
    }
  }

  /** The next word is the end token or a candidate of some key; only the
      special tuple changes the database, and a draw is used exactly when
      a key was found. */
  lemma NextWordIsCandidate(db: Db, ctx: seq<string>, draws: Draws, pos: nat)
    ensures var st := NextWordOf(db, ctx, draws, pos);
      (st.word == SpecialToken || InVocabulary(db, st.word))
      && st.db == (if ctx == Special then Touch(db) else db)
      && st.pos == (if ctx == Special || Backoff(db, ctx).Some? then pos + 1 else pos)
  {
    var st := NextWordOf(db, ctx, draws, pos);
    if ctx == Special {
      WalkIsCandidate(Touch(db)[Special], draws(pos), 0.0, SpecialToken);
      TouchCandidates(db, st.word);
    } else if Backoff(db, ctx).Some? {
      WalkIsCandidate(db[Backoff(db, ctx).value], draws(pos), 0.0, SpecialToken);
    }
  }

  // ---------------------------------------------------------------------
  // Sentences

  /** A generated word list, the database after it, and the position in
      the draws. */
  datatype Generated = Generated(words: seq<string>, db: Db, pos: nat)

  /** The `while next_word:` loop, allowed at most `fuel` more words. */
  function Accumulate(db: Db, sentence: seq<string>, next: string, draws: Draws, pos: nat, fuel: nat): Result<Generated>
    decreases fuel
  {
    if next == SpecialToken then Success(Generated(sentence, db, pos))
    else if fuel == 0 then Failure(Diverged)
    else
      var grown := sentence + [next];
      var st := NextWordOf(db, grown, draws, pos);
      Accumulate(st.db, grown, st.word, draws, st.pos, fuel - 1)
  }

  /** `_generate_sentence_as_list(seed)`: the seed, then the generated
      words (at most `fuel` of them). */
  function GenerateSentence(db: Db, seed: seq<string>, draws: Draws, pos: nat, fuel: nat): Result<Generated> {
    var st := NextWordOf(db, seed, draws, pos);
    Accumulate(st.db, seed, st.word, draws, st.pos, fuel)
  }

  /** `words` is `seed` followed by non-empty candidates of `db`. */
  predicate Continues(db: Db, seed: seq<string>, words: seq<string>) {
    seed <= words
    && forall i :: |seed| <= i < |words| ==> words[i] != SpecialToken && InVocabulary(db, words[i])
  }

  /** One more word in front of a continuation. */
  lemma ContinuesBack(db: Db, sentence: seq<string>, next: string, words: seq<string>)
    requires next != SpecialToken && InVocabulary(db, next)
    requires Continues(db, sentence + [next], words)
    ensures Continues(db, sentence, words)
  {
    assert (sentence + [next])[|sentence|] == next;
    assert sentence <= sentence + [next];
  }

  /** A context that ends with a word other than the end token is not the
      special tuple. */
  lemma GrownNotSpecial(sentence: seq<string>, next: string)
    requires next != SpecialToken
    ensures sentence + [next] != Special
  {
    assert (sentence + [next])[|sentence|] == next;
  }

  lemma AccumulateUnfold(db: Db, sentence: seq<string>, next: string, draws: Draws, pos: nat, fuel: nat)
    requires next != SpecialToken && fuel > 0
    ensures var st := NextWordOf(db, sentence + [next], draws, pos);
      Accumulate(db, sentence, next, draws, pos, fuel) == Accumulate(st.db, sentence + [next], st.word, draws, st.pos, fuel - 1)
  {
  }

  lemma {:induction false} AccumulateShape(db: Db, sentence: seq<string>, next: string, draws: Draws, pos: nat, fuel: nat, g: Generated)
    requires next == SpecialToken || InVocabulary(db, next)
    requires Accumulate(db, sentence, next, draws, pos, fuel) == Success(g)
    ensures Continues(db, sentence, g.words) && g.db == db
    ensures |g.words| <= |sentence| + fuel && g.pos >= pos
    decreases fuel
  {
    if next != SpecialToken {
      var grown := sentence + [next];
      GrownNotSpecial(sentence, next);
      var st := NextWordOf(db, grown, draws, pos);
      NextWordIsCandidate(db, grown, draws, pos);
      assert st.db == db;
      AccumulateUnfold(db, sentence, next, draws, pos, fuel);
      AccumulateShape(db, grown, st.word, draws, st.pos, fuel - 1, g);
      ContinuesBack(db, sentence, next, g.words);
    }
  }

  /** A generated sentence is the seed followed by non-empty candidates of
      the database, at most `fuel` of them; only a special seed can change
      the database (it inserts the special tuple when missing). */
  lemma GenerateSentenceShape(db: Db, seed: seq<string>, draws: Draws, pos: nat, fuel: nat, g: Generated)
    requires GenerateSentence(db, seed, draws, pos, fuel) == Success(g)
    ensures Continues(db, seed, g.words)
    ensures g.db == (if seed == Special then Touch(db) else db)
    ensures |g.words| <= |seed| + fuel && g.pos >= pos
  {
    var st := NextWordOf(db, seed, draws, pos);
    NextWordIsCandidate(db, seed, draws, pos);
    if st.word != SpecialToken {
      TouchCandidates(db, st.word);
    }
    AccumulateShape(st.db, seed, st.word, draws, st.pos, fuel, g);
    forall i | |seed| <= i < |g.words|
      ensures InVocabulary(db, g.words[i])
    {
      TouchCandidates(db, g.words[i]);
    }
  }

  /** The sentence loop: `next_word = self._next_word(sentence)` until it
      is the end token. */
  method GenerateSentenceList(db: Db, seed: seq<string>, draws: Draws, pos: nat, fuel: nat) returns (r: Result<Generated>)
    ensures r == GenerateSentence(db, seed, draws, pos, fuel)
  {
    var nextWord, curDb, curPos := NextWord(db, seed, draws, pos);
    var sentence := seed;
    var left := fuel;
    while nextWord != SpecialToken
      invariant GenerateSentence(db, seed, draws, pos, fuel) == Accumulate(curDb, sentence, nextWord, draws, curPos, left)
      decreases left
    {
      if left == 0 {
        return Failure(Diverged);
      }
      sentence := sentence + [nextWord];
      nextWord, curDb, curPos := NextWord(curDb, sentence, draws, curPos);
      left := left - 1;
    }
    r := Success(Generated(sentence, curDb, curPos));
  }

  // ---------------------------------------------------------------------
  // Several sentences and the seed

  /** `range(0, number)` has this many items. */
  function Times(number: int): nat {
    if number < 0 then 0 else number
  }

  /** Generated word lists, the database after them, and the position in
      the draws. */
  datatype Batch = Batch(sentences: seq<seq<string>>, db: Db, pos: nat)

  /** `k` sentences from the same seed, one after the other. */
  function SentencesFrom(db: Db, seed: seq<string>, k: nat, draws: Draws, pos: nat, fuel: nat): Result<Batch>
    decreases k
  {
    if k == 0 then Success(Batch([], db, pos))
    else
      match GenerateSentence(db, seed, draws, pos, fuel)
      case Failure(e) => Failure(e)
      case Success(g) =>
        match SentencesFrom(g.db, seed, k - 1, draws, g.pos, fuel)
        case Failure(e) => Failure(e)
        case Success(rest) => Success(Batch([g.words] + rest.sentences, rest.db, rest.pos))
  }

  /** Earlier sentences in front of a batch. */
  function Prepend(done: seq<seq<string>>, r: Result<Batch>): Result<Batch> {
    match r
    case Failure(e) => Failure(e)
    case Success(b) => Success(Batch(done + b.sentences, b.db, b.pos))
  }

  lemma PrependNothing(r: Result<Batch>)
    ensures Prepend([], r) == r
  {
    if r.Success? {
      assert [] + r.value.sentences == r.value.sentences;
    }
  }

  lemma PrependTwice(a: seq<seq<string>>, b: seq<seq<string>>, r: Result<Batch>)
    ensures Prepend(a, Prepend(b, r)) == Prepend(a + b, r)
  {
    if r.Success? {
      SeqConcatAssoc(a, b, r.value.sentences);
    }
  }

  /** The words of a sentence joined by single spaces, as
      `' '.join(sentence)` does; a sentence grown from the special tuple
      starts with the empty word, which leaves a leading space. */
  lemma JoinAfterSpecial(rest: seq<string>)
    ensures Join(" ", [SpecialToken] + rest) == if rest == [] then "" else " " + Join(" ", rest)
  {
    if rest != [] {
      assert ([SpecialToken] + rest)[1..] == rest;
    }
  }

  /** `' '.join(sentence).strip()`, the string the text-maker classes'
      `_accumulate_with_seed` returns: no whitespace at either end. */
  function StrippedText(words: seq<string>): (r: string)
    ensures r == [] || (!IsSpace(r[0]) && !IsSpace(r[|r| - 1]))
  {
    StripEnds(Join(" ", words));
    Strip(Join(" ", words))
  }

  /** `strip()` removes the leading space the empty word leaves. */
  lemma StripAfterSpecial(rest: seq<string>)
    ensures StrippedText([SpecialToken] + rest) == StrippedText(rest)
  {
    JoinAfterSpecial(rest);
    if rest != [] {
      var t := " " + Join(" ", rest);
      assert IsSpace(t[0]) && t[1..] == Join(" ", rest);
    }
  }

  /** `make_sentences_list(number)` for a seed: `number` sentences (none
      when it is not positive). */
  method SentencesList(db: Db, seed: seq<string>, number: int, draws: Draws, pos: nat, fuel: nat) returns (r: Result<Batch>)
    ensures r == SentencesFrom(db, seed, Times(number), draws, pos, fuel)
  {
    var sentences: seq<seq<string>> := [];
    var curDb := db;
    var curPos := pos;
    var i := 0;
    PrependNothing(SentencesFrom(db, seed, Times(number), draws, pos, fuel));
    while i < Times(number)
      invariant 0 <= i <= Times(number)
      invariant SentencesFrom(db, seed, Times(number), draws, pos, fuel)
        == Prepend(sentences, SentencesFrom(curDb, seed, Times(number) - i, draws, curPos, fuel))
    {
      var g := GenerateSentenceList(curDb, seed, draws, curPos, fuel);
      if g.Failure? {
        return Failure(g.error);
      }
      assert SentencesFrom(curDb, seed, Times(number) - i, draws, curPos, fuel)
        == Prepend([g.value.words], SentencesFrom(g.value.db, seed, Times(number) - i - 1, draws, g.value.pos, fuel));
      PrependTwice(sentences, [g.value.words], SentencesFrom(g.value.db, seed, Times(number) - i - 1, draws, g.value.pos, fuel));
      sentences := sentences + [g.value.words];
      curDb := g.value.db;
      curPos := g.value.pos;
      i := i + 1;
    }
    assert sentences + [] == sentences;
    r := Success(Batch(sentences, curDb, curPos));
  }

  /** A batch of `k` sentences, each the seed followed by non-empty
      candidates of the database. */
  lemma {:induction false} SentencesFromShape(db: Db, seed: seq<string>, k: nat, draws: Draws, pos: nat, fuel: nat)
    ensures var r := SentencesFrom(db, seed, k, draws, pos, fuel);
      r.Success? ==>
        |r.value.sentences| == k
        && forall i :: 0 <= i < k ==> Continues(db, seed, r.value.sentences[i])
    decreases k
  {
    var r := SentencesFrom(db, seed, k, draws, pos, fuel);
    if k > 0 && r.Success? {
      var g := GenerateSentence(db, seed, draws, pos, fuel).value;
      GenerateSentenceShape(db, seed, draws, pos, fuel, g);
      SentencesFromShape(g.db, seed, k - 1, draws, g.pos, fuel);
      var rest := SentencesFrom(g.db, seed, k - 1, draws, g.pos, fuel).value;
      forall i | 0 <= i < k
        ensures Continues(db, seed, r.value.sentences[i])
      {
        if i > 0 {
          var ws := rest.sentences[i - 1];
          assert r.value.sentences[i] == ws;
          forall j | |seed| <= j < |ws|
            ensures InVocabulary(db, ws[j])
          {
            TouchCandidates(db, ws[j]);
          }
        }
      }
    }
  }

  /** `_seed_str_to_seed_tokens(seed_str)`: the seed's words; `words[-1]`
      raises `IndexError` when there are none, and a last word that is not
      a key on its own raises `EndOfChainException`. */
  function SeedTokens(db: Db, seedStr: string): (r: Result<seq<string>>)
    ensures r.Success? <==> Split(seedStr) != [] && [Split(seedStr)[|Split(seedStr)| - 1]] in db
    ensures r.Success? ==> r.value == Split(seedStr)
    ensures r == Failure(IndexError) <==> Split(seedStr) == []
    ensures r.Failure? ==> r.error == IndexError || r.error == EndOfChainException
  {
    var words := Split(seedStr);
    if words == [] then Failure(IndexError)
    else if [words[|words| - 1]] !in db then Failure(EndOfChainException)
    else Success(words)
  }

  /** An accepted seed always finds a key (at worst its last word), so the
      first word after it is picked with a draw; a blank seed is refused
      with `IndexError`. */
  lemma {:induction false} AcceptedSeedDraws(db: Db, seedStr: string, draws: Draws, pos: nat)
    ensures AllSpace(seedStr) ==> SeedTokens(db, seedStr) == Failure(IndexError)
    ensures SeedTokens(db, seedStr).Success? ==>
      var words := SeedTokens(db, seedStr).value;
      Backoff(db, words).Some? && NextWordOf(db, words, draws, pos).pos == pos + 1
  {
    if AllSpace(seedStr) {
      SplitAllSpace(seedStr);
    }
    if SeedTokens(db, seedStr).Success? {
      SeedFound(db, seedStr, draws, pos);
    }
  }

  lemma {:induction false} SeedFound(db: Db, seedStr: string, draws: Draws, pos: nat)
    requires SeedTokens(db, seedStr).Success?
    ensures var words := SeedTokens(db, seedStr).value;
      Backoff(db, words).Some? && NextWordOf(db, words, draws, pos).pos == pos + 1
  {
    var words := Split(seedStr);
    assert SeedTokens(db, seedStr).value == words;
    SplitTokens(seedStr);
    assert words[0] in words;
    LastWordFound(db, words);
  }

  lemma LastWordFound(db: Db, ctx: seq<string>)
    requires ctx != [] && [ctx[|ctx| - 1]] in db
    ensures Backoff(db, ctx).Some?
  {
    assert ctx[|ctx| - 1..] == [ctx[|ctx| - 1]];
    BackoffLongestSuffix(db, ctx);
  }

  /** Generated from a database trained from nothing, every word after the
      seed is a word of the training sentences. */
  lemma TrainedSentenceFromInput(sentences: seq<seq<string>>, window: int, seed: seq<string>, draws: Draws, pos: nat, fuel: nat)
    ensures var r := GenerateSentence(Trained(map[], sentences, window), seed, draws, pos, fuel);
      r.Success? ==> forall i :: |seed| <= i < |r.value.words| ==> r.value.words[i] != SpecialToken && FromInput(sentences, r.value.words[i])
  {
    var db := Trained(map[], sentences, window);
    var r := GenerateSentence(db, seed, draws, pos, fuel);
    if r.Success? {
      GenerateSentenceShape(db, seed, draws, pos, fuel, r.value);
      forall i | |seed| <= i < |r.value.words|
        ensures FromInput(sentences, r.value.words[i])
      {
        var k :| k in db && r.value.words[i] in Candidates(db[k]);
        TrainedCandidatesFromInput(sentences, window, k, r.value.words[i]);
      }
    }
  }
}
