/**
 * `presswork/text/markov/_crude_markov.py`: the crude n-gram model, a map
 * from each n-gram to the list of words seen after it, and the generator
 * that walks it. START and END are both the empty word "".
 */
module CrudeMarkov {
  import opened Wrappers
  import opened PyStr
  import opened RandomSource

  /** An n-gram (a tuple of words) to every word observed after it, in order. */
  type Model = map<seq<string>, seq<string>>

  /** One occurrence: an n-gram and the word after it. */
  type Observation = (seq<string>, string)

  /** `constants.DEFAULT_NGRAM_SIZE`. */
  const DefaultNgramSize: nat := 2

  const Start: string := ""
  const End: string := ""

  /** `ngram_for_sentence_start(n)`: n START words. */
  function NgramForSentenceStart(n: nat): (r: seq<string>)
    ensures |r| == n && forall i :: 0 <= i < n ==> r[i] == Start
  {
    if n == 0 then [] else NgramForSentenceStart(n - 1) + [Start]
  }

  /** A sentence with n START words before it and one END word after it. */
  function Padded(ws: seq<string>, n: nat): seq<string> {
    NgramForSentenceStart(n) + ws + [End]
  }

  /** The occurrences a sentence of L words contributes: for each i in
      0..L, the n words at i of the padded sentence and the word at i + n.
      The padded sentence always has a word at i + n. */
  function Observations(ws: seq<string>, n: nat): (r: seq<Observation>)
    ensures |r| == |ws| + 1
    ensures forall i :: 0 <= i < |r| ==> |r[i].0| == n
  {
    var p := Padded(ws, n);
    seq(|ws| + 1, i requires 0 <= i < |ws| + 1 => (p[i..i + n], p[i + n]))
  }

  /** The list under `k`, or none. */
  function Lookup(m: Model, k: seq<string>): seq<string> {
    if k in m then m[k] else []
  }

  /** `model[k] = [w]` for a new n-gram, `model[k].append(w)` otherwise. */
  function Observe(m: Model, o: Observation): Model {
    m[o.0 := Lookup(m, o.0) + [o.1]]
  }

  /** The occurrences recorded one after the other. */
  function Record(m: Model, obs: seq<Observation>): Model
    decreases |obs|
  {
    if obs == [] then m else Observe(Record(m, obs[..|obs| - 1]), obs[|obs| - 1])
  }

  /** `crude_markov_chain(sentences, n)` as a value: every sentence's
      occurrences recorded in input order, starting from `{}`. */
  function Chain(sentences: seq<seq<string>>, n: nat): Model
    decreases |sentences|
  {
    if sentences == [] then map[]
    else Record(Chain(sentences[..|sentences| - 1], n), Observations(sentences[|sentences| - 1], n))
  }

  /** One more sentence of the input is one more sentence recorded. */
  lemma ChainSnoc(sentences: seq<seq<string>>, i: nat, n: nat)
    requires i < |sentences|
    ensures Chain(sentences[..i + 1], n) == Record(Chain(sentences[..i], n), Observations(sentences[i], n))
  {
    assert sentences[..i + 1][..i] == sentences[..i];
  }

  /** The i-th occurrence of a sentence: the n words at i of the padded
      sentence and the word after them. */
  lemma ObservationAt(ws: seq<string>, n: nat, i: nat)
    requires i < |ws| + 1
    ensures |Padded(ws, n)| == n + |ws| + 1
    ensures Observations(ws, n)[i] == (Padded(ws, n)[i..i + n], Padded(ws, n)[i + n])
  {
  }

  /** One more occurrence of a sentence is one more occurrence recorded. */
  lemma RecordSnoc(m: Model, obs: seq<Observation>, i: nat)
    requires i < |obs|
    ensures Record(m, obs[..i + 1]) == Observe(Record(m, obs[..i]), obs[i])
  {
    assert obs[..i + 1][..i] == obs[..i];
  }

  /** `crude_markov_chain(sentences_as_word_lists, ngram_size)`. */
  method CrudeMarkovChain(sentences: seq<seq<string>>, n: nat := DefaultNgramSize) returns (model: Model)
    ensures model == Chain(sentences, n)
  {
    model := map[];
    if sentences == [] {
      return;
    }
    var s := 0;
    while s < |sentences|
      invariant 0 <= s <= |sentences|
      invariant model == Chain(sentences[..s], n)
    {
      model := RecordSentence(model, sentences[s], n);
      ChainSnoc(sentences, s, n);
      s := s + 1;
    }
    assert sentences[..|sentences|] == sentences;
  }

  /** The inner loop of `crude_markov_chain`: one sentence's occurrences. */
  method RecordSentence(m: Model, ws: seq<string>, n: nat) returns (model: Model)
    ensures model == Record(m, Observations(ws, n))
  {
    var padded := NgramForSentenceStart(n) + ws + [End];
    ghost var obs := Observations(ws, n);
    model := m;
    var i := 0;
    while i < |ws| + 1
      invariant 0 <= i <= |ws| + 1
      invariant model == Record(m, obs[..i])
    {
      var ngram := padded[i..i + n];
      var next := padded[i + n];
      assert obs[i] == (ngram, next);
      RecordSnoc(m, obs, i);
      ghost var prev := model;
      if ngram !in model {
        model := model[ngram := [next]];
        assert Lookup(prev, ngram) + [next] == [next];
      } else {
        model := model[ngram := model[ngram] + [next]];
      }
      assert model == Observe(prev, obs[i]);
      i := i + 1;
    }
    assert obs[..|ws| + 1] == obs;
  }

  // ---------------------------------------------------------------------
  // What the model holds

  /** The words observed after `k`, in order. */
  function FollowersIn(obs: seq<Observation>, k: seq<string>): seq<string>
    decreases |obs|
  {
    if obs == [] then []
    else FollowersIn(obs[..|obs| - 1], k) + (if obs[|obs| - 1].0 == k then [obs[|obs| - 1].1] else [])
  }

  /** The words that follow `k` anywhere in the input, in input order. */
  function Followers(sentences: seq<seq<string>>, n: nat, k: seq<string>): seq<string>
    decreases |sentences|
  {
    if sentences == [] then []
    else Followers(sentences[..|sentences| - 1], n, k) + FollowersIn(Observations(sentences[|sentences| - 1], n), k)
  }

  /** Recording only appends: each list gets the followers of its n-gram,
      in order, and no n-gram is added without one. */
  lemma {:induction false} RecordAppends(m: Model, obs: seq<Observation>, k: seq<string>)
    ensures Lookup(Record(m, obs), k) == Lookup(m, k) + FollowersIn(obs, k)
    ensures k in Record(m, obs) <==> k in m || FollowersIn(obs, k) != []
    decreases |obs|
  {
    if obs != [] {
      RecordAppends(m, obs[..|obs| - 1], k);
    }
  }

  /** Each list of the model is exactly the words that follow its n-gram
      in the input, in input order; an n-gram is a key exactly when
      something follows it. */
  lemma {:induction false} ChainHoldsFollowers(sentences: seq<seq<string>>, n: nat, k: seq<string>)
    ensures Lookup(Chain(sentences, n), k) == Followers(sentences, n, k)
    ensures k in Chain(sentences, n) <==> Followers(sentences, n, k) != []
    decreases |sentences|
  {
    if sentences != [] {
      var last := sentences[|sentences| - 1];
      ChainHoldsFollowers(sentences[..|sentences| - 1], n, k);
      RecordAppends(Chain(sentences[..|sentences| - 1], n), Observations(last, n), k);
    }
  }

  /** Adding a sentence appends to the lists of the model and replaces
      none of them: its L + 1 occurrences go, in order, to the lists of
      their n-grams. */
  lemma ChainAppendsSentence(sentences: seq<seq<string>>, ws: seq<string>, n: nat, k: seq<string>)
    ensures Lookup(Chain(sentences + [ws], n), k) == Lookup(Chain(sentences, n), k) + FollowersIn(Observations(ws, n), k)
    ensures |Observations(ws, n)| == |ws| + 1
  {
    assert (sentences + [ws])[..|sentences|] == sentences;
    RecordAppends(Chain(sentences, n), Observations(ws, n), k);
  }

  lemma {:induction false} RecordKeyLengths(m: Model, obs: seq<Observation>, n: nat)
    requires forall k :: k in m ==> |k| == n
    requires forall i :: 0 <= i < |obs| ==> |obs[i].0| == n
    ensures forall k :: k in Record(m, obs) ==> |k| == n
    decreases |obs|
  {
    if obs != [] {
      RecordKeyLengths(m, obs[..|obs| - 1], n);
    }
  }

  /** Every key is an n-gram of exactly n words. */
  lemma {:induction false} ChainKeyLengths(sentences: seq<seq<string>>, n: nat)
    ensures forall k :: k in Chain(sentences, n) ==> |k| == n
    decreases |sentences|
  {
    if sentences != [] {
      ChainKeyLengths(sentences[..|sentences| - 1], n);
      RecordKeyLengths(Chain(sentences[..|sentences| - 1], n), Observations(sentences[|sentences| - 1], n), n);
    }
  }

  /** An empty list of sentences gives the empty model. */
  lemma EmptyInputEmptyModel(n: nat)
    ensures Chain([], n) == map[]
  {
  }

  lemma RecordOne(m: Model, o: Observation)
    ensures Record(m, [o]) == Observe(m, o)
  {
    assert [o][..0] == [];
  }

  /** `k` END words. */
  function Ends(k: nat): (r: seq<string>)
    ensures |r| == k && forall i :: 0 <= i < k ==> r[i] == End
  {
    if k == 0 then [] else Ends(k - 1) + [End]
  }

  /** Sentences without words give a model with at most the all-START
      n-gram, followed by END once per sentence. */
  lemma {:induction false} ChainOfEmptySentences(sentences: seq<seq<string>>, n: nat)
    requires forall i :: 0 <= i < |sentences| ==> sentences[i] == []
    ensures Chain(sentences, n).Keys == if sentences == [] then {} else {NgramForSentenceStart(n)}
    ensures Lookup(Chain(sentences, n), NgramForSentenceStart(n)) == Ends(|sentences|)
    ensures IsEmptyModel(Chain(sentences, n))
    decreases |sentences|
  {
    if sentences != [] {
      var init := sentences[..|sentences| - 1];
      ChainOfEmptySentences(init, n);
      var obs := Observations([], n);
      assert Padded([], n)[..n] == NgramForSentenceStart(n);
      assert obs == [(NgramForSentenceStart(n), End)];
      assert obs[..0] == [];
      assert sentences[|sentences| - 1] == [];
      var m := Chain(sentences, n);
      assert m == Record(Chain(init, n), obs);
      RecordOne(Chain(init, n), obs[0]);
      assert m.Keys == {NgramForSentenceStart(n)};
      assert |m.Keys| == 1;
    }
  }

  /** No sentence holds the empty word. */
  predicate NoEmptyWords(sentences: seq<seq<string>>) {
    forall i, j :: 0 <= i < |sentences| && 0 <= j < |sentences[i]| ==> sentences[i][j] != ""
  }

  /** The first word of a sentence, END for an empty one. */
  function FirstWord(ws: seq<string>): string {
    if ws == [] then End else ws[0]
  }

  /** In one sentence without empty words, only the first occurrence has
      the all-START n-gram. */
  lemma StartFollowersOfSentence(ws: seq<string>, n: nat)
    requires n >= 1 && forall j :: 0 <= j < |ws| ==> ws[j] != ""
    ensures FollowersIn(Observations(ws, n), NgramForSentenceStart(n)) == [FirstWord(ws)]
  {
    var obs := Observations(ws, n);
    var start := NgramForSentenceStart(n);
    var p := Padded(ws, n);
    assert start[n - 1] == Start;
    forall i | 1 <= i < |obs|
      ensures obs[i].0 != start
    {
      assert p[i + n - 1] == ws[i - 1];
      assert obs[i].0[n - 1] == p[i + n - 1];
    }
    assert p[..n] == start;
    assert obs[0].0 == start;
    assert p[n] == FirstWord(ws);
    FollowersInFirstOnly(obs, start, |obs|);
    assert obs[..|obs|] == obs;
  }

  lemma {:induction false} FollowersInFirstOnly(obs: seq<Observation>, k: seq<string>, len: nat)
    requires 1 <= len <= |obs| && obs[0].0 == k
    requires forall i :: 1 <= i < |obs| ==> obs[i].0 != k
    ensures FollowersIn(obs[..len], k) == [obs[0].1]
    decreases len
  {
    assert obs[..len][..len - 1] == obs[..len - 1];
    if len > 1 {
      FollowersInFirstOnly(obs, k, len - 1);
    } else {
      assert obs[..len][..0] == [];
    }
  }

  /** The first words of the sentences, in input order (END for an empty one). */
  function FirstWords(sentences: seq<seq<string>>): (r: seq<string>)
    ensures |r| == |sentences| && forall i :: 0 <= i < |r| ==> r[i] == FirstWord(sentences[i])
  {
    seq(|sentences|, i requires 0 <= i < |sentences| => FirstWord(sentences[i]))
  }

  /** The all-START n-gram maps to each sentence's first word, in input
      order, when no word is empty. */
  lemma {:induction false} StartKeyHoldsFirstWords(sentences: seq<seq<string>>, n: nat)
    requires n >= 1 && NoEmptyWords(sentences)
    ensures Lookup(Chain(sentences, n), NgramForSentenceStart(n)) == FirstWords(sentences)
    decreases |sentences|
  {
    ChainHoldsFollowers(sentences, n, NgramForSentenceStart(n));
    StartFollowers(sentences, n);
  }

  lemma {:induction false} StartFollowers(sentences: seq<seq<string>>, n: nat)
    requires n >= 1 && NoEmptyWords(sentences)
    ensures Followers(sentences, n, NgramForSentenceStart(n)) == FirstWords(sentences)
    decreases |sentences|
  {
    if sentences != [] {
      var init := sentences[..|sentences| - 1];
      var last := sentences[|sentences| - 1];
      assert NoEmptyWords(init) by {
        forall i, j | 0 <= i < |init| && 0 <= j < |init[i]| ensures init[i][j] != "" {
          assert init[i] == sentences[i];
        }
      }
      assert forall j :: 0 <= j < |last| ==> last[j] != "";
      assert Followers(sentences, n, NgramForSentenceStart(n))
        == Followers(init, n, NgramForSentenceStart(n)) + FollowersIn(Observations(last, n), NgramForSentenceStart(n));
      StartFollowers(init, n);
      StartFollowersOfSentence(last, n);
      FirstWordsSnoc(sentences);
    }
  }

  lemma FirstWordsSnoc(sentences: seq<seq<string>>)
    requires sentences != []
    ensures FirstWords(sentences)
      == FirstWords(sentences[..|sentences| - 1]) + [FirstWord(sentences[|sentences| - 1])]
  {
    var init := sentences[..|sentences| - 1];
    var r := FirstWords(init) + [FirstWord(sentences[|sentences| - 1])];
    assert |FirstWords(sentences)| == |r|;
    forall i | 0 <= i < |sentences| ensures FirstWords(sentences)[i] == r[i] {
      if i < |init| {
        assert sentences[i] == init[i];
      }
    }
  }

  // ---------------------------------------------------------------------
  // Generation

  /** `is_empty_model(model)`: no key or a single one. */
  predicate IsEmptyModel(m: Model) {
    |m| <= 1
  }

  /** `current_ngram[1:] + (next_word,)`: the oldest word dropped, the new
      one added (slicing an empty tuple gives an empty tuple). */
  function Advance(current: seq<string>, w: string): (r: seq<string>)
    ensures current != [] ==> |r| == |current|
  {
    (if current == [] then [] else current[1..]) + [w]
  }

  /** `random.choice(model[current])`: no draw for a missing key (KeyError),
      one draw and nothing picked for an empty list (IndexError), else one
      draw. */
  function Pick(m: Model, current: seq<string>, draws: Draws, pos: nat): (r: (Option<string>, nat))
    ensures r.0.Some? ==> current in m && r.0.value in m[current]
    ensures r.1 == if current in m then pos + 1 else pos
  {
    if current !in m then (None, pos)
    else if m[current] == [] then (None, pos + 1)
    else (Some(m[current][ChoiceIndex(draws(pos), |m[current]|)]), pos + 1)
  }

  /** `if not current_ngram: current_ngram = ngram_for_sentence_start(n)`. */
  function Context(n: nat, current: seq<string>): seq<string> {
    if current == [] then NgramForSentenceStart(n) else current
  }

  /** The sentence with the picked word, if any, appended. */
  function Extend(sentence: seq<string>, w: Option<string>): (r: seq<string>)
    ensures |r| <= |sentence| + 1
  {
    if w.Some? then sentence + [w.value] else sentence
  }

  /** The generator loop from a state: `remaining` sentences still to
      yield, the current n-gram ([] for None), the sentence so far and the
      per-sentence loop counter. Each iteration picks a word; a dead end or
      the loop cap ends the sentence. Returns the sentences yielded and the
      position of the next draw. */
  function Run(m: Model, n: nat, remaining: nat, maxLoops: int, current: seq<string>, sentence: seq<string>,
               loops: nat, draws: Draws, pos: nat): (seq<seq<string>>, nat)
    decreases remaining, if loops < maxLoops then maxLoops - loops else 0
  {
    if remaining == 0 then ([], pos)
    else
      var p := Pick(m, Context(n, current), draws, pos);
      if p.0.None? || loops >= maxLoops then
        var rest := Run(m, n, remaining - 1, maxLoops, [], [], 0, draws, p.1);
        ([Extend(sentence, p.0)] + rest.0, rest.1)
      else
        Run(m, n, remaining, maxLoops, Advance(Context(n, current), p.0.value), Extend(sentence, p.0), loops + 1, draws, p.1)
  }

  /** The number of sentences a count asks for. */
  function Wanted(count: int): nat {
    if count < 0 then 0 else count
  }

  /** The generator from its initial state. */
  function Generate(m: Model, n: nat, count: int, maxLoops: int, draws: Draws, pos: nat): (seq<seq<string>>, nat) {
    Run(m, n, Wanted(count), maxLoops, [], [], 0, draws, pos)
  }

  /** The sentences yielded so far followed by what the loop yields from
      the current state are what the generator yields from the start. */
  predicate OnTrack(m: Model, n: nat, count: int, maxLoops: int, draws: Draws, pos: nat,
                    done: seq<seq<string>>, remaining: nat, current: seq<string>, sentence: seq<string>, loops: nat, next: nat)
  {
    var r := Run(m, n, remaining, maxLoops, current, sentence, loops, draws, next);
    done + r.0 == Generate(m, n, count, maxLoops, draws, pos).0 && r.1 == Generate(m, n, count, maxLoops, draws, pos).1
  }

  /** An iteration that ends the sentence hands it over, and the loop goes
      on from the initial state. */
  lemma EndStaysOnTrack(m: Model, n: nat, count: int, maxLoops: int, draws: Draws, pos: nat,
                        done: seq<seq<string>>, remaining: nat, current: seq<string>, sentence: seq<string>, loops: nat, next: nat)
    requires OnTrack(m, n, count, maxLoops, draws, pos, done, remaining, current, sentence, loops, next)
    requires remaining > 0
    requires Pick(m, Context(n, current), draws, next).0.None? || loops >= maxLoops
    ensures var p := Pick(m, Context(n, current), draws, next);
      OnTrack(m, n, count, maxLoops, draws, pos, done + [Extend(sentence, p.0)], remaining - 1, [], [], 0, p.1)
  {
    var p := Pick(m, Context(n, current), draws, next);
    var rest := Run(m, n, remaining - 1, maxLoops, [], [], 0, draws, p.1);
    assert Run(m, n, remaining, maxLoops, current, sentence, loops, draws, next) == ([Extend(sentence, p.0)] + rest.0, rest.1);
    SeqConcatAssoc(done, [Extend(sentence, p.0)], rest.0);
  }

  /** An iteration that picks a word carries on with the same sentence. */
  lemma ContinueStaysOnTrack(m: Model, n: nat, count: int, maxLoops: int, draws: Draws, pos: nat,
                             done: seq<seq<string>>, remaining: nat, current: seq<string>, sentence: seq<string>, loops: nat, next: nat)
    requires OnTrack(m, n, count, maxLoops, draws, pos, done, remaining, current, sentence, loops, next)
    requires remaining > 0
    requires Pick(m, Context(n, current), draws, next).0.Some? && loops < maxLoops
    ensures var p := Pick(m, Context(n, current), draws, next);
      OnTrack(m, n, count, maxLoops, draws, pos, done, remaining, Advance(Context(n, current), p.0.value),
              sentence + [p.0.value], loops + 1, p.1)
  {
  }

  /** The loop of `iter_make_sentences`, from its initial state. */
  method MakeSentences(m: Model, n: nat := DefaultNgramSize, count: int := 100, maxLoops: int := 25, draws: Draws, pos: nat)
    returns (sentences: seq<seq<string>>, next: nat)
    ensures (sentences, next) == Generate(m, n, count, maxLoops, draws, pos)
  {
    var current: seq<string> := [];
    var sentence: seq<string> := [];
    var counter := 0;
    var loops: nat := 0;
    sentences := [];
    next := pos;
    while counter < count
      invariant 0 <= counter <= Wanted(count)
      invariant OnTrack(m, n, count, maxLoops, draws, pos, sentences, Wanted(count) - counter, current, sentence, loops, next)
      decreases Wanted(count) - counter, if loops < maxLoops then maxLoops - loops else 0
    {
      ghost var remaining := Wanted(count) - counter;
      ghost var p := Pick(m, Context(n, current), draws, next);
      ghost var (current0, sentence0, loops0, next0, done0) := (current, sentence, loops, next, sentences);
      if current == [] {
        current := NgramForSentenceStart(n);
      }
      var endSentence := false;
      if current in m && m[current] != [] {
        var w := m[current][ChoiceIndex(draws(next), |m[current]|)];
        next := next + 1;
        sentence := sentence + [w];
        current := Advance(current, w);
      } else {
        if current in m {
          next := next + 1;
        }
        endSentence := true;
      }
      if loops >= maxLoops {
        endSentence := true;
      }
      assert next == p.1 && sentence == Extend(sentence0, p.0);
      if endSentence {
        EndStaysOnTrack(m, n, count, maxLoops, draws, pos, done0, remaining, current0, sentence0, loops0, next0);
        counter := counter + 1;
        loops := 0;
        current := [];
        sentences := sentences + [sentence];
        sentence := [];
      } else {
        ContinueStaysOnTrack(m, n, count, maxLoops, draws, pos, done0, remaining, current0, sentence0, loops0, next0);
        loops := loops + 1;
      }
    }
    assert Wanted(count) - counter == 0;
    assert sentences + [] == sentences;
  }

  /** `len(model.keys()[0]) != ngram_size`: Python 2 dict order decides
      which key comes first, so the model says only that it is some key. */
  predicate KeysHaveLength(m: Model, n: nat) {
    forall k :: k in m ==> |k| == n
  }

  predicate NoKeyHasLength(m: Model, n: nat) {
    forall k :: k in m ==> |k| != n
  }

  /** `list(iter_make_sentences(model, n, count, max_loops))`: an empty
      model yields one empty sentence; otherwise the first key's length
      must be n (ValueError before any sentence), then the loop runs. */
  method IterMakeSentences(m: Model, n: nat := DefaultNgramSize, count: int := 100, maxLoops: int := 25, draws: Draws, pos: nat)
    returns (r: Result<(seq<seq<string>>, nat)>)
    ensures IsEmptyModel(m) ==> r == Success(([[]], pos))
    ensures !IsEmptyModel(m) && KeysHaveLength(m, n) ==> r == Success(Generate(m, n, count, maxLoops, draws, pos))
    ensures !IsEmptyModel(m) && NoKeyHasLength(m, n) ==> r == Failure(ValueError)
    ensures r.Failure? ==> r.error == ValueError
    ensures r.Success? ==> r == Success(([[]], pos)) || r == Success(Generate(m, n, count, maxLoops, draws, pos))
  {
    if IsEmptyModel(m) {
      return Success(([[]], pos));
    }
    var first :| first in m;
    if |first| != n {
      return Failure(ValueError);
    }
    var sentences, next := MakeSentences(m, n, count, maxLoops, draws, pos);
    r := Success((sentences, next));
  }

  // ---------------------------------------------------------------------
  // Properties of generation

  /** Exactly the wanted number of sentences is yielded. */
  lemma {:induction false} RunCount(m: Model, n: nat, remaining: nat, maxLoops: int, current: seq<string>,
                                    sentence: seq<string>, loops: nat, draws: Draws, pos: nat)
    ensures |Run(m, n, remaining, maxLoops, current, sentence, loops, draws, pos).0| == remaining
    decreases remaining, if loops < maxLoops then maxLoops - loops else 0
  {
    if remaining > 0 {
      var ctx := Context(n, current);
      var p := Pick(m, ctx, draws, pos);
      var w, next := p.0, p.1;
      var sentence' := Extend(sentence, w);
      if w.None? || loops >= maxLoops {
        RunCount(m, n, remaining - 1, maxLoops, [], [], 0, draws, next);
      } else {
        RunCount(m, n, remaining, maxLoops, Advance(ctx, w.value), sentence', loops + 1, draws, next);
      }
    }
  }

  /** The most words a sentence can have: one per iteration, and the loop
      counter stops it after `max_loops_per_sentence` + 1 iterations. */
  function MaxWords(maxLoops: int): nat {
    if maxLoops < 0 then 1 else maxLoops + 1
  }

  /** Every sentence has at most `k` words. */
  predicate AtMostWords(r: seq<seq<string>>, k: nat) {
    forall i :: 0 <= i < |r| ==> |r[i]| <= k
  }

  lemma {:induction false} RunLengths(m: Model, n: nat, remaining: nat, maxLoops: int, current: seq<string>,
                                      sentence: seq<string>, loops: nat, draws: Draws, pos: nat)
    requires |sentence| <= loops && (loops == 0 || loops <= maxLoops)
    ensures AtMostWords(Run(m, n, remaining, maxLoops, current, sentence, loops, draws, pos).0, MaxWords(maxLoops))
    decreases remaining, if loops < maxLoops then maxLoops - loops else 0
  {
    if remaining > 0 {
      var ctx := Context(n, current);
      var p := Pick(m, ctx, draws, pos);
      var w, next := p.0, p.1;
      var sentence' := Extend(sentence, w);
      if w.None? || loops >= maxLoops {
        RunLengths(m, n, remaining - 1, maxLoops, [], [], 0, draws, next);
        var rest := Run(m, n, remaining - 1, maxLoops, [], [], 0, draws, next).0;
        assert Run(m, n, remaining, maxLoops, current, sentence, loops, draws, pos).0 == [sentence'] + rest;
        assert |sentence'| <= MaxWords(maxLoops);
      } else {
        RunLengths(m, n, remaining, maxLoops, Advance(ctx, w.value), sentence', loops + 1, draws, next);
        assert Run(m, n, remaining, maxLoops, current, sentence, loops, draws, pos)
          == Run(m, n, remaining, maxLoops, Advance(ctx, w.value), sentence', loops + 1, draws, next);
      }
    }
  }

  /** The words of the model's lists. */
  predicate InModel(m: Model, w: string) {
    exists k :: k in m && w in m[k]
  }

  /** A sentence whose first word was picked from the all-START list and
      every word from some list of the model. */
  predicate FromModel(m: Model, n: nat, sentence: seq<string>) {
    && (sentence != [] ==> NgramForSentenceStart(n) in m && sentence[0] in m[NgramForSentenceStart(n)])
    && (forall j :: 0 <= j < |sentence| ==> InModel(m, sentence[j]))
  }

  predicate AllFromModel(m: Model, n: nat, r: seq<seq<string>>) {
    forall i :: 0 <= i < |r| ==> FromModel(m, n, r[i])
  }

  /** A word picked in a state where an empty sentence has no n-gram yet
      keeps the sentence drawn from the model. */
  lemma ExtendFromModel(m: Model, n: nat, current: seq<string>, sentence: seq<string>, draws: Draws, pos: nat)
    requires (sentence == [] ==> current == []) && FromModel(m, n, sentence)
    ensures FromModel(m, n, Extend(sentence, Pick(m, Context(n, current), draws, pos).0))
  {
    var w := Pick(m, Context(n, current), draws, pos).0;
    if w.Some? {
      var s' := sentence + [w.value];
      assert InModel(m, w.value);
      assert s'[0] == if sentence == [] then w.value else sentence[0];
      forall j | 0 <= j < |s'| ensures InModel(m, s'[j]) {
        if j < |sentence| {
          assert s'[j] == sentence[j];
        }
      }
    }
  }

  /** Every yielded word was picked from the list of the current n-gram:
      each sentence starts with a word of the all-START list and holds only
      words of the model. */
  lemma {:induction false} RunDrawsFromModel(m: Model, n: nat, remaining: nat, maxLoops: int, current: seq<string>,
                                             sentence: seq<string>, loops: nat, draws: Draws, pos: nat)
    requires (sentence == [] ==> current == []) && FromModel(m, n, sentence)
    ensures AllFromModel(m, n, Run(m, n, remaining, maxLoops, current, sentence, loops, draws, pos).0)
    decreases remaining, if loops < maxLoops then maxLoops - loops else 0
  {
    if remaining > 0 {
      var ctx := Context(n, current);
      var p := Pick(m, ctx, draws, pos);
      var w, next := p.0, p.1;
      var sentence' := Extend(sentence, w);
      ExtendFromModel(m, n, current, sentence, draws, pos);
      if w.None? || loops >= maxLoops {
        RunDrawsFromModel(m, n, remaining - 1, maxLoops, [], [], 0, draws, next);
        var rest := Run(m, n, remaining - 1, maxLoops, [], [], 0, draws, next).0;
        assert Run(m, n, remaining, maxLoops, current, sentence, loops, draws, pos).0 == [sentence'] + rest;
      } else {
        RunDrawsFromModel(m, n, remaining, maxLoops, Advance(ctx, w.value), sentence', loops + 1, draws, next);
        assert Run(m, n, remaining, maxLoops, current, sentence, loops, draws, pos)
          == Run(m, n, remaining, maxLoops, Advance(ctx, w.value), sentence', loops + 1, draws, next);
      }
    }
  }

  /** `k` empty sentences. */
  function EmptySentences(k: nat): (r: seq<seq<string>>)
    ensures |r| == k && forall i :: 0 <= i < k ==> r[i] == []
  {
    if k == 0 then [] else [[]] + EmptySentences(k - 1)
  }

  /** When the all-START n-gram is not a key, every sentence is a dead end
      at once: `remaining` empty sentences, and no draw. */
  lemma {:induction false} RunWithoutStart(m: Model, n: nat, remaining: nat, maxLoops: int, draws: Draws, pos: nat)
    requires NgramForSentenceStart(n) !in m
    ensures Run(m, n, remaining, maxLoops, [], [], 0, draws, pos) == (EmptySentences(remaining), pos)
    decreases remaining
  {
    if remaining > 0 {
      RunWithoutStart(m, n, remaining - 1, maxLoops, draws, pos);
    }
  }

  /** A model's generated sentences, for a non-empty model whose keys have
      length n: exactly `count` of them (none for a count below one), each
      of at most `max_loops_per_sentence` + 1 words; each begins with a
      word of the all-START list and holds only words of the model. */
  lemma GenerateShape(m: Model, n: nat, count: int, maxLoops: int, draws: Draws, pos: nat)
    ensures var r := Generate(m, n, count, maxLoops, draws, pos).0;
      && |r| == Wanted(count)
      && AtMostWords(r, MaxWords(maxLoops))
      && AllFromModel(m, n, r)
  {
    RunCount(m, n, Wanted(count), maxLoops, [], [], 0, draws, pos);
    RunLengths(m, n, Wanted(count), maxLoops, [], [], 0, draws, pos);
    RunDrawsFromModel(m, n, Wanted(count), maxLoops, [], [], 0, draws, pos);
  }

  /** Every word in the model's lists is an input word or END. */
  predicate FromInput(sentences: seq<seq<string>>, w: string) {
    w == End || exists i :: 0 <= i < |sentences| && w in sentences[i]
  }

  lemma {:induction false} FollowersInFromInput(ws: seq<string>, n: nat, k: seq<string>, len: nat)
    requires len <= |ws| + 1
    ensures forall w :: w in FollowersIn(Observations(ws, n)[..len], k) ==> w == End || w in ws
    decreases len
  {
    var obs := Observations(ws, n);
    if len > 0 {
      assert obs[..len][..len - 1] == obs[..len - 1];
      FollowersInFromInput(ws, n, k, len - 1);
      var p := Padded(ws, n);
      var i := len - 1;
      assert obs[i].1 == p[i + n];
      assert p[i + n] == End || p[i + n] == ws[i];
    }
  }

  lemma {:induction false} FollowersFromInput(sentences: seq<seq<string>>, n: nat, k: seq<string>)
    ensures forall w :: w in Followers(sentences, n, k) ==> FromInput(sentences, w)
    decreases |sentences|
  {
    if sentences != [] {
      var init := sentences[..|sentences| - 1];
      var last := sentences[|sentences| - 1];
      FollowersFromInput(init, n, k);
      FollowersInFromInput(last, n, k, |last| + 1);
      assert Observations(last, n)[..|last| + 1] == Observations(last, n);
      forall w | w in Followers(sentences, n, k)
        ensures FromInput(sentences, w)
      {
        if w in Followers(init, n, k) {
          assert FromInput(init, w);
        } else {
          assert w == End || w in sentences[|sentences| - 1];
        }
      }
    }
  }

  /** What a built model generates is made of input words and END. */
  lemma ChainWordsFromInput(sentences: seq<seq<string>>, n: nat, k: seq<string>)
    requires k in Chain(sentences, n)
    ensures forall w :: w in Chain(sentences, n)[k] ==> FromInput(sentences, w)
  {
    ChainHoldsFollowers(sentences, n, k);
    FollowersFromInput(sentences, n, k);
  }
}
