/**
 * `presswork/text_maker/_crude.py`: the oldest crude text maker. Its model
 * starts with a string key, and `make_text` generates a number of words
 * rather than sentences.
 */
module CrudeTextMaker {
  import opened PyStr
  import opened RandomSource
  import CrudeMarkov
  import CrudeText

  /** A key of this model: a tuple n-gram, or a string. A string never
      equals a tuple, so tuple lookups never find a string key. */
  datatype Key = StringKey(s: string) | TupleKey(ngram: seq<string>)

  type Model = map<Key, seq<string>>

  /** `START_SYMBOL * ngram_size`: the empty string, for any size. */
  function StartString(n: nat): (r: Key)
    ensures r == StringKey("")
  {
    RepeatLength(CrudeMarkov.Start, n);
    StringKey(Repeat(CrudeMarkov.Start, n))
  }

  /** The tuple-keyed model seen through tuple keys. */
  function Lift(m: CrudeMarkov.Model): Model {
    map k | k in m :: TupleKey(k) := m[k]
  }

  /** The tuple-keyed model plus the string key mapped to `[]`. */
  function WithStart(m: CrudeMarkov.Model, n: nat): Model {
    Lift(m)[StartString(n) := []]
  }

  /** Recording an occurrence changes only its n-gram's list. */
  lemma WithStartObserve(m: CrudeMarkov.Model, o: CrudeMarkov.Observation, n: nat)
    ensures TupleKey(o.0) in WithStart(m, n) <==> o.0 in m
    ensures o.0 in m ==> WithStart(m, n)[TupleKey(o.0)] == m[o.0]
    ensures WithStart(CrudeMarkov.Observe(m, o), n)
      == WithStart(m, n)[TupleKey(o.0) := CrudeMarkov.Lookup(m, o.0) + [o.1]]
  {
    LiftUpdate(m, o.0, CrudeMarkov.Lookup(m, o.0) + [o.1]);
    var lifted := Lift(m)[TupleKey(o.0) := CrudeMarkov.Lookup(m, o.0) + [o.1]];
    assert lifted[StartString(n) := []] == Lift(m)[StartString(n) := []][TupleKey(o.0) := CrudeMarkov.Lookup(m, o.0) + [o.1]];
  }

  /** Lifting commutes with updating one n-gram. */
  lemma LiftUpdate(m: CrudeMarkov.Model, k: seq<string>, v: seq<string>)
    ensures Lift(m[k := v]) == Lift(m)[TupleKey(k) := v]
  {
    var lhs := Lift(m[k := v]);
    var rhs := Lift(m)[TupleKey(k) := v];
    forall x | x in lhs ensures x in rhs && lhs[x] == rhs[x] {
      if x.ngram != k {
        assert x.ngram in m;
      }
    }
    forall x | x in rhs ensures x in lhs {
      if x.TupleKey? && x.ngram != k {
        assert x.ngram in m;
      }
    }
  }

  /** One pass of that loop: a new n-gram gets a one-word list, a known
      one has the word appended, as recording the occurrence does. */
  lemma RecordStep(base: CrudeMarkov.Model, model: Model, ws: seq<string>, n: nat, i: nat)
    requires i < |ws| + 1
    requires model == WithStart(CrudeMarkov.Record(base, CrudeMarkov.Observations(ws, n)[..i]), n)
    ensures var o := CrudeMarkov.Observations(ws, n)[i];
      (if TupleKey(o.0) in model then model[TupleKey(o.0) := model[TupleKey(o.0)] + [o.1]]
       else model[TupleKey(o.0) := [o.1]])
      == WithStart(CrudeMarkov.Record(base, CrudeMarkov.Observations(ws, n)[..i + 1]), n)
  {
    var obs := CrudeMarkov.Observations(ws, n);
    var o := obs[i];
    var before := CrudeMarkov.Record(base, obs[..i]);
    CrudeMarkov.RecordSnoc(base, obs, i);
    WithStartObserve(before, o, n);
    if TupleKey(o.0) !in model {
      assert CrudeMarkov.Lookup(before, o.0) + [o.1] == [o.1];
    }
  }

  /** The inner loop of `crude_markov_chain`, on this model. */
  method RecordSentence(ghost base: CrudeMarkov.Model, model: Model, ws: seq<string>, n: nat) returns (model': Model)
    requires model == WithStart(base, n)
    ensures model' == WithStart(CrudeMarkov.Record(base, CrudeMarkov.Observations(ws, n)), n)
  {
    var padded := CrudeMarkov.NgramForSentenceStart(n) + ws + [CrudeMarkov.End];
    ghost var obs := CrudeMarkov.Observations(ws, n);
    model' := model;
    var i := 0;
    while i < |ws| + 1
      invariant 0 <= i <= |ws| + 1
      invariant model' == WithStart(CrudeMarkov.Record(base, obs[..i]), n)
    {
      var ngram := padded[i..i + n];
      var next := padded[i + n];
      CrudeMarkov.ObservationAt(ws, n, i);
      RecordStep(base, model', ws, n, i);
      if TupleKey(ngram) !in model' {
        model' := model'[TupleKey(ngram) := [next]];
      } else {
        model' := model'[TupleKey(ngram) := model'[TupleKey(ngram)] + [next]];
      }
      i := i + 1;
    }
    assert obs[..|ws| + 1] == obs;
  }

  /** `crude_markov_chain(source_text, ngram_size, ...)`: the string key
      mapped to `[]`, then every line's occurrences under tuple keys. */
  method CrudeMarkovChain(text: string, n: nat := CrudeMarkov.DefaultNgramSize, splitWords: string -> seq<string> := CrudeText.CrudeSplitWords) returns (model: Model)
    ensures model == WithStart(CrudeMarkov.Chain(CrudeText.SentencesOf(text, splitWords), n), n)
  {
    model := map[StartString(n) := []];
    assert Lift(map[]) == map[];
    var lines := CrudeText.CrudeSplitSentences(text);
    ghost var sentences := CrudeText.SentencesOf(text, splitWords);
    var s := 0;
    while s < |lines|
      invariant 0 <= s <= |lines|
      invariant model == WithStart(CrudeMarkov.Chain(sentences[..s], n), n)
    {
      var words := splitWords(lines[s]);
      model := RecordSentence(CrudeMarkov.Chain(sentences[..s], n), model, words, n);
      CrudeMarkov.ChainSnoc(sentences, s, n);
      s := s + 1;
    }
    assert sentences[..|lines|] == sentences;
  }

  /** The number of iterations of `xrange(0, words_to_generate + 1)`. */
  function Iterations(wordsToGenerate: int): nat {
    if wordsToGenerate + 1 < 0 then 0 else wordsToGenerate + 1
  }

  /** The words `make_text` collects in `iterations` more rounds from the
      current n-gram ([] for None), and the position of the next draw. A
      missing key sets the n-gram to None without a draw; an empty list
      draws, then does the same. */
  function Words(m: Model, n: nat, iterations: nat, current: seq<string>, draws: Draws, pos: nat): (seq<string>, nat)
    decreases iterations
  {
    if iterations == 0 then ([], pos)
    else
      var ctx := CrudeMarkov.Context(n, current);
      if TupleKey(ctx) !in m then Words(m, n, iterations - 1, [], draws, pos)
      else
        var options := m[TupleKey(ctx)];
        if options == [] then Words(m, n, iterations - 1, [], draws, pos + 1)
        else
          var w := options[ChoiceIndex(draws(pos), |options|)];
          var rest := Words(m, n, iterations - 1, CrudeMarkov.Advance(ctx, w), draws, pos + 1);
          ([w] + rest.0, rest.1)
  }

  /** `make_text(model, ngram_size, words_to_generate, join_with)`. */
  method MakeText(m: Model, n: nat := CrudeMarkov.DefaultNgramSize, wordsToGenerate: int := 100, joinWith: string := " ", draws: Draws, pos: nat)
    returns (text: string, next: nat)
    ensures var r := Words(m, n, Iterations(wordsToGenerate), [], draws, pos);
      text == Join(joinWith, r.0) && next == r.1
  {
    var output: seq<string> := [];
    var current: seq<string> := [];
    next := pos;
    var i := 0;
    while i < wordsToGenerate + 1
      invariant 0 <= i && (i <= Iterations(wordsToGenerate))
      invariant var r := Words(m, n, Iterations(wordsToGenerate) - i, current, draws, next);
        output + r.0 == Words(m, n, Iterations(wordsToGenerate), [], draws, pos).0
        && r.1 == Words(m, n, Iterations(wordsToGenerate), [], draws, pos).1
    {
      if current == [] {
        current := CrudeMarkov.NgramForSentenceStart(n);
      }
      if TupleKey(current) in m && m[TupleKey(current)] != [] {
        var options := m[TupleKey(current)];
        var w := options[ChoiceIndex(draws(next), |options|)];
        next := next + 1;
        output := output + [w];
        current := CrudeMarkov.Advance(current, w);
      } else {
        if TupleKey(current) in m {
          next := next + 1;
        }
        current := [];
      }
      i := i + 1;
    }
    assert Iterations(wordsToGenerate) - i == 0;
    assert output + [] == output;
    text := Join(joinWith, output);
  }

  /** At most one word per iteration. */
  lemma {:induction false} WordsCount(m: Model, n: nat, iterations: nat, current: seq<string>, draws: Draws, pos: nat)
    ensures |Words(m, n, iterations, current, draws, pos).0| <= iterations
    decreases iterations
  {
    if iterations > 0 {
      var ctx := CrudeMarkov.Context(n, current);
      if TupleKey(ctx) in m && m[TupleKey(ctx)] != [] {
        var w := m[TupleKey(ctx)][ChoiceIndex(draws(pos), |m[TupleKey(ctx)]|)];
        WordsCount(m, n, iterations - 1, CrudeMarkov.Advance(ctx, w), draws, pos + 1);
      } else {
        WordsCount(m, n, iterations - 1, [], draws, pos + if TupleKey(ctx) in m then 1 else 0);
      }
    }
  }

  /** Only tuple keys are looked up: changing the list under a string key
      changes nothing that is generated. */
  lemma {:induction false} StringKeysUnused(m: Model, s: string, v: seq<string>, n: nat, iterations: nat,
                                            current: seq<string>, draws: Draws, pos: nat)
    ensures Words(m[StringKey(s) := v], n, iterations, current, draws, pos) == Words(m, n, iterations, current, draws, pos)
    decreases iterations
  {
    if iterations > 0 {
      var m' := m[StringKey(s) := v];
      var ctx := CrudeMarkov.Context(n, current);
      assert (TupleKey(ctx) in m') == (TupleKey(ctx) in m);
      if TupleKey(ctx) in m && m[TupleKey(ctx)] != [] {
        assert m'[TupleKey(ctx)] == m[TupleKey(ctx)];
        var w := m[TupleKey(ctx)][ChoiceIndex(draws(pos), |m[TupleKey(ctx)]|)];
        StringKeysUnused(m, s, v, n, iterations - 1, CrudeMarkov.Advance(ctx, w), draws, pos + 1);
      } else {
        StringKeysUnused(m, s, v, n, iterations - 1, [], draws, pos + if TupleKey(ctx) in m then 1 else 0);
      }
    }
  }

  /** A model with no tuple key generates no word and draws nothing. */
  lemma {:induction false} NoTupleKeysNoWords(m: Model, n: nat, iterations: nat, current: seq<string>, draws: Draws, pos: nat)
    requires forall k :: k in m ==> k.StringKey?
    ensures Words(m, n, iterations, current, draws, pos) == ([], pos)
    decreases iterations
  {
    if iterations > 0 {
      NoTupleKeysNoWords(m, n, iterations - 1, [], draws, pos);
    }
  }

  /** Empty text gives the model `{"": []}`, and text made from it is empty. */
  lemma EmptyTextMakesEmptyText(n: nat, splitWords: string -> seq<string>, wordsToGenerate: int, joinWith: string,
                                draws: Draws, pos: nat)
    ensures WithStart(CrudeMarkov.Chain(CrudeText.SentencesOf("", splitWords), n), n) == map[StringKey("") := []]
    ensures Words(map[StringKey("") := []], n, Iterations(wordsToGenerate), [], draws, pos) == ([], pos)
  {
    assert CrudeText.SentencesOf("", splitWords) == [];
    assert Lift(map[]) == map[];
    NoTupleKeysNoWords(map[StringKey("") := []], n, Iterations(wordsToGenerate), [], draws, pos);
  }

  /** A word of a list under a tuple key. */
  predicate InTupleList(m: Model, w: string) {
    exists k :: k in m && k.TupleKey? && w in m[k]
  }

  predicate AllInTupleLists(m: Model, ws: seq<string>) {
    forall j :: 0 <= j < |ws| ==> InTupleList(m, ws[j])
  }

  /** Every generated word was picked from a list of the model. */
  lemma {:induction false} WordsFromModel(m: Model, n: nat, iterations: nat, current: seq<string>, draws: Draws, pos: nat)
    ensures AllInTupleLists(m, Words(m, n, iterations, current, draws, pos).0)
    decreases iterations
  {
    if iterations > 0 {
      var ctx := CrudeMarkov.Context(n, current);
      if TupleKey(ctx) in m && m[TupleKey(ctx)] != [] {
        var w := m[TupleKey(ctx)][ChoiceIndex(draws(pos), |m[TupleKey(ctx)]|)];
        WordsFromModel(m, n, iterations - 1, CrudeMarkov.Advance(ctx, w), draws, pos + 1);
        var rest := Words(m, n, iterations - 1, CrudeMarkov.Advance(ctx, w), draws, pos + 1).0;
        assert Words(m, n, iterations, current, draws, pos).0 == [w] + rest;
        assert InTupleList(m, w);
      } else {
        WordsFromModel(m, n, iterations - 1, [], draws, pos + if TupleKey(ctx) in m then 1 else 0);
      }
    }
  }

  /** Text made from a model built from text holds only words of that
      text's lines and END words, and at most `words_to_generate` + 1 of
      them. */
  lemma MadeWordsFromInput(text: string, splitWords: string -> seq<string>, n: nat, wordsToGenerate: int,
                           draws: Draws, pos: nat)
    ensures var ss := CrudeText.SentencesOf(text, splitWords);
      var r := Words(WithStart(CrudeMarkov.Chain(ss, n), n), n, Iterations(wordsToGenerate), [], draws, pos).0;
      |r| <= Iterations(wordsToGenerate) && forall j :: 0 <= j < |r| ==> CrudeMarkov.FromInput(ss, r[j])
  {
    var ss := CrudeText.SentencesOf(text, splitWords);
    var chain := CrudeMarkov.Chain(ss, n);
    var m := WithStart(chain, n);
    WordsCount(m, n, Iterations(wordsToGenerate), [], draws, pos);
    WordsFromModel(m, n, Iterations(wordsToGenerate), [], draws, pos);
    var r := Words(m, n, Iterations(wordsToGenerate), [], draws, pos).0;
    forall j | 0 <= j < |r| ensures CrudeMarkov.FromInput(ss, r[j]) {
      assert InTupleList(m, r[j]);
      var k :| k in m && k.TupleKey? && r[j] in m[k];
      assert k.ngram in chain && m[k] == chain[k.ngram];
      CrudeMarkov.ChainWordsFromInput(ss, n, k.ngram);
    }
  }
}
