/**
 * `presswork/text_maker/_basic.py`: the first homegrown Markov chain, over
 * the characters of a text or over the words of its lines, and a generator
 * that walks it for a fixed number of steps. The model is the crude model's
 * dictionary from n-gram to the tokens seen after it; a character is the
 * one-character string that iterating a Python string yields.
 */
module Basic {
  import opened Wrappers
  import opened PyStr
  import opened RandomSource
  import opened CrudeMarkov

  /** `ngram_size`'s default. */
  const DefaultNgramSize: nat := 2

  /** The one-character strings of a text, as `tuple(text)` holds them. */
  function Chars(s: string): (r: seq<string>)
    ensures |r| == |s|
  {
    seq(|s|, i requires 0 <= i < |s| => [s[i]])
  }

  /** How many positions have a token n places further on. */
  function Following<T>(xs: seq<T>, n: nat): nat {
    if |xs| <= n then 0 else |xs| - n
  }

  // ---------------------------------------------------------------------
  // markov_chain_of_chars

  /** The occurrences a text contributes: for each i with i + n < |text|,
      the n characters at i and the character at i + n. */
  function CharObservations(text: string, n: nat): (r: seq<Observation>)
    ensures |r| == Following(text, n)
    ensures forall i :: 0 <= i < |r| ==> r[i].0 == Chars(text[i..i + n]) && |r[i].0| == n
    ensures forall i :: 0 <= i < |r| ==> r[i].1 == [text[i + n]]
  {
    var len := Following(text, n);
    seq(len, i requires 0 <= i < len => (Chars(text[i..i + n]), [text[i + n]]))
  }

  /** `model[ngram] = [follow]` when `model.get(ngram)` is `None`, else
      `model[ngram].append(follow)`. */
  method AddFollower(model0: Model, ngram: seq<string>, follow: string) returns (model: Model)
    ensures model == Observe(model0, (ngram, follow))
  {
    if ngram !in model0 {
      assert Lookup(model0, ngram) + [follow] == [follow];
      model := model0[ngram := [follow]];
    } else {
      model := model0[ngram := model0[ngram] + [follow]];
    }
  }

  /** `markov_chain_of_chars(source_text, ngram_size)`: the loop over the
      characters stops at the first position whose follower is past the
      end, and records each earlier occurrence in order. */
  method MarkovChainOfChars(text: string, n: nat := DefaultNgramSize) returns (model: Model)
    ensures model == Record(map[], CharObservations(text, n))
  {
    model := map[];
    ghost var obs := CharObservations(text, n);
    var i := 0;
    while i < |text|
      invariant 0 <= i <= |text| && i <= |obs|
      invariant model == Record(map[], obs[..i])
    {
      if i + n >= |text| {
        break;
      }
      var ngram := Chars(text[i..i + n]);
      var follow := [text[i + n]];
      assert obs[i] == (ngram, follow);
      RecordSnoc(map[], obs, i);
      model := AddFollower(model, ngram, follow);
      i := i + 1;
    }
    assert obs[..i] == obs;
  }

  /** A text of m characters gives max(0, m - n) observations. Each list of
      the model holds the characters that follow its n-gram, in text order;
      an n-gram is a key exactly when something follows it, and every key
      is n characters long. */
  lemma CharChainHolds(text: string, n: nat, k: seq<string>)
    ensures |CharObservations(text, n)| == if |text| <= n then 0 else |text| - n
    ensures Lookup(Record(map[], CharObservations(text, n)), k) == FollowersIn(CharObservations(text, n), k)
    ensures k in Record(map[], CharObservations(text, n)) <==> FollowersIn(CharObservations(text, n), k) != []
    ensures k in Record(map[], CharObservations(text, n)) ==> |k| == n
  {
    var obs := CharObservations(text, n);
    RecordAppends(map[], obs, k);
    RecordKeyLengths(map[], obs, n);
  }

  // ---------------------------------------------------------------------
  // markov_chain_of_sentences_and_words

  /** The occurrences one line's words contribute: for each i with
      i + n < |ws|, the n words at i and the stripped word at i + n. */
  function WordObservations(ws: seq<string>, n: nat): (r: seq<Observation>)
    ensures |r| == Following(ws, n)
    ensures forall i :: 0 <= i < |r| ==> |r[i].0| == n
  {
    seq(Following(ws, n), i requires 0 <= i < Following(ws, n) => (ws[i..i + n], Strip(ws[i + n])))
  }

  /** Every line's occurrences recorded in input order, starting from `{}`. */
  function WordChain(lines: seq<string>, n: nat): Model
    decreases |lines|
  {
    if lines == [] then map[]
    else Record(WordChain(lines[..|lines| - 1], n), WordObservations(Split(lines[|lines| - 1]), n))
  }

  lemma WordObservationAt(ws: seq<string>, n: nat, i: nat)
    requires i + n < |ws|
    ensures WordObservations(ws, n)[i] == (ws[i..i + n], Strip(ws[i + n]))
  {
  }

  /** The inner loop over one line's words. */
  method RecordLine(model0: Model, words: seq<string>, n: nat) returns (model: Model)
    ensures model == Record(model0, WordObservations(words, n))
  {
    model := model0;
    ghost var obs := WordObservations(words, n);
    var i := 0;
    while i < |words|
      invariant 0 <= i <= |words| && i <= |obs|
      invariant model == Record(model0, obs[..i])
    {
      if i + n >= |words| {
        break;
      }
      var ngram := words[i..i + n];
      var follow := words[i + n];
      WordObservationAt(words, n, i);
      model := AddFollower(model, ngram, Strip(follow));
      RecordSnoc(model0, obs, i);
      i := i + 1;
    }
    assert obs[..i] == obs;
  }

  /** `markov_chain_of_sentences_and_words(source_text, ngram_size)`: each
      line split into words, each line's loop stopping at its first
      follower past the end. */
  method MarkovChainOfSentencesAndWords(text: string, n: nat := DefaultNgramSize) returns (model: Model)
    ensures model == WordChain(SplitLines(text), n)
  {
    model := map[];
    var sentences := SplitLines(text);
    var s := 0;
    while s < |sentences|
      invariant 0 <= s <= |sentences|
      invariant model == WordChain(sentences[..s], n)
    {
      var words := Split(sentences[s]);
      WordChainSnoc(sentences, s, n);
      model := RecordLine(model, words, n);
      s := s + 1;
    }
    TakeAll(sentences);
  }

  lemma WordChainSnoc(lines: seq<string>, s: nat, n: nat)
    requires s < |lines|
    ensures WordChain(lines[..s + 1], n) == Record(WordChain(lines[..s], n), WordObservations(Split(lines[s]), n))
  {
    assert lines[..s + 1][..s] == lines[..s];
  }

  /** A line of no more than n words adds nothing to the model. */
  lemma ShortLineAddsNothing(lines: seq<string>, line: string, n: nat)
    requires |Split(line)| <= n
    ensures WordChain(lines + [line], n) == WordChain(lines, n)
  {
    assert (lines + [line])[..|lines|] == lines;
  }

  /** A token as `split()` yields it: non-empty, without whitespace. */
  predicate IsWord(w: string) {
    w != [] && NoSpace(w)
  }

  /** Stripping a follower changes nothing: each one is the word at i + n
      of its line as `split()` gave it. */
  lemma WordFollowersUnstripped(line: string, n: nat)
    ensures forall i :: 0 <= i < |WordObservations(Split(line), n)| ==>
      WordObservations(Split(line), n)[i].1 == Split(line)[i + n] && IsWord(Split(line)[i + n])
  {
    var ws := Split(line);
    SplitTokens(line);
    forall i | 0 <= i < |WordObservations(ws, n)|
      ensures WordObservations(ws, n)[i].1 == ws[i + n] && IsWord(ws[i + n])
    {
      var w := ws[i + n];
      assert w in ws;
      StripEnds(w);
    }
  }

  lemma {:induction false} RecordKeepsWords(m: Model, obs: seq<Observation>)
    requires forall k, w :: k in m && w in m[k] ==> IsWord(w)
    requires forall i :: 0 <= i < |obs| ==> IsWord(obs[i].1)
    ensures forall k, w :: k in Record(m, obs) && w in Record(m, obs)[k] ==> IsWord(w)
    decreases |obs|
  {
    if obs != [] {
      RecordKeepsWords(m, obs[..|obs| - 1]);
    }
  }

  /** Every key of the word model is n words long, and every follower in it
      is a whole word: non-empty and without whitespace. */
  lemma {:induction false} WordChainShape(lines: seq<string>, n: nat)
    ensures forall k :: k in WordChain(lines, n) ==> |k| == n
    ensures forall k, w :: k in WordChain(lines, n) && w in WordChain(lines, n)[k] ==> IsWord(w)
    decreases |lines|
  {
    if lines != [] {
      var prefix := lines[..|lines| - 1];
      var obs := WordObservations(Split(lines[|lines| - 1]), n);
      WordChainShape(prefix, n);
      RecordKeyLengths(WordChain(prefix, n), obs, n);
      WordFollowersUnstripped(lines[|lines| - 1], n);
      RecordKeepsWords(WordChain(prefix, n), obs);
    }
  }

  // ---------------------------------------------------------------------
  // make_text

  /** The loop's state between iterations: the current n-gram (the empty
      tuple also standing for `None`, since both are falsy), the output
      tokens so far, and the position in the random stream. */
  datatype TextState = TextState(current: seq<string>, output: seq<string>, pos: nat)

  /** `model.keys()`: each key of the model once, in the dictionary's order. */
  predicate Enumerates(keys: seq<seq<string>>, m: Model) {
    (forall i :: 0 <= i < |keys| ==> keys[i] in m)
    && (forall k :: k in m ==> k in keys)
    && (forall i, j :: 0 <= i < j < |keys| ==> keys[i] != keys[j])
  }

  /** `current[1:]`. */
  function Tail(c: seq<string>): seq<string> {
    if c == [] then [] else c[1..]
  }

  /** The `try` block: a follower drawn from the current n-gram's list,
      appended and shifted into the n-gram; or a reset to `None`, on
      `KeyError` when the n-gram is no key and on `IndexError` when its
      list is empty (`random.choice` draws before it indexes). */
  function Attempt(m: Model, s: TextState, draws: Draws): TextState {
    if s.current !in m then TextState([], s.output, s.pos)
    else if m[s.current] == [] then TextState([], s.output, s.pos + 1)
    else
      var f := m[s.current][ChoiceIndex(draws(s.pos), |m[s.current]|)];
      TextState(Tail(s.current) + [f], s.output + [f], s.pos + 1)
  }

  /** The n-gram the `try` block starts from: the current one, or after a
      reset a key drawn from `model.keys()`. */
  function Chosen(keys: seq<seq<string>>, s: TextState, draws: Draws): seq<string>
    requires s.current != [] || keys != []
  {
    if s.current != [] then s.current else keys[ChoiceIndex(draws(s.pos), |keys|)]
  }

  /** One iteration: with no current n-gram, a drawn key whose tokens are
      extended into the output (with no keys, `random.choice` raises
      `IndexError` outside the `try`), then the `try` block. */
  function Iteration(m: Model, keys: seq<seq<string>>, s: TextState, draws: Draws): Result<TextState> {
    if s.current != [] then Success(Attempt(m, s, draws))
    else if keys == [] then Failure(IndexError)
    else
      var k := keys[ChoiceIndex(draws(s.pos), |keys|)];
      Success(Attempt(m, TextState(k, s.output + k, s.pos + 1), draws))
  }

  /** `remaining` iterations, the first failure ending them all. */
  function Iterations(m: Model, keys: seq<seq<string>>, remaining: nat, s: TextState, draws: Draws): Result<TextState>
    decreases remaining
  {
    if remaining == 0 then Success(s)
    else
      match Iteration(m, keys, s, draws)
      case Failure(e) => Failure(e)
      case Success(t) => Iterations(m, keys, remaining - 1, t, draws)
  }

  /** What `make_text(count, model, join_with)` prints, and the stream
      position after it. */
  function MadeText(count: int, m: Model, keys: seq<seq<string>>, joinWith: string, draws: Draws, pos: nat)
    : Result<(string, nat)>
  {
    match Iterations(m, keys, Wanted(count), TextState([], [], pos), draws)
    case Failure(e) => Failure(e)
    case Success(t) => Success((Join(joinWith, t.output), t.pos))
  }

  /** `make_text(count, model, join_with)`, returning the text it prints.
      `keys` stands for `model.keys()`; the loop is correct for any order
      of them, so only the lemmas about keys need `Enumerates`. */
  method MakeText(count: int, m: Model, keys: seq<seq<string>>, joinWith: string, draws: Draws, pos: nat)
    returns (r: Result<string>, next: nat)
    ensures MadeText(count, m, keys, joinWith, draws, pos).Success? ==>
      r == Success(MadeText(count, m, keys, joinWith, draws, pos).value.0)
      && next == MadeText(count, m, keys, joinWith, draws, pos).value.1
    ensures MadeText(count, m, keys, joinWith, draws, pos).Failure? ==>
      r == Failure(MadeText(count, m, keys, joinWith, draws, pos).error)
  {
    var output: seq<string> := [];
    var current: seq<string> := [];
    var p := pos;
    var i := 0;
    while i < count
      invariant 0 <= i <= Wanted(count)
      invariant Iterations(m, keys, Wanted(count), TextState([], [], pos), draws)
        == Iterations(m, keys, Wanted(count) - i, TextState(current, output, p), draws)
    {
      ghost var st := TextState(current, output, p);
      if current == [] {
        if keys == [] {
          IterationsFail(m, keys, Wanted(count) - i, st, draws);
          return Failure(IndexError), p + 1;
        }
        current := keys[ChoiceIndex(draws(p), |keys|)];
        p := p + 1;
        output := output + current;
      }
      ghost var chosen := TextState(current, output, p);
      assert Iteration(m, keys, st, draws) == Success(Attempt(m, chosen, draws));
      if current !in m {
        current := [];
      } else if m[current] == [] {
        p := p + 1;
        current := [];
      } else {
        var follow := m[current][ChoiceIndex(draws(p), |m[current]|)];
        p := p + 1;
        current := Tail(current) + [follow];
        output := output + [follow];
      }
      assert Attempt(m, chosen, draws) == TextState(current, output, p);
      IterationsStep(m, keys, Wanted(count) - i, st, draws);
      i := i + 1;
    }
    r, next := Success(Join(joinWith, output)), p;
  }

  /** A successful iteration leaves the rest to the remaining ones. */
  lemma IterationsStep(m: Model, keys: seq<seq<string>>, remaining: nat, s: TextState, draws: Draws)
    requires remaining > 0 && Iteration(m, keys, s, draws).Success?
    ensures Iterations(m, keys, remaining, s, draws)
         == Iterations(m, keys, remaining - 1, Iteration(m, keys, s, draws).value, draws)
  {
  }

  /** A failed iteration is the failure of all of them. */
  lemma IterationsFail(m: Model, keys: seq<seq<string>>, remaining: nat, s: TextState, draws: Draws)
    requires remaining > 0 && Iteration(m, keys, s, draws).Failure?
    ensures Iterations(m, keys, remaining, s, draws) == Failure(Iteration(m, keys, s, draws).error)
  {
  }

  /** With an empty model the first iteration raises `IndexError`, while
      no iterations print the empty string. */
  lemma EmptyModelRaises(count: int, joinWith: string, draws: Draws, pos: nat)
    ensures count > 0 ==> MadeText(count, map[], [], joinWith, draws, pos) == Failure(IndexError)
    ensures count <= 0 ==> MadeText(count, map[], [], joinWith, draws, pos) == Success(("", pos))
  {
    if count > 0 {
      assert Iteration(map[], [], TextState([], [], pos), draws) == Failure(IndexError);
    }
  }

  /** Each iteration either resets, leaving the output as it was after the
      chosen key's tokens, or appends exactly one follower of the chosen
      n-gram and shifts it into the current n-gram. It resets exactly when
      the chosen n-gram is no key or has no followers, and it fails only
      when it has to choose a key from an empty model. */
  lemma IterationStep(m: Model, keys: seq<seq<string>>, s: TextState, draws: Draws)
    ensures Iteration(m, keys, s, draws).Success? <==> s.current != [] || keys != []
    ensures Iteration(m, keys, s, draws).Success? ==>
      var t := Iteration(m, keys, s, draws).value;
      var c := Chosen(keys, s, draws);
      var base := s.output + (if s.current == [] then c else []);
      (t.current == [] <==> c !in m || m[c] == [])
      && (t.current == [] ==> t.output == base)
      && (t.current != [] ==>
            |t.output| == |base| + 1 && t.output[..|base|] == base
            && t.output[|base|] in m[c] && t.current == Tail(c) + [t.output[|base|]])
  {
    if s.current != [] || keys != [] {
      var c := Chosen(keys, s, draws);
      var base := s.output + (if s.current == [] then c else []);
      var t := Iteration(m, keys, s, draws).value;
      assert t == Attempt(m, TextState(c, base, if s.current == [] then s.pos + 1 else s.pos), draws);
      if c in m && m[c] != [] {
        assert t.output == base + [t.output[|base|]];
      }
    }
  }

  /** A token the model knows: one of a key's, or a follower of one. */
  ghost predicate FromModel(m: Model, w: string) {
    exists k :: k in m && (w in k || w in m[k])
  }

  /** `make_text` prints nothing but tokens of the model: every output
      token, and every token of the current n-gram, is one of a key's or a
      follower of one. */
  lemma {:induction false} IterationsFromModel(m: Model, keys: seq<seq<string>>, remaining: nat, s: TextState, draws: Draws)
    requires Enumerates(keys, m)
    requires forall w :: w in s.output ==> FromModel(m, w)
    requires forall w :: w in s.current ==> FromModel(m, w)
    ensures Iterations(m, keys, remaining, s, draws).Success? ==>
      forall w :: w in Iterations(m, keys, remaining, s, draws).value.output ==> FromModel(m, w)
    decreases remaining
  {
    if remaining > 0 && Iteration(m, keys, s, draws).Success? {
      var t := Iteration(m, keys, s, draws).value;
      IterationStep(m, keys, s, draws);
      var c := Chosen(keys, s, draws);
      var base := s.output + (if s.current == [] then c else []);
      assert forall w :: w in c ==> FromModel(m, w) by {
        if s.current == [] {
          assert c == keys[ChoiceIndex(draws(s.pos), |keys|)];
          forall w | w in c ensures FromModel(m, w) {
            assert c in m && w in c;
          }
        }
      }
      assert forall w :: w in base ==> FromModel(m, w);
      if t.current != [] {
        var f := t.output[|base|];
        assert c in m && f in m[c];
        assert FromModel(m, f);
        assert t.output == base + [f];
        forall w | w in t.current ensures FromModel(m, w) {
          assert t.current == Tail(c) + [f];
          if w != f {
            assert w in Tail(c);
            assert w in c;
          }
        }
      }
      IterationsFromModel(m, keys, remaining - 1, t, draws);
    }
  }
}
