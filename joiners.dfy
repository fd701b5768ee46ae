/**
 * `presswork/text/grammar/joiners.py`: joiners turn tokenized sentences back
 * into one string. A joiner puts the text of a hook between words and
 * between sentences; the plain joiners' hooks return fixed separators,
 * the random ones indent sentences and break lines at a word gap.
 *
 * A joiner's configuration is a value; the random generator it holds is a
 * `RandomSource.Random`, which `JoinWith` advances.
 */
module Joiners {
  import opened Wrappers
  import opened PyStr
  import opened PyValues
  import Containers
  import opened RandomSource

  /** NLTK's `MosesDetokenizer(...).detokenize(tokens, return_str=True)`,
      supplied from outside. */
  type Detokenizer = seq<string> -> string

  /** What `between_words()` and `between_sentences()` do. */
  datatype Hooks =
      /** The base `Joiner`'s: return the configured separators. */
    | Separators
      /** A sentence separator followed by a random indent. */
    | RandomIndent
      /** Random indent, and at each word gap a chance of a line break.
          `wordSeparatorWhenEmpty`: an empty line break falls back to the
          word separator. */
    | RandomEnjambment(chance: real, lineBreakChoices: seq<int>, wordSeparatorWhenEmpty: bool)

  datatype Joiner = Joiner(
    sentenceSeparator: string,
    wordSeparator: string,
    /** Words pass through the Moses detokenizer and are re-split. */
    moses: bool,
    /** `filter(None, word_list)` before joining. */
    dropEmptyWords: bool,
    hooks: Hooks,
    /** Whether `self.random` is a generator (rather than a float). */
    hasGenerator: bool)
  {
    /** `indent_unit`: the word separator twice. */
    function IndentUnit(): string {
      wordSeparator + wordSeparator
    }
  }

  /** The largest number of indent units `_random_indent()` draws. */
  const MaxIndent := 8

  /** `_random_indent()` for the draw `r`. */
  function Indent(j: Joiner, r: Unit): string {
    Repeat(j.IndentUnit(), RandIntOf(r, 0, MaxIndent))
  }

  /** The random indent joiners' `between_sentences()`. */
  function IndentedSeparator(j: Joiner, r: Unit): string {
    j.sentenceSeparator + Indent(j, r)
  }

  // ---------------------------------------------------------------------
  // The hooks, with the generator's draws and how many of them they use

  /** `between_sentences()`: its text and the position of the next draw. */
  function BetweenSentences(j: Joiner, draws: Draws, pos: nat): Result<(string, nat)> {
    if j.hooks.Separators? then Success((j.sentenceSeparator, pos))
    else if !j.hasGenerator then Failure(AttributeError)
    else Success((IndentedSeparator(j, draws(pos)), pos + 1))
  }

  /** `between_words()`: its text and the position of the next draw. */
  function BetweenWords(j: Joiner, draws: Draws, pos: nat): Result<(string, nat)> {
    match j.hooks
    case RandomEnjambment(chance, choices, fallback) =>
      if !j.hasGenerator then Failure(AttributeError)
      else if draws(pos) < chance then
        if choices == [] then Failure(IndexError)
        else
          var lineBreaks := Repeat(j.sentenceSeparator, choices[ChoiceIndex(draws(pos + 1), |choices|)]);
          var extra := lineBreaks + LStripChars(Indent(j, draws(pos + 2)), j.sentenceSeparator);
          Success((if fallback && extra == "" then j.wordSeparator else extra, pos + 3))
      else Success((j.wordSeparator, pos + 1))
    case _ => Success((j.wordSeparator, pos))
  }

  // ---------------------------------------------------------------------
  // Joining

  /** `filter(None, words)`. */
  function NonEmpty(ws: seq<string>): seq<string> {
    if ws == [] then [] else (if ws[0] == "" then [] else [ws[0]]) + NonEmpty(ws[1..])
  }

  /** The words a sentence is joined from: after the detokenizer and
      `split()` for the Moses joiners, without empty words when filtered. */
  function Tokens(j: Joiner, detok: Detokenizer, row: seq<string>): seq<string> {
    var ws := if j.moses then Split(detok(row)) else row;
    if j.dropEmptyWords then NonEmpty(ws) else ws
  }

  /** `acc` followed, for each word, by the text of `between_words()` and
      the word. */
  function JoinRest(j: Joiner, acc: string, ws: seq<string>, draws: Draws, pos: nat): Result<(string, nat)>
    decreases |ws|
  {
    if ws == [] then Success((acc, pos))
    else
      var gap :- BetweenWords(j, draws, pos);
      JoinRest(j, acc + gap.0 + ws[0], ws[1..], draws, gap.1)
  }

  /** `_join_word_seq(row)`. */
  function JoinWords(j: Joiner, detok: Detokenizer, row: seq<string>, draws: Draws, pos: nat): Result<(string, nat)> {
    var ws := Tokens(j, detok, row);
    if ws == [] then Success(("", pos)) else JoinRest(j, ws[0], ws[1..], draws, pos)
  }

  /** `acc` followed, for each further sentence, by the text of
      `between_sentences()` and the joined sentence. */
  function JoinMore(j: Joiner, detok: Detokenizer, acc: string, rows: seq<seq<string>>, draws: Draws, pos: nat): Result<(string, nat)>
    decreases |rows|
  {
    if rows == [] then Success((acc, pos))
    else
      var gap :- BetweenSentences(j, draws, pos);
      var sentence :- JoinWords(j, detok, rows[0], draws, gap.1);
      JoinMore(j, detok, acc + gap.0 + sentence.0, rows[1..], draws, sentence.1)
  }

  /** `_join_sentences(rows)`, stripped at both ends. */
  function JoinSentences(j: Joiner, detok: Detokenizer, rows: seq<seq<string>>, draws: Draws, pos: nat): Result<(string, nat)> {
    var all :- JoinedSentences(j, detok, rows, draws, pos);
    Success((Strip(all.0), all.1))
  }

  /** `_join_sentences(rows)` before the strip. */
  function JoinedSentences(j: Joiner, detok: Detokenizer, rows: seq<seq<string>>, draws: Draws, pos: nat): Result<(string, nat)> {
    if rows == [] then Success(("", pos))
    else
      var first :- JoinWords(j, detok, rows[0], draws, pos);
      JoinMore(j, detok, first.0, rows[1..], draws, first.1)
  }

  /** The words the Moses detokenizer joins: the characters of a string,
      the strings of a list; None when some token is not a string (the
      detokenizer joins its tokens with spaces first, which fails then). */
  function RowWords(v: Value): Option<seq<string>> {
    if v.Str? then Some(seq(|v.s|, i requires 0 <= i < |v.s| => [v.s[i]]))
    else if v.List? || v.WordListObject? || v.SentencesObject? then StrsOf(v.items)
    else None
  }

  function StrsOf(xs: seq<Value>): Option<seq<string>> {
    if xs == [] then Some([])
    else if !xs[0].Str? then None
    else
      match StrsOf(xs[1..])
      case None => None
      case Some(rest) => Some([xs[0].s] + rest)
  }

  // ---------------------------------------------------------------------
  // Joining Python values

  /** `filter(None, xs)`: the truthy values, in order. */
  function Truthies(xs: seq<Value>): seq<Value> {
    if xs == [] then [] else (if Truthy(xs[0]) then [xs[0]] else []) + Truthies(xs[1..])
  }

  /** The words after the first, each after the text of `between_words()`:
      `gap + word` raises TypeError when the word is not a string. */
  function JoinRestValues(j: Joiner, acc: string, ws: seq<Value>, draws: Draws, pos: nat): Result<(string, nat)>
    decreases |ws|
  {
    if ws == [] then Success((acc, pos))
    else
      var gap :- BetweenWords(j, draws, pos);
      if !ws[0].Str? then Failure(TypeError)
      else JoinRestValues(j, acc + gap.0 + ws[0].s, ws[1..], draws, gap.1)
  }

  /** The older `_join_words` loop over all words but the last: each word,
      then the text of `between_words()`; `word + gap` raises TypeError
      when the word is not a string. */
  function JoinInitValues(j: Joiner, acc: string, ws: seq<Value>, draws: Draws, pos: nat): Result<(string, nat)>
    decreases |ws|
  {
    if ws == [] then Success((acc, pos))
    else
      var gap :- BetweenWords(j, draws, pos);
      if !ws[0].Str? then Failure(TypeError)
      else JoinInitValues(j, acc + ws[0].s + gap.0, ws[1..], draws, gap.1)
  }

  /** `word_list[:-1]` of a `WordList` or a `SentencesAsWordLists` is a new
      instance of the same class, checked again on its first element. */
  predicate InitSliceRejected(row: Value)
    requires IsIterable(row) && |Elements(row)| >= 2
  {
    (row.WordListObject? && !IsStringLike(row.items[0]))
    || (row.SentencesObject? && IsStringLike(row.items[0]))
  }

  /** `_join_word_seq(row)` (the older `_join_words(row)` when words are
      not filtered) for any Python value. The result is a string, or the
      only word of the row as it is, whatever it is.
      - Moses joiners: the detokenizer's output re-split and joined.
      - Filtered: `filter(None, row)` needs an iterable; the rest is joined
        first and then added to the first word, which must be a string.
      - Unfiltered: a falsy row is ""; `len` needs an iterable; the words
        but the last are each followed by a gap, then the last is added. */
  function JoinWordsValue(j: Joiner, detok: Detokenizer, row: Value, draws: Draws, pos: nat): Result<(Value, nat)> {
    if j.moses then
      match RowWords(row)
      case None => Failure(TypeError)
      case Some(ws) =>
        var r :- JoinWords(j, detok, ws, draws, pos);
        Success((Str(r.0), r.1))
    else if j.dropEmptyWords then
      if !IsIterable(row) then Failure(TypeError)
      else
        var ws := Truthies(Elements(row));
        if ws == [] then Success((Str(""), pos))
        else if |ws| == 1 then Success((ws[0], pos))
        else
          var all :- JoinRestValues(j, if ws[0].Str? then ws[0].s else "", ws[1..], draws, pos);
          if ws[0].Str? then Success((Str(all.0), all.1)) else Failure(TypeError)
    else if !Truthy(row) then Success((Str(""), pos))
    else if !IsIterable(row) then Failure(TypeError)
    else
      var ws := Elements(row);
      if |ws| == 1 then Success((ws[0], pos))
      else if InitSliceRejected(row) then Failure(ValueError)
      else
        var init :- JoinInitValues(j, "", ws[..|ws| - 1], draws, pos);
        var last := ws[|ws| - 1];
        if last.Str? then Success((Str(init.0 + last.s), init.1)) else Failure(TypeError)
  }

  /** The sentences after the first, each after the text of
      `between_sentences()`: `gap + sentence` raises TypeError when the
      joined sentence is not a string. */
  function JoinLaterValues(j: Joiner, detok: Detokenizer, acc: string, rows: seq<Value>, draws: Draws, pos: nat): Result<(string, nat)>
    decreases |rows|
  {
    if rows == [] then Success((acc, pos))
    else
      var gap :- BetweenSentences(j, draws, pos);
      var sentence :- JoinWordsValue(j, detok, rows[0], draws, gap.1);
      if !sentence.0.Str? then Failure(TypeError)
      else JoinLaterValues(j, detok, acc + gap.0 + sentence.0.s, rows[1..], draws, sentence.1)
  }

  /** `_join_sentences(sentences)` for the items of a `SentencesAsWordLists`.
      The first sentence is joined first. `sentences[1:]` is a new
      `SentencesAsWordLists`, so a string as the second sentence raises
      ValueError. The later sentences are joined next, and only then added
      to the first, which must be a string; a lone sentence that is not a
      string has no `strip` (AttributeError). */
  function JoinItems(j: Joiner, detok: Detokenizer, items: seq<Value>, draws: Draws, pos: nat): Result<(string, nat)> {
    if items == [] then Success(("", pos))
    else
      var first :- JoinWordsValue(j, detok, items[0], draws, pos);
      if |items| == 1 then
        if first.0.Str? then Success((Strip(first.0.s), first.1)) else Failure(AttributeError)
      else if IsStringLike(items[1]) then Failure(ValueError)
      else
        var all :- JoinLaterValues(j, detok, if first.0.Str? then first.0.s else "", items[1..], draws, first.1);
        if first.0.Str? then Success((Strip(all.0), all.1)) else Failure(TypeError)
  }

  /** `join(sentences)`: a falsy input joins to ""; anything else must be
      accepted by `SentencesAsWordLists.ensure`. */
  function Join(j: Joiner, detok: Detokenizer, v: Value, draws: Draws, pos: nat): Result<(string, nat)> {
    if !Truthy(v) then Success(("", pos))
    else
      var sentences :- Containers.Ensure(v);
      JoinItems(j, detok, sentences.items, draws, pos)
  }

  // ---------------------------------------------------------------------
  // The joiner classes and `create_joiner`

  /** `Joiner(separate_sentences, separate_words)`. */
  function PlainJoiner(separateSentences: string, separateWords: string): (j: Joiner)
    ensures j.hooks.Separators? && !j.moses && j.dropEmptyWords
    ensures j.sentenceSeparator == separateSentences && j.wordSeparator == separateWords
  {
    Joiner(separateSentences, separateWords, false, true, Separators, true)
  }

  /** `JoinerNLTK(separate_sentences, separate_words)`. */
  function NltkJoiner(separateSentences: string, separateWords: string): (j: Joiner)
    ensures j.hooks.Separators? && j.moses && j.dropEmptyWords
    ensures j.sentenceSeparator == separateSentences && j.wordSeparator == separateWords
  {
    Joiner(separateSentences, separateWords, true, true, Separators, true)
  }

  /** `JoinerNLTKWithRandomIndent(...)`: without `_random` it makes its own
      generator, so it always has one. */
  function RandomIndentJoiner(separateSentences: string, separateWords: string): (j: Joiner)
    ensures j.hooks.RandomIndent? && j.moses && j.dropEmptyWords && j.hasGenerator
    ensures j.IndentUnit() == separateWords + separateWords
  {
    Joiner(separateSentences, separateWords, true, true, RandomIndent, true)
  }

  /** `JoinerNLTKWithRandomEnjambment(...)`: a 0.2 chance of a break with
      1, 1 or 2 sentence separators. */
  function RandomEnjambmentJoiner(separateSentences: string, separateWords: string): (j: Joiner)
    ensures j.hooks == RandomEnjambment(0.2, [1, 1, 2], true)
    ensures j.moses && j.dropEmptyWords && j.hasGenerator
  {
    Joiner(separateSentences, separateWords, true, true, RandomEnjambment(0.2, [1, 1, 2], true), true)
  }

  /** The nicknames `create_joiner` accepts. */
  const JoinerNicknames: set<string> := {"just_whitespace", "nltk", "random_indent", "random_enjamb"}

  /** `create_joiner(nickname)`: the class for the nickname with its
      default arguments; an unknown nickname is a KeyError. */
  function CreateJoiner(nickname: string): (r: Result<Joiner>)
    ensures r.Success? <==> nickname in JoinerNicknames
    ensures r.Failure? ==> r.error == KeyError
    ensures r.Success? ==> r.value.dropEmptyWords && r.value.hasGenerator
    ensures r.Success? ==> (r.value.moses <==> nickname != "just_whitespace")
  {
    if nickname == "just_whitespace" then Success(PlainJoiner("\n", " "))
    else if nickname == "nltk" then Success(NltkJoiner(" ", " "))
    else if nickname == "random_indent" then Success(RandomIndentJoiner("\n", " "))
    else if nickname == "random_enjamb" then Success(RandomEnjambmentJoiner("\n", " "))
    else Failure(KeyError)
  }

  // ---------------------------------------------------------------------
  // The methods: a joiner's hooks drawing from its generator

  method BetweenSentencesWith(j: Joiner, rng: Random) returns (r: Result<string>)
    modifies rng
    ensures var spec := BetweenSentences(j, rng.draws, old(rng.pos));
      (spec.Success? ==> r == Success(spec.value.0) && rng.pos == spec.value.1)
      && (spec.Failure? ==> r == Failure(spec.error))
  {
    if j.hooks.Separators? {
      return Success(j.sentenceSeparator);
    }
    if !j.hasGenerator {
      return Failure(AttributeError);
    }
    var k := rng.RandInt(0, MaxIndent);
    r := Success(j.sentenceSeparator + Repeat(j.IndentUnit(), k));
  }

  method BetweenWordsWith(j: Joiner, rng: Random) returns (r: Result<string>)
    modifies rng
    ensures var spec := BetweenWords(j, rng.draws, old(rng.pos));
      (spec.Success? ==> r == Success(spec.value.0) && rng.pos == spec.value.1)
      && (spec.Failure? ==> r == Failure(spec.error))
  {
    if !j.hooks.RandomEnjambment? {
      return Success(j.wordSeparator);
    }
    if !j.hasGenerator {
      return Failure(AttributeError);
    }
    var chance := j.hooks.chance;
    var choices := j.hooks.lineBreakChoices;
    var x := rng.Next();
    if x < chance {
      var y := rng.Next();
      if choices == [] {
        return Failure(IndexError);
      }
      var lineBreaks := Repeat(j.sentenceSeparator, choices[ChoiceIndex(y, |choices|)]);
      var k := rng.RandInt(0, MaxIndent);
      var extra := lineBreaks + LStripChars(Repeat(j.IndentUnit(), k), j.sentenceSeparator);
      if j.hooks.wordSeparatorWhenEmpty && extra == "" {
        r := Success(j.wordSeparator);
      } else {
        r := Success(extra);
      }
    } else {
      r := Success(j.wordSeparator);
    }
  }

  /** The loop of `_join_word_seq`: each further word after the text of
      `between_words()`. */
  method JoinRestWith(j: Joiner, first: string, ws: seq<string>, rng: Random) returns (r: Result<string>)
    modifies rng
    ensures var spec := JoinRest(j, first, ws, rng.draws, old(rng.pos));
      (spec.Success? ==> r == Success(spec.value.0) && rng.pos == spec.value.1)
      && (spec.Failure? ==> r == Failure(spec.error))
  {
    ghost var start := rng.pos;
    var acc := first;
    var i := 0;
    while i < |ws|
      invariant 0 <= i <= |ws|
      invariant JoinRest(j, acc, ws[i..], rng.draws, rng.pos) == JoinRest(j, first, ws, rng.draws, start)
    {
      var gap := BetweenWordsWith(j, rng);
      if gap.Failure? {
        return Failure(gap.error);
      }
      assert ws[i..][1..] == ws[i + 1..];
      acc := acc + gap.value + ws[i];
      i := i + 1;
    }
    assert ws[i..] == [];
    r := Success(acc);
  }

  /** The loop of `_join_word_seq` over Python values: each further word
      after the text of `between_words()`, and a string. */
  method JoinRestValuesWith(j: Joiner, first: string, ws: seq<Value>, rng: Random) returns (r: Result<string>)
    modifies rng
    ensures var spec := JoinRestValues(j, first, ws, rng.draws, old(rng.pos));
      (spec.Success? ==> r == Success(spec.value.0) && rng.pos == spec.value.1)
      && (spec.Failure? ==> r == Failure(spec.error))
  {
    ghost var start := rng.pos;
    var acc := first;
    var i := 0;
    while i < |ws|
      invariant 0 <= i <= |ws|
      invariant JoinRestValues(j, acc, ws[i..], rng.draws, rng.pos) == JoinRestValues(j, first, ws, rng.draws, start)
    {
      var gap := BetweenWordsWith(j, rng);
      if gap.Failure? {
        return Failure(gap.error);
      }
      if !ws[i].Str? {
        return Failure(TypeError);
      }
      assert ws[i..][1..] == ws[i + 1..];
      acc := acc + gap.value + ws[i].s;
      i := i + 1;
    }
    assert ws[i..] == [];
    r := Success(acc);
  }

  /** The loop of the older `_join_words`: each word but the last, a
      string, followed by the text of `between_words()`. */
  method JoinInitValuesWith(j: Joiner, ws: seq<Value>, rng: Random) returns (r: Result<string>)
    modifies rng
    ensures var spec := JoinInitValues(j, "", ws, rng.draws, old(rng.pos));
      (spec.Success? ==> r == Success(spec.value.0) && rng.pos == spec.value.1)
      && (spec.Failure? ==> r == Failure(spec.error))
  {
    ghost var start := rng.pos;
    var acc := "";
    var i := 0;
    while i < |ws|
      invariant 0 <= i <= |ws|
      invariant JoinInitValues(j, acc, ws[i..], rng.draws, rng.pos) == JoinInitValues(j, "", ws, rng.draws, start)
    {
      var gap := BetweenWordsWith(j, rng);
      if gap.Failure? {
        return Failure(gap.error);
      }
      if !ws[i].Str? {
        return Failure(TypeError);
      }
      assert ws[i..][1..] == ws[i + 1..];
      acc := acc + ws[i].s + gap.value;
      i := i + 1;
    }
    assert ws[i..] == [];
    r := Success(acc);
  }

  /** `_join_word_seq(row)` (the older `_join_words(row)`) for a Python
      value `row`. */
  method JoinWordsWith(j: Joiner, detok: Detokenizer, row: Value, rng: Random) returns (r: Result<Value>)
    modifies rng
    ensures var spec := JoinWordsValue(j, detok, row, rng.draws, old(rng.pos));
      (spec.Success? ==> r == Success(spec.value.0) && rng.pos == spec.value.1)
      && (spec.Failure? ==> r == Failure(spec.error))
  {
    if j.moses {
      var words := RowWords(row);
      if words.None? {
        return Failure(TypeError);
      }
      var ws := Tokens(j, detok, words.value);
      if ws == [] {
        return Success(Str(""));
      }
      var joined := JoinRestWith(j, ws[0], ws[1..], rng);
      if joined.Failure? {
        return Failure(joined.error);
      }
      return Success(Str(joined.value));
    }
    if j.dropEmptyWords {
      if !IsIterable(row) {
        return Failure(TypeError);
      }
      var ws := Truthies(Elements(row));
      if ws == [] {
        return Success(Str(""));
      }
      if |ws| == 1 {
        return Success(ws[0]);
      }
      var all := JoinRestValuesWith(j, if ws[0].Str? then ws[0].s else "", ws[1..], rng);
      if all.Failure? {
        return Failure(all.error);
      }
      if !ws[0].Str? {
        return Failure(TypeError);
      }
      return Success(Str(all.value));
    }
    if !Truthy(row) {
      return Success(Str(""));
    }
    if !IsIterable(row) {
      return Failure(TypeError);
    }
    var ws := Elements(row);
    if |ws| == 1 {
      return Success(ws[0]);
    }
    if InitSliceRejected(row) {
      return Failure(ValueError);
    }
    var init := JoinInitValuesWith(j, ws[..|ws| - 1], rng);
    if init.Failure? {
      return Failure(init.error);
    }
    var last := ws[|ws| - 1];
    if !last.Str? {
      return Failure(TypeError);
    }
    r := Success(Str(init.value + last.s));
  }

  /** The loop of `_join_sentences`: each further sentence after the text
      of `between_sentences()`, and joined to a string. */
  method JoinLaterValuesWith(j: Joiner, detok: Detokenizer, head: string, rows: seq<Value>, rng: Random) returns (r: Result<string>)
    modifies rng
    ensures var spec := JoinLaterValues(j, detok, head, rows, rng.draws, old(rng.pos));
      (spec.Success? ==> r == Success(spec.value.0) && rng.pos == spec.value.1)
      && (spec.Failure? ==> r == Failure(spec.error))
  {
    ghost var start := rng.pos;
    var acc := head;
    var i := 0;
    while i < |rows|
      invariant 0 <= i <= |rows|
      invariant JoinLaterValues(j, detok, acc, rows[i..], rng.draws, rng.pos)
             == JoinLaterValues(j, detok, head, rows, rng.draws, start)
    {
      var gap := BetweenSentencesWith(j, rng);
      if gap.Failure? {
        return Failure(gap.error);
      }
      var sentence := JoinWordsWith(j, detok, rows[i], rng);
      if sentence.Failure? {
        return Failure(sentence.error);
      }
      if !sentence.value.Str? {
        return Failure(TypeError);
      }
      assert rows[i..][1..] == rows[i + 1..];
      acc := acc + gap.value + sentence.value.s;
      i := i + 1;
    }
    assert rows[i..] == [];
    r := Success(acc);
  }

  /** `joiner.join(sentences)`, drawing from the joiner's generator `rng`. */
  method JoinWith(j: Joiner, detok: Detokenizer, v: Value, rng: Random) returns (r: Result<string>)
    modifies rng
    ensures var spec := Join(j, detok, v, rng.draws, old(rng.pos));
      (spec.Success? ==> r == Success(spec.value.0) && rng.pos == spec.value.1)
      && (spec.Failure? ==> r == Failure(spec.error))
  {
    if !Truthy(v) {
      return Success("");
    }
    var sentences := Containers.Ensure(v);
    if sentences.Failure? {
      return Failure(sentences.error);
    }
    var items := sentences.value.items;
    if items == [] {
      return Success("");
    }
    var first := JoinWordsWith(j, detok, items[0], rng);
    if first.Failure? {
      return Failure(first.error);
    }
    if |items| == 1 {
      if !first.value.Str? {
        return Failure(AttributeError);
      }
      return Success(Strip(first.value.s));
    }
    if IsStringLike(items[1]) {
      return Failure(ValueError);
    }
    var all := JoinLaterValuesWith(j, detok, if first.value.Str? then first.value.s else "", items[1..], rng);
    if all.Failure? {
      return all;
    }
    if !first.value.Str? {
      return Failure(TypeError);
    }
    r := Success(Strip(all.value));
  }

  // ---------------------------------------------------------------------
  // Properties

  /** `acc` followed by each gap and its part, in turn. */
  function Weave(acc: string, gaps: seq<string>, parts: seq<string>): string
    requires |gaps| == |parts|
    decreases |parts|
  {
    if parts == [] then acc else Weave(acc + gaps[0] + parts[0], gaps[1..], parts[1..])
  }

  /** Weaving with one fixed gap is `gap.join`. */
  lemma {:induction false} WeaveConstant(acc: string, gap: string, parts: seq<string>)
    ensures Weave(acc, seq(|parts|, _ => gap), parts) == PyStr.Join(gap, [acc] + parts)
    decreases |parts|
  {
    if parts != [] {
      var gaps := seq(|parts|, _ => gap);
      var rest := parts[1..];
      var acc' := acc + gap + parts[0];
      assert Weave(acc, gaps, parts) == Weave(acc', seq(|rest|, _ => gap), rest) by {
        assert gaps[1..] == seq(|rest|, _ => gap);
      }
      WeaveConstant(acc', gap, rest);
      JoinCons(gap, acc', rest);
      JoinCons(gap, acc, parts);
      assert PyStr.Join(gap, parts) == PyStr.Join(gap, [parts[0]] + rest) by {
        assert [parts[0]] + rest == parts;
      }
      JoinCons(gap, parts[0], rest);
      if rest != [] {
        var tail := gap + PyStr.Join(gap, rest);
        assert acc' + tail == acc + gap + (parts[0] + tail);
      }
    }
  }

  /** The hook between words returns the word separator and draws nothing. */
  predicate SteadyWords(j: Joiner) {
    !j.hooks.RandomEnjambment?
  }

  /** The hook between sentences can run: it needs a generator, except for
      the fixed separators. */
  predicate CanDraw(j: Joiner) {
    j.hooks.Separators? || j.hasGenerator
  }

  /** The text `between_sentences()` returns for the draw at `q`. */
  function SentenceGap(j: Joiner, draws: Draws, q: nat): string {
    if j.hooks.Separators? then j.sentenceSeparator else IndentedSeparator(j, draws(q))
  }

  /** The gaps before the second, third, ... sentence, the first drawn at `q`. */
  function Gaps(j: Joiner, draws: Draws, q: nat, n: nat): (r: seq<string>)
    ensures |r| == n
  {
    seq(n, i requires 0 <= i < n => SentenceGap(j, draws, q + i))
  }

  /** Each sentence joined with the word separator. */
  function Parts(j: Joiner, detok: Detokenizer, rows: seq<seq<string>>): (r: seq<string>)
    ensures |r| == |rows|
  {
    seq(|rows|, i requires 0 <= i < |rows| => PyStr.Join(j.wordSeparator, Tokens(j, detok, rows[i])))
  }

  lemma {:induction false} JoinRestSteady(j: Joiner, acc: string, ws: seq<string>, draws: Draws, pos: nat)
    requires SteadyWords(j)
    ensures JoinRest(j, acc, ws, draws, pos) == Success((PyStr.Join(j.wordSeparator, [acc] + ws), pos))
    decreases |ws|
  {
    var sep := j.wordSeparator;
    if ws == [] {
      JoinCons(sep, acc, ws);
    } else {
      var acc' := acc + sep + ws[0];
      calc {
        JoinRest(j, acc, ws, draws, pos);
        { assert BetweenWords(j, draws, pos) == Success((sep, pos)); }
        JoinRest(j, acc', ws[1..], draws, pos);
        { JoinRestSteady(j, acc', ws[1..], draws, pos); }
        Success((PyStr.Join(sep, [acc'] + ws[1..]), pos));
        { JoinCons(sep, acc', ws[1..]);
          JoinCons(sep, acc, ws);
          JoinCons(sep, ws[0], ws[1..]);
          assert [ws[0]] + ws[1..] == ws;
          if ws[1..] != [] {
            var rest := PyStr.Join(sep, ws[1..]);
            assert acc' + sep + rest == acc + sep + (ws[0] + sep + rest);
          } }
        Success((PyStr.Join(sep, [acc] + ws), pos));
      }
    }
  }

  /** With steady word gaps a sentence is its words joined by the word separator. */
  lemma JoinWordsSteady(j: Joiner, detok: Detokenizer, row: seq<string>, draws: Draws, pos: nat)
    requires SteadyWords(j)
    ensures JoinWords(j, detok, row, draws, pos) == Success((PyStr.Join(j.wordSeparator, Tokens(j, detok, row)), pos))
  {
    var ws := Tokens(j, detok, row);
    if ws != [] {
      JoinRestSteady(j, ws[0], ws[1..], draws, pos);
      assert [ws[0]] + ws[1..] == ws;
    }
  }

  /** The position of the draw after one sentence gap. */
  function AfterGap(j: Joiner, q: nat): nat {
    if j.hooks.Separators? then q else q + 1
  }

  lemma GapsShift(j: Joiner, draws: Draws, q: nat, n: nat)
    requires n >= 1
    ensures Gaps(j, draws, q, n)[0] == SentenceGap(j, draws, q)
    ensures Gaps(j, draws, q, n)[1..] == Gaps(j, draws, AfterGap(j, q), n - 1)
  {
    var next := AfterGap(j, q);
    forall i | 0 <= i < n - 1
      ensures Gaps(j, draws, q, n)[1..][i] == Gaps(j, draws, next, n - 1)[i]
    {
      assert Gaps(j, draws, q, n)[1..][i] == SentenceGap(j, draws, q + i + 1);
      assert Gaps(j, draws, next, n - 1)[i] == SentenceGap(j, draws, next + i);
    }
  }

  lemma PartsShift(j: Joiner, detok: Detokenizer, rows: seq<seq<string>>)
    requires rows != []
    ensures Parts(j, detok, rows)[0] == PyStr.Join(j.wordSeparator, Tokens(j, detok, rows[0]))
    ensures Parts(j, detok, rows)[1..] == Parts(j, detok, rows[1..])
  {
  }

  lemma {:induction false} JoinMoreSteady(j: Joiner, detok: Detokenizer, acc: string, rows: seq<seq<string>>, draws: Draws, q: nat)
    requires SteadyWords(j) && CanDraw(j)
    ensures JoinMore(j, detok, acc, rows, draws, q)
         == Success((Weave(acc, Gaps(j, draws, q, |rows|), Parts(j, detok, rows)),
                     q + if j.hooks.Separators? then 0 else |rows|))
    decreases |rows|
  {
    if rows != [] {
      var next := AfterGap(j, q);
      var gaps := Gaps(j, draws, q, |rows|);
      var parts := Parts(j, detok, rows);
      GapsShift(j, draws, q, |rows|);
      PartsShift(j, detok, rows);
      var acc' := acc + gaps[0] + parts[0];
      assert BetweenSentences(j, draws, q) == Success((gaps[0], next));
      JoinWordsSteady(j, detok, rows[0], draws, next);
      assert JoinMore(j, detok, acc, rows, draws, q) == JoinMore(j, detok, acc', rows[1..], draws, next);
      JoinMoreSteady(j, detok, acc', rows[1..], draws, next);
    }
  }

  /** The text of a joiner with steady word gaps before the strip: the
      sentences, each joined with the word separator, woven with one
      sentence gap each. */
  function SteadyText(j: Joiner, detok: Detokenizer, rows: seq<seq<string>>, draws: Draws, pos: nat): string
    requires rows != []
  {
    Weave(Parts(j, detok, rows)[0], Gaps(j, draws, pos, |rows| - 1), Parts(j, detok, rows)[1..])
  }

  /** `_join_sentences` from its first sentence and the rest. */
  lemma JoinSentencesOfParts(j: Joiner, detok: Detokenizer, rows: seq<seq<string>>, draws: Draws, pos: nat,
                             first: string, next: nat, all: string, end: nat)
    requires rows != [] && JoinWords(j, detok, rows[0], draws, pos) == Success((first, next))
    requires JoinMore(j, detok, first, rows[1..], draws, next) == Success((all, end))
    ensures JoinSentences(j, detok, rows, draws, pos) == Success((Strip(all), end))
  {
  }

  /** Joiners whose word gaps are the word separator (the plain, NLTK and
      random indent joiners): their steady text, stripped. The random
      indent joiners draw once per gap, the others never. */
  lemma SteadyJoinSentences(j: Joiner, detok: Detokenizer, rows: seq<seq<string>>, draws: Draws, pos: nat)
    requires SteadyWords(j) && CanDraw(j) && rows != []
    ensures JoinSentences(j, detok, rows, draws, pos)
      == Success((Strip(SteadyText(j, detok, rows, draws, pos)),
                  pos + if j.hooks.Separators? then 0 else |rows| - 1))
  {
    SteadyJoined(j, detok, rows, draws, pos);
  }

  /** The unstripped join of a joiner with steady word gaps. */
  lemma SteadyJoined(j: Joiner, detok: Detokenizer, rows: seq<seq<string>>, draws: Draws, pos: nat)
    requires SteadyWords(j) && CanDraw(j) && rows != []
    ensures JoinedSentences(j, detok, rows, draws, pos)
      == Success((SteadyText(j, detok, rows, draws, pos),
                  pos + if j.hooks.Separators? then 0 else |rows| - 1))
  {
    var parts := Parts(j, detok, rows);
    PartsShift(j, detok, rows);
    JoinWordsSteady(j, detok, rows[0], draws, pos);
    assert |rows[1..]| == |rows| - 1;
    JoinMoreSteady(j, detok, parts[0], rows[1..], draws, pos);
  }

  /** The plain and NLTK joiners: `sentence_separator.join` of the sentences,
      each `word_separator.join` of its words, stripped; no draws. */
  lemma SeparatorsJoinSentences(j: Joiner, detok: Detokenizer, rows: seq<seq<string>>, draws: Draws, pos: nat)
    requires j.hooks.Separators?
    ensures JoinSentences(j, detok, rows, draws, pos)
         == Success((Strip(PyStr.Join(j.sentenceSeparator, Parts(j, detok, rows))), pos))
  {
    if rows != [] {
      var sep := j.sentenceSeparator;
      var parts := Parts(j, detok, rows);
      var gaps := Gaps(j, draws, pos, |rows| - 1);
      assert Weave(parts[0], gaps, parts[1..]) == PyStr.Join(sep, parts) by {
        forall i | 0 <= i < |rows| - 1
          ensures gaps[i] == seq(|rows| - 1, _ => sep)[i]
        {
          assert gaps[i] == SentenceGap(j, draws, pos + i);
        }
        assert gaps == seq(|rows| - 1, _ => sep);
        WeaveConstant(parts[0], sep, parts[1..]);
        assert [parts[0]] + parts[1..] == parts;
      }
      SteadyJoinSentences(j, detok, rows, draws, pos);
    }
  }

  /** The sentence separator followed by 0 to 8 indent units. */
  predicate IndentedGap(j: Joiner, gap: string) {
    exists k :: 0 <= k <= MaxIndent && gap == j.sentenceSeparator + Repeat(j.IndentUnit(), k)
  }

  /** Each gap a random indent joiner puts between sentences is the
      sentence separator and 0 to 8 indent units. */
  lemma RandomIndentGaps(j: Joiner, draws: Draws, q: nat, n: nat)
    requires j.hooks.RandomIndent?
    ensures forall i :: 0 <= i < n ==> IndentedGap(j, Gaps(j, draws, q, n)[i])
  {
    forall i | 0 <= i < n
      ensures IndentedGap(j, Gaps(j, draws, q, n)[i])
    {
      var k := RandIntOf(draws(q + i), 0, MaxIndent);
      assert Gaps(j, draws, q, n)[i] == SentenceGap(j, draws, q + i);
      assert SentenceGap(j, draws, q + i) == IndentedSeparator(j, draws(q + i));
      assert Indent(j, draws(q + i)) == Repeat(j.IndentUnit(), k);
    }
  }

  /** Every gap a joiner can put between words or sentences is non-empty
      whitespace: both separators are, and every line break choice is at
      least one. */
  predicate SpaceGaps(j: Joiner) {
    && j.sentenceSeparator != [] && AllSpace(j.sentenceSeparator)
    && j.wordSeparator != [] && AllSpace(j.wordSeparator)
    && (j.hooks.RandomEnjambment? ==>
          forall i :: 0 <= i < |j.hooks.lineBreakChoices| ==> j.hooks.lineBreakChoices[i] >= 1)
  }

  lemma IndentIsSpace(j: Joiner, r: Unit)
    requires AllSpace(j.wordSeparator)
    ensures AllSpace(Indent(j, r))
  {
    AllSpaceAppend(j.wordSeparator, j.wordSeparator);
    RepeatAllSpace(j.IndentUnit(), RandIntOf(r, 0, MaxIndent));
  }

  lemma SentenceGapIsSpace(j: Joiner, draws: Draws, pos: nat)
    requires SpaceGaps(j)
    ensures BetweenSentences(j, draws, pos).Success? ==>
      var gap := BetweenSentences(j, draws, pos).value.0; gap != [] && AllSpace(gap)
  {
    if !j.hooks.Separators? {
      IndentIsSpace(j, draws(pos));
      AllSpaceAppend(j.sentenceSeparator, Indent(j, draws(pos)));
    }
  }

  lemma WordGapIsSpace(j: Joiner, draws: Draws, pos: nat)
    requires SpaceGaps(j)
    ensures BetweenWords(j, draws, pos).Success? ==>
      var gap := BetweenWords(j, draws, pos).value.0; gap != [] && AllSpace(gap)
  {
    match j.hooks
    case RandomEnjambment(chance, choices, fallback) =>
      if j.hasGenerator && draws(pos) < chance && choices != [] {
        var c := choices[ChoiceIndex(draws(pos + 1), |choices|)];
        var lineBreaks := Repeat(j.sentenceSeparator, c);
        RepeatAllSpace(j.sentenceSeparator, c);
        assert lineBreaks == j.sentenceSeparator + Repeat(j.sentenceSeparator, c - 1);
        var indent := Indent(j, draws(pos + 2));
        IndentIsSpace(j, draws(pos + 2));
        var stripped := LStripChars(indent, j.sentenceSeparator);
        assert AllSpace(stripped);
        AllSpaceAppend(lineBreaks, stripped);
      }
    case _ =>
  }

  /** The words of all sentences, empty words left out. */
  function WordsOf(rows: seq<seq<string>>): seq<string> {
    if rows == [] then [] else NonEmpty(rows[0]) + WordsOf(rows[1..])
  }

  lemma {:induction false} NonEmptyIdempotent(ws: seq<string>)
    ensures NonEmpty(NonEmpty(ws)) == NonEmpty(ws)
  {
    if ws != [] {
      NonEmptyIdempotent(ws[1..]);
      var head := if ws[0] == "" then [] else [ws[0]];
      NonEmptyAppend(head, NonEmpty(ws[1..]));
    }
  }

  lemma {:induction false} NonEmptyAppend(xs: seq<string>, ys: seq<string>)
    ensures NonEmpty(xs + ys) == NonEmpty(xs) + NonEmpty(ys)
  {
    if xs == [] {
      assert xs + ys == ys;
    } else {
      assert (xs + ys)[1..] == xs[1..] + ys;
      NonEmptyAppend(xs[1..], ys);
    }
  }

  /** Text followed by a whitespace gap and a word splits into the text's
      words and the word. */
  lemma SplitGapWord(acc: string, gap: string, w: string)
    requires gap != [] && AllSpace(gap) && NoSpace(w)
    ensures Split(acc + gap + w) == Split(acc) + (if w == "" then [] else [w])
  {
    SplitAfterGap(acc, gap, w);
    SplitOfWord(w);
  }

  /** A whitespace gap keeps the words on either side of it apart. */
  lemma SplitAfterGap(acc: string, gap: string, text: string)
    requires gap != [] && AllSpace(gap)
    ensures Split(acc + gap + text) == Split(acc) + Split(text)
  {
    assert Split(acc + gap) == Split(acc) by {
      SplitAppend(acc, gap);
      SplitAllSpace(gap);
      assert Split(acc) + [] == Split(acc);
    }
    assert Split(acc + gap + text) == Split(acc + gap) + Split(text) by {
      SplitAppend(acc + gap, text);
    }
  }

  /** `filter(None, ws)` keeps exactly the non-empty words. */
  lemma {:induction false} NonEmptyMembers(ws: seq<string>)
    ensures forall w :: w in NonEmpty(ws) <==> w in ws && w != ""
  {
    if ws != [] {
      NonEmptyMembers(ws[1..]);
      assert ws == [ws[0]] + ws[1..];
    }
  }

  predicate SpaceFree(ws: seq<string>) {
    forall k :: 0 <= k < |ws| ==> NoSpace(ws[k])
  }

  lemma {:induction false} NonEmptySpaceFree(ws: seq<string>)
    requires SpaceFree(ws)
    ensures SpaceFree(NonEmpty(ws))
  {
    if ws != [] {
      NonEmptySpaceFree(ws[1..]);
    }
  }

  lemma JoinRestStep(j: Joiner, acc: string, ws: seq<string>, draws: Draws, pos: nat)
    requires ws != [] && BetweenWords(j, draws, pos).Success?
    ensures var g := BetweenWords(j, draws, pos).value;
      JoinRest(j, acc, ws, draws, pos) == JoinRest(j, acc + g.0 + ws[0], ws[1..], draws, g.1)
  {
  }

  lemma {:induction false} JoinRestSplit(j: Joiner, acc: string, ws: seq<string>, draws: Draws, pos: nat)
    requires SpaceGaps(j) && SpaceFree(ws)
    ensures var r := JoinRest(j, acc, ws, draws, pos);
      r.Success? ==> Split(r.value.0) == Split(acc) + NonEmpty(ws)
    decreases |ws|
  {
    if ws != [] && BetweenWords(j, draws, pos).Success? {
      var g := BetweenWords(j, draws, pos).value;
      var acc' := acc + g.0 + ws[0];
      JoinRestStep(j, acc, ws, draws, pos);
      WordGapIsSpace(j, draws, pos);
      SplitGapWord(acc, g.0, ws[0]);
      JoinRestSplit(j, acc', ws[1..], draws, g.1);
      var head := if ws[0] == "" then [] else [ws[0]];
      assert NonEmpty(ws) == head + NonEmpty(ws[1..]);
      SeqConcatAssoc(Split(acc), head, NonEmpty(ws[1..]));
    }
  }

  lemma JoinWordsSplit(j: Joiner, detok: Detokenizer, row: seq<string>, draws: Draws, pos: nat)
    requires SpaceGaps(j) && !j.moses && SpaceFree(row)
    ensures var r := JoinWords(j, detok, row, draws, pos);
      r.Success? ==> Split(r.value.0) == NonEmpty(row)
  {
    var ws := Tokens(j, detok, row);
    if j.dropEmptyWords {
      NonEmptyIdempotent(row);
      NonEmptySpaceFree(row);
    }
    assert NonEmpty(ws) == NonEmpty(row);
    if ws == [] {
      SplitAllSpace("");
    } else {
      JoinRestSplit(j, ws[0], ws[1..], draws, pos);
      SplitOfWord(ws[0]);
    }
  }

  lemma JoinMoreStep(j: Joiner, detok: Detokenizer, acc: string, rows: seq<seq<string>>, draws: Draws, pos: nat)
    requires rows != [] && BetweenSentences(j, draws, pos).Success?
    requires JoinWords(j, detok, rows[0], draws, BetweenSentences(j, draws, pos).value.1).Success?
    ensures var g := BetweenSentences(j, draws, pos).value;
      var s := JoinWords(j, detok, rows[0], draws, g.1).value;
      JoinMore(j, detok, acc, rows, draws, pos) == JoinMore(j, detok, acc + g.0 + s.0, rows[1..], draws, s.1)
  {
  }

  lemma {:induction false} JoinMoreSplit(j: Joiner, detok: Detokenizer, acc: string, rows: seq<seq<string>>, draws: Draws, pos: nat)
    requires SpaceGaps(j) && !j.moses
    requires forall i :: 0 <= i < |rows| ==> SpaceFree(rows[i])
    ensures var r := JoinMore(j, detok, acc, rows, draws, pos);
      r.Success? ==> Split(r.value.0) == Split(acc) + WordsOf(rows)
    decreases |rows|
  {
    if rows != [] {
      var g := BetweenSentences(j, draws, pos);
      if g.Success? {
        var sentence := JoinWords(j, detok, rows[0], draws, g.value.1);
        if sentence.Success? {
          SentenceGapIsSpace(j, draws, pos);
          JoinWordsSplit(j, detok, rows[0], draws, g.value.1);
          var gap := g.value.0;
          var text := sentence.value.0;
          JoinMoreStep(j, detok, acc, rows, draws, pos);
          SplitAfterGap(acc, gap, text);
          JoinMoreSplit(j, detok, acc + gap + text, rows[1..], draws, sentence.value.1);
          SeqConcatAssoc(Split(acc), NonEmpty(rows[0]), WordsOf(rows[1..]));
        }
      }
    }
  }

  /** A joiner without the detokenizer, whose gaps are whitespace, changes
      only whitespace: the words of its output are the words it was given,
      in order, the empty ones left out. */
  lemma JoinOnlyChangesWhitespace(j: Joiner, detok: Detokenizer, rows: seq<seq<string>>, draws: Draws, pos: nat)
    requires SpaceGaps(j) && !j.moses
    requires forall i :: 0 <= i < |rows| ==> SpaceFree(rows[i])
    ensures var r := JoinSentences(j, detok, rows, draws, pos);
      r.Success? ==> Split(r.value.0) == WordsOf(rows)
  {
    if rows == [] {
      SplitAllSpace("");
    } else if JoinSentences(j, detok, rows, draws, pos).Success? {
      var first := JoinWords(j, detok, rows[0], draws, pos);
      assert first.Success?;
      var all := JoinMore(j, detok, first.value.0, rows[1..], draws, first.value.1);
      assert all.Success?;
      JoinSentencesOfParts(j, detok, rows, draws, pos, first.value.0, first.value.1, all.value.0, all.value.1);
      WhitespaceOfParts(j, detok, rows, draws, pos, first.value.0, first.value.1, all.value.0, all.value.1);
    }
  }

  lemma WhitespaceOfParts(j: Joiner, detok: Detokenizer, rows: seq<seq<string>>, draws: Draws, pos: nat,
                          first: string, next: nat, all: string, end: nat)
    requires SpaceGaps(j) && !j.moses
    requires forall i :: 0 <= i < |rows| ==> SpaceFree(rows[i])
    requires rows != [] && JoinWords(j, detok, rows[0], draws, pos) == Success((first, next))
    requires JoinMore(j, detok, first, rows[1..], draws, next) == Success((all, end))
    ensures Split(Strip(all)) == WordsOf(rows)
  {
    JoinWordsSplit(j, detok, rows[0], draws, pos);
    JoinMoreSplit(j, detok, first, rows[1..], draws, next);
    SplitStrip(all);
  }

  // ---------------------------------------------------------------------
  // When joining fails

  /** The word hook never fails: it draws only for enjambment, which needs
      a generator and line break choices to draw from. */
  predicate WordsTotal(j: Joiner) {
    j.hooks.RandomEnjambment? ==> j.hasGenerator && j.hooks.lineBreakChoices != []
  }

  lemma {:induction false} JoinRestTotal(j: Joiner, acc: string, ws: seq<string>, draws: Draws, pos: nat)
    requires WordsTotal(j)
    ensures JoinRest(j, acc, ws, draws, pos).Success?
    decreases |ws|
  {
    if ws != [] {
      var gap := BetweenWords(j, draws, pos);
      assert gap.Success?;
      JoinRestTotal(j, acc + gap.value.0 + ws[0], ws[1..], draws, gap.value.1);
    }
  }

  lemma {:induction false} JoinMoreTotal(j: Joiner, detok: Detokenizer, acc: string, rows: seq<seq<string>>, draws: Draws, pos: nat)
    requires WordsTotal(j) && CanDraw(j)
    ensures JoinMore(j, detok, acc, rows, draws, pos).Success?
    decreases |rows|
  {
    if rows != [] {
      var gap := BetweenSentences(j, draws, pos);
      assert gap.Success?;
      var ws := Tokens(j, detok, rows[0]);
      if ws != [] {
        JoinRestTotal(j, ws[0], ws[1..], draws, gap.value.1);
      }
      var sentence := JoinWords(j, detok, rows[0], draws, gap.value.1);
      JoinMoreTotal(j, detok, acc + gap.value.0 + sentence.value.0, rows[1..], draws, sentence.value.1);
    }
  }

  /** A joiner with a generator (or without random hooks) whose line break
      choices are not empty joins every list of sentences. */
  lemma JoinSentencesTotal(j: Joiner, detok: Detokenizer, rows: seq<seq<string>>, draws: Draws, pos: nat)
    requires WordsTotal(j) && CanDraw(j)
    ensures JoinSentences(j, detok, rows, draws, pos).Success?
  {
    if rows != [] {
      var ws := Tokens(j, detok, rows[0]);
      if ws != [] {
        JoinRestTotal(j, ws[0], ws[1..], draws, pos);
      }
      var first := JoinWords(j, detok, rows[0], draws, pos);
      JoinMoreTotal(j, detok, first.value.0, rows[1..], draws, first.value.1);
    }
  }

  /** A random indent joiner without a generator fails with AttributeError
      exactly when there is a second sentence to indent. */
  lemma GeneratorlessIndentFails(j: Joiner, detok: Detokenizer, rows: seq<seq<string>>, draws: Draws, pos: nat)
    requires j.hooks.RandomIndent? && !j.hasGenerator
    ensures var r := JoinSentences(j, detok, rows, draws, pos);
      (r.Failure? <==> |rows| >= 2) && (r.Failure? ==> r.error == AttributeError)
  {
    if rows != [] {
      var ws := Tokens(j, detok, rows[0]);
      if ws != [] {
        JoinRestTotal(j, ws[0], ws[1..], draws, pos);
      }
      var first := JoinWords(j, detok, rows[0], draws, pos);
      assert first.Success?;
      if |rows| >= 2 {
        assert BetweenSentences(j, draws, first.value.1) == Failure(AttributeError);
      }
    }
  }

  // ---------------------------------------------------------------------
  // Inputs `join` accepts and rejects

  /** `join` rejects a bare string and a flat list of strings with
      ValueError, before drawing anything. */
  lemma JoinRejectsFlatInput(j: Joiner, detok: Detokenizer, s: string, words: seq<string>, draws: Draws, pos: nat)
    requires s != [] && words != []
    ensures Join(j, detok, Str(s), draws, pos) == Failure(ValueError)
    ensures Join(j, detok, List(Strs(words)), draws, pos) == Failure(ValueError)
  {
  }

  /** None, `[]`, `[[]]` and `[[""]]` join to "" without drawing. */
  lemma EmptyInputsJoinToEmpty(j: Joiner, detok: Detokenizer, draws: Draws, pos: nat)
    requires !j.moses
    ensures Join(j, detok, NoneValue, draws, pos) == Success(("", pos))
    ensures Join(j, detok, List([]), draws, pos) == Success(("", pos))
    ensures Join(j, detok, List([List([])]), draws, pos) == Success(("", pos))
    ensures Join(j, detok, List([List([Str("")])]), draws, pos) == Success(("", pos))
  {
    EmptyRows(j, detok, draws, pos);
    assert Strip("") == "";
    OneSentence(j, detok, List([]), draws, pos);
    OneSentence(j, detok, List([Str("")]), draws, pos);
  }

  /** `[]` and `[""]` as sentences join to "" without drawing. */
  lemma EmptyRows(j: Joiner, detok: Detokenizer, draws: Draws, pos: nat)
    requires !j.moses
    ensures JoinWordsValue(j, detok, List([]), draws, pos) == Success((Str(""), pos))
    ensures JoinWordsValue(j, detok, List([Str("")]), draws, pos) == Success((Str(""), pos))
  {
    if j.dropEmptyWords {
      assert Truthies([Str("")]) == [] by {
        assert [Str("")][1..] == [];
      }
    }
  }

  /** A list of lists of strings, as Python values. */
  function ListsOf(rows: seq<seq<string>>): (r: seq<Value>)
    ensures |r| == |rows| && forall i :: 0 <= i < |rows| ==> r[i] == List(Strs(rows[i]))
  {
    seq(|rows|, i requires 0 <= i < |rows| => List(Strs(rows[i])))
  }

  lemma {:induction false} StrsOfStrs(ws: seq<string>)
    ensures StrsOf(Strs(ws)) == Some(ws)
  {
    if ws != [] {
      assert Strs(ws)[1..] == Strs(ws[1..]);
      StrsOfStrs(ws[1..]);
      assert [ws[0]] + ws[1..] == ws;
    }
  }

  lemma StrsAppend(xs: seq<string>, ys: seq<string>)
    ensures Strs(xs + ys) == Strs(xs) + Strs(ys)
  {
  }

  /** `filter(None, ...)` of plain strings keeps the non-empty ones. */
  lemma {:induction false} TruthiesOfStrs(ws: seq<string>)
    ensures Truthies(Strs(ws)) == Strs(NonEmpty(ws))
  {
    if ws != [] {
      assert Strs(ws)[1..] == Strs(ws[1..]);
      TruthiesOfStrs(ws[1..]);
      StrsAppend(if ws[0] == "" then [] else [ws[0]], NonEmpty(ws[1..]));
    }
  }

  lemma {:induction false} RestValuesOfStrs(j: Joiner, acc: string, ws: seq<string>, draws: Draws, pos: nat)
    decreases |ws|
    ensures JoinRestValues(j, acc, Strs(ws), draws, pos) == JoinRest(j, acc, ws, draws, pos)
  {
    if ws != [] {
      assert Strs(ws)[1..] == Strs(ws[1..]);
      var gap := BetweenWords(j, draws, pos);
      if gap.Success? {
        RestValuesOfStrs(j, acc + gap.value.0 + ws[0], ws[1..], draws, gap.value.1);
      }
    }
  }

  /** The older loop, each word followed by a gap, and then the last word,
      makes the same text as the first word followed by gap and word. */
  lemma {:induction false} InitThenLast(j: Joiner, acc: string, ws: seq<string>, draws: Draws, pos: nat)
    decreases |ws|
    requires ws != []
    ensures var init := JoinInitValues(j, acc, Strs(ws[..|ws| - 1]), draws, pos);
      var rest := JoinRest(j, acc + ws[0], ws[1..], draws, pos);
      (init.Success? ==> rest == Success((init.value.0 + ws[|ws| - 1], init.value.1)))
      && (init.Failure? ==> rest == Failure(init.error))
  {
    if |ws| > 1 {
      assert Strs(ws[..|ws| - 1])[1..] == Strs(ws[1..][..|ws[1..]| - 1]);
      var gap := BetweenWords(j, draws, pos);
      if gap.Success? {
        InitThenLast(j, acc + ws[0] + gap.value.0, ws[1..], draws, gap.value.1);
      }
    }
  }

  lemma FilteredWordsOfList(j: Joiner, detok: Detokenizer, row: seq<string>, draws: Draws, pos: nat)
    requires !j.moses && j.dropEmptyWords
    ensures var w := JoinWords(j, detok, row, draws, pos);
      var v := JoinWordsValue(j, detok, List(Strs(row)), draws, pos);
      (w.Success? ==> v == Success((Str(w.value.0), w.value.1))) && (w.Failure? ==> v == Failure(w.error))
  {
    var ws := NonEmpty(row);
    assert Truthies(Elements(List(Strs(row)))) == Strs(ws) by {
      TruthiesOfStrs(row);
    }
    if |ws| > 1 {
      assert Strs(ws)[1..] == Strs(ws[1..]);
      RestValuesOfStrs(j, ws[0], ws[1..], draws, pos);
    }
  }

  lemma OlderWordsOfList(j: Joiner, detok: Detokenizer, row: seq<string>, draws: Draws, pos: nat)
    requires !j.moses && !j.dropEmptyWords
    ensures var w := JoinWords(j, detok, row, draws, pos);
      var v := JoinWordsValue(j, detok, List(Strs(row)), draws, pos);
      (w.Success? ==> v == Success((Str(w.value.0), w.value.1))) && (w.Failure? ==> v == Failure(w.error))
  {
    if |row| > 1 {
      assert Strs(row)[..|row| - 1] == Strs(row[..|row| - 1]);
      InitThenLast(j, "", row, draws, pos);
      assert "" + row[0] == row[0];
    }
  }

  /** A list of strings is joined as its words are. */
  lemma WordsValueOfList(j: Joiner, detok: Detokenizer, row: seq<string>, draws: Draws, pos: nat)
    ensures var w := JoinWords(j, detok, row, draws, pos);
      var v := JoinWordsValue(j, detok, List(Strs(row)), draws, pos);
      (w.Success? ==> v == Success((Str(w.value.0), w.value.1))) && (w.Failure? ==> v == Failure(w.error))
  {
    if j.moses {
      StrsOfStrs(row);
    } else if j.dropEmptyWords {
      FilteredWordsOfList(j, detok, row, draws, pos);
    } else {
      OlderWordsOfList(j, detok, row, draws, pos);
    }
  }

  lemma {:induction false} LaterValuesOfLists(j: Joiner, detok: Detokenizer, acc: string, rows: seq<seq<string>>, draws: Draws, pos: nat)
    decreases |rows|
    ensures JoinLaterValues(j, detok, acc, ListsOf(rows), draws, pos) == JoinMore(j, detok, acc, rows, draws, pos)
  {
    if rows != [] {
      assert ListsOf(rows)[1..] == ListsOf(rows[1..]);
      var gap := BetweenSentences(j, draws, pos);
      if gap.Success? {
        WordsValueOfList(j, detok, rows[0], draws, gap.value.1);
        var sentence := JoinWords(j, detok, rows[0], draws, gap.value.1);
        if sentence.Success? {
          LaterValuesOfLists(j, detok, acc + gap.value.0 + sentence.value.0, rows[1..], draws, sentence.value.1);
        }
      }
    }
  }

  /** A non-empty list of word lists is accepted as it is: joining it is
      joining its rows. */
  lemma JoinOfLists(j: Joiner, detok: Detokenizer, rows: seq<seq<string>>, draws: Draws, pos: nat)
    requires rows != []
    ensures Join(j, detok, List(ListsOf(rows)), draws, pos) == JoinSentences(j, detok, rows, draws, pos)
  {
    assert Containers.Ensure(List(ListsOf(rows))) == Success(SentencesObject(ListsOf(rows)));
    WordsValueOfList(j, detok, rows[0], draws, pos);
    var first := JoinWords(j, detok, rows[0], draws, pos);
    if first.Success? && |rows| > 1 {
      assert ListsOf(rows)[1..] == ListsOf(rows[1..]);
      LaterValuesOfLists(j, detok, first.value.0, rows[1..], draws, first.value.1);
    }
  }

  /** `sentences[1:]` is a new `SentencesAsWordLists`: once the first
      sentence is joined, a string as the second sentence raises
      ValueError, before any sentence gap is drawn. */
  lemma StringAsSecondSentenceRejected(j: Joiner, detok: Detokenizer, first: seq<string>, s: string, rest: seq<Value>, draws: Draws, pos: nat)
    ensures var w := JoinWords(j, detok, first, draws, pos);
      var r := Join(j, detok, List([List(Strs(first)), Str(s)] + rest), draws, pos);
      (w.Success? ==> r == Failure(ValueError)) && (w.Failure? ==> r == Failure(w.error))
  {
    var items := [List(Strs(first)), Str(s)] + rest;
    assert Containers.Ensure(List(items)) == Success(SentencesObject(items));
    WordsValueOfList(j, detok, first, draws, pos);
  }

  /** `filter(None, row)` comes first in the filtering joiners: falsy
      values of any kind are dropped before the words are joined. */
  lemma {:induction false} TruthiesIdempotent(xs: seq<Value>)
    ensures Truthies(Truthies(xs)) == Truthies(xs)
  {
    if xs != [] {
      TruthiesIdempotent(xs[1..]);
      var head := if Truthy(xs[0]) then [xs[0]] else [];
      TruthiesAppend(head, Truthies(xs[1..]));
    }
  }

  lemma {:induction false} TruthiesAppend(xs: seq<Value>, ys: seq<Value>)
    ensures Truthies(xs + ys) == Truthies(xs) + Truthies(ys)
  {
    if xs != [] {
      var head := if Truthy(xs[0]) then [xs[0]] else [];
      assert Truthies(xs + ys) == head + Truthies(xs[1..] + ys) by {
        assert (xs + ys)[0] == xs[0] && (xs + ys)[1..] == xs[1..] + ys;
      }
      TruthiesAppend(xs[1..], ys);
      assert head + (Truthies(xs[1..]) + Truthies(ys)) == (head + Truthies(xs[1..])) + Truthies(ys);
    } else {
      assert xs + ys == ys;
    }
  }

  lemma FilteredRowsDropFalsyWords(j: Joiner, detok: Detokenizer, xs: seq<Value>, draws: Draws, pos: nat)
    requires !j.moses && j.dropEmptyWords
    ensures JoinWordsValue(j, detok, List(xs), draws, pos) == JoinWordsValue(j, detok, List(Truthies(xs)), draws, pos)
  {
    TruthiesIdempotent(xs);
  }

  /** A single sentence is joined on its own and stripped. */
  lemma OneSentence(j: Joiner, detok: Detokenizer, row: Value, draws: Draws, pos: nat)
    requires !IsStringLike(row)
    ensures var w := JoinWordsValue(j, detok, row, draws, pos);
      var r := Join(j, detok, List([row]), draws, pos);
      (w.Success? && w.value.0.Str? ==> r == Success((Strip(w.value.0.s), w.value.1)))
      && (w.Success? && !w.value.0.Str? ==> r == Failure(AttributeError))
      && (w.Failure? ==> r == Failure(w.error))
  {
    assert Containers.Ensure(List([row])) == Success(SentencesObject([row]));
  }

  lemma TruthiesOfOne(x: Value)
    ensures Truthies([x]) == if Truthy(x) then [x] else []
  {
    assert [x][1..] == [];
  }

  /** A filtering joiner's row with one truthy value is that value, as it is. */
  lemma FilteredLoneWord(j: Joiner, detok: Detokenizer, xs: seq<Value>, draws: Draws, pos: nat)
    requires !j.moses && j.dropEmptyWords && |Truthies(xs)| == 1
    ensures JoinWordsValue(j, detok, List(xs), draws, pos) == Success((Truthies(xs)[0], pos))
  {
  }

  /** `[[None, "a"]]` and `[[None]]`: the filtering joiner drops None. */
  lemma FilteredNoneWords(detok: Detokenizer, draws: Draws, pos: nat)
    ensures Join(PlainJoiner("\n", " "), detok, List([List([NoneValue, Str("a")])]), draws, pos) == Success(("a", pos))
    ensures Join(PlainJoiner("\n", " "), detok, List([List([NoneValue])]), draws, pos) == Success(("", pos))
  {
    var j := PlainJoiner("\n", " ");
    var row := [NoneValue, Str("a")];
    TruthiesOfOne(NoneValue);
    TruthiesOfOne(Str("a"));
    assert Truthies(row) == [Str("a")] by {
      TruthiesAppend([NoneValue], [Str("a")]);
    }
    FilteredLoneWord(j, detok, row, draws, pos);
    OneSentence(j, detok, List(row), draws, pos);
    assert Strip("a") == "a" by {
      StripEnds("a");
    }
    assert JoinWordsValue(j, detok, List([NoneValue]), draws, pos) == Success((Str(""), pos));
    OneSentence(j, detok, List([NoneValue]), draws, pos);
    assert Strip("") == "";
  }

  /** The older joiner filters nothing: `[[None, "a"]]` adds a gap to None
      (TypeError) and `[[None]]` is the sentence None, which has no `strip`. */
  lemma OlderNoneWords(detok: Detokenizer, draws: Draws, pos: nat)
    ensures Join(Joiner("\n", " ", false, false, Separators, true), detok, List([List([NoneValue, Str("a")])]), draws, pos)
         == Failure(TypeError)
    ensures Join(Joiner("\n", " ", false, false, Separators, true), detok, List([List([NoneValue])]), draws, pos)
         == Failure(AttributeError)
  {
    var j := Joiner("\n", " ", false, false, Separators, true);
    var row := [NoneValue, Str("a")];
    assert row[..1] == [NoneValue];
    assert JoinInitValues(j, "", [NoneValue], draws, pos) == Failure(TypeError);
    assert JoinWordsValue(j, detok, List(row), draws, pos) == Failure(TypeError);
    OneSentence(j, detok, List(row), draws, pos);
    assert JoinWordsValue(j, detok, List([NoneValue]), draws, pos) == Success((NoneValue, pos));
    OneSentence(j, detok, List([NoneValue]), draws, pos);
  }


  lemma {:induction false} NonEmptyKeeps(ws: seq<string>)
    requires forall i :: 0 <= i < |ws| ==> ws[i] != ""
    ensures NonEmpty(ws) == ws
  {
    if ws != [] {
      NonEmptyKeeps(ws[1..]);
      assert [ws[0]] + ws[1..] == ws;
    }
  }

  // ---------------------------------------------------------------------
  // The enjambment joiner's gaps

  /** One or two line breaks and then up to eight double-space indents. */
  predicate EnjambedGap(gap: string) {
    exists c, k :: 1 <= c <= 2 && 0 <= k <= MaxIndent && gap == Repeat("\n", c) + Repeat("  ", k)
  }

  lemma RepeatSpacesKept(k: int)
    ensures LStripChars(Repeat("  ", k), "\n") == Repeat("  ", k)
  {
    if k > 0 {
      assert Repeat("  ", k)[0] == ' ';
    }
  }

  /** `create_joiner("random_enjamb")` between two words: with a draw below
      0.2, a line break or two and an indent (three draws); otherwise the
      space (one draw). */
  lemma DefaultEnjambmentGap(draws: Draws, pos: nat)
    ensures var g := BetweenWords(RandomEnjambmentJoiner("\n", " "), draws, pos);
      && g.Success?
      && g.value.1 == pos + (if draws(pos) < 0.2 then 3 else 1)
      && (if draws(pos) < 0.2 then EnjambedGap(g.value.0) else g.value.0 == " ")
  {
    var j := RandomEnjambmentJoiner("\n", " ");
    if draws(pos) < 0.2 {
      var choices := [1, 1, 2];
      var c := choices[ChoiceIndex(draws(pos + 1), |choices|)];
      assert 1 <= c <= 2;
      var k := RandIntOf(draws(pos + 2), 0, MaxIndent);
      assert j.IndentUnit() == "  ";
      RepeatSpacesKept(k);
      assert Repeat("\n", c) != "";
      assert BetweenWords(j, draws, pos).value.0 == Repeat("\n", c) + Repeat("  ", k);
    }
  }
}
