/**
 * `presswork/text/text_makers.py`: `rejoin`, the text makers that wrap a
 * model behind `input_text` and `make_sentences`, and the factory that
 * picks a text maker by class or nickname.
 */
module TextMakers {
  import opened Wrappers
  import opened PyStr
  import opened RandomSource
  import CrudeMarkov
  import CrudeText
  import MarkovDb
  import MarkovGeneration
  import PyMarkovChainFork

  /** `BaseTextMaker.DEFAULT_STATE_SIZE`, `constants.DEFAULT_NGRAM_SIZE`. */
  const DefaultStateSize: nat := 2

  /** `iter_make_sentences`'s default `max_loops_per_sentence`. */
  const DefaultMaxLoops := 25

  // ---------------------------------------------------------------------
  // rejoin

  /** The words of each sentence joined by `wordSep`. */
  function JoinedSentences(sentences: seq<seq<string>>, wordSep: string): (r: seq<string>)
    ensures |r| == |sentences|
  {
    seq(|sentences|, i requires 0 <= i < |sentences| => Join(wordSep, sentences[i]))
  }

  /** `rejoin(sentences_of_words, sentence_sep, word_sep)`. */
  function Rejoin(sentences: seq<seq<string>>, sentenceSep: string := "\n", wordSep: string := " "): string {
    Join(sentenceSep, JoinedSentences(sentences, wordSep))
  }

  /** One more sentence adds the sentence separator and its joined words:
      nothing is stripped and an empty sentence is kept as an empty line. */
  lemma RejoinSnoc(sentences: seq<seq<string>>, ws: seq<string>, sentenceSep: string, wordSep: string)
    ensures Rejoin([], sentenceSep, wordSep) == ""
    ensures Rejoin(sentences + [ws], sentenceSep, wordSep)
      == if sentences == [] then Join(wordSep, ws)
         else Rejoin(sentences, sentenceSep, wordSep) + sentenceSep + Join(wordSep, ws)
  {
    JoinSnoc(sentenceSep, JoinedSentences(sentences, wordSep), Join(wordSep, ws));
    assert JoinedSentences(sentences + [ws], wordSep) == JoinedSentences(sentences, wordSep) + [Join(wordSep, ws)];
  }

  /** Words joined by single spaces hold no line break. */
  lemma {:induction false} JoinedWordsOneLine(ws: seq<string>)
    requires forall i :: 0 <= i < |ws| ==> NoSpace(ws[i])
    ensures NoLineBreak(Join(" ", ws))
    decreases |ws|
  {
    if |ws| > 1 {
      JoinedWordsOneLine(ws[1..]);
      var rest := Join(" ", ws[1..]);
      var s := ws[0] + " " + rest;
      forall i | 0 <= i < |s| ensures !IsLineBreak(s[i]) {
        if i < |ws[0]| {
          assert s[i] == ws[0][i];
        } else if i > |ws[0]| {
          assert s[i] == rest[i - |ws[0]| - 1];
        }
      }
    }
  }

  lemma {:induction false} LineEndOfLastLine(l: string)
    requires NoLineBreak(l)
    ensures LineEnd(l) == |l|
    decreases |l|
  {
    if l != [] {
      LineEndOfLastLine(l[1..]);
    }
  }

  /** Lines joined by "\n" split back into themselves, when none holds a
      line break and the last is not empty. */
  lemma {:induction false} SplitLinesOfJoin(ls: seq<string>)
    requires forall i :: 0 <= i < |ls| ==> NoLineBreak(ls[i])
    requires ls != [] ==> ls[|ls| - 1] != []
    ensures SplitLines(Join("\n", ls)) == ls
    decreases |ls|
  {
    if |ls| == 1 {
      LineEndOfLastLine(ls[0]);
    } else if |ls| > 1 {
      var rest := Join("\n", ls[1..]);
      var s := ls[0] + "\n" + rest;
      assert s == ls[0] + ("\n" + rest);
      LineEndOfLine(ls[0], "\n" + rest);
      assert s[|ls[0]|] == '\n';
      assert s[..|ls[0]|] == ls[0] && s[|ls[0]| + 1..] == rest;
      SplitLinesOfJoin(ls[1..]);
    }
  }

  /** `rejoin` with its default separators can be undone: splitting the
      text into lines and each line into words gives back the sentences,
      when every word is non-empty and free of whitespace and the last
      sentence is not empty. */
  lemma RejoinRoundTrip(sentences: seq<seq<string>>)
    requires forall i, j :: 0 <= i < |sentences| && 0 <= j < |sentences[i]| ==>
      sentences[i][j] != [] && NoSpace(sentences[i][j])
    requires sentences != [] ==> sentences[|sentences| - 1] != []
    ensures var lines := SplitLines(Rejoin(sentences));
      |lines| == |sentences| && forall i :: 0 <= i < |lines| ==> Split(lines[i]) == sentences[i]
  {
    var ls := JoinedSentences(sentences, " ");
    forall i | 0 <= i < |ls| ensures NoLineBreak(ls[i]) && Split(ls[i]) == sentences[i] {
      JoinedWordsOneLine(sentences[i]);
      SplitJoinRoundTrip(sentences[i]);
    }
    if sentences != [] {
      var last := sentences[|sentences| - 1];
      assert ls[|ls| - 1] == Join(" ", last);
      assert last[0] <= Join(" ", last) by {
        JoinCons(" ", last[0], last[1..]);
        assert [last[0]] + last[1..] == last;
      }
    }
    SplitLinesOfJoin(ls);
  }

  // ---------------------------------------------------------------------
  // The text makers

  /** `TextMakerCrude`: the crude model of `presswork/text/_crude_markov.py`
      in `_model`. `__init__` passes no state size up, so it is always the
      default. */
  class TextMakerCrude {
    const stateSize: nat
    var model: CrudeMarkov.Model

    /** `TextMakerCrude(*args, **kwargs)`: any arguments are ignored. */
    constructor ()
      ensures stateSize == DefaultStateSize && model == map[]
    {
      stateSize := DefaultStateSize;
      model := map[];
    }

    /** `input_text(string)`: a fresh model from the text replaces the old. */
    method InputText(text: string)
      modifies this
      ensures model == CrudeMarkov.Chain(CrudeText.SentencesOf(text, CrudeText.CrudeSplitWords), stateSize)
    {
      model := CrudeText.CrudeMarkovChain(text, stateSize, CrudeText.CrudeSplitWords);
    }

    /** `make_sentences(count)`: the generator over the model, listed. */
    method MakeSentences(count: int, draws: Draws, pos: nat) returns (sentences: seq<seq<string>>, next: nat)
      ensures CrudeMarkov.IsEmptyModel(model) ==> sentences == [[]] && next == pos
      ensures !CrudeMarkov.IsEmptyModel(model) ==>
        (sentences, next) == CrudeMarkov.Generate(model, stateSize, count, DefaultMaxLoops, draws, pos)
    {
      sentences, next := CrudeText.IterMakeSentences(model, stateSize, count, DefaultMaxLoops, draws, pos);
    }
  }

  /** `TextMakerPyMarkovChain`: the NLTK fork of PyMarkovChain as its
      strategy, built with the default state size and no database file. */
  class TextMakerPyMarkovChain {
    const stateSize: nat
    const strategy: PyMarkovChainFork.PyMarkovChainWithNLTK

    /** `TextMakerPyMarkovChain(*args, **kwargs)`: any arguments are
        ignored; NLTK's tokenizers are given as values. */
    constructor (treebank: PyMarkovChainFork.Tokenizer, punkt: PyMarkovChainFork.Tokenizer)
      ensures stateSize == DefaultStateSize && fresh(strategy)
      ensures strategy.window == DefaultStateSize && strategy.db == map[]
      ensures strategy.wordTokenizer == treebank && strategy.sentenceTokenizer == punkt
    {
      stateSize := DefaultStateSize;
      strategy := new PyMarkovChainFork.PyMarkovChainWithNLTK(DefaultStateSize, None, treebank, punkt);
    }

    /** `input_text(string)`: the strategy's `database_init`, which adds to
        the database it holds. */
    method InputText(text: string)
      modifies strategy
      ensures strategy.db == MarkovDb.Trained(old(strategy.db),
        PyMarkovChainFork.WordLists(strategy.sentenceTokenizer(text), strategy.wordTokenizer), strategy.window)
    {
      strategy.DatabaseInit(text);
    }

    /** `make_sentences(count)`: `make_sentences_list(number=count)`, with
        no seed string. */
    method MakeSentences(count: int, draws: Draws, pos: nat, fuel: nat) returns (r: Result<seq<seq<string>>>, next: nat)
      modifies strategy
      ensures var b := MarkovGeneration.SentencesFrom(old(strategy.db), MarkovDb.Special,
                                                      MarkovGeneration.Times(count), draws, pos, fuel);
        (b.Success? ==> r == Success(b.value.sentences) && strategy.db == b.value.db && next == b.value.pos)
        && (b.Failure? ==> r == Failure(b.error) && strategy.db == old(strategy.db) && next == pos)
    {
      r, next := strategy.MakeSentencesList(count, "", draws, pos, fuel);
    }
  }

  // ---------------------------------------------------------------------
  // create_text_maker

  /** The registered text maker classes. */
  datatype MakerClass = Crude | PyMarkovChain

  /** `class_or_nickname`: a string to look up, one of the classes itself,
      or some other value, which is not callable and may not be hashable. */
  datatype ClassOrNickname = Name(name: string) | Class(cls: MakerClass) | Other(hashable: bool)

  /** A text maker of either class. */
  datatype TextMaker = CrudeMaker(crude: TextMakerCrude) | PyMarkovChainMaker(pymc: TextMakerPyMarkovChain)

  /** `DefaultTextMaker`. */
  const DefaultClass := Crude

  /** `classes_by_all_names`: each class by its name and by its nickname,
      and the default under "default". */
  function ClassByName(name: string): (r: Option<MakerClass>)
    ensures r == Some(Crude) <==> name in {"TextMakerCrude", "crude", "default"}
    ensures r == Some(PyMarkovChain) <==> name in {"TextMakerPyMarkovChain", "pymc"}
  {
    if name == "TextMakerPyMarkovChain" || name == "pymc" then Some(PyMarkovChain)
    else if name == "TextMakerCrude" || name == "crude" then Some(Crude)
    else if name == "default" then Some(DefaultClass)
    else None
  }

  /** The class `create_text_maker` instantiates: a registered name, else
      the argument itself, which must be callable. An unhashable argument
      fails the dictionary lookup with `TypeError`. */
  function ChosenClass(arg: ClassOrNickname): (r: Result<MakerClass>)
    ensures r.Failure? <==> arg.Other? || (arg.Name? && ClassByName(arg.name).None?)
    ensures arg.Other? && !arg.hashable ==> r == Failure(TypeError)
    ensures (arg.Other? && arg.hashable) || (arg.Name? && ClassByName(arg.name).None?) ==> r == Failure(ValueError)
  {
    match arg
    case Name(name) => if ClassByName(name).Some? then Success(ClassByName(name).value) else Failure(ValueError)
    case Class(cls) => Success(cls)
    case Other(hashable) => if hashable then Failure(ValueError) else Failure(TypeError)
  }

  /** `create_text_maker(input_text, class_or_nickname, state_size)`: the
      state size is passed on and ignored by both classes; the sanitized
      text is loaded only when it is not empty. */
  method CreateTextMaker(inputText: string, classOrNickname: ClassOrNickname, stateSize: int,
                         sanitize: string -> string,
                         treebank: PyMarkovChainFork.Tokenizer, punkt: PyMarkovChainFork.Tokenizer)
    returns (r: Result<TextMaker>)
    ensures ChosenClass(classOrNickname).Failure? ==> r == Failure(ChosenClass(classOrNickname).error)
    ensures ChosenClass(classOrNickname) == Success(Crude) ==>
      r.Success? && r.value.CrudeMaker? && fresh(r.value.crude)
      && r.value.crude.stateSize == DefaultStateSize
      && r.value.crude.model == (if sanitize(inputText) == "" then map[]
                                 else CrudeMarkov.Chain(CrudeText.SentencesOf(sanitize(inputText), CrudeText.CrudeSplitWords), DefaultStateSize))
    ensures ChosenClass(classOrNickname) == Success(PyMarkovChain) ==>
      r.Success? && r.value.PyMarkovChainMaker? && fresh(r.value.pymc) && fresh(r.value.pymc.strategy)
      && r.value.pymc.stateSize == DefaultStateSize
      && r.value.pymc.strategy.db == (if sanitize(inputText) == "" then map[]
                                      else MarkovDb.Trained(map[], PyMarkovChainFork.WordLists(punkt(sanitize(inputText)), treebank), DefaultStateSize))
  {
    var text := sanitize(inputText);
    var klass := ChosenClass(classOrNickname);
    if klass.Failure? {
      return Failure(klass.error);
    }
    if klass.value == Crude {
      var maker := new TextMakerCrude();
      if text != "" {
        maker.InputText(text);
      }
      r := Success(CrudeMaker(maker));
    } else {
      var maker := new TextMakerPyMarkovChain(treebank, punkt);
      if text != "" {
        maker.InputText(text);
      }
      r := Success(PyMarkovChainMaker(maker));
    }
  }

  // ---------------------------------------------------------------------
  // Properties

  /** A crude text maker that has not been given text makes `[[]]`, which
      `rejoin` turns into the empty string. */
  lemma FreshCrudeMakesNothing()
    ensures CrudeMarkov.IsEmptyModel(map[])
    ensures Rejoin([[]]) == ""
  {
    assert JoinedSentences([[]], " ") == [""];
  }

  /** Generation keeps the sentence it has started: whatever follows, the
      first sentence yielded begins with it. */
  lemma {:induction false} RunKeepsSentence(m: CrudeMarkov.Model, n: nat, remaining: nat, maxLoops: int,
                                            current: seq<string>, sentence: seq<string>, loops: nat,
                                            draws: Draws, pos: nat)
    requires remaining > 0
    ensures var r := CrudeMarkov.Run(m, n, remaining, maxLoops, current, sentence, loops, draws, pos).0;
      r != [] && sentence <= r[0]
    decreases if loops < maxLoops then maxLoops - loops else 0
  {
    var ctx := CrudeMarkov.Context(n, current);
    var p := CrudeMarkov.Pick(m, ctx, draws, pos);
    if !(p.0.None? || loops >= maxLoops) {
      var sentence' := CrudeMarkov.Extend(sentence, p.0);
      RunKeepsSentence(m, n, remaining, maxLoops, CrudeMarkov.Advance(ctx, p.0.value), sentence', loops + 1, draws, p.1);
    }
  }

  /** The first sentence of a model whose all-START list holds one word
      begins with that word. */
  lemma FirstSentenceStart(m: CrudeMarkov.Model, n: nat, count: int, maxLoops: int, w: string, draws: Draws, pos: nat)
    requires count > 0 && maxLoops > 0
    requires CrudeMarkov.NgramForSentenceStart(n) in m && m[CrudeMarkov.NgramForSentenceStart(n)] == [w]
    ensures var r := CrudeMarkov.Generate(m, n, count, maxLoops, draws, pos).0;
      r != [] && r[0] != [] && r[0][0] == w
  {
    var start := CrudeMarkov.NgramForSentenceStart(n);
    var p := CrudeMarkov.Pick(m, start, draws, pos);
    assert p.0 == Some(w) && CrudeMarkov.Context(n, []) == start;
    assert CrudeMarkov.Extend([], p.0) == [w];
    assert CrudeMarkov.Generate(m, n, count, maxLoops, draws, pos)
      == CrudeMarkov.Run(m, n, count, maxLoops, CrudeMarkov.Advance(start, w), [w], 1, draws, p.1);
    RunKeepsSentence(m, n, count, maxLoops, CrudeMarkov.Advance(start, w), [w], 1, draws, p.1);
  }

  /** The first sentence begins with the first word of the joined text. */
  lemma JoinStartsWithFirst(sep: string, xs: seq<string>)
    requires xs != []
    ensures xs[0] <= Join(sep, xs)
  {
    JoinCons(sep, xs[0], xs[1..]);
    assert [xs[0]] + xs[1..] == xs;
  }

  /** A text without line breaks is one sentence: its words. */
  lemma OneLineSentences(text: string)
    requires NoLineBreak(text) && text != []
    ensures CrudeText.SentencesOf(text, CrudeText.CrudeSplitWords) == [Split(text)]
  {
    LineEndOfLastLine(text);
    assert CrudeText.CrudeSplitSentences(text) == [text];
  }

  /** The model of one sentence: the all-START n-gram holds the first word
      alone, and the n-gram of a START and that word is a key too. */
  lemma OneSentenceModel(ws: seq<string>)
    requires ws != [] && forall w :: w in ws ==> w != ""
    ensures var m := CrudeMarkov.Chain([ws], DefaultStateSize);
      var start := CrudeMarkov.NgramForSentenceStart(DefaultStateSize);
      && start in m && m[start] == [ws[0]]
      && ["", ws[0]] in m
  {
    var sentences := [ws];
    assert CrudeMarkov.NoEmptyWords(sentences) by {
      forall j | 0 <= j < |ws| ensures ws[j] != "" {
        assert ws[j] in ws;
      }
    }
    CrudeMarkov.StartKeyHoldsFirstWords(sentences, DefaultStateSize);
    assert CrudeMarkov.FirstWords(sentences) == [ws[0]];
    var second := ["", ws[0]];
    CrudeMarkov.ChainHoldsFollowers(sentences, DefaultStateSize, second);
    var obs := CrudeMarkov.Observations(ws, DefaultStateSize);
    var padded := CrudeMarkov.Padded(ws, DefaultStateSize);
    assert padded[1] == "" && padded[2] == ws[0];
    assert obs[1] == (padded[1..3], padded[3]);
    assert padded[1..3] == second;
    assert CrudeMarkov.FollowersIn(obs, second) != [] by {
      assert CrudeMarkov.FollowersIn(obs[..2], second) != [];
      FollowersInPrefix(obs, second, 2);
    }
    assert CrudeMarkov.Followers(sentences, DefaultStateSize, second) != [];
  }

  /** A model with two keys is not one the generator treats as empty. */
  lemma TwoKeys(m: CrudeMarkov.Model, a: seq<string>, b: seq<string>)
    requires a in m && b in m && a != b
    ensures !CrudeMarkov.IsEmptyModel(m)
  {
    var rest := m.Keys - {a};
    assert b in rest;
    assert |m.Keys| == |rest| + 1;
  }

  /** A crude text maker given one line of words has a model the
      generator does not treat as empty, and the one sentence it makes,
      rejoined, starts with the line's first word. */
  lemma OneLineStartsWithFirstWord(text: string, draws: Draws, pos: nat)
    requires NoLineBreak(text) && Split(text) != []
    ensures var m := CrudeMarkov.Chain(CrudeText.SentencesOf(text, CrudeText.CrudeSplitWords), DefaultStateSize);
      !CrudeMarkov.IsEmptyModel(m)
      && Split(text)[0] <= Rejoin(CrudeMarkov.Generate(m, DefaultStateSize, 1, DefaultMaxLoops, draws, pos).0)
  {
    var w := Split(text)[0];
    SplitTokens(text);
    var m := CrudeMarkov.Chain(CrudeText.SentencesOf(text, CrudeText.CrudeSplitWords), DefaultStateSize);
    var start := CrudeMarkov.NgramForSentenceStart(DefaultStateSize);
    OneLineSentences(text);
    OneSentenceModel(Split(text));
    assert start[1] == "" && ["", w][1] == w;
    TwoKeys(m, start, ["", w]);
    FirstSentenceStart(m, DefaultStateSize, 1, DefaultMaxLoops, w, draws, pos);
    CrudeMarkov.GenerateShape(m, DefaultStateSize, 1, DefaultMaxLoops, draws, pos);
    RejoinOneStartsWith(CrudeMarkov.Generate(m, DefaultStateSize, 1, DefaultMaxLoops, draws, pos).0, w);
  }

  /** One sentence rejoined starts with its first word. */
  lemma RejoinOneStartsWith(r: seq<seq<string>>, w: string)
    requires |r| == 1 && r[0] != [] && r[0][0] == w
    ensures w <= Rejoin(r)
  {
    assert JoinedSentences(r, " ") == [Join(" ", r[0])];
    JoinStartsWithFirst(" ", r[0]);
  }

  /** The followers of a prefix of the occurrences come first. */
  lemma {:induction false} FollowersInPrefix(obs: seq<CrudeMarkov.Observation>, k: seq<string>, len: nat)
    requires len <= |obs|
    ensures CrudeMarkov.FollowersIn(obs[..len], k) <= CrudeMarkov.FollowersIn(obs, k)
    decreases |obs|
  {
    if len < |obs| {
      assert obs[..|obs| - 1][..len] == obs[..len];
      FollowersInPrefix(obs[..|obs| - 1], k, len);
    } else {
      assert obs[..len] == obs;
    }
  }

  /** The words of the module's example text. */
  const ExampleWordList: seq<string> := ["Foo", "is", "better", "than", "bar"]

  /** The module's example text, "Foo is better than bar": its words
      joined by single spaces. */
  function ExampleText(): string {
    Join(" ", ExampleWordList)
  }

  /** The module's example text is one line of five words. */
  lemma ExampleWords()
    ensures NoLineBreak(ExampleText())
    ensures Split(ExampleText()) == ExampleWordList
  {
    var ws := ExampleWordList;
    assert NoSpace(ws[0]) && NoSpace(ws[1]) && NoSpace(ws[2]) && NoSpace(ws[3]) && NoSpace(ws[4]);
    SplitJoinRoundTrip(ws);
    JoinedWordsOneLine(ws);
  }

  /** The module's example: `create_text_maker("Foo is better than bar")`,
      then `rejoin(make_sentences(1)).startswith("Foo")`. */
  lemma CrudeExampleStartsWithFoo(draws: Draws, pos: nat)
    ensures var m := CrudeMarkov.Chain(CrudeText.SentencesOf(ExampleText(), CrudeText.CrudeSplitWords), DefaultStateSize);
      !CrudeMarkov.IsEmptyModel(m)
      && "Foo" <= Rejoin(CrudeMarkov.Generate(m, DefaultStateSize, 1, DefaultMaxLoops, draws, pos).0)
  {
    ExampleWords();
    OneLineStartsWithFirstWord(ExampleText(), draws, pos);
  }
}
