/**
 * `presswork/text/grammar/tokenizers.py`: sentence tokenizers that split
 * text into sentence strings and hand each to a word tokenizer.
 */
module Tokenizers {
  import opened Wrappers
  import opened PyStr
  import Clean

  /** The foreign code the tokenizers call: NLTK's Punkt and Tweet
      tokenizers, markovify's sentence splitter and bs4's UnicodeDammit. */
  datatype Foreign = Foreign(
    punkt: string -> seq<string>,
    tweet: string -> seq<string>,
    markovifySplit: string -> seq<string>,
    unicodeDammit: string -> string)

  /** What `CleanInputString(text).unwrap()` gives for raw text. */
  function CleanText(f: Foreign, text: string): string {
    Clean.ApplyAll(Clean.DefaultInputCleaners(f.unicodeDammit), text)
  }

  datatype WordTokenizer = WordTokenizerWhitespace | WordTokenizerNLTK

  datatype SentenceStrategy = Whitespace | Markovify | NLTK

  /** A sentence tokenizer; its word tokenizer can be unset (None). */
  datatype SentenceTokenizer = SentenceTokenizer(strategy: SentenceStrategy, wordTokenizer: Option<WordTokenizer>)

  /** `word_tokenizer.tokenize(text)`: the words of a `WordList`. */
  function TokenizeWords(f: Foreign, wt: WordTokenizer, text: string): seq<string> {
    match wt
    case WordTokenizerWhitespace => Split(text)
    case WordTokenizerNLTK => f.tweet(CleanText(f, text))
  }

  /** `_tokenize_to_sentence_strings(text)`. */
  function SentenceStrings(f: Foreign, strategy: SentenceStrategy, text: string): seq<string> {
    match strategy
    case Whitespace => SplitLines(text)
    case Markovify => f.markovifySplit(CleanText(f, text))
    case NLTK => f.punkt(CleanText(f, text))
  }

  /** `tokenize(text)`: the word tokenizer property is read once per
      sentence, so a missing word tokenizer raises ValueError only when
      there is at least one sentence. The resulting list of `WordList`s
      always passes the `SentencesAsWordLists` check. */
  function Tokenize(f: Foreign, st: SentenceTokenizer, text: string): (r: Result<seq<seq<string>>>)
    ensures r.Failure? <==> st.wordTokenizer.None? && SentenceStrings(f, st.strategy, text) != []
    ensures r.Failure? ==> r.error == ValueError
    ensures r.Success? ==> |r.value| == |SentenceStrings(f, st.strategy, text)|
  {
    var sentences := SentenceStrings(f, st.strategy, text);
    if sentences == [] then Success([])
    else if st.wordTokenizer.None? then Failure(ValueError)
    else Success(seq(|sentences|, i requires 0 <= i < |sentences| => TokenizeWords(f, st.wordTokenizer.value, sentences[i])))
  }

  /** The tokenizer each class builds when given no word tokenizer. */
  function DefaultTokenizer(strategy: SentenceStrategy): SentenceTokenizer {
    match strategy
    case Whitespace => SentenceTokenizer(Whitespace, Some(WordTokenizerWhitespace))
    case Markovify => SentenceTokenizer(Markovify, Some(WordTokenizerWhitespace))
    case NLTK => SentenceTokenizer(NLTK, Some(WordTokenizerNLTK))
  }

  /** `create_sentence_tokenizer(nickname)`: KeyError for an unknown nickname. */
  function CreateSentenceTokenizer(nickname: string): (r: Result<SentenceTokenizer>)
    ensures r.Success? <==> nickname in {"nltk", "just_whitespace", "markovify"}
    ensures r.Failure? ==> r.error == KeyError
    ensures r.Success? ==> r.value.wordTokenizer.Some?
  {
    if nickname == "nltk" then Success(DefaultTokenizer(NLTK))
    else if nickname == "just_whitespace" then Success(DefaultTokenizer(Whitespace))
    else if nickname == "markovify" then Success(DefaultTokenizer(Markovify))
    else Failure(KeyError)
  }

  /** The whitespace tokenizer makes one sentence per line and splits each
      line on whitespace; every word is non-empty and free of whitespace. */
  lemma WhitespaceTokenizerWords(f: Foreign, text: string)
    ensures var r := Tokenize(f, DefaultTokenizer(Whitespace), text);
      r.Success? && |r.value| == |SplitLines(text)|
      && (forall i :: 0 <= i < |r.value| ==> r.value[i] == Split(SplitLines(text)[i]))
      && (forall i, w :: 0 <= i < |r.value| && w in r.value[i] ==> w != "" && NoSpace(w))
  {
    var lines := SplitLines(text);
    forall i | 0 <= i < |lines| ensures forall w :: w in Split(lines[i]) ==> w != "" && NoSpace(w) {
      SplitTokens(lines[i]);
    }
  }

  /** Sentences of words written out with single spaces and one sentence
      per line are tokenized back into the same sentences. */
  lemma WhitespaceTokenizerRoundTrip(f: Foreign, sentences: seq<seq<string>>)
    requires forall i, j :: 0 <= i < |sentences| && 0 <= j < |sentences[i]| ==>
      sentences[i][j] != "" && NoSpace(sentences[i][j])
    ensures Tokenize(f, DefaultTokenizer(Whitespace), Terminated(JoinEach(sentences))) == Success(sentences)
  {
    var lines := JoinEach(sentences);
    forall l | l in lines ensures NoLineBreak(l) {
      var i :| 0 <= i < |lines| && lines[i] == l;
      JoinNoLineBreak(sentences[i]);
    }
    SplitLinesRoundTrip(lines);
    forall i | 0 <= i < |sentences| ensures Split(lines[i]) == sentences[i] {
      SplitJoinRoundTrip(sentences[i]);
    }
    var r := Tokenize(f, DefaultTokenizer(Whitespace), Terminated(lines));
    if sentences != [] {
      assert r.value == seq(|lines|, i requires 0 <= i < |lines| => Split(lines[i]));
      assert r.value == sentences;
    }
  }

  function JoinEach(sentences: seq<seq<string>>): (r: seq<string>)
    ensures |r| == |sentences| && forall i :: 0 <= i < |r| ==> r[i] == Join(" ", sentences[i])
  {
    seq(|sentences|, i requires 0 <= i < |sentences| => Join(" ", sentences[i]))
  }

  lemma {:induction false} JoinNoLineBreak(ws: seq<string>)
    requires forall j :: 0 <= j < |ws| ==> NoSpace(ws[j])
    ensures NoLineBreak(Join(" ", ws))
  {
    if |ws| > 1 {
      JoinNoLineBreak(ws[1..]);
      var rest := Join(" ", ws[1..]);
      var s := ws[0] + " " + rest;
      forall k | 0 <= k < |s| ensures !IsLineBreak(s[k]) {
        if k < |ws[0]| {
          assert s[k] == ws[0][k];
        } else if k > |ws[0]| {
          assert s[k] == rest[k - |ws[0]| - 1];
        }
      }
    } else if |ws| == 1 {
      assert forall k :: 0 <= k < |ws[0]| ==> !IsSpace(ws[0][k]);
    }
  }

  /** Empty text has no sentences; a line of only whitespace is one empty sentence. */
  lemma WhitespaceTokenizerEdgeCases(f: Foreign, blank: string)
    requires blank != [] && NoLineBreak(blank) && forall k :: 0 <= k < |blank| ==> IsSpace(blank[k])
    ensures Tokenize(f, DefaultTokenizer(Whitespace), "") == Success([])
    ensures Tokenize(f, DefaultTokenizer(Whitespace), blank) == Success([[]])
  {
    assert LineEnd(blank) == |blank|;
    assert SplitLines(blank) == [blank];
    var t := SkipSpaces(blank);
    assert t == [];
    assert Split(blank) == [];
    var r := Tokenize(f, DefaultTokenizer(Whitespace), blank);
    assert SentenceStrings(f, Whitespace, blank) == [blank];
    assert r.value == seq(1, i requires 0 <= i < 1 => Split([blank][i]));
    assert r.value == [[]];
  }

  /** Without a word tokenizer, text with a sentence raises ValueError while
      text without one still tokenizes to nothing. */
  lemma MissingWordTokenizer(f: Foreign, strategy: SentenceStrategy, text: string)
    ensures Tokenize(f, SentenceTokenizer(strategy, None), text).Failure?
        <==> SentenceStrings(f, strategy, text) != []
  {
  }
}
