/**
 * `presswork/text/grammar.py`, the older single-module version of the
 * grammar package: its joiners (which, unlike `joiners.py`, keep empty
 * words), its whitespace tokenizers, `StringProofreader`, the `rejoin`
 * shortcut and the nickname registries. Its `WordList` and
 * `SentencesAsWordLists` are the same code as in `containers.py` and are
 * modelled by the module Containers.
 */
module Grammar {
  import opened Wrappers
  import opened PyStr
  import opened PyValues
  import opened RandomSource
  import opened Joiners
  import Tokenizers
  import Clean

  // ---------------------------------------------------------------------
  // The joiner classes

  /** `Joiner(separate_sentences, separate_words)` and `JoinerWhitespace`,
      which only repeats the same defaults: every word is kept, "" too. */
  function OlderJoiner(separateSentences: string, separateWords: string): (j: Joiner)
    ensures j.hooks.Separators? && !j.moses && !j.dropEmptyWords
    ensures j.sentenceSeparator == separateSentences && j.wordSeparator == separateWords
  {
    Joiner(separateSentences, separateWords, false, false, Separators, true)
  }

  /** `JoinerMoses`: the detokenizer's output split on whitespace, rejoined
      with the word hook. */
  function OlderMosesJoiner(separateSentences: string, separateWords: string): (j: Joiner)
    ensures j.hooks.Separators? && j.moses && !j.dropEmptyWords
    ensures j.sentenceSeparator == separateSentences && j.wordSeparator == separateWords
  {
    Joiner(separateSentences, separateWords, true, false, Separators, true)
  }

  /** `JoinerMosesWithRandomIndent(..., _random)`: in spite of its name a
      subclass of the plain `Joiner`. Without `_random` it stores a float,
      not a generator. */
  function OlderRandomIndentJoiner(separateSentences: string, separateWords: string, hasRandom: bool): (j: Joiner)
    ensures j.hooks.RandomIndent? && !j.moses && !j.dropEmptyWords
    ensures j.hasGenerator == hasRandom && j.IndentUnit() == separateWords + separateWords
  {
    Joiner(separateSentences, separateWords, false, false, RandomIndent, hasRandom)
  }

  /** `JoinerMosesWithRandomEnjambment(..., _random)`: a 0.33 chance of a
      break with 2, 2, 2 or 4 sentence separators, and no fallback when the
      break comes out empty. */
  function OlderRandomEnjambmentJoiner(separateSentences: string, separateWords: string, hasRandom: bool): (j: Joiner)
    ensures j.hooks == RandomEnjambment(0.33, [2, 2, 2, 4], false)
    ensures !j.moses && !j.dropEmptyWords && j.hasGenerator == hasRandom
  {
    Joiner(separateSentences, separateWords, false, false, RandomEnjambment(0.33, [2, 2, 2, 4], false), hasRandom)
  }

  /** The nicknames the older `create_joiner` accepts. */
  const OlderJoinerNicknames: set<string> := {"just_whitespace", "moses", "random_indent", "random_enjamb"}

  /** `create_joiner(nickname)`: the class called with no arguments, so the
      random joiners are left without a generator. */
  function CreateJoiner(nickname: string): (r: Result<Joiner>)
    ensures r.Success? <==> nickname in OlderJoinerNicknames
    ensures r.Failure? ==> r.error == KeyError
    ensures r.Success? ==> !r.value.dropEmptyWords && r.value.sentenceSeparator == "\n" && r.value.wordSeparator == " "
    ensures r.Success? ==> (r.value.hasGenerator <==> r.value.hooks.Separators?)
  {
    if nickname == "just_whitespace" then Success(OlderJoiner("\n", " "))
    else if nickname == "moses" then Success(OlderMosesJoiner("\n", " "))
    else if nickname == "random_indent" then Success(OlderRandomIndentJoiner("\n", " ", false))
    else if nickname == "random_enjamb" then Success(OlderRandomEnjambmentJoiner("\n", " ", false))
    else Failure(KeyError)
  }

  // ---------------------------------------------------------------------
  // Properties of the older joiners

  /** The older `_join_words` keeps empty words: the words with the word
      separator after each but the last, "" included. The newer joiner
      leaves the empty ones out first. */
  lemma OlderJoinKeepsEmptyWords(detok: Detokenizer, row: seq<string>, sep: string, wordSep: string,
                                 draws: Draws, pos: nat)
    ensures JoinWords(OlderJoiner(sep, wordSep), detok, row, draws, pos)
         == Success((PyStr.Join(wordSep, row), pos))
    ensures JoinWords(PlainJoiner(sep, wordSep), detok, row, draws, pos)
         == Success((PyStr.Join(wordSep, NonEmpty(row)), pos))
  {
    JoinWordsSteady(OlderJoiner(sep, wordSep), detok, row, draws, pos);
    JoinWordsSteady(PlainJoiner(sep, wordSep), detok, row, draws, pos);
  }

  /** The random joiners `create_joiner` builds fail with AttributeError as
      soon as there is a second sentence to indent. */
  lemma CreatedRandomJoinersFail(nickname: string, detok: Detokenizer, rows: seq<seq<string>>, draws: Draws, pos: nat)
    requires nickname == "random_indent" || nickname == "random_enjamb"
    requires |rows| >= 2
    ensures JoinSentences(CreateJoiner(nickname).value, detok, rows, draws, pos) == Failure(AttributeError)
  {
    var j := CreateJoiner(nickname).value;
    if nickname == "random_indent" {
      GeneratorlessIndentFails(j, detok, rows, draws, pos);
    } else {
      var first := JoinWords(j, detok, rows[0], draws, pos);
      if first.Success? {
        assert BetweenSentences(j, draws, first.value.1) == Failure(AttributeError);
      } else {
        var ws := Tokens(j, detok, rows[0]);
        assert BetweenWords(j, draws, pos) == Failure(AttributeError);
        assert JoinRest(j, ws[0], ws[1..], draws, pos) == Failure(AttributeError);
      }
    }
  }

  /** One or more pairs of line breaks and then up to eight double-space
      indents. */
  predicate OlderEnjambedGap(gap: string) {
    exists c, k :: c in {2, 4} && 0 <= k <= MaxIndent && gap == Repeat("\n", c) + Repeat("  ", k)
  }

  /** The older enjambment joiner with a generator, between two words: with
      a draw below 0.33, two or four line breaks and an indent (three
      draws); otherwise the space (one draw). */
  lemma OlderEnjambmentGap(draws: Draws, pos: nat)
    ensures var g := BetweenWords(OlderRandomEnjambmentJoiner("\n", " ", true), draws, pos);
      && g.Success?
      && g.value.1 == pos + (if draws(pos) < 0.33 then 3 else 1)
      && (if draws(pos) < 0.33 then OlderEnjambedGap(g.value.0) else g.value.0 == " ")
  {
    var j := OlderRandomEnjambmentJoiner("\n", " ", true);
    if draws(pos) < 0.33 {
      var choices := [2, 2, 2, 4];
      var c := choices[ChoiceIndex(draws(pos + 1), |choices|)];
      assert c in {2, 4};
      var k := RandIntOf(draws(pos + 2), 0, MaxIndent);
      assert j.IndentUnit() == "  ";
      RepeatSpacesKept(k);
      assert BetweenWords(j, draws, pos).value.0 == Repeat("\n", c) + Repeat("  ", k);
    }
  }

  // ---------------------------------------------------------------------
  // `rejoin`

  /** The detokenizer `rejoin` never calls. */
  function NoDetokenizer(ws: seq<string>): string {
    ""
  }

  /** The generator `rejoin` never draws from. */
  function NoDraws(i: nat): Unit {
    0.0
  }

  /** `rejoin = JoinerWhitespace().join`: the whitespace joiner never draws,
      so no generator is involved. */
  function Rejoin(v: Value): Result<string> {
    var r :- Joiners.Join(OlderJoiner("\n", " "), NoDetokenizer, v, NoDraws, 0);
    Success(r.0)
  }

  /** `rejoin` of a list of word lists: each sentence's words joined with a
      space, the sentences with a line break, the whole stripped. */
  lemma RejoinLists(rows: seq<seq<string>>)
    requires rows != []
    ensures Rejoin(List(ListsOf(rows)))
         == Success(Strip(PyStr.Join("\n", seq(|rows|, i requires 0 <= i < |rows| => PyStr.Join(" ", rows[i])))))
  {
    var j := OlderJoiner("\n", " ");
    var lines := seq(|rows|, i requires 0 <= i < |rows| => PyStr.Join(" ", rows[i]));
    assert Parts(j, NoDetokenizer, rows) == lines by {
      forall i | 0 <= i < |rows|
        ensures Parts(j, NoDetokenizer, rows)[i] == lines[i]
      {
        assert Tokens(j, NoDetokenizer, rows[i]) == rows[i];
      }
    }
    JoinOfLists(j, NoDetokenizer, rows, NoDraws, 0);
    SeparatorsJoinSentences(j, NoDetokenizer, rows, NoDraws, 0);
    var joined := Joiners.Join(j, NoDetokenizer, List(ListsOf(rows)), NoDraws, 0);
    assert joined == Success((Strip(PyStr.Join("\n", lines)), 0));
  }

  // ---------------------------------------------------------------------
  // The whitespace tokenizers and the tokenizer registry

  /** `SentenceTokenizerWhitespace().tokenize(text)`: one word list per
      line, each line split on whitespace. */
  function TokenizeWhitespace(text: string): (r: seq<seq<string>>)
    ensures |r| == |SplitLines(text)|
    ensures forall i :: 0 <= i < |r| ==> r[i] == Split(SplitLines(text)[i])
  {
    var lines := SplitLines(text);
    seq(|lines|, i requires 0 <= i < |lines| => Split(lines[i]))
  }

  /** The older whitespace tokenizer gives exactly what the newer one gives. */
  lemma TokenizeWhitespaceAgrees(f: Tokenizers.Foreign, text: string)
    ensures Tokenizers.Tokenize(f, Tokenizers.DefaultTokenizer(Tokenizers.Whitespace), text)
         == Success(TokenizeWhitespace(text))
  {
    var r := Tokenizers.Tokenize(f, Tokenizers.DefaultTokenizer(Tokenizers.Whitespace), text);
    var lines := SplitLines(text);
    if lines != [] {
      assert r.value == TokenizeWhitespace(text) by {
        forall i | 0 <= i < |lines|
          ensures r.value[i] == TokenizeWhitespace(text)[i]
        {
        }
      }
    }
  }

  /** `create_sentence_tokenizer(nickname)` of the older module. */
  function CreateSentenceTokenizer(nickname: string): (r: Result<Tokenizers.SentenceStrategy>)
    ensures r.Success? <==> nickname in {"nltk", "just_whitespace", "markovify"}
    ensures r.Failure? ==> r.error == KeyError
  {
    if nickname == "nltk" then Success(Tokenizers.NLTK)
    else if nickname == "just_whitespace" then Success(Tokenizers.Whitespace)
    else if nickname == "markovify" then Success(Tokenizers.Markovify)
    else Failure(KeyError)
  }

  // ---------------------------------------------------------------------
  // `StringProofreader`

  /** The pattern's character class. It closes at its first `]`, so it
      holds `! " ' % ) , - . / : ; ?` (`,-.` being a range). */
  predicate IsClosingPunctuation(c: char) {
    c == '!' || c == '"' || c == '\'' || c == '%' || c == ')' || c == ',' || c == '-' || c == '.'
    || c == '/' || c == ':' || c == ';' || c == '?'
  }

  /** "}~]" at position 1. */
  predicate BracketsNext(s: string) {
    |s| >= 4 && s[1] == '}' && s[2] == '~' && s[3] == ']'
  }

  /** The length of the match starting at the head of `s`, 0 for none:
      whitespace and closing punctuation; or whitespace, "}~]" and then
      whitespace or the end of the text. */
  function MatchLength(s: string): (m: nat)
    ensures m <= |s|
    ensures m == 0 || m == 2 || m == 4 || m == 5
  {
    if |s| < 2 || !IsSpace(s[0]) then 0
    else if IsClosingPunctuation(s[1]) then 2
    else if !BracketsNext(s) then 0
    else if |s| == 4 then 4
    else if IsSpace(s[4]) then 5
    else 0
  }

  /** `_remove_spaces_before_closing_punctuation(s)`, as the regular
      expression engine runs it: left to right, without overlap, each match
      replaced by itself without its first character. The whitespace after
      "}~]" belongs to the match, so it cannot start the next one. */
  function RemoveSpacesBeforeClosingPunctuation(s: string): string
    decreases |s|
  {
    if s == [] then ""
    else
      var m := MatchLength(s);
      if m == 0 then [s[0]] + RemoveSpacesBeforeClosingPunctuation(s[1..])
      else s[1..m] + RemoveSpacesBeforeClosingPunctuation(s[m..])
  }

  /** The characters that are not whitespace. */
  function NonSpace(s: string): string {
    RemoveWhere(s, IsSpace)
  }

  lemma {:induction false} NonSpaceAppend(a: string, b: string)
    ensures NonSpace(a + b) == NonSpace(a) + NonSpace(b)
  {
    if a == [] {
      assert a + b == b;
    } else {
      assert (a + b)[1..] == a[1..] + b;
      NonSpaceAppend(a[1..], b);
    }
  }

  /** The proofreader only deletes whitespace: every other character is
      kept, in order, and nothing is added. */
  lemma {:induction false} ProofreaderDeletesOnlySpace(s: string)
    ensures NonSpace(RemoveSpacesBeforeClosingPunctuation(s)) == NonSpace(s)
    decreases |s|
  {
    if s != [] {
      var m := MatchLength(s);
      var n := if m == 0 then 1 else m;
      var head := if m == 0 then [s[0]] else s[1..m];
      ProofreaderDeletesOnlySpace(s[n..]);
      NonSpaceAppend(head, RemoveSpacesBeforeClosingPunctuation(s[n..]));
      assert s == s[..n] + s[n..];
      NonSpaceAppend(s[..n], s[n..]);
      assert NonSpace(s[..n]) == NonSpace(head) by {
        if m != 0 {
          assert s[..n] == [s[0]] + head;
          NonSpaceAppend([s[0]], head);
        }
      }
    }
  }

  /** No whitespace character is directly followed by closing punctuation
      or by "}": the proofreader has nothing to do. */
  predicate Tidy(s: string) {
    forall i :: 0 <= i < |s| - 1 && IsSpace(s[i]) ==> !IsClosingPunctuation(s[i + 1]) && s[i + 1] != '}'
  }

  lemma {:induction false} TidyUnchanged(s: string)
    requires Tidy(s)
    ensures RemoveSpacesBeforeClosingPunctuation(s) == s
    decreases |s|
  {
    if s != [] {
      assert Tidy(s[1..]);
      TidyUnchanged(s[1..]);
    }
  }

  /** One whitespace character before closing punctuation goes, whatever
      follows. */
  lemma {:induction false} SpaceBeforeClosingPunctuation(w: char, p: char, rest: string)
    requires IsSpace(w) && IsClosingPunctuation(p)
    ensures RemoveSpacesBeforeClosingPunctuation([w, p] + rest) == [p] + RemoveSpacesBeforeClosingPunctuation(rest)
  {
    var s := [w, p] + rest;
    assert MatchLength(s) == 2;
    assert s[1..2] == [p] && s[2..] == rest;
  }

  /** Of two whitespace characters before closing punctuation, only the
      one next to it goes. */
  lemma {:induction false} TwoSpacesBeforeClosingPunctuation(w: char, p: char, rest: string)
    requires IsSpace(w) && IsClosingPunctuation(p)
    ensures RemoveSpacesBeforeClosingPunctuation([w, w, p] + rest) == [w, p] + RemoveSpacesBeforeClosingPunctuation(rest)
  {
    var t := [w, p] + rest;
    var tail := RemoveSpacesBeforeClosingPunctuation(rest);
    assert [w] + t == [w, w, p] + rest by { SeqConcatAssoc([w], [w, p], rest); }
    SpaceNotMatched(w, t);
    SpaceBeforeClosingPunctuation(w, p, rest);
    assert [w] + ([p] + tail) == [w, p] + tail by { SeqConcatAssoc([w], [p], tail); }
  }

  /** Whitespace followed by whitespace starts no match and is kept. */
  lemma {:induction false} SpaceNotMatched(c: char, t: string)
    requires t != [] && IsSpace(t[0])
    ensures RemoveSpacesBeforeClosingPunctuation([c] + t) == [c] + RemoveSpacesBeforeClosingPunctuation(t)
  {
    var s := [c] + t;
    assert s[0] == c && s[1] == t[0] && s[1..] == t;
    assert !IsClosingPunctuation(s[1]) && s[1] != '}';
    assert MatchLength(s) == 0;
  }

  /** "}~]" at the end of the text loses the whitespace before it. */
  lemma {:induction false} BracketsAtEnd(w: char)
    requires IsSpace(w)
    ensures RemoveSpacesBeforeClosingPunctuation([w, '}', '~', ']']) == ['}', '~', ']']
  {
    var s := [w, '}', '~', ']'];
    assert MatchLength(s) == 4;
    assert s[1..4] == ['}', '~', ']'] && s[4..] == [];
  }

  /** "}~]" followed by whitespace loses the whitespace before it; the
      whitespace after it belongs to the match and is kept. */
  lemma {:induction false} SpaceBeforeBrackets(w: char, c: char, rest: string)
    requires IsSpace(w) && IsSpace(c)
    ensures RemoveSpacesBeforeClosingPunctuation([w, '}', '~', ']', c] + rest)
         == ['}', '~', ']', c] + RemoveSpacesBeforeClosingPunctuation(rest)
  {
    var s := [w, '}', '~', ']', c] + rest;
    assert MatchLength(s) == 5;
    assert s[1..5] == ['}', '~', ']', c] && s[5..] == rest;
  }

  /** "}~]" followed by anything but whitespace keeps the whitespace
      before it. */
  lemma {:induction false} BracketsBeforeOther(w: char, c: char, rest: string)
    requires IsSpace(w) && !IsSpace(c)
    ensures RemoveSpacesBeforeClosingPunctuation([w, '}', '~', ']', c] + rest)
         == [w] + RemoveSpacesBeforeClosingPunctuation(['}', '~', ']', c] + rest)
  {
    var s := [w, '}', '~', ']', c] + rest;
    assert MatchLength(s) == 0;
    assert s[1..] == ['}', '~', ']', c] + rest;
  }

  /** `StringProofreader(format_functions)`: no functions (or an empty
      list) means the default, the one substitution above. */
  datatype StringProofreader = StringProofreader(formatFunctions: seq<string -> string>)

  /** `StringProofreader(...).format(s)`: each function in turn applied to
      the previous one's output. */
  method Format(p: StringProofreader, s: string) returns (r: string)
    ensures p.formatFunctions == [] ==> r == RemoveSpacesBeforeClosingPunctuation(s)
    ensures p.formatFunctions != [] ==> r == Clean.ApplyAll(p.formatFunctions, s)
  {
    var fns := if p.formatFunctions == [] then [RemoveSpacesBeforeClosingPunctuation] else p.formatFunctions;
    r := s;
    var i := 0;
    while i < |fns|
      invariant 0 <= i <= |fns|
      invariant Clean.ApplyAll(fns[i..], r) == Clean.ApplyAll(fns, s)
    {
      assert fns[i..][1..] == fns[i + 1..];
      r := fns[i](r);
      i := i + 1;
    }
    assert fns[i..] == [];
  }
}
