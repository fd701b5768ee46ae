/** `presswork/text/sentences_and_words.py`: the crude splitters. */
module SentencesAndWords {
  import opened PyStr

  /** `tuple(s.splitlines())`: the lines of `s`, none holding a line break. */
  function CrudeSplitSentences(s: string): (r: seq<string>)
    ensures forall l :: l in r ==> NoLineBreak(l)
  {
    SplitLinesNoBreaks(s);
    SplitLines(s)
  }

  /** `tuple(s.split())`: the words of `s`, each non-empty and free of whitespace. */
  function CrudeSplitWords(s: string): (r: seq<string>)
    ensures forall w :: w in r ==> w != "" && NoSpace(w)
  {
    SplitTokens(s);
    Split(s)
  }

  /** Lines written out one per line are split back into the same lines. */
  lemma SentencesRoundTrip(lines: seq<string>)
    requires forall l :: l in lines ==> NoLineBreak(l)
    ensures CrudeSplitSentences(Terminated(lines)) == lines
  {
    SplitLinesRoundTrip(lines);
  }

  /** Words written out with single spaces are split back into the same words. */
  lemma WordsRoundTrip(words: seq<string>)
    requires forall i :: 0 <= i < |words| ==> words[i] != "" && NoSpace(words[i])
    ensures CrudeSplitWords(Join(" ", words)) == words
  {
    SplitJoinRoundTrip(words);
  }

  /** Three copies of "foo\nbar\n" split into six lines. */
  lemma SplitSentencesExample()
    ensures CrudeSplitSentences(Repeat("foo\nbar\n", 3)) == ["foo", "bar", "foo", "bar", "foo", "bar"]
  {
    var lines := ["foo", "bar", "foo", "bar", "foo", "bar"];
    assert Repeat("foo\nbar\n", 3) == Terminated(lines);
    forall l | l in lines ensures NoLineBreak(l) { }
    SplitLinesRoundTrip(lines);
  }
}
