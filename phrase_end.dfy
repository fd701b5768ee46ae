/**
 * `_remove_space_before_phrase_end_punctuation` and `post_process`, which
 * the two NLTK forks of PyMarkovChain (`presswork/text/` and
 * `presswork/text_maker/`) define alike: `re.sub(r'\s([.,!?:;](?:\s|$))',
 * r'\1', s)` as a left-to-right scan.
 */
module PhraseEnd {
  import opened PyStr

  /** The characters of `[.,!?:;]`. */
  predicate IsPhraseEnd(c: char) {
    c == '.' || c == ',' || c == '!' || c == '?' || c == ':' || c == ';'
  }

  /** The length of a match of `\s([.,!?:;](?:\s|$))` at the start of `s`
      (0 when there is none). The pattern has no `re.UNICODE`, so `\s` is
      ASCII whitespace; `$` also matches before a final newline, but `\s`
      takes that newline first. */
  function MatchLength(s: string): (k: nat)
    ensures k == 0 || k == 2 || k == 3
    ensures k <= |s|
  {
    if |s| >= 2 && IsAsciiSpace(s[0]) && IsPhraseEnd(s[1]) then
      if |s| == 2 then 2 else if IsAsciiSpace(s[2]) then 3 else 0
    else 0
  }

  /** `re.sub(r'\s([.,!?:;](?:\s|$))', r'\1', s)`: scanning left to right,
      each match loses its leading whitespace character, and scanning
      resumes after the match. */
  function RemoveSpaceBeforePhraseEnd(s: string): string
    decreases |s|
  {
    if s == [] then []
    else
      var k := MatchLength(s);
      if k == 0 then [s[0]] + RemoveSpaceBeforePhraseEnd(s[1..])
      else s[1..k] + RemoveSpaceBeforePhraseEnd(s[k..])
  }

  /** `post_process(string)`. */
  function PostProcess(s: string): string {
    RemoveSpaceBeforePhraseEnd(s)
  }

  /** The clean-up only ever deletes ASCII whitespace: every other
      character stays, in order, and nothing is added. */
  lemma {:induction false} PhraseEndKeepsText(s: string)
    ensures |RemoveSpaceBeforePhraseEnd(s)| <= |s|
    ensures RemoveWhere(RemoveSpaceBeforePhraseEnd(s), IsAsciiSpace) == RemoveWhere(s, IsAsciiSpace)
    decreases |s|
  {
    if s != [] {
      var k := MatchLength(s);
      var i := if k == 0 then 1 else k;
      PhraseEndKeepsText(s[i..]);
      if k == 0 {
        assert s == [s[0]] + s[1..];
        RemoveWhereAppend([s[0]], s[1..], IsAsciiSpace);
        RemoveWhereAppend([s[0]], RemoveSpaceBeforePhraseEnd(s[1..]), IsAsciiSpace);
      } else {
        SkippedSpaceKeepsText(s, k, RemoveSpaceBeforePhraseEnd(s[k..]));
      }
    }
  }

  /** Dropping the whitespace character at the head of a match keeps the
      non-whitespace characters of the consumed ones, whatever follows
      them with the same such characters as the rest. */
  lemma SkippedSpaceKeepsText(s: string, k: nat, t: string)
    requires 1 <= k <= |s| && IsAsciiSpace(s[0])
    requires RemoveWhere(t, IsAsciiSpace) == RemoveWhere(s[k..], IsAsciiSpace)
    ensures RemoveWhere(s[1..k] + t, IsAsciiSpace) == RemoveWhere(s, IsAsciiSpace)
  {
    var a, b := s[1..k], s[k..];
    assert s[1..] == a + b;
    calc {
      RemoveWhere(a + t, IsAsciiSpace);
    == { RemoveWhereAppend(a, t, IsAsciiSpace); }
      RemoveWhere(a, IsAsciiSpace) + RemoveWhere(t, IsAsciiSpace);
    ==
      RemoveWhere(a, IsAsciiSpace) + RemoveWhere(b, IsAsciiSpace);
    == { RemoveWhereAppend(a, b, IsAsciiSpace); }
      RemoveWhere(s[1..], IsAsciiSpace);
    == { SpaceHeadRemoved(s); }
      RemoveWhere(s, IsAsciiSpace);
    }
  }

  /** A leading whitespace character is among the removed ones. */
  lemma SpaceHeadRemoved(s: string)
    requires s != [] && IsAsciiSpace(s[0])
    ensures RemoveWhere(s, IsAsciiSpace) == RemoveWhere(s[1..], IsAsciiSpace)
  {
  }

  /** The clean-up keeps the last character, and the first one unless it
      is whitespace. */
  lemma {:induction false} PhraseEndKeepsEnds(s: string)
    requires s != []
    ensures var r := RemoveSpaceBeforePhraseEnd(s);
      r != [] && r[|r| - 1] == s[|s| - 1] && (!IsAsciiSpace(s[0]) ==> r[0] == s[0])
    decreases |s|
  {
    var k := MatchLength(s);
    var i := if k == 0 then 1 else k;
    if i < |s| {
      PhraseEndKeepsEnds(s[i..]);
    }
  }

  /** A whitespace character followed by a phrase-ending one at i. */
  predicate SpaceBeforePhraseEndAt(s: string, i: nat) {
    i + 1 < |s| && IsAsciiSpace(s[i]) && IsPhraseEnd(s[i + 1])
  }

  /** Text with no whitespace before a phrase-ending character is left as
      it is. */
  lemma {:induction false} PhraseEndUnchanged(s: string)
    requires forall i :: 0 <= i < |s| ==> !SpaceBeforePhraseEndAt(s, i)
    ensures RemoveSpaceBeforePhraseEnd(s) == s
    decreases |s|
  {
    if s != [] {
      assert !SpaceBeforePhraseEndAt(s, 0);
      forall i | 0 <= i < |s[1..]|
        ensures !SpaceBeforePhraseEndAt(s[1..], i)
      {
        assert !SpaceBeforePhraseEndAt(s, i + 1);
      }
      PhraseEndUnchanged(s[1..]);
    }
  }

  /** Text ending in a character that is neither whitespace nor phrase
      punctuation: no match can reach past its end. */
  predicate ClosedText(a: string) {
    a != [] && !IsAsciiSpace(a[|a| - 1]) && !IsPhraseEnd(a[|a| - 1])
  }

  /** The clean-up of such text followed by more text is the clean-up of
      each part. */
  lemma {:induction false} PhraseEndAppend(a: string, b: string)
    requires ClosedText(a)
    ensures RemoveSpaceBeforePhraseEnd(a + b) == RemoveSpaceBeforePhraseEnd(a) + RemoveSpaceBeforePhraseEnd(b)
    decreases |a|
  {
    var s := a + b;
    if |a| == 1 {
      assert MatchLength(s) == 0;
      assert s[1..] == b;
      assert MatchLength(a) == 0 && a[1..] == [];
    } else {
      var k := MatchLength(a);
      assert MatchLength(s) == k by {
        assert s[0] == a[0] && s[1] == a[1];
        if |a| == 2 {
          assert !IsPhraseEnd(a[1]);
        } else {
          assert s[2] == a[2];
        }
      }
      if k == 0 {
        assert s[1..] == a[1..] + b;
        PhraseEndAppend(a[1..], b);
      } else {
        assert |a| > k;
        assert s[1..k] == a[1..k];
        assert s[k..] == a[k..] + b;
        PhraseEndAppend(a[k..], b);
        SeqConcatAssoc(a[1..k], RemoveSpaceBeforePhraseEnd(a[k..]), RemoveSpaceBeforePhraseEnd(b));
      }
    }
  }

  /** " . " becomes ". " (and so on for the other phrase-ending
      characters) after a word, and a final " ." becomes ".". */
  lemma SpaceBeforePhraseEndRemoved(a: string, p: char, b: string)
    requires ClosedText(a) && IsPhraseEnd(p)
    ensures RemoveSpaceBeforePhraseEnd(a + [' ', p, ' '] + b) == RemoveSpaceBeforePhraseEnd(a) + [p, ' '] + RemoveSpaceBeforePhraseEnd(b)
    ensures RemoveSpaceBeforePhraseEnd(a + [' ', p]) == RemoveSpaceBeforePhraseEnd(a) + [p]
  {
    var t := [' ', p, ' '] + b;
    PhraseEndAppend(a, t);
    assert a + [' ', p, ' '] + b == a + t;
    SpacedPhraseEnd(p, b);
    PhraseEndAppend(a, [' ', p]);
    FinalPhraseEnd(p);
  }

  lemma SpacedPhraseEnd(p: char, b: string)
    requires IsPhraseEnd(p)
    ensures RemoveSpaceBeforePhraseEnd([' ', p, ' '] + b) == [p, ' '] + RemoveSpaceBeforePhraseEnd(b)
  {
    var t := [' ', p, ' '] + b;
    assert MatchLength(t) == 3 && t[1..3] == [p, ' '] && t[3..] == b;
  }

  lemma FinalPhraseEnd(p: char)
    requires IsPhraseEnd(p)
    ensures RemoveSpaceBeforePhraseEnd([' ', p]) == [p]
  {
    assert MatchLength([' ', p]) == 2 && [' ', p][1..2] == [p] && [' ', p][2..] == [];
  }

  /** The clean-up example of the fork's tests, written as its pieces:
      "foo . bar test : ,! baz ! hi yepyep: blah ; hi" becomes
      "foo. bar test: ,! baz! hi yepyep: blah; hi". */
  lemma PostProcessExample()
    ensures PostProcess("foo" + " . " + ("bar test" + " : " + (",! baz" + " ! " + ("hi yepyep: blah" + " ; " + "hi"))))
         == "foo" + ". " + ("bar test" + ": " + (",! baz" + "! " + ("hi yepyep: blah" + "; " + "hi")))
  {
    PhraseEndUnchanged("hi");
    PhraseEndPiece("hi yepyep: blah", ';', "hi");
    PhraseEndPiece(",! baz", '!', "hi yepyep: blah" + " ; " + "hi");
    ExampleHead();
  }

  lemma ExampleHead()
    requires RemoveSpaceBeforePhraseEnd(",! baz" + " ! " + ("hi yepyep: blah" + " ; " + "hi"))
          == ",! baz" + "! " + ("hi yepyep: blah" + "; " + "hi")
    ensures RemoveSpaceBeforePhraseEnd("foo" + " . " + ("bar test" + " : " + (",! baz" + " ! " + ("hi yepyep: blah" + " ; " + "hi"))))
         == "foo" + ". " + ("bar test" + ": " + (",! baz" + "! " + ("hi yepyep: blah" + "; " + "hi")))
  {
    PhraseEndPiece("bar test", ':', ",! baz" + " ! " + ("hi yepyep: blah" + " ; " + "hi"));
    PhraseEndPiece("foo", '.', "bar test" + " : " + (",! baz" + " ! " + ("hi yepyep: blah" + " ; " + "hi")));
  }

  /** One piece of the example: text left as it is, then " p " cut to "p ". */
  lemma PhraseEndPiece(a: string, p: char, b: string)
    requires ClosedText(a) && IsPhraseEnd(p)
    requires forall i :: 0 <= i < |a| ==> !SpaceBeforePhraseEndAt(a, i)
    ensures RemoveSpaceBeforePhraseEnd(a + [' ', p, ' '] + b)
         == a + [p, ' '] + RemoveSpaceBeforePhraseEnd(b)
  {
    SpaceBeforePhraseEndRemoved(a, p, b);
    PhraseEndUnchanged(a);
  }
}
