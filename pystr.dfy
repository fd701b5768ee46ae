/**
 * The parts of Python 2.7's `unicode` type that the modelled code relies on:
 * the whitespace and line-break classes, split(), splitlines(), strip(),
 * lstrip(chars), replace(), join(), repetition and slicing.
 */
module PyStr {

  /** `unicode.isspace()`, which is also the `\s` class under `re.UNICODE`
      (the Unicode 5.2 tables shipped with Python 2.7, so U+180E counts). */
  predicate IsSpace(c: char) {
    var n := c as int;
    (9 <= n <= 13) || (28 <= n <= 32) || n == 0x85 || n == 0xA0 || n == 0x1680 || n == 0x180E
    || (0x2000 <= n <= 0x200A) || n == 0x2028 || n == 0x2029 || n == 0x202F || n == 0x205F
    || n == 0x3000
  }

  /** `\s` in a pattern compiled without `re.UNICODE`: the six ASCII whitespace characters. */
  predicate IsAsciiSpace(c: char) {
    c == ' ' || (9 <= c as int <= 13)
  }

  /** The characters at which `unicode.splitlines()` ends a line. */
  predicate IsLineBreak(c: char) {
    var n := c as int;
    (10 <= n <= 13) || (28 <= n <= 30) || n == 0x85 || n == 0x2028 || n == 0x2029
  }

  predicate NoSpace(s: string) {
    forall i :: 0 <= i < |s| ==> !IsSpace(s[i])
  }

  predicate NoLineBreak(s: string) {
    forall i :: 0 <= i < |s| ==> !IsLineBreak(s[i])
  }

  /** `s` without its leading whitespace (`unicode.lstrip()`). */
  function SkipSpaces(s: string): (r: string)
    ensures |r| <= |s| && r == s[|s| - |r|..]
    ensures r == [] || !IsSpace(r[0])
    ensures forall i :: 0 <= i < |s| - |r| ==> IsSpace(s[i])
  {
    if s != [] && IsSpace(s[0]) then SkipSpaces(s[1..]) else s
  }

  /** Length of the run of non-whitespace characters that starts `s`. */
  function WordLength(s: string): (k: nat)
    ensures k <= |s| && NoSpace(s[..k])
    ensures k == |s| || IsSpace(s[k])
  {
    if s == [] || IsSpace(s[0]) then 0 else 1 + WordLength(s[1..])
  }

  /** `unicode.split()` without a separator: the maximal runs of
      non-whitespace characters, left to right. */
  function Split(s: string): seq<string>
    decreases |s|
  {
    var t := SkipSpaces(s);
    if t == [] then []
    else
      var k := WordLength(t);
      [t[..k]] + Split(t[k..])
  }

  /** `sep.join(xs)`. */
  function Join(sep: string, xs: seq<string>): string {
    if |xs| == 0 then "" else if |xs| == 1 then xs[0] else xs[0] + sep + Join(sep, xs[1..])
  }

  /** `u"".join(xs)`. */
  function Concat(xs: seq<string>): string {
    if xs == [] then "" else xs[0] + Concat(xs[1..])
  }

  /** Index of the first line break of `s`, or `|s|` when there is none. */
  function LineEnd(s: string): (i: nat)
    ensures i <= |s| && NoLineBreak(s[..i])
    ensures i == |s| || IsLineBreak(s[i])
  {
    if s == [] || IsLineBreak(s[0]) then 0 else 1 + LineEnd(s[1..])
  }

  /** `unicode.splitlines()`: the lines without their breaks; "\r\n" is one
      break, and a break at the very end starts no further line. */
  function SplitLines(s: string): seq<string>
    decreases |s|
  {
    if s == [] then []
    else
      var i := LineEnd(s);
      if i == |s| then [s]
      else
        var next := if s[i] == '\r' && i + 1 < |s| && s[i + 1] == '\n' then i + 2 else i + 1;
        [s[..i]] + SplitLines(s[next..])
  }

  /** `s` without its trailing whitespace. */
  function RStrip(s: string): (r: string)
    ensures |r| <= |s| && r == s[..|r|]
    ensures r == [] || !IsSpace(r[|r| - 1])
    ensures forall i :: |r| <= i < |s| ==> IsSpace(s[i])
  {
    if s != [] && IsSpace(s[|s| - 1]) then RStrip(s[..|s| - 1]) else s
  }

  /** `unicode.strip()`. */
  function Strip(s: string): (r: string)
    ensures |r| <= |s|
  {
    RStrip(SkipSpaces(s))
  }

  /** `s.lstrip(chars)`: drop the leading characters that occur in `chars`. */
  function LStripChars(s: string, chars: string): (r: string)
    ensures |r| <= |s| && r == s[|s| - |r|..]
    ensures r == [] || r[0] !in chars
    ensures forall i :: 0 <= i < |s| - |r| ==> s[i] in chars
  {
    if s != [] && s[0] in chars then LStripChars(s[1..], chars) else s
  }

  /** `s.replace(pat, rep)`: every occurrence of `pat`, found left to right
      without overlap, replaced by `rep`. */
  function Replace(s: string, pat: string, rep: string): string
    requires pat != []
    decreases |s|
  {
    if |s| < |pat| then s
    else if s[..|pat|] == pat then rep + Replace(s[|pat|..], pat, rep)
    else [s[0]] + Replace(s[1..], pat, rep)
  }

  /** `s.replace(c, rep)` for a one-character pattern, character by character. */
  function ReplaceChar(s: string, c: char, rep: string): string {
    if s == [] then "" else (if s[0] == c then rep else [s[0]]) + ReplaceChar(s[1..], c, rep)
  }

  /** `s` with every character that satisfies `drop` removed (what a regular
      expression substitution of one character class by "" does). */
  function RemoveWhere(s: string, drop: char -> bool): (r: string)
    ensures |r| <= |s|
    ensures forall c :: c in r <==> c in s && !drop(c)
  {
    if s == [] then "" else (if drop(s[0]) then "" else [s[0]]) + RemoveWhere(s[1..], drop)
  }

  /** `s * n`; a count of zero or less gives the empty string. */
  function Repeat<T>(s: seq<T>, n: int): seq<T>
    decreases if n < 0 then 0 else n
  {
    if n <= 0 then [] else s + Repeat(s, n - 1)
  }

  /** The position a Python slice bound `i` denotes in a sequence of length `len`. */
  function SliceBound(i: int, len: nat): (r: nat)
    ensures r <= len
    ensures 0 <= i <= len ==> r == i
  {
    if i < 0 then (if i + len < 0 then 0 else i + len) else if i > len then len else i
  }

  /** `s[start:stop]` with Python's rules for negative and out-of-range bounds. */
  function PySlice<T>(s: seq<T>, start: int, stop: int): seq<T> {
    var i := SliceBound(start, |s|);
    var j := SliceBound(stop, |s|);
    if i < j then s[i..j] else []
  }

  // ---------------------------------------------------------------------
  // Properties

  /** Every token of `split()` is non-empty and holds no whitespace. */
  lemma {:induction false} SplitTokens(s: string)
    ensures forall w :: w in Split(s) ==> w != [] && NoSpace(w)
    decreases |s|
  {
    var t := SkipSpaces(s);
    if t != [] {
      var k := WordLength(t);
      SplitTokens(t[k..]);
    }
  }

  lemma {:induction false} WordLengthOfWord(w: string, rest: string)
    requires NoSpace(w)
    requires rest == [] || IsSpace(rest[0])
    ensures WordLength(w + rest) == |w|
  {
    if w != [] {
      assert (w + rest)[1..] == w[1..] + rest;
      WordLengthOfWord(w[1..], rest);
    }
  }

  lemma SplitWord(w: string, rest: string)
    requires w != [] && NoSpace(w)
    requires rest == [] || IsSpace(rest[0])
    ensures Split(w + rest) == [w] + Split(rest)
  {
    assert SkipSpaces(w + rest) == w + rest;
    WordLengthOfWord(w, rest);
    assert (w + rest)[..|w|] == w && (w + rest)[|w|..] == rest;
  }

  lemma SplitAfterSpace(r: string)
    ensures Split(" " + r) == Split(r)
  {
    assert (" " + r)[1..] == r;
    assert SkipSpaces(" " + r) == SkipSpaces(r);
  }

  /** The first of several strings, then the separator and the rest. */
  lemma JoinUnfold(sep: string, xs: seq<string>)
    requires |xs| > 1
    ensures Join(sep, xs) == xs[0] + (sep + Join(sep, xs[1..]))
  {
  }

  /** A word followed by a space splits off as the first token. */
  lemma {:induction false} SplitWordThenSpace(w: string, rest: string)
    requires w != [] && NoSpace(w)
    ensures Split(w + (" " + rest)) == [w] + Split(rest)
  {
    SplitWord(w, " " + rest);
    SplitAfterSpace(rest);
  }

  /** One more word in front keeps the round trip. */
  lemma {:induction false} SplitJoinCons(w: string, tail: seq<string>)
    requires w != [] && NoSpace(w) && tail != []
    requires Split(Join(" ", tail)) == tail
    ensures Split(Join(" ", [w] + tail)) == [w] + tail
  {
    var ws := [w] + tail;
    assert ws[0] == w && ws[1..] == tail;
    JoinUnfold(" ", ws);
    SplitWordThenSpace(w, Join(" ", tail));
  }

  /** Joining whitespace-free words with single spaces and splitting again
      gives the words back. */
  lemma {:induction false} SplitJoinRoundTrip(ws: seq<string>)
    requires forall i :: 0 <= i < |ws| ==> ws[i] != [] && NoSpace(ws[i])
    ensures Split(Join(" ", ws)) == ws
    decreases |ws|
  {
    if |ws| == 1 {
      SplitWord(ws[0], "");
      assert ws[0] + "" == ws[0];
    } else if |ws| > 1 {
      SplitJoinRoundTrip(ws[1..]);
      SplitJoinCons(ws[0], ws[1..]);
      HeadTail(ws);
    }
  }

  /** No line of `splitlines()` holds a line break. */
  lemma {:induction false} SplitLinesNoBreaks(s: string)
    ensures forall l :: l in SplitLines(s) ==> NoLineBreak(l)
    decreases |s|
  {
    if s != [] {
      var i := LineEnd(s);
      if i < |s| {
        var next := if s[i] == '\r' && i + 1 < |s| && s[i + 1] == '\n' then i + 2 else i + 1;
        var tail := SplitLines(s[next..]);
        assert SplitLines(s) == [s[..i]] + tail;
        SplitLinesNoBreaks(s[next..]);
        assert forall l :: l in [s[..i]] + tail ==> l == s[..i] || l in tail;
      } else {
        assert SplitLines(s) == [s] && s[..i] == s;
      }
    }
  }

  /** Lines each followed by "\n". */
  function Terminated(ls: seq<string>): string {
    if ls == [] then "" else ls[0] + "\n" + Terminated(ls[1..])
  }

  lemma {:induction false} LineEndOfLine(l: string, rest: string)
    requires NoLineBreak(l)
    requires rest != [] && IsLineBreak(rest[0])
    ensures LineEnd(l + rest) == |l|
  {
    if l != [] {
      assert (l + rest)[1..] == l[1..] + rest;
      LineEndOfLine(l[1..], rest);
    }
  }

  /** Writing lines out with "\n" after each and splitting them again gives
      the lines back. */
  lemma {:induction false} SplitLinesRoundTrip(ls: seq<string>)
    requires forall l :: l in ls ==> NoLineBreak(l)
    ensures SplitLines(Terminated(ls)) == ls
  {
    if ls != [] {
      var rest := Terminated(ls[1..]);
      var s := ls[0] + "\n" + rest;
      assert s == ls[0] + ("\n" + rest);
      LineEndOfLine(ls[0], "\n" + rest);
      assert s[|ls[0]|] == '\n';
      assert s[..|ls[0]|] == ls[0] && s[|ls[0]| + 1..] == rest;
      SplitLinesRoundTrip(ls[1..]);
    }
  }

  /** `strip()` leaves no whitespace at either end, and a string without
      whitespace at its ends is its own `strip()`. */
  lemma StripEnds(s: string)
    ensures Strip(s) == [] || (!IsSpace(Strip(s)[0]) && !IsSpace(Strip(s)[|Strip(s)| - 1]))
    ensures (s == [] || (!IsSpace(s[0]) && !IsSpace(s[|s| - 1]))) ==> Strip(s) == s
  {
    var t := SkipSpaces(s);
    var r := RStrip(t);
    assert r != [] ==> r[0] == t[0];
  }

  /** A one-character `replace()` is character-by-character substitution. */
  lemma {:induction false} ReplaceOneChar(s: string, c: char, rep: string)
    ensures Replace(s, [c], rep) == ReplaceChar(s, c, rep)
  {
    if s != [] {
      ReplaceOneChar(s[1..], c, rep);
    }
  }

  /** After replacing a character by text that does not contain it, the
      character is gone and every other character is kept in order. */
  lemma {:induction false} ReplaceCharRemoves(s: string, c: char, rep: string)
    requires c !in rep
    ensures c !in ReplaceChar(s, c, rep)
    ensures c !in s ==> ReplaceChar(s, c, rep) == s
  {
    if s != [] {
      ReplaceCharRemoves(s[1..], c, rep);
    }
  }

  lemma {:induction false} RepeatLength<T>(s: seq<T>, n: int)
    ensures |Repeat(s, n)| == if n <= 0 then 0 else n * |s|
    decreases if n < 0 then 0 else n
  {
    if n > 0 {
      RepeatLength(s, n - 1);
    }
  }

  /** Removing characters distributes over concatenation. */
  lemma {:induction false} RemoveWhereAppend(a: string, b: string, drop: char -> bool)
    ensures RemoveWhere(a + b, drop) == RemoveWhere(a, drop) + RemoveWhere(b, drop)
  {
    if a == [] {
      assert a + b == b;
    } else {
      var head := if drop(a[0]) then "" else [a[0]];
      assert RemoveWhere(a + b, drop) == head + RemoveWhere(a[1..] + b, drop) by {
        assert (a + b)[0] == a[0] && (a + b)[1..] == a[1..] + b;
      }
      RemoveWhereAppend(a[1..], b, drop);
      SeqConcatAssoc(head, RemoveWhere(a[1..], drop), RemoveWhere(b, drop));
    }
  }

  /** A string without characters of the class is left as it is (so
      removing a class a second time changes nothing). */
  lemma {:induction false} RemoveWhereUnchanged(s: string, drop: char -> bool)
    requires forall c :: c in s ==> !drop(c)
    ensures RemoveWhere(s, drop) == s
  {
    if s != [] {
      assert s[0] in s;
      assert forall c :: c in s[1..] ==> c in s;
      RemoveWhereUnchanged(s[1..], drop);
    }
  }

  /** A dropped character between two runs of kept ones disappears and
      the runs are joined. */
  lemma {:induction false} RemoveWhereBetween(before: string, c: char, after: string, drop: char -> bool)
    requires drop(c)
    requires forall x :: x in before ==> !drop(x)
    requires forall x :: x in after ==> !drop(x)
    ensures RemoveWhere(before + [c] + after, drop) == before + after
  {
    assert RemoveWhere(before, drop) == before by {
      RemoveWhereUnchanged(before, drop);
    }
    assert RemoveWhere(after, drop) == after by {
      RemoveWhereUnchanged(after, drop);
    }
    assert RemoveWhere(before + [c], drop) == before by {
      assert RemoveWhere([c], drop) == "";
      RemoveWhereAppend(before, [c], drop);
    }
    RemoveWhereAppend(before + [c], after, drop);
  }

  /** Substituting one character leaves out every character that neither the
      text nor the replacement holds. */
  lemma {:induction false} ReplaceCharKeepsAbsent(s: string, c: char, rep: string, d: char)
    requires d !in s && d !in rep
    ensures d !in ReplaceChar(s, c, rep)
  {
    if s != [] {
      assert forall x :: x in s[1..] ==> x in s;
      ReplaceCharKeepsAbsent(s[1..], c, rep, d);
    }
  }

  /** `pat` occurs in `s` at position `i`. */
  predicate OccursAt(s: string, pat: string, i: int) {
    0 <= i && i + |pat| <= |s| && s[i..i + |pat|] == pat
  }

  /** A pattern that does not occur leaves the text unchanged. */
  lemma {:induction false} ReplaceAbsent(s: string, pat: string, rep: string)
    requires pat != []
    requires forall i :: !OccursAt(s, pat, i)
    ensures Replace(s, pat, rep) == s
    decreases |s|
  {
    if |s| >= |pat| {
      assert !OccursAt(s, pat, 0);
      var t := s[1..];
      forall i ensures !OccursAt(t, pat, i) {
        if 0 <= i && i + |pat| <= |t| {
          assert t[i..i + |pat|] == s[i + 1..i + 1 + |pat|];
          assert !OccursAt(s, pat, i + 1);
        }
      }
      ReplaceAbsent(t, pat, rep);
    }
  }

  /** Every character of `s` is whitespace. */
  predicate AllSpace(s: string) {
    forall i :: 0 <= i < |s| ==> IsSpace(s[i])
  }

  lemma {:induction false} SkipAllSpace(s: string)
    requires AllSpace(s)
    ensures SkipSpaces(s) == []
  {
    if s != [] {
      SkipAllSpace(s[1..]);
    }
  }

  /** A string of whitespace has no words. */
  lemma SplitAllSpace(s: string)
    requires AllSpace(s)
    ensures Split(s) == []
  {
    SkipAllSpace(s);
  }

  lemma {:induction false} SkipSpacesAppend(x: string, y: string)
    ensures SkipSpaces(x) == [] ==> SkipSpaces(x + y) == SkipSpaces(y)
    ensures SkipSpaces(x) != [] ==> SkipSpaces(x + y) == SkipSpaces(x) + y
  {
    if x == [] {
      assert x + y == y;
    } else {
      assert (x + y)[1..] == x[1..] + y;
      if IsSpace(x[0]) {
        SkipSpacesAppend(x[1..], y);
      }
    }
  }

  lemma {:induction false} WordLengthAppend(t: string, y: string)
    requires WordLength(t) < |t| || y == [] || IsSpace(y[0])
    ensures WordLength(t + y) == WordLength(t)
  {
    if t == [] {
      assert t + y == y;
    } else if !IsSpace(t[0]) {
      assert (t + y)[1..] == t[1..] + y;
      WordLengthAppend(t[1..], y);
    }
  }

  /** `split()` looks only at the text after the leading whitespace. */
  lemma SplitUnfold(s: string)
    ensures var t := SkipSpaces(s);
      Split(s) == if t == [] then [] else [t[..WordLength(t)]] + Split(t[WordLength(t)..])
  {
  }

  lemma TakeAll<T>(s: seq<T>)
    ensures s[..|s|] == s
  {
  }

  lemma HeadTail<T>(s: seq<T>)
    requires s != []
    ensures [s[0]] + s[1..] == s
  {
  }

  lemma SeqConcatAssoc<T>(a: seq<T>, b: seq<T>, c: seq<T>)
    ensures a + (b + c) == a + b + c
  {
  }

  lemma SliceAppend<T>(a: seq<T>, b: seq<T>, k: nat)
    requires k <= |a|
    ensures (a + b)[..k] == a[..k] && (a + b)[k..] == a[k..] + b
  {
  }

  /** Text cut at a whitespace boundary splits into the words of each side. */
  lemma {:induction false} SplitAppend(x: string, y: string)
    requires x == [] || y == [] || IsSpace(x[|x| - 1]) || IsSpace(y[0])
    ensures Split(x + y) == Split(x) + Split(y)
    decreases |x|
  {
    SkipSpacesAppend(x, y);
    var t := SkipSpaces(x);
    if t == [] {
      SplitAppendBlank(x, y);
    } else {
      SplitAppendWord(x, t, y);
    }
  }

  lemma SplitAppendBlank(x: string, y: string)
    requires SkipSpaces(x) == [] && SkipSpaces(x + y) == SkipSpaces(y)
    ensures Split(x + y) == Split(x) + Split(y)
  {
    assert Split(x) == [] by { SplitUnfold(x); }
    SplitUnfold(x + y);
    SplitUnfold(y);
    assert Split(x) + Split(y) == Split(y);
  }

  lemma SplitUnfoldWord(s: string, t: string, k: nat)
    requires t == SkipSpaces(s) && t != [] && k == WordLength(t)
    ensures Split(s) == [t[..k]] + Split(t[k..])
  {
  }

  lemma WordBeforeSpace(t: string)
    requires t != [] && IsSpace(t[|t| - 1])
    ensures WordLength(t) < |t|
  {
    assert WordLength(t) == |t| ==> NoSpace(t);
  }

  lemma SkipSpacesKeepsLast(x: string)
    requires SkipSpaces(x) != []
    ensures x != [] && SkipSpaces(x)[|SkipSpaces(x)| - 1] == x[|x| - 1]
  {
  }

  /** The first word of `x + y` is the first word of `x` when `x` ends in
      whitespace or `y` begins with it. */
  lemma {:induction false} FirstWordAppend(x: string, t: string, y: string) returns (k: nat)
    requires x == [] || y == [] || IsSpace(x[|x| - 1]) || IsSpace(y[0])
    requires t == SkipSpaces(x) && t != []
    requires SkipSpaces(x + y) == t + y
    ensures k == WordLength(t) && 1 <= k <= |t| && |t[k..]| < |x|
    ensures t[k..] == [] || y == [] || IsSpace(t[|t| - 1]) || IsSpace(y[0])
    ensures Split(x + y) == [t[..k]] + Split(t[k..] + y)
  {
    k := WordLength(t);
    SkipSpacesKeepsLast(x);
    if IsSpace(t[|t| - 1]) {
      WordBeforeSpace(t);
    }
    WordLengthAppend(t, y);
    var ty := t + y;
    assert ty[..k] == t[..k] && ty[k..] == t[k..] + y by { SliceAppend(t, y, k); }
    assert Split(x + y) == [ty[..k]] + Split(ty[k..]) by { SplitUnfoldWord(x + y, ty, k); }
  }

  lemma {:induction false} SplitAppendWord(x: string, t: string, y: string)
    requires x == [] || y == [] || IsSpace(x[|x| - 1]) || IsSpace(y[0])
    requires t == SkipSpaces(x) && t != []
    requires SkipSpaces(x + y) == t + y
    ensures Split(x + y) == Split(x) + Split(y)
    decreases |x|, 0
  {
    var k := FirstWordAppend(x, t, y);
    var rest := t[k..];
    assert rest == [] || IsSpace(rest[|rest| - 1]) || y == [] || IsSpace(y[0]);
    SplitAppend(rest, y);
    SplitUnfoldWord(x, t, k);
    SeqConcatAssoc([t[..k]], Split(rest), Split(y));
  }

  /** A word without whitespace is its own `split()`, or nothing when empty. */
  lemma SplitOfWord(w: string)
    requires NoSpace(w)
    ensures Split(w) == if w == [] then [] else [w]
  {
    if w != [] {
      SplitWord(w, "");
      assert w + "" == w;
    }
  }

  lemma SplitSkipSpaces(s: string)
    ensures Split(SkipSpaces(s)) == Split(s)
  {
    var t := SkipSpaces(s);
    var lead := s[..|s| - |t|];
    assert s == lead + t;
    SplitAllSpace(lead);
    SplitAppend(lead, t);
  }

  lemma SplitRStrip(t: string)
    ensures Split(RStrip(t)) == Split(t)
  {
    var r := RStrip(t);
    var trail := t[|r|..];
    assert t == r + trail;
    SplitAllSpace(trail);
    SplitAppend(r, trail);
  }

  /** Stripping the ends does not change the words. */
  lemma SplitStrip(s: string)
    ensures Split(Strip(s)) == Split(s)
  {
    SplitSkipSpaces(s);
    SplitRStrip(SkipSpaces(s));
  }

  /** Repeating whitespace gives whitespace. */
  lemma {:induction false} RepeatAllSpace(s: string, n: int)
    requires AllSpace(s)
    ensures AllSpace(Repeat(s, n))
    decreases if n < 0 then 0 else n
  {
    if n > 0 {
      RepeatAllSpace(s, n - 1);
    }
  }

  /** `sep.join` of a list with a known first element. */
  lemma JoinCons(sep: string, a: string, xs: seq<string>)
    ensures Join(sep, [a] + xs) == if xs == [] then a else a + sep + Join(sep, xs)
  {
    assert ([a] + xs)[1..] == xs;
  }

  /** A word added at the end of a list is joined after one more
      separator (of a list that was not empty). */
  lemma {:induction false} JoinSnoc(sep: string, xs: seq<string>, x: string)
    ensures Join(sep, xs + [x]) == if xs == [] then x else Join(sep, xs) + sep + x
    decreases |xs|
  {
    if |xs| == 1 {
      assert (xs + [x])[1..] == [x];
    } else if |xs| > 1 {
      assert (xs + [x])[1..] == xs[1..] + [x];
      JoinSnoc(sep, xs[1..], x);
    }
  }

  lemma AllSpaceAppend(a: string, b: string)
    requires AllSpace(a) && AllSpace(b)
    ensures AllSpace(a + b)
  {
  }
}
