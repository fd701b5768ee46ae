/**
 * `presswork/text/clean.py`: cleaning text on the way in (control
 * characters, mixed encodings) and proofreading it on the way out (quotes,
 * floating punctuation).
 */
module Clean {
  import opened PyStr
  import Sanitize

  // ---------------------------------------------------------------------
  // Control characters

  /** The control characters that survive `keep_newlines=True`: the list of
      exceptions names "\n" twice and never "\r", so only "\n" is kept. */
  predicate IsControlBesidesNewline(c: char) {
    Sanitize.IsControl(c) && c != '\n'
  }

  /** `remove_control_characters(s, keep_newlines)`. */
  function RemoveControlCharacters(s: string, keepNewlines: bool): (r: string)
    ensures !keepNewlines ==> forall c :: c in r <==> c in s && !Sanitize.IsControl(c)
    ensures keepNewlines ==> forall c :: c in r <==> c in s && !IsControlBesidesNewline(c)
  {
    if keepNewlines then RemoveWhere(s, IsControlBesidesNewline) else RemoveWhere(s, Sanitize.IsControl)
  }

  /** With `keep_newlines=True` every "\n" survives while "\r" (and so the
      "\r" of "\r\n") is removed like any other control character. */
  lemma KeepNewlinesKeepsOnlyLineFeed(s: string)
    ensures '\n' in RemoveControlCharacters(s, true) <==> '\n' in s
    ensures '\r' !in RemoveControlCharacters(s, true)
    ensures '\n' !in RemoveControlCharacters(s, false)
  {
  }

  // ---------------------------------------------------------------------
  // Quotes

  const LeftDoubleQuote: char := '\U{201C}'
  const RightDoubleQuote: char := '\U{201D}'
  const LeftSingleQuote: char := '\U{2018}'
  const RightSingleQuote: char := '\U{2019}'

  /** `simplify_quotes(s)`: "``" and "''" become '"', curly double quotes
      become '"' and curly single quotes become "'", in that order. */
  function SimplifyQuotes(s: string): string {
    var a := Replace(s, "``", "\"");
    var b := Replace(a, "''", "\"");
    var c := Replace(b, [LeftDoubleQuote], "\"");
    var d := Replace(c, [RightDoubleQuote], "\"");
    var e := Replace(d, [RightSingleQuote], "'");
    Replace(e, [LeftSingleQuote], "'")
  }

  predicate NoCurlyQuotes(s: string) {
    LeftDoubleQuote !in s && RightDoubleQuote !in s && LeftSingleQuote !in s && RightSingleQuote !in s
  }

  /** No curly quote is left after `simplify_quotes`. */
  lemma SimplifyQuotesRemovesCurlyQuotes(s: string)
    ensures NoCurlyQuotes(SimplifyQuotes(s))
  {
    var a := Replace(s, "``", "\"");
    var b := Replace(a, "''", "\"");
    ReplaceOneChar(b, LeftDoubleQuote, "\"");
    var c := ReplaceChar(b, LeftDoubleQuote, "\"");
    ReplaceCharRemoves(b, LeftDoubleQuote, "\"");
    ReplaceOneChar(c, RightDoubleQuote, "\"");
    var d := ReplaceChar(c, RightDoubleQuote, "\"");
    ReplaceCharRemoves(c, RightDoubleQuote, "\"");
    ReplaceCharKeepsAbsent(c, RightDoubleQuote, "\"", LeftDoubleQuote);
    ReplaceOneChar(d, RightSingleQuote, "'");
    var e := ReplaceChar(d, RightSingleQuote, "'");
    ReplaceCharRemoves(d, RightSingleQuote, "'");
    ReplaceCharKeepsAbsent(d, RightSingleQuote, "'", LeftDoubleQuote);
    ReplaceCharKeepsAbsent(d, RightSingleQuote, "'", RightDoubleQuote);
    ReplaceOneChar(e, LeftSingleQuote, "'");
    ReplaceCharRemoves(e, LeftSingleQuote, "'");
    ReplaceCharKeepsAbsent(e, LeftSingleQuote, "'", LeftDoubleQuote);
    ReplaceCharKeepsAbsent(e, LeftSingleQuote, "'", RightDoubleQuote);
    ReplaceCharKeepsAbsent(e, LeftSingleQuote, "'", RightSingleQuote);
  }

  /** Text that holds neither "``" nor "''" nor a curly quote is left unchanged. */
  lemma SimplifyQuotesUnchanged(s: string)
    requires NoCurlyQuotes(s)
    requires forall i :: !OccursAt(s, "``", i) && !OccursAt(s, "''", i)
    ensures SimplifyQuotes(s) == s
  {
    ReplaceAbsent(s, "``", "\"");
    ReplaceAbsent(s, "''", "\"");
    ReplaceOneChar(s, LeftDoubleQuote, "\"");
    ReplaceCharRemoves(s, LeftDoubleQuote, "\"");
    ReplaceOneChar(s, RightDoubleQuote, "\"");
    ReplaceCharRemoves(s, RightDoubleQuote, "\"");
    ReplaceOneChar(s, RightSingleQuote, "'");
    ReplaceCharRemoves(s, RightSingleQuote, "'");
    ReplaceOneChar(s, LeftSingleQuote, "'");
    ReplaceCharRemoves(s, LeftSingleQuote, "'");
  }

  // ---------------------------------------------------------------------
  // Floating punctuation

  /** The ASCII punctuation that is deleted when it stands alone between whitespace. */
  predicate IsRemovablePunctuation(c: char) {
    c in "!\"#$%&'()*+,.:;<=>?@[]^_`{}~"
  }

  /** `remove_floating_punctuation(s)`, as the regular expression engine runs
      it: left to right, remembering whether the previous character of the
      input was whitespace and looking one character ahead. */
  function RemoveFloatingPunctuation(s: string): string {
    ScanFloating(false, s)
  }

  function ScanFloating(afterSpace: bool, s: string): string
    decreases |s|
  {
    if s == [] then ""
    else
      var drop := afterSpace && IsRemovablePunctuation(s[0]) && |s| > 1 && IsSpace(s[1]);
      (if drop then "" else [s[0]]) + ScanFloating(IsSpace(s[0]), s[1..])
  }

  /** The character at `i` is floating punctuation: whitespace on both sides of
      it in the original text. */
  predicate IsFloating(s: string, i: int) {
    0 < i < |s| - 1 && IsRemovablePunctuation(s[i]) && IsSpace(s[i - 1]) && IsSpace(s[i + 1])
  }

  /** The characters from position `i` on that are not floating punctuation. */
  function KeptFrom(s: string, i: nat): string
    requires i <= |s|
    decreases |s| - i
  {
    if i == |s| then "" else (if IsFloating(s, i) then "" else [s[i]]) + KeptFrom(s, i + 1)
  }

  lemma {:induction false} ScanKeeps(s: string, i: nat)
    requires i <= |s|
    ensures ScanFloating(i > 0 && IsSpace(s[i - 1]), s[i..]) == KeptFrom(s, i)
    decreases |s| - i
  {
    if i < |s| {
      assert s[i..][1..] == s[i + 1..];
      ScanKeeps(s, i + 1);
    }
  }

  /** Because the pattern uses look-behind and look-ahead, deleting one
      character never changes the verdict on its neighbours: a character is
      deleted exactly when it is removable punctuation with whitespace on
      both sides in the original text. */
  lemma FloatingJudgedOnOriginal(s: string)
    ensures RemoveFloatingPunctuation(s) == KeptFrom(s, 0)
  {
    ScanKeeps(s, 0);
    assert s[0..] == s;
  }

  /** Characters outside the removable set ("-", "/", "\\" and "|" among
      them) are always kept, and so is anything at either end of the text. */
  lemma {:induction false} OtherCharactersKept(s: string, i: nat)
    requires i <= |s|
    ensures forall c :: c in s[i..] && !IsRemovablePunctuation(c) ==> c in KeptFrom(s, i)
    decreases |s| - i
  {
    if i < |s| {
      OtherCharactersKept(s, i + 1);
      assert forall c :: c in s[i..] ==> c == s[i] || c in s[i + 1..];
    }
  }

  // ---------------------------------------------------------------------
  // Cleaner chains

  /** Passing `text` through each function in turn. */
  function ApplyAll(fns: seq<string -> string>, text: string): string
    decreases |fns|
  {
    if fns == [] then text else ApplyAll(fns[1..], fns[0](text))
  }

  /** `for clean in fns: text = clean(text)`, as `_clean` and `proofread` run it. */
  method RunCleaners(fns: seq<string -> string>, text: string) returns (r: string)
    ensures r == ApplyAll(fns, text)
  {
    r := text;
    var i := 0;
    while i < |fns|
      invariant 0 <= i <= |fns|
      invariant ApplyAll(fns[i..], r) == ApplyAll(fns, text)
    {
      assert fns[i..][1..] == fns[i + 1..];
      r := fns[i](r);
      i := i + 1;
    }
  }

  /** Running two chains one after the other is running their concatenation. */
  lemma {:induction false} ApplyAllAppend(a: seq<string -> string>, b: seq<string -> string>, text: string)
    ensures ApplyAll(a + b, text) == ApplyAll(b, ApplyAll(a, text))
    decreases |a|
  {
    if a == [] {
      assert a + b == b;
    } else {
      assert (a + b)[1..] == a[1..] + b;
      ApplyAllAppend(a[1..], b, a[0](text));
    }
  }

  /** The default input cleaners: `unicode_dammit` (foreign code, a parameter
      here), then control characters removed with newlines kept. */
  function DefaultInputCleaners(unicodeDammit: string -> string): seq<string -> string> {
    [unicodeDammit, (s: string) => RemoveControlCharacters(s, true)]
  }

  /** A `CleanInputString`: text that has been through the input cleaners. */
  datatype CleanInputString = CleanInputString(data: string)

  /** What `CleanInputString(s, ...)` is given: raw text, or a string that is
      already a `CleanInputString`. */
  datatype CleanInput = Raw(s: string) | AlreadyClean(c: CleanInputString)

  /** `CleanInputString.__init__`: an empty list of cleaners means the
      defaults; an input that is already clean keeps its data and is not
      cleaned again. */
  method NewCleanInputString(input: CleanInput, cleanerFunctions: seq<string -> string>,
                             unicodeDammit: string -> string) returns (c: CleanInputString)
    ensures input.AlreadyClean? ==> c == input.c
    ensures input.Raw? && cleanerFunctions == [] ==>
      c.data == RemoveControlCharacters(unicodeDammit(input.s), true)
    ensures input.Raw? && cleanerFunctions != [] ==> c.data == ApplyAll(cleanerFunctions, input.s)
  {
    var fns := if cleanerFunctions == [] then DefaultInputCleaners(unicodeDammit) else cleanerFunctions;
    if input.AlreadyClean? {
      c := CleanInputString(input.c.data);
    } else {
      var data := RunCleaners(fns, input.s);
      if cleanerFunctions == [] {
        assert ApplyAll(fns, input.s) == ApplyAll(fns[1..], unicodeDammit(input.s));
        assert ApplyAll(fns[1..], unicodeDammit(input.s))
            == ApplyAll([], RemoveControlCharacters(unicodeDammit(input.s), true));
      }
      c := CleanInputString(data);
    }
  }

  /** `CleanInputString(...).unwrap()`. */
  function Unwrap(c: CleanInputString): string {
    c.data
  }

  /** The default cleaning leaves no control character other than "\n",
      whatever `unicode_dammit` returns. */
  lemma DefaultCleaningRemovesControls(s: string, unicodeDammit: string -> string)
    ensures forall c :: c in ApplyAll(DefaultInputCleaners(unicodeDammit), s) ==> !IsControlBesidesNewline(c)
  {
    var fns := DefaultInputCleaners(unicodeDammit);
    assert ApplyAll(fns, s) == ApplyAll(fns[1..], unicodeDammit(s));
    assert ApplyAll(fns[1..], unicodeDammit(s)) == RemoveControlCharacters(unicodeDammit(s), true);
  }

  /** `OutputProofreader`: an empty list of functions means the defaults. */
  datatype OutputProofreader = OutputProofreader(cleanerFunctions: seq<string -> string>)

  function DefaultProofreaders(): seq<string -> string> {
    [SimplifyQuotes, RemoveFloatingPunctuation]
  }

  /** `OutputProofreader(...).proofread(text)`. */
  method Proofread(p: OutputProofreader, text: string) returns (r: string)
    ensures p.cleanerFunctions == [] ==> r == RemoveFloatingPunctuation(SimplifyQuotes(text))
    ensures p.cleanerFunctions != [] ==> r == ApplyAll(p.cleanerFunctions, text)
  {
    var fns := if p.cleanerFunctions == [] then DefaultProofreaders() else p.cleanerFunctions;
    r := RunCleaners(fns, text);
    if p.cleanerFunctions == [] {
      assert ApplyAll(fns, text) == ApplyAll(fns[1..], SimplifyQuotes(text));
      assert ApplyAll(fns[1..], SimplifyQuotes(text)) == ApplyAll([], RemoveFloatingPunctuation(SimplifyQuotes(text)));
    }
  }

  /** Deleting floating punctuation never adds a character. */
  lemma {:induction false} KeptFromSubset(s: string, i: nat)
    requires i <= |s|
    ensures forall c :: c in KeptFrom(s, i) ==> c in s[i..]
    decreases |s| - i
  {
    if i < |s| {
      KeptFromSubset(s, i + 1);
      assert forall c :: c in s[i + 1..] ==> c in s[i..];
    }
  }

  /** The default proofreading leaves no curly quote in its output. */
  lemma DefaultProofreadingHasNoCurlyQuotes(text: string)
    ensures NoCurlyQuotes(RemoveFloatingPunctuation(SimplifyQuotes(text)))
  {
    var q := SimplifyQuotes(text);
    SimplifyQuotesRemovesCurlyQuotes(text);
    FloatingJudgedOnOriginal(q);
    KeptFromSubset(q, 0);
    assert q[0..] == q;
  }
}
