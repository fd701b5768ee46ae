/** `presswork/flask_app/template_filters.py`: Jinja filters for showing text as HTML. */
module TemplateFilters {
  import opened PyStr

  /** `re.sub(r'\r\n|\r|\n', '\n', s)`: every "\r\n" and every lone "\r" becomes "\n". */
  function NormalizeNewlines(s: string): string
    decreases |s|
  {
    if s == [] then ""
    else if |s| >= 2 && s[..2] == "\r\n" then "\n" + NormalizeNewlines(s[2..])
    else if s[0] == '\r' then "\n" + NormalizeNewlines(s[1..])
    else [s[0]] + NormalizeNewlines(s[1..])
  }

  /** `newlines_to_br(s)`: normalise the newlines, then turn each into "<br/>". */
  function NewlinesToBr(s: string): string {
    Replace(NormalizeNewlines(s), "\n", "<br/>")
  }

  /** `tabs_to_nbsp(s, indent_size)`: each tab becomes `indent_size` copies of "&nbsp;". */
  function TabsToNbsp(s: string, indentSize: int := 4): string {
    Replace(s, "\t", Repeat("&nbsp;", indentSize))
  }

  /** The reference reading: "\r\n", "\r" and "\n" each stand for one line
      break, and each line break becomes one "<br/>". */
  function BreaksToBr(s: string): string
    decreases |s|
  {
    if s == [] then ""
    else if |s| >= 2 && s[..2] == "\r\n" then "<br/>" + BreaksToBr(s[2..])
    else if s[0] == '\r' || s[0] == '\n' then "<br/>" + BreaksToBr(s[1..])
    else [s[0]] + BreaksToBr(s[1..])
  }

  lemma {:induction false} ReplaceCharAppend(a: string, b: string, c: char, rep: string)
    ensures ReplaceChar(a + b, c, rep) == ReplaceChar(a, c, rep) + ReplaceChar(b, c, rep)
  {
    if a == [] {
      assert a + b == b;
    } else {
      assert (a + b)[1..] == a[1..] + b;
      ReplaceCharAppend(a[1..], b, c, rep);
    }
  }

  lemma {:induction false} ConvertsEachBreak(s: string)
    ensures ReplaceChar(NormalizeNewlines(s), '\n', "<br/>") == BreaksToBr(s)
    decreases |s|
  {
    if s != [] {
      var rest := if |s| >= 2 && s[..2] == "\r\n" then s[2..] else s[1..];
      var head := if |s| >= 2 && s[..2] == "\r\n" then "\n" else if s[0] == '\r' then "\n" else [s[0]];
      assert NormalizeNewlines(s) == head + NormalizeNewlines(rest);
      ReplaceCharAppend(head, NormalizeNewlines(rest), '\n', "<br/>");
      ConvertsEachBreak(rest);
    }
  }

  /** `newlines_to_br` agrees with the reference reading: each "\r\n", "\r"
      or "\n" in the input becomes exactly one "<br/>". */
  lemma NewlinesToBrConvertsEachBreak(s: string)
    ensures NewlinesToBr(s) == BreaksToBr(s)
  {
    ReplaceOneChar(NormalizeNewlines(s), '\n', "<br/>");
    ConvertsEachBreak(s);
  }

  /** The examples of the filter's documentation. */
  lemma NewlinesToBrExamples()
    ensures NewlinesToBr("\n") == "<br/>"
    ensures NewlinesToBr("\r") == "<br/>"
    ensures NewlinesToBr("\r\n") == "<br/>"
  {
    NewlinesToBrConvertsEachBreak("\n");
    NewlinesToBrConvertsEachBreak("\r");
    NewlinesToBrConvertsEachBreak("\r\n");
  }

  /** After `tabs_to_nbsp` no tab is left, and text without tabs is unchanged. */
  lemma TabsToNbspRemovesTabs(s: string, indentSize: int)
    ensures '\t' !in TabsToNbsp(s, indentSize)
    ensures '\t' !in s ==> TabsToNbsp(s, indentSize) == s
  {
    var rep := Repeat("&nbsp;", indentSize);
    NoTabInNbsp(indentSize);
    ReplaceOneChar(s, '\t', rep);
    ReplaceCharRemoves(s, '\t', rep);
  }

  lemma {:induction false} NoTabInNbsp(n: int)
    ensures '\t' !in Repeat("&nbsp;", n)
    decreases if n < 0 then 0 else n
  {
    if n > 0 {
      NoTabInNbsp(n - 1);
    }
  }

  /** A leading tab becomes `indent_size` non-breaking spaces in front of the rest. */
  lemma TabsToNbspLeadingTab(s: string, indentSize: int)
    requires '\t' !in s
    ensures TabsToNbsp("\t" + s, indentSize) == Repeat("&nbsp;", indentSize) + s
  {
    var rep := Repeat("&nbsp;", indentSize);
    NoTabInNbsp(indentSize);
    ReplaceOneChar("\t" + s, '\t', rep);
    ReplaceCharRemoves(s, '\t', rep);
    assert ("\t" + s)[1..] == s;
  }

  /** By default a tab is four non-breaking spaces. */
  lemma TabsToNbspDefault(s: string)
    requires '\t' !in s
    ensures TabsToNbsp("\t" + s) == "&nbsp;&nbsp;&nbsp;&nbsp;" + s
  {
    TabsToNbspLeadingTab(s, 4);
    assert Repeat("&nbsp;", 4) == "&nbsp;&nbsp;&nbsp;&nbsp;" by {
      assert Repeat("&nbsp;", 0) == "";
    }
  }

  /** Text without "\r" or "\n" passes through `newlines_to_br` unchanged. */
  lemma {:induction false} NoBreaksUnchanged(s: string)
    requires '\r' !in s && '\n' !in s
    ensures BreaksToBr(s) == s
  {
    if s != [] {
      assert s == [s[0]] + s[1..];
      assert s[0] != '\r' && s[0] != '\n';
      if |s| >= 2 {
        assert s[..2][0] == s[0];
      }
      NoBreaksUnchanged(s[1..]);
    }
  }
}
