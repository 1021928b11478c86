/**
 * The documented examples of `Tailor::LexedLine`, each stated as a lemma
 * over the same events (line 1 unless noted).
 */
module LexedLineExamples {
  import opened Options
  import opened Lexing

  /** Two lines of `require` statements; line 1 is picked out unchanged. */
  lemma NewPicksLineOne()
    ensures var line1 := [
              Event(1, 0, OnIdent, "require"), Event(1, 7, OnSp, " "),
              Event(1, 8, OnTstringBeg, "'"), Event(1, 9, OnTstringContent, "log_switch"),
              Event(1, 19, OnTstringEnd, "'"), Event(1, 20, OnNl, "\n")];
            var line2 := [
              Event(2, 0, OnIdent, "require_relative"), Event(2, 16, OnSp, " "),
              Event(2, 17, OnTstringBeg, "'"), Event(2, 18, OnTstringContent, "tailor/runtime_error"),
              Event(2, 38, OnTstringEnd, "'"), Event(2, 39, OnNl, "\n")];
            LineOf(line1 + line2, 1) == line1
  {
    var line1 := [
      Event(1, 0, OnIdent, "require"), Event(1, 7, OnSp, " "),
      Event(1, 8, OnTstringBeg, "'"), Event(1, 9, OnTstringContent, "log_switch"),
      Event(1, 19, OnTstringEnd, "'"), Event(1, 20, OnNl, "\n")];
    var line2 := [
      Event(2, 0, OnIdent, "require_relative"), Event(2, 16, OnSp, " "),
      Event(2, 17, OnTstringBeg, "'"), Event(2, 18, OnTstringContent, "tailor/runtime_error"),
      Event(2, 38, OnTstringEnd, "'"), Event(2, 39, OnNl, "\n")];
    LineOfPicksOneLine([], line1, line2, 1);
    assert [] + line1 + line2 == line1 + line2;
  }

  /** A line of only spaces or only a newline is only spaces; a comment or code is not. */
  lemma OnlySpacesExamples()
    ensures OnlySpaces([Event(1, 0, OnSp, "  ")])
    ensures OnlySpaces([Event(1, 0, OnNl, "\n")])
    ensures !OnlySpaces([Event(1, 0, OnComment, "# comment")])
    ensures !OnlySpaces([Event(1, 0, OnSp, "  "), Event(1, 2, OnComment, "# comment")])
    ensures !OnlySpaces([Event(1, 0, OnIdent, "puts"), Event(1, 4, OnSp, " "),
                   Event(1, 5, OnTstringBeg, "'"), Event(1, 6, OnTstringContent, "thing"),
                   Event(1, 11, OnTstringEnd, "'"), Event(1, 12, OnNl, "\n")])
  {
    SpacesOnly([Event(1, 0, OnSp, "  ")]);
    NewlineOnly([Event(1, 0, OnNl, "\n")]);
    CommentOnly([Event(1, 0, OnComment, "# comment")]);
    SpacesThenComment([Event(1, 0, OnSp, "  "), Event(1, 2, OnComment, "# comment")]);
    CodeLine([Event(1, 0, OnIdent, "puts"), Event(1, 4, OnSp, " "),
                   Event(1, 5, OnTstringBeg, "'"), Event(1, 6, OnTstringContent, "thing"),
                   Event(1, 11, OnTstringEnd, "'"), Event(1, 12, OnNl, "\n")]);
  }

  lemma SpacesOnly(l: LexedLine)
    requires l == [Event(1, 0, OnSp, "  ")]
    ensures OnlySpaces(l)
  {
    assert IsBlank(l[0]);
  }

  lemma NewlineOnly(l: LexedLine)
    requires l == [Event(1, 0, OnNl, "\n")]
    ensures OnlySpaces(l)
  {
    assert IsBlank(l[0]);
  }

  lemma CommentOnly(l: LexedLine)
    requires l == [Event(1, 0, OnComment, "# comment")]
    ensures !OnlySpaces(l)
  {
    assert !IsBlank(l[0]);
  }

  lemma SpacesThenComment(l: LexedLine)
    requires l == [Event(1, 0, OnSp, "  "), Event(1, 2, OnComment, "# comment")]
    ensures !OnlySpaces(l)
  {
    assert !IsBlank(l[1]);
  }

  lemma CodeLine(l: LexedLine)
    requires l == [Event(1, 0, OnIdent, "puts"), Event(1, 4, OnSp, " "),
                   Event(1, 5, OnTstringBeg, "'"), Event(1, 6, OnTstringContent, "thing"),
                   Event(1, 11, OnTstringEnd, "'"), Event(1, 12, OnNl, "\n")]
    ensures !OnlySpaces(l)
  {
    assert !IsBlank(l[0]);
  }

  /** `thing = 1 +` ends with an operator, `thing = 1` does not. */
  lemma EndsWithOpExamples()
    ensures EndsWithOp([Event(1, 0, OnIdent, "thing"), Event(1, 5, OnSp, " "), Event(1, 6, OnOp, "="),
                   Event(1, 7, OnSp, " "), Event(1, 8, OnInt, "1"), Event(1, 9, OnSp, " "),
                   Event(1, 10, OnOp, "+"), Event(1, 11, OnIgnoredNl, "\n"),
                   Event(1, 11, OnIgnoredNl, "\n")])
    ensures !EndsWithOp([Event(1, 0, OnIdent, "thing"), Event(1, 5, OnSp, " "), Event(1, 6, OnOp, "="),
                   Event(1, 7, OnSp, " "), Event(1, 8, OnInt, "1"), Event(1, 11, OnNl, "\n")])
  {
    PlusThenNewlines([Event(1, 0, OnIdent, "thing"), Event(1, 5, OnSp, " "), Event(1, 6, OnOp, "="),
                   Event(1, 7, OnSp, " "), Event(1, 8, OnInt, "1"), Event(1, 9, OnSp, " "),
                   Event(1, 10, OnOp, "+"), Event(1, 11, OnIgnoredNl, "\n"),
                   Event(1, 11, OnIgnoredNl, "\n")]);
    IntThenNewline([Event(1, 0, OnIdent, "thing"), Event(1, 5, OnSp, " "), Event(1, 6, OnOp, "="),
                   Event(1, 7, OnSp, " "), Event(1, 8, OnInt, "1"), Event(1, 11, OnNl, "\n")]);
  }

  lemma PlusThenNewlines(l: LexedLine)
    requires l == [Event(1, 0, OnIdent, "thing"), Event(1, 5, OnSp, " "), Event(1, 6, OnOp, "="),
                   Event(1, 7, OnSp, " "), Event(1, 8, OnInt, "1"), Event(1, 9, OnSp, " "),
                   Event(1, 10, OnOp, "+"), Event(1, 11, OnIgnoredNl, "\n"),
                   Event(1, 11, OnIgnoredNl, "\n")]
    ensures EndsWithOp(l)
  {
    DoesLineEndWithAt(l, OnOp, 6);
  }

  lemma IntThenNewline(l: LexedLine)
    requires l == [Event(1, 0, OnIdent, "thing"), Event(1, 5, OnSp, " "), Event(1, 6, OnOp, "="),
                   Event(1, 7, OnSp, " "), Event(1, 8, OnInt, "1"), Event(1, 11, OnNl, "\n")]
    ensures !EndsWithOp(l)
  {
    DoesLineEndWithAt(l, OnOp, 4);
  }

  /** `thing = 1 if`: a trailing `if` is a modifier exactly when the classifier says so;
      `thing = 1` ends with no keyword at all. */
  lemma EndsWithModifierKwExamples(isModifier: (string, LexedLine) -> bool)
    ensures !EndsWithModifierKw([Event(1, 0, OnIdent, "thing"), Event(1, 5, OnSp, " "), Event(1, 6, OnOp, "="),
                   Event(1, 7, OnSp, " "), Event(1, 8, OnInt, "1"),
                   Event(1, 9, OnIgnoredNl, "\n")], isModifier)
    ensures EndsWithModifierKw([Event(1, 0, OnIdent, "thing"), Event(1, 5, OnSp, " "), Event(1, 6, OnOp, "="),
                   Event(1, 7, OnSp, " "), Event(1, 8, OnInt, "1"), Event(1, 9, OnSp, " "),
                   Event(1, 10, OnKw, "if"), Event(1, 12, OnIgnoredNl, "\n")], isModifier) ==
            isModifier("if", [Event(1, 0, OnIdent, "thing"), Event(1, 5, OnSp, " "), Event(1, 6, OnOp, "="),
                   Event(1, 7, OnSp, " "), Event(1, 8, OnInt, "1"), Event(1, 9, OnSp, " "),
                   Event(1, 10, OnKw, "if"), Event(1, 12, OnIgnoredNl, "\n")])
  {
    NoTrailingKeyword([Event(1, 0, OnIdent, "thing"), Event(1, 5, OnSp, " "), Event(1, 6, OnOp, "="),
                   Event(1, 7, OnSp, " "), Event(1, 8, OnInt, "1"),
                   Event(1, 9, OnIgnoredNl, "\n")], isModifier);
    TrailingIf([Event(1, 0, OnIdent, "thing"), Event(1, 5, OnSp, " "), Event(1, 6, OnOp, "="),
                   Event(1, 7, OnSp, " "), Event(1, 8, OnInt, "1"), Event(1, 9, OnSp, " "),
                   Event(1, 10, OnKw, "if"), Event(1, 12, OnIgnoredNl, "\n")], isModifier);
  }

  lemma NoTrailingKeyword(l: LexedLine, isModifier: (string, LexedLine) -> bool)
    requires l == [Event(1, 0, OnIdent, "thing"), Event(1, 5, OnSp, " "), Event(1, 6, OnOp, "="),
                   Event(1, 7, OnSp, " "), Event(1, 8, OnInt, "1"),
                   Event(1, 9, OnIgnoredNl, "\n")]
    ensures !EndsWithModifierKw(l, isModifier)
  {
    EndsWithModifierKwAt(l, isModifier, 4);
  }

  lemma TrailingIf(l: LexedLine, isModifier: (string, LexedLine) -> bool)
    requires l == [Event(1, 0, OnIdent, "thing"), Event(1, 5, OnSp, " "), Event(1, 6, OnOp, "="),
                   Event(1, 7, OnSp, " "), Event(1, 8, OnInt, "1"), Event(1, 9, OnSp, " "),
                   Event(1, 10, OnKw, "if"), Event(1, 12, OnIgnoredNl, "\n")]
    ensures EndsWithModifierKw(l, isModifier) == isModifier("if", l)
  {
    EndsWithModifierKwAt(l, isModifier, 6);
  }

  /** `def thing ` ends with a space event, not with a keyword. */
  lemma DoesLineEndWithExamples()
    ensures DoesLineEndWith([Event(1, 0, OnKw, "def"), Event(1, 3, OnSp, " "), Event(1, 4, OnIdent, "thing"),
                   Event(1, 9, OnSp, " "), Event(1, 10, OnNl, "\n")], OnSp)
    ensures !DoesLineEndWith([Event(1, 0, OnKw, "def"), Event(1, 3, OnSp, " "), Event(1, 4, OnIdent, "thing"),
                   Event(1, 9, OnSp, " "), Event(1, 10, OnNl, "\n")], OnKw)
  {
    DefThingSpace([Event(1, 0, OnKw, "def"), Event(1, 3, OnSp, " "), Event(1, 4, OnIdent, "thing"),
                   Event(1, 9, OnSp, " "), Event(1, 10, OnNl, "\n")]);
  }

  lemma DefThingSpace(l: LexedLine)
    requires l == [Event(1, 0, OnKw, "def"), Event(1, 3, OnSp, " "), Event(1, 4, OnIdent, "thing"),
                   Event(1, 9, OnSp, " "), Event(1, 10, OnNl, "\n")]
    ensures DoesLineEndWith(l, OnSp) && !DoesLineEndWith(l, OnKw)
  {
    DoesLineEndWithAt(l, OnSp, 3);
    DoesLineEndWithAt(l, OnKw, 3);
  }

  /** A trailing newline, and a trailing backslash-newline space event, are skipped. */
  lemma LastNonLineFeedEventExamples()
    ensures LastNonLineFeedEvent([Event(1, 0, OnKw, "def"), Event(1, 3, OnSp, " "), Event(1, 4, OnIdent, "thing"),
                   Event(1, 9, OnSp, " "), Event(1, 10, OnNl, "\n")]) == Some(Event(1, 9, OnSp, " "))
    ensures LastNonLineFeedEvent([Event(1, 0, OnKw, "def"), Event(1, 3, OnSp, " "), Event(1, 4, OnIdent, "thing"),
                   Event(1, 9, OnSp, "\\\n")]) == Some(Event(1, 4, OnIdent, "thing"))
  {
    NewlineSkipped([Event(1, 0, OnKw, "def"), Event(1, 3, OnSp, " "), Event(1, 4, OnIdent, "thing"),
                   Event(1, 9, OnSp, " "), Event(1, 10, OnNl, "\n")]);
    BackslashNewlineSkipped([Event(1, 0, OnKw, "def"), Event(1, 3, OnSp, " "), Event(1, 4, OnIdent, "thing"),
                   Event(1, 9, OnSp, "\\\n")]);
  }

  lemma NewlineSkipped(l: LexedLine)
    requires l == [Event(1, 0, OnKw, "def"), Event(1, 3, OnSp, " "), Event(1, 4, OnIdent, "thing"),
                   Event(1, 9, OnSp, " "), Event(1, 10, OnNl, "\n")]
    ensures LastNonLineFeedEvent(l) == Some(Event(1, 9, OnSp, " "))
  {
    LastNonLineFeedEventAt(l, 3);
  }

  lemma BackslashNewlineSkipped(l: LexedLine)
    requires l == [Event(1, 0, OnKw, "def"), Event(1, 3, OnSp, " "), Event(1, 4, OnIdent, "thing"),
                   Event(1, 9, OnSp, "\\\n")]
    ensures LastNonLineFeedEvent(l) == Some(Event(1, 4, OnIdent, "thing"))
  {
    LastNonLineFeedEventAt(l, 2);
  }

  /** `while true do`, `until true do` and `for i in 1..5 do` end with the optional `do`;
      without it they are not loops with `do`. */
  lemma LoopWithDoExamples()
    ensures LoopWithDo([Event(1, 0, OnKw, "while"), Event(1, 5, OnSp, " "), Event(1, 6, OnKw, "true"),
              Event(1, 10, OnSp, " "), Event(1, 11, OnKw, "do"), Event(1, 13, OnIgnoredNl, "\n")])
    ensures !LoopWithDo([Event(1, 0, OnKw, "while"), Event(1, 5, OnSp, " "), Event(1, 6, OnKw, "true"),
              Event(1, 10, OnSp, " "), Event(1, 11, OnIgnoredNl, "\n")])
    ensures LoopWithDo([Event(1, 0, OnKw, "until"), Event(1, 5, OnSp, " "), Event(1, 6, OnKw, "true"),
              Event(1, 10, OnSp, " "), Event(1, 11, OnKw, "do"), Event(1, 13, OnIgnoredNl, "\n")])
    ensures !LoopWithDo([Event(1, 0, OnKw, "until"), Event(1, 5, OnSp, " "), Event(1, 6, OnKw, "true"),
              Event(1, 10, OnSp, " "), Event(1, 11, OnIgnoredNl, "\n")])
  {
    WhileDo([Event(1, 0, OnKw, "while"), Event(1, 5, OnSp, " "), Event(1, 6, OnKw, "true"),
              Event(1, 10, OnSp, " "), Event(1, 11, OnKw, "do"), Event(1, 13, OnIgnoredNl, "\n")]);
    WhileNoDo([Event(1, 0, OnKw, "while"), Event(1, 5, OnSp, " "), Event(1, 6, OnKw, "true"),
              Event(1, 10, OnSp, " "), Event(1, 11, OnIgnoredNl, "\n")]);
    UntilDo([Event(1, 0, OnKw, "until"), Event(1, 5, OnSp, " "), Event(1, 6, OnKw, "true"),
              Event(1, 10, OnSp, " "), Event(1, 11, OnKw, "do"), Event(1, 13, OnIgnoredNl, "\n")]);
    UntilNoDo([Event(1, 0, OnKw, "until"), Event(1, 5, OnSp, " "), Event(1, 6, OnKw, "true"),
              Event(1, 10, OnSp, " "), Event(1, 11, OnIgnoredNl, "\n")]);
  }

  lemma ForLoopWithDoExamples()
    ensures LoopWithDo([Event(1, 0, OnKw, "for"), Event(1, 3, OnSp, " "), Event(1, 4, OnIdent, "i"),
              Event(1, 5, OnSp, " "), Event(1, 6, OnKw, "in"), Event(1, 8, OnSp, " "),
              Event(1, 9, OnInt, "1"), Event(1, 10, OnOp, ".."), Event(1, 12, OnInt, "5"),
              Event(1, 13, OnSp, " "), Event(1, 14, OnKw, "do"), Event(1, 16, OnIgnoredNl, "\n")])
    ensures !LoopWithDo([Event(1, 0, OnKw, "for"), Event(1, 3, OnSp, " "), Event(1, 4, OnIdent, "i"),
              Event(1, 5, OnSp, " "), Event(1, 6, OnKw, "in"), Event(1, 8, OnSp, " "),
              Event(1, 9, OnInt, "1"), Event(1, 10, OnOp, ".."), Event(1, 12, OnInt, "5"),
              Event(1, 13, OnSp, " "), Event(1, 14, OnIgnoredNl, "\n")])
  {
    ForDo([Event(1, 0, OnKw, "for"), Event(1, 3, OnSp, " "), Event(1, 4, OnIdent, "i"),
              Event(1, 5, OnSp, " "), Event(1, 6, OnKw, "in"), Event(1, 8, OnSp, " "),
              Event(1, 9, OnInt, "1"), Event(1, 10, OnOp, ".."), Event(1, 12, OnInt, "5"),
              Event(1, 13, OnSp, " "), Event(1, 14, OnKw, "do"), Event(1, 16, OnIgnoredNl, "\n")]);
    ForNoDo([Event(1, 0, OnKw, "for"), Event(1, 3, OnSp, " "), Event(1, 4, OnIdent, "i"),
              Event(1, 5, OnSp, " "), Event(1, 6, OnKw, "in"), Event(1, 8, OnSp, " "),
              Event(1, 9, OnInt, "1"), Event(1, 10, OnOp, ".."), Event(1, 12, OnInt, "5"),
              Event(1, 13, OnSp, " "), Event(1, 14, OnIgnoredNl, "\n")]);
  }

  lemma WhileDo(l: LexedLine)
    requires l == [Event(1, 0, OnKw, "while"), Event(1, 5, OnSp, " "), Event(1, 6, OnKw, "true"),
              Event(1, 10, OnSp, " "), Event(1, 11, OnKw, "do"), Event(1, 13, OnIgnoredNl, "\n")]
    ensures LoopWithDo(l)
  {
    LoopWithDoAt(l, 0, 4);
  }

  lemma WhileNoDo(l: LexedLine)
    requires l == [Event(1, 0, OnKw, "while"), Event(1, 5, OnSp, " "), Event(1, 6, OnKw, "true"),
              Event(1, 10, OnSp, " "), Event(1, 11, OnIgnoredNl, "\n")]
    ensures !LoopWithDo(l)
  {
    LoopWithDoAt(l, 0, 3);
  }

  lemma UntilDo(l: LexedLine)
    requires l == [Event(1, 0, OnKw, "until"), Event(1, 5, OnSp, " "), Event(1, 6, OnKw, "true"),
              Event(1, 10, OnSp, " "), Event(1, 11, OnKw, "do"), Event(1, 13, OnIgnoredNl, "\n")]
    ensures LoopWithDo(l)
  {
    LoopWithDoAt(l, 0, 4);
  }

  lemma UntilNoDo(l: LexedLine)
    requires l == [Event(1, 0, OnKw, "until"), Event(1, 5, OnSp, " "), Event(1, 6, OnKw, "true"),
              Event(1, 10, OnSp, " "), Event(1, 11, OnIgnoredNl, "\n")]
    ensures !LoopWithDo(l)
  {
    LoopWithDoAt(l, 0, 3);
  }

  lemma ForDo(l: LexedLine)
    requires l == [Event(1, 0, OnKw, "for"), Event(1, 3, OnSp, " "), Event(1, 4, OnIdent, "i"),
              Event(1, 5, OnSp, " "), Event(1, 6, OnKw, "in"), Event(1, 8, OnSp, " "),
              Event(1, 9, OnInt, "1"), Event(1, 10, OnOp, ".."), Event(1, 12, OnInt, "5"),
              Event(1, 13, OnSp, " "), Event(1, 14, OnKw, "do"), Event(1, 16, OnIgnoredNl, "\n")]
    ensures LoopWithDo(l)
  {
    LoopWithDoAt(l, 0, 10);
  }

  lemma ForNoDo(l: LexedLine)
    requires l == [Event(1, 0, OnKw, "for"), Event(1, 3, OnSp, " "), Event(1, 4, OnIdent, "i"),
              Event(1, 5, OnSp, " "), Event(1, 6, OnKw, "in"), Event(1, 8, OnSp, " "),
              Event(1, 9, OnInt, "1"), Event(1, 10, OnOp, ".."), Event(1, 12, OnInt, "5"),
              Event(1, 13, OnSp, " "), Event(1, 14, OnIgnoredNl, "\n")]
    ensures !LoopWithDo(l)
  {
    LoopWithDoAt(l, 0, 9);
  }

  /** Only spaces, or only a newline, have no first non-space element; `  }` has the brace. */
  lemma FirstNonSpaceElementExamples()
    ensures FirstNonSpaceElement([Event(1, 0, OnSp, "     ")]) == None
    ensures FirstNonSpaceElement([Event(1, 0, OnIgnoredNl, "\n")]) == None
    ensures FirstNonSpaceElement([Event(1, 0, OnSp, "  "), Event(1, 2, OnRbrace, "}"), Event(1, 3, OnNl, "\n")]) == Some(Event(1, 2, OnRbrace, "}"))
  {
    SpacesHaveNoFirst([Event(1, 0, OnSp, "     ")]);
    NewlineHasNoFirst([Event(1, 0, OnIgnoredNl, "\n")]);
    BraceAfterSpaces([Event(1, 0, OnSp, "  "), Event(1, 2, OnRbrace, "}"), Event(1, 3, OnNl, "\n")]);
  }

  lemma SpacesHaveNoFirst(l: LexedLine)
    requires l == [Event(1, 0, OnSp, "     ")]
    ensures FirstNonSpaceElement(l) == None
  {
    assert IsBlank(l[0]);
  }

  lemma NewlineHasNoFirst(l: LexedLine)
    requires l == [Event(1, 0, OnIgnoredNl, "\n")]
    ensures FirstNonSpaceElement(l) == None
  {
    assert IsBlank(l[0]);
  }

  lemma BraceAfterSpaces(l: LexedLine)
    requires l == [Event(1, 0, OnSp, "  "), Event(1, 2, OnRbrace, "}"), Event(1, 3, OnNl, "\n")]
    ensures FirstNonSpaceElement(l) == Some(Event(1, 2, OnRbrace, "}"))
  {
    FirstNonSpaceElementAt(l, 1);
  }

  lemma EventAtAndIndexExamples()
    ensures EventAt([Event(1, 0, OnSp, "     ")], 0) == Some(Event(1, 0, OnSp, "     "))
    ensures EventAt([Event(1, 0, OnSp, "     ")], 1234) == None
    ensures EventIndex([Event(1, 0, OnSp, "     ")], 1234) == None
    ensures EventIndex([Event(1, 0, OnSp, "     ")], 0) == Some(0)
  {
  }

  /** `def thing ` and a newline, rebuilt from their events. */
  lemma ToSExample()
    ensures ToS([Event(1, 0, OnKw, "def"), Event(1, 3, OnSp, " "), Event(1, 4, OnIdent, "thing"),
                 Event(1, 9, OnSp, " "), Event(1, 10, OnNl, "\n")]) == "def thing \n"
  {
    var l := [Event(1, 0, OnKw, "def"), Event(1, 3, OnSp, " "), Event(1, 4, OnIdent, "thing"),
              Event(1, 9, OnSp, " "), Event(1, 10, OnNl, "\n")];
    assert ToS(l[4..]) == "\n" by {
      assert l[4..][1..] == [];
    }
    assert ToS(l[3..]) == " \n" by {
      assert l[3..][1..] == l[4..];
    }
    assert ToS(l[2..]) == "thing \n" by {
      assert l[2..][1..] == l[3..];
    }
    assert ToS(l[1..]) == " thing \n" by {
      assert l[1..][1..] == l[2..];
    }
  }

  /** `def thing one,  # comment`: the statement goes on. */
  lemma RemoveTrailingCommentAfterCommaAndSpaces()
    ensures var code := [Event(1, 0, OnKw, "def"), Event(1, 3, OnSp, " "), Event(1, 4, OnIdent, "thing"),
                         Event(1, 9, OnSp, " "), Event(1, 10, OnIdent, "one"), Event(1, 13, OnComma, ",")];
            RemoveTrailingComment(code + [Event(1, 14, OnSp, "  ")] + [Event(1, 16, OnComment, "# comment\n")]) == code + [Event(1, 14, OnIgnoredNl, "\n")]
  {
    var code := [Event(1, 0, OnKw, "def"), Event(1, 3, OnSp, " "), Event(1, 4, OnIdent, "thing"),
                         Event(1, 9, OnSp, " "), Event(1, 10, OnIdent, "one"), Event(1, 13, OnComma, ",")];
    assert ClosingNewline(code, code[0].line) == Event(1, 14, OnIgnoredNl, "\n");
    RemoveTrailingCommentKeepsCode(code, [Event(1, 14, OnSp, "  ")], Event(1, 16, OnComment, "# comment\n"));
  }

  /** `def thing one,# comment`: the statement goes on. */
  lemma RemoveTrailingCommentAfterComma()
    ensures var code := [Event(1, 0, OnKw, "def"), Event(1, 3, OnSp, " "), Event(1, 4, OnIdent, "thing"),
                         Event(1, 9, OnSp, " "), Event(1, 10, OnIdent, "one"), Event(1, 13, OnComma, ",")];
            RemoveTrailingComment(code + [] + [Event(1, 14, OnComment, "# comment\n")]) == code + [Event(1, 14, OnIgnoredNl, "\n")]
  {
    var code := [Event(1, 0, OnKw, "def"), Event(1, 3, OnSp, " "), Event(1, 4, OnIdent, "thing"),
                         Event(1, 9, OnSp, " "), Event(1, 10, OnIdent, "one"), Event(1, 13, OnComma, ",")];
    assert ClosingNewline(code, code[0].line) == Event(1, 14, OnIgnoredNl, "\n");
    RemoveTrailingCommentKeepsCode(code, [], Event(1, 14, OnComment, "# comment\n"));
  }

  /** `def thing one  # comment`: the statement is complete. */
  lemma RemoveTrailingCommentAfterStatementAndSpaces()
    ensures var code := [Event(1, 0, OnKw, "def"), Event(1, 3, OnSp, " "), Event(1, 4, OnIdent, "thing"),
                         Event(1, 9, OnSp, " "), Event(1, 10, OnIdent, "one")];
            RemoveTrailingComment(code + [Event(1, 13, OnSp, "  ")] + [Event(1, 15, OnComment, "# comment\n")]) == code + [Event(1, 13, OnNl, "\n")]
  {
    var code := [Event(1, 0, OnKw, "def"), Event(1, 3, OnSp, " "), Event(1, 4, OnIdent, "thing"),
                         Event(1, 9, OnSp, " "), Event(1, 10, OnIdent, "one")];
    assert ClosingNewline(code, code[0].line) == Event(1, 13, OnNl, "\n");
    RemoveTrailingCommentKeepsCode(code, [Event(1, 13, OnSp, "  ")], Event(1, 15, OnComment, "# comment\n"));
  }

  /** `def thing one# comment`: the statement is complete. */
  lemma RemoveTrailingCommentAfterStatement()
    ensures var code := [Event(1, 0, OnKw, "def"), Event(1, 3, OnSp, " "), Event(1, 4, OnIdent, "thing"),
                         Event(1, 9, OnSp, " "), Event(1, 10, OnIdent, "one")];
            RemoveTrailingComment(code + [] + [Event(1, 13, OnComment, "# comment\n")]) == code + [Event(1, 13, OnNl, "\n")]
  {
    var code := [Event(1, 0, OnKw, "def"), Event(1, 3, OnSp, " "), Event(1, 4, OnIdent, "thing"),
                         Event(1, 9, OnSp, " "), Event(1, 10, OnIdent, "one")];
    assert ClosingNewline(code, code[0].line) == Event(1, 13, OnNl, "\n");
    RemoveTrailingCommentKeepsCode(code, [], Event(1, 13, OnComment, "# comment\n"));
  }

  /** The closing `}` of a multi-line `%Q{…}` on a line of its own. */
  lemma StringTailLine(l: LexedLine)
    requires l == [Event(1, 11, OnTstringEnd, "}"), Event(1, 12, OnNl, "\n")]
    ensures EndOfMultiLineString(l)
  {
    assert NoStringBegin(l) by {
      forall i | 0 <= i < |l| ensures l[i].category != OnTstringBeg { }
    }
  }

  /** A whole `%Q{…}` literal on one line. */
  lemma WholeStringLine(l: LexedLine)
    requires l == [Event(1, 0, OnTstringBeg, "%Q{"),
                   Event(1, 3, OnTstringContent, "this is a t string! suckaaaaaa!"),
                   Event(1, 32, OnTstringEnd, "}")]
    ensures !EndOfMultiLineString(l)
  {
    assert l[0].category == OnTstringBeg;
  }

  /** A `}` tail followed by a new literal `"abc"` begins a string, so it is not only a tail. */
  lemma StringTailThenNewString(l: LexedLine)
    requires l == [Event(2, 0, OnTstringEnd, "}"), Event(2, 1, OnComma, ","),
                   Event(2, 2, OnSp, " "), Event(2, 3, OnTstringBeg, "\""),
                   Event(2, 4, OnTstringContent, "abc"), Event(2, 7, OnTstringEnd, "\""),
                   Event(2, 8, OnNl, "\n")]
    ensures !EndOfMultiLineString(l)
  {
    assert l[3].category == OnTstringBeg;
  }

  /** The documented cases, and one with a string tail and a new string on the same line. */
  lemma EndOfMultiLineStringExamples()
    ensures EndOfMultiLineString([Event(1, 11, OnTstringEnd, "}"), Event(1, 12, OnNl, "\n")])
    ensures !EndOfMultiLineString([Event(1, 11, OnComma, ","), Event(1, 12, OnNl, "\n")])
    ensures !EndOfMultiLineString([Event(1, 0, OnTstringBeg, "%Q{"),
                                   Event(1, 3, OnTstringContent, "this is a t string! suckaaaaaa!"),
                                   Event(1, 32, OnTstringEnd, "}")])
    ensures !EndOfMultiLineString([Event(2, 0, OnTstringEnd, "}"), Event(2, 1, OnComma, ","),
                                   Event(2, 2, OnSp, " "), Event(2, 3, OnTstringBeg, "\""),
                                   Event(2, 4, OnTstringContent, "abc"), Event(2, 7, OnTstringEnd, "\""),
                                   Event(2, 8, OnNl, "\n")])
  {
    StringTailLine([Event(1, 11, OnTstringEnd, "}"), Event(1, 12, OnNl, "\n")]);
    WholeStringLine([Event(1, 0, OnTstringBeg, "%Q{"),
                     Event(1, 3, OnTstringContent, "this is a t string! suckaaaaaa!"),
                     Event(1, 32, OnTstringEnd, "}")]);
    StringTailThenNewString([Event(2, 0, OnTstringEnd, "}"), Event(2, 1, OnComma, ","),
                             Event(2, 2, OnSp, " "), Event(2, 3, OnTstringBeg, "\""),
                             Event(2, 4, OnTstringContent, "abc"), Event(2, 7, OnTstringEnd, "\""),
                             Event(2, 8, OnNl, "\n")]);
  }

  /** A comma line is not only a period; spaces then a comma is only a comma; an identifier before the comma spoils it. */
  lemma IsLineOnlyAExamples()
    ensures !IsLineOnlyA([Event(1, 11, OnComma, ","), Event(1, 12, OnNl, "\n")], OnPeriod)
    ensures IsLineOnlyA([Event(1, 0, OnSp, "          "), Event(1, 11, OnComma, ","), Event(1, 12, OnNl, "\n")], OnComma)
    ensures !IsLineOnlyA([Event(1, 0, OnSp, "        "), Event(1, 8, OnIdent, "one"), Event(1, 11, OnComma, ","),
                   Event(1, 12, OnNl, "\n")], OnComma)
  {
    CommaIsNotPeriod([Event(1, 11, OnComma, ","), Event(1, 12, OnNl, "\n")]);
    SpacesThenComma([Event(1, 0, OnSp, "          "), Event(1, 11, OnComma, ","), Event(1, 12, OnNl, "\n")]);
    IdentThenComma([Event(1, 0, OnSp, "        "), Event(1, 8, OnIdent, "one"), Event(1, 11, OnComma, ","),
                   Event(1, 12, OnNl, "\n")]);
  }

  lemma CommaIsNotPeriod(l: LexedLine)
    requires l == [Event(1, 11, OnComma, ","), Event(1, 12, OnNl, "\n")]
    ensures !IsLineOnlyA(l, OnPeriod)
  {
    IsLineOnlyAAt(l, OnPeriod, 0);
  }

  lemma SpacesThenComma(l: LexedLine)
    requires l == [Event(1, 0, OnSp, "          "), Event(1, 11, OnComma, ","), Event(1, 12, OnNl, "\n")]
    ensures IsLineOnlyA(l, OnComma)
  {
    IsLineOnlyAAt(l, OnComma, 1);
  }

  lemma IdentThenComma(l: LexedLine)
    requires l == [Event(1, 0, OnSp, "        "), Event(1, 8, OnIdent, "one"), Event(1, 11, OnComma, ","),
                   Event(1, 12, OnNl, "\n")]
    ensures !IsLineOnlyA(l, OnComma)
  {
    IsLineOnlyAAt(l, OnComma, 2);
    assert l[1].category != OnSp;
  }

  lemma CommaLineHasNoKeyword(l: LexedLine)
    requires l == [Event(1, 0, OnSp, "        "), Event(1, 8, OnIdent, "one"),
                   Event(1, 11, OnComma, ","), Event(1, 12, OnNl, "\n")]
    ensures !KeywordIsSymbol(l)
  {
    KeywordIsSymbolAt(l, 2);
  }

  lemma KeywordWithoutPredecessor(l: LexedLine)
    requires l == [Event(1, 0, OnKw, "class")]
    ensures !KeywordIsSymbol(l)
  {
    KeywordIsSymbolAt(l, 0);
  }

  lemma KeywordAfterSpace(l: LexedLine)
    requires l == [Event(1, 0, OnSp, "  "), Event(1, 2, OnKw, "class")]
    ensures !KeywordIsSymbol(l)
  {
    KeywordIsSymbolAt(l, 1);
  }

  lemma KeywordAfterSymbeg(l: LexedLine)
    requires l == [Event(1, 0, OnConst, "INDENT_OK"), Event(1, 9, OnLbracket, "["),
                   Event(1, 10, OnSymbeg, ":"), Event(1, 11, OnKw, "class")]
    ensures KeywordIsSymbol(l)
  {
    KeywordIsSymbolAt(l, 3);
  }

  lemma KeywordAfterSymbegThenNewline(l: LexedLine)
    requires l == [Event(1, 0, OnIdent, "x"), Event(1, 1, OnSp, " "), Event(1, 2, OnOp, "="), Event(1, 3, OnSp, " "),
                   Event(1, 4, OnSymbeg, ":"), Event(1, 5, OnKw, "class"), Event(1, 10, OnNl, "\n")]
    ensures KeywordIsSymbol(l)
  {
    KeywordIsSymbolAt(l, 5);
  }

  /** No trailing keyword, no predecessor, or a predecessor that is not `:on_symbeg`: false;
      `INDENT_OK[:class`, and `x = :class` with its newline: true. */
  lemma KeywordIsSymbolExamples()
    ensures !KeywordIsSymbol([Event(1, 0, OnSp, "        "), Event(1, 8, OnIdent, "one"),
                              Event(1, 11, OnComma, ","), Event(1, 12, OnNl, "\n")])
    ensures !KeywordIsSymbol([Event(1, 0, OnKw, "class")])
    ensures !KeywordIsSymbol([Event(1, 0, OnSp, "  "), Event(1, 2, OnKw, "class")])
    ensures KeywordIsSymbol([Event(1, 0, OnConst, "INDENT_OK"), Event(1, 9, OnLbracket, "["),
                             Event(1, 10, OnSymbeg, ":"), Event(1, 11, OnKw, "class")])
    ensures KeywordIsSymbol([Event(1, 0, OnIdent, "x"), Event(1, 1, OnSp, " "), Event(1, 2, OnOp, "="),
                             Event(1, 3, OnSp, " "), Event(1, 4, OnSymbeg, ":"), Event(1, 5, OnKw, "class"),
                             Event(1, 10, OnNl, "\n")])
  {
    CommaLineHasNoKeyword([Event(1, 0, OnSp, "        "), Event(1, 8, OnIdent, "one"),
                           Event(1, 11, OnComma, ","), Event(1, 12, OnNl, "\n")]);
    KeywordWithoutPredecessor([Event(1, 0, OnKw, "class")]);
    KeywordAfterSpace([Event(1, 0, OnSp, "  "), Event(1, 2, OnKw, "class")]);
    KeywordAfterSymbeg([Event(1, 0, OnConst, "INDENT_OK"), Event(1, 9, OnLbracket, "["),
                        Event(1, 10, OnSymbeg, ":"), Event(1, 11, OnKw, "class")]);
    KeywordAfterSymbegThenNewline([Event(1, 0, OnIdent, "x"), Event(1, 1, OnSp, " "), Event(1, 2, OnOp, "="),
                                   Event(1, 3, OnSp, " "), Event(1, 4, OnSymbeg, ":"), Event(1, 5, OnKw, "class"),
                                   Event(1, 10, OnNl, "\n")]);
  }
}
