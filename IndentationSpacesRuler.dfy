/**
 * The line-level interface of the indentation ruler
 * (`IndentationSpacesRuler`): it owns an `IndentationManager` and adds the
 * string, interpolation and single-line-statement bookkeeping that the
 * lexer callbacks drive.
 */
module IndentationRuler {
  import opened Options
  import opened Seqs
  import opened Lexing
  import opened Indentation

  class IndentationSpacesRuler {
    /** The expectation state this ruler reads and updates. */
    const manager: IndentationManager
    /** `@indent_keyword_line`: the line of the last indenting keyword, or nil. */
    var indentKeywordLine: Option<int>

    constructor (spaces: nat, continuationKeywords: set<string>)
      ensures fresh(manager)
      ensures manager.spaces == spaces && manager.continuationKeywords == continuationKeywords
      ensures manager.thisLine == 0 && manager.nextLine == 0 && manager.actualIndentation == 0
      ensures manager.indentReasons == [] && manager.tstringNesting == []
      ensures manager.amountToChangeThis == 0 && !manager.embexprBeg && manager.doMeasurement
      ensures indentKeywordLine.None?
    {
      manager := new IndentationManager(spaces, continuationKeywords);
      indentKeywordLine := None;
    }

    /** `next_should_be_at`: the indentation the next line should have. */
    function NextShouldBeAt(): (r: int)
      reads manager
      ensures r == manager.nextLine
    {
      manager.nextLine
    }

    /** `tstring_beg_update`: a multi-line string opens on `lineno`; measuring stops inside it. */
    method TstringBegUpdate(lineno: int)
      modifies manager`tstringNesting, manager`doMeasurement
      ensures manager.tstringNesting == old(manager.tstringNesting) + [lineno]
      ensures !manager.doMeasurement
    {
      manager.tstringNesting := manager.tstringNesting + [lineno];
      manager.Stop();
    }

    /** `tstring_end_update`: the innermost open string closes; measuring resumes. */
    method TstringEndUpdate()
      modifies manager`tstringNesting, manager`doMeasurement
      ensures manager.tstringNesting == PopLast(old(manager.tstringNesting))
      ensures manager.doMeasurement
    {
      manager.tstringNesting := PopLast(manager.tstringNesting);
      manager.Start();
    }

    /** `embexpr_beg_update`: a string interpolation `#{` opens. */
    method EmbexprBegUpdate()
      modifies manager`embexprBeg
      ensures manager.embexprBeg
    {
      manager.embexprBeg := true;
    }

    /** `embexpr_end_update`: the interpolation closes. */
    method EmbexprEndUpdate()
      modifies manager`embexprBeg
      ensures !manager.embexprBeg
    {
      manager.embexprBeg := false;
    }

    /** `single_line_indent_statement?`: the indenting keyword was on the current line `lineno`. */
    function SingleLineIndentStatement(lineno: int): (r: bool)
      reads this
      ensures indentKeywordLine.None? ==> !r
      ensures indentKeywordLine.Some? ==> (r <==> indentKeywordLine.value == lineno)
    {
      indentKeywordLine == Some(lineno)
    }

    /**
     * `r_event_without_content?`: the closer at `column` is the first thing on
     * its line. Every documented case has a non-blank event; what the ruler
     * does on a blank line is left open, so the line must have one.
     */
    function REventWithoutContent(l: LexedLine, column: int): (r: bool)
      requires FirstNonSpaceElement(l).Some?
      ensures r <==> exists k :: 0 <= k < |l| && !IsBlank(l[k]) && (forall i :: 0 <= i < k ==> IsBlank(l[i])) &&
                                 l[k].col == column
    {
      var e := FirstNonSpaceElement(l).value;
      assert forall k :: 0 <= k < |l| && !IsBlank(l[k]) && (forall i :: 0 <= i < k ==> IsBlank(l[i])) ==>
        l[k] == e by {
        forall k | 0 <= k < |l| && !IsBlank(l[k]) && (forall i :: 0 <= i < k ==> IsBlank(l[i]))
          ensures l[k] == e
        {
          FirstNonSpaceElementAt(l, k);
        }
      }
      e.col == column
    }
  }

  /** `  )`: the paren is the first non-blank event. */
  lemma ParenAfterSpaces(l: LexedLine)
    requires l == [Event(1, 0, OnSp, "  "), Event(1, 2, OnRparen, ")")]
    ensures FirstNonSpaceElement(l) == Some(l[1])
  {
    FirstNonSpaceElementAt(l, 1);
  }

  /** `  })`: the brace is the first non-blank event. */
  lemma BraceParenAfterSpaces(l: LexedLine)
    requires l == [Event(1, 0, OnSp, "  "), Event(1, 2, OnRbrace, "}"), Event(1, 3, OnRparen, ")")]
    ensures FirstNonSpaceElement(l) == Some(l[1])
  {
    FirstNonSpaceElementAt(l, 1);
  }

  /** `def some_method`: the keyword is the first non-blank event. */
  lemma DefSomeMethod(l: LexedLine)
    requires l == [Event(1, 0, OnKw, "def"), Event(1, 3, OnSp, " "), Event(1, 4, OnIdent, "some_method")]
    ensures FirstNonSpaceElement(l) == Some(l[0])
  {
    FirstNonSpaceElementAt(l, 0);
  }

  /** The closers of `  )`, `  })` and (not a closer) `def some_method`, at the columns the ruler is at. */
  lemma REventWithoutContentExamples(r: IndentationSpacesRuler)
    ensures FirstNonSpaceElement([Event(1, 0, OnSp, "  "), Event(1, 2, OnRparen, ")")]) == Some(Event(1, 2, OnRparen, ")"))
    ensures r.REventWithoutContent([Event(1, 0, OnSp, "  "), Event(1, 2, OnRparen, ")")], 2)
    ensures FirstNonSpaceElement([Event(1, 0, OnSp, "  "), Event(1, 2, OnRbrace, "}"), Event(1, 3, OnRparen, ")")]) ==
            Some(Event(1, 2, OnRbrace, "}"))
    ensures !r.REventWithoutContent([Event(1, 0, OnSp, "  "), Event(1, 2, OnRbrace, "}"), Event(1, 3, OnRparen, ")")], 3)
    ensures FirstNonSpaceElement([Event(1, 0, OnKw, "def"), Event(1, 3, OnSp, " "), Event(1, 4, OnIdent, "some_method")]) ==
            Some(Event(1, 0, OnKw, "def"))
    ensures !r.REventWithoutContent([Event(1, 0, OnKw, "def"), Event(1, 3, OnSp, " "), Event(1, 4, OnIdent, "some_method")], 3)
  {
    ParenAfterSpaces([Event(1, 0, OnSp, "  "), Event(1, 2, OnRparen, ")")]);
    BraceParenAfterSpaces([Event(1, 0, OnSp, "  "), Event(1, 2, OnRbrace, "}"), Event(1, 3, OnRparen, ")")]);
    DefSomeMethod([Event(1, 0, OnKw, "def"), Event(1, 3, OnSp, " "), Event(1, 4, OnIdent, "some_method")]);
  }

  /** A new ruler starts at 0; `decrease_this_line` is clamped at 0, one step otherwise, and nothing while stopped. */
  method DecreaseScenario()
  {
    var r := new IndentationSpacesRuler(27, {});
    var m := r.manager;
    assert m.ShouldBeAt() == 0 && r.NextShouldBeAt() == 0;

    m.DecreaseThisLine();
    assert m.thisLine == 0;
    m.thisLine, m.nextLine := 28, 28;
    m.DecreaseThisLine();
    assert m.thisLine == 1;
    m.thisLine := 28;
    m.Stop();
    m.DecreaseThisLine();
    assert m.thisLine == 28 && !m.Started();
  }

  /** `transition_lines` moves the expectation only while measuring. */
  method TransitionScenario()
  {
    var r := new IndentationSpacesRuler(27, {});
    var m := r.manager;
    m.thisLine := 28;
    m.Stop();
    m.nextLine := 33;
    m.TransitionLines();
    assert m.ShouldBeAt() == 28;
    m.Start();
    m.TransitionLines();
    assert m.ShouldBeAt() == 33 && m.Started();
  }

  /** `update_actual_indentation` on ` puts 'something'`. */
  method ActualIndentationScenario()
  {
    var r := new IndentationSpacesRuler(5, {});
    var m := r.manager;
    var line := [Event(1, 0, OnSp, " "), Event(1, 1, OnIdent, "puts"), Event(1, 5, OnSp, " "),
                 Event(1, 6, OnTstringBeg, "'"), Event(1, 7, OnTstringContent, "something"),
                 Event(1, 16, OnTstringEnd, "'")];
    FirstNonSpaceElementAt(line, 1);
    assert !EndOfMultiLineString(line);
    m.UpdateActualIndentation(line);
    assert m.actualIndentation == 1;
  }

  /** `update_actual_indentation` on the tail of a multi-line string leaves the measurement alone. */
  method StringTailScenario()
  {
    var r := new IndentationSpacesRuler(5, {});
    var m := r.manager;
    m.actualIndentation := 123;
    var tail := [Event(2, 11, OnTstringEnd, "}"), Event(2, 12, OnNl, "\n")];
    assert NoStringBegin(tail) by {
      forall i | 0 <= i < |tail| ensures tail[i].category != OnTstringBeg { }
    }
    m.UpdateActualIndentation(tail);
    assert m.actualIndentation == 123;
  }

  /** The string stack, the interpolation flag and the single-line keyword test. */
  method StringScenario()
  {
    var r := new IndentationSpacesRuler(5, {});
    var m := r.manager;
    r.TstringBegUpdate(1);
    assert m.tstringNesting == [1] && m.InTstring() && !m.Started();
    r.TstringEndUpdate();
    assert m.tstringNesting == [] && !m.InTstring() && m.Started();
    r.EmbexprBegUpdate();
    assert m.embexprBeg;
    r.EmbexprEndUpdate();
    assert !m.embexprBeg;

    assert !r.SingleLineIndentStatement(1);
    r.indentKeywordLine := Some(1);
    assert r.SingleLineIndentStatement(1) && !r.SingleLineIndentStatement(2);
    r.indentKeywordLine := Some(2);
    assert !r.SingleLineIndentStatement(1);
  }
}
