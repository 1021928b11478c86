/**
 * The per-file indentation state machine of the indentation ruler
 * (`IndentationSpacesRuler::IndentationManager`).
 *
 * It keeps the indentation the current line and the next line should have
 * (`@proper[:this_line]`, `@proper[:next_line]`), the indentation the current
 * line actually has, and a stack of the reasons (open blocks, braces,
 * brackets, parentheses, continuation keywords) that raised the expectation.
 * Opening events push reasons and move the next line in by `spaces`;
 * closing events pop them and bring the expectations back.
 */
module Indentation {
  import opened Options
  import opened Seqs
  import opened Lexing

  /** One entry of the indent-reason stack: what opened it, on which line, and
      the expectation for that line at the moment it was pushed. */
  datatype Reason = Reason(eventType: Category, token: string, lineno: int, shouldBeAt: int)

  /**
   * A keyword or bracket token together with what the token classifier says
   * of it in its line: a statement modifier (`x = 1 if y`), the optional `do`
   * of a `while`/`until`/`for` loop, or a continuation keyword. The
   * classifier itself is not part of this model.
   */
  datatype Token = Token(text: string, modifierKeyword: bool, doIsForALoop: bool, continuationKeyword: bool)

  /** The tokens whose reasons the `multi_line_{braces,brackets,parens}?` queries look for. */
  predicate IsOpeningBracket(token: string)
  {
    token == "{" || token == "[" || token == "("
  }

  /** The expectations move in steps of `width`: a multiple of it (only 0 when it is 0). */
  predicate OnGrid(x: int, width: nat)
  {
    if width == 0 then x == 0 else x % width == 0
  }

  /** One step in or out keeps an expectation on the grid. */
  lemma GridStep(x: int, width: nat)
    requires OnGrid(x, width)
    ensures OnGrid(x + width, width) && OnGrid(x - width, width)
  {
    if width > 0 {
      ShiftMod(x, x + width, width);
      ShiftMod(x, x - width, width);
    }
  }

  /** Two integers one step apart have the same remainder. */
  lemma ShiftMod(x: int, y: int, width: nat)
    requires width > 0 && (y == x + width || y == x - width)
    ensures y % width == x % width
  {
    var q, r := x / width, x % width;
    var q', r' := y / width, y % width;
    var k := if y == x + width then q' - q - 1 else q' - q + 1;
    assert width * k == r - r';
    if k >= 1 {
      MulAtLeast(width, k);
    } else if k <= -1 {
      MulAtLeast(width, -k);
    }
  }

  lemma MulAtLeast(width: nat, k: int)
    requires k >= 1
    ensures width * k >= width
  {
    assert width * k == width + width * (k - 1);
  }

  /** Every recorded expectation is on the grid. */
  predicate ReasonsOnGrid(rs: seq<Reason>, width: nat)
  {
    forall i :: 0 <= i < |rs| ==> OnGrid(rs[i].shouldBeAt, width)
  }

  /** `remove_continuation_keywords` on the stack: its longest suffix of continuation-keyword reasons is gone. */
  function StripContinuations(rs: seq<Reason>, continuations: set<string>): (r: seq<Reason>)
    ensures IsPrefix(r, rs)
    ensures forall i :: |r| <= i < |rs| ==> rs[i].token in continuations
    ensures r == [] || r[|r| - 1].token !in continuations
  {
    DropLastWhile(rs, (t: Reason) => t.token in continuations)
  }

  /**
   * Closing undoes opening: after a reason that is not a continuation keyword
   * is pushed, and any number of continuation-keyword reasons after it, one
   * closing event brings the stack back to what it was before.
   */
  lemma CloseUndoesOpen(rs: seq<Reason>, opener: Reason, continued: seq<Reason>,
                          continuations: set<string>)
    requires opener.token !in continuations
    requires forall i :: 0 <= i < |continued| ==> continued[i].token in continuations
    ensures PopLast(StripContinuations(rs + [opener] + continued, continuations)) == rs
  {
    var s := rs + [opener] + continued;
    DropLastWhileAt(s, (t: Reason) => t.token in continuations, |rs| + 1);
    assert s[..|rs| + 1] == rs + [opener];
  }

  /** Ruby's `\s`: space, tab, line feed, vertical tab, form feed, carriage return. */
  predicate IsRubySpace(c: char)
  {
    c == ' ' || c == '\t' || c == '\n' || c == '\U{000B}' || c == '\U{000C}' || c == '\r'
  }

  /** `end` starts at position `k` of `s`, and only blanks come before it. */
  predicate EndAfterBlanksAt(s: string, k: int)
  {
    0 <= k && k + 3 <= |s| && s[k..k + 3] == "end" && forall j :: 0 <= j < k ==> IsRubySpace(s[j])
  }

  /** `\s*end` matches at the start of `s`. */
  predicate BlanksThenEnd(s: string)
    decreases |s|
  {
    (|s| >= 3 && s[..3] == "end") || (|s| > 0 && IsRubySpace(s[0]) && BlanksThenEnd(s[1..]))
  }

  /** `\s*end` matches at the start of `s` iff `end` occurs with only blanks before it. */
  lemma {:induction false} BlanksThenEndIff(s: string)
    ensures BlanksThenEnd(s) <==> exists k :: EndAfterBlanksAt(s, k)
    decreases |s|
  {
    assert |s| >= 3 ==> s[0..3] == s[..3];
    if |s| >= 3 && s[..3] == "end" {
      assert EndAfterBlanksAt(s, 0);
    } else if |s| > 0 && IsRubySpace(s[0]) {
      BlanksThenEndIff(s[1..]);
      forall k | 0 < k && k + 3 <= |s|
        ensures EndAfterBlanksAt(s[1..], k - 1) <==> EndAfterBlanksAt(s, k)
      {
        assert s[1..][k - 1..k + 2] == s[k..k + 3];
        assert forall j :: 0 <= j < k - 1 ==> s[1..][j] == s[j + 1];
      }
      if exists k :: EndAfterBlanksAt(s, k) {
        var k :| EndAfterBlanksAt(s, k);
        assert EndAfterBlanksAt(s[1..], k - 1);
      }
      if exists k :: EndAfterBlanksAt(s[1..], k) {
        var k :| EndAfterBlanksAt(s[1..], k);
        assert EndAfterBlanksAt(s, k + 1);
      }
    }
  }

  /** Position `i` of `s` is where a line begins: the start, or just after a newline. */
  predicate LineStart(s: string, i: int)
  {
    0 <= i <= |s| && (i == 0 || s[i - 1] == '\n')
  }

  /** `s =~ /^\s*end\n?/`: at the start of `s`, or just after one of its newlines,
      come blanks and then the letters `end` (no word boundary is asked for). */
  predicate MatchesEndPattern(s: string)
    decreases |s|, 1
  {
    BlanksThenEnd(s) || MatchesAfterNewline(s)
  }

  /** The pattern matches at the start of some line after the first one. */
  predicate MatchesAfterNewline(s: string)
    decreases |s|, 0
  {
    |s| > 0 && (if s[0] == '\n' then MatchesEndPattern(s[1..]) else MatchesAfterNewline(s[1..]))
  }

  /** The `^` anchor: the pattern matches iff `\s*end` matches at some line start. */
  lemma {:induction false} MatchesEndPatternIff(s: string)
    ensures MatchesEndPattern(s) <==> exists i :: LineStart(s, i) && BlanksThenEnd(s[i..])
    decreases |s|, 1
  {
    assert s[0..] == s;
    MatchesAfterNewlineIff(s);
  }

  lemma {:induction false} MatchesAfterNewlineIff(s: string)
    ensures MatchesAfterNewline(s) <==> exists i :: 0 < i && LineStart(s, i) && BlanksThenEnd(s[i..])
    decreases |s|, 0
  {
    if |s| > 0 {
      assert forall i :: 0 < i <= |s| ==> s[1..][i - 1..] == s[i..];
      assert forall i :: 1 < i <= |s| ==> (LineStart(s[1..], i - 1) <==> LineStart(s, i));
      if s[0] == '\n' {
        MatchesEndPatternIff(s[1..]);
      } else {
        MatchesAfterNewlineIff(s[1..]);
      }
    }
  }

  /** Any run of blanks followed by `end` matches, whatever comes after. */
  lemma BlanksThenEndMatches(blanks: string, rest: string)
    requires forall i :: 0 <= i < |blanks| ==> IsRubySpace(blanks[i])
    ensures MatchesEndPattern(blanks + "end" + rest)
  {
    var s := blanks + "end" + rest;
    BlanksThenEndHolds(blanks, rest);
    assert LineStart(s, 0) && s[0..] == s;
  }

  lemma BlanksThenEndHolds(blanks: string, rest: string)
    requires forall i :: 0 <= i < |blanks| ==> IsRubySpace(blanks[i])
    ensures BlanksThenEnd(blanks + "end" + rest)
  {
    var s := blanks + "end" + rest;
    assert s[|blanks|..|blanks| + 3] == "end";
    assert EndAfterBlanksAt(s, |blanks|);
    BlanksThenEndIff(s);
  }

  /** A closer keeps the recorded expectations on the grid, and so the one it brings back. */
  lemma PopKeepsGrid(rs: seq<Reason>, continuations: set<string>, width: nat)
    requires ReasonsOnGrid(rs, width)
    ensures var t := PopLast(StripContinuations(rs, continuations));
            ReasonsOnGrid(t, width) && (t == [] || OnGrid(t[|t| - 1].shouldBeAt + width, width))
  {
    var t := PopLast(StripContinuations(rs, continuations));
    assert IsPrefix(t, rs);
    assert forall i :: 0 <= i < |t| ==> t[i] == rs[i];
    if t != [] {
      GridStep(t[|t| - 1].shouldBeAt, width);
    }
  }

  lemma EndAfterBlanks()
    ensures MatchesEndPattern("  end\n")
  {
    BlanksThenEndMatches("  ", "\n");
    assert "  " + "end" + "\n" == "  end\n";
  }

  lemma EndingMatches()
    ensures MatchesEndPattern("ending")
  {
    BlanksThenEndMatches("", "ing");
    assert "" + "end" + "ing" == "ending";
  }

  lemma EndOnSecondLine()
    ensures MatchesEndPattern("x\nend")
  {
    BlanksThenEndHolds("", "");
    assert ("x\nend"[1..])[1..] == "end";
  }

  lemma BraceLineDoesNotMatch()
    ensures !MatchesEndPattern("  }\n")
  {
    var t := "  }\n";
    assert !BlanksThenEnd(t[3..]) && !BlanksThenEnd(t[2..]) && !BlanksThenEnd(t[1..]);
    assert !MatchesEndPattern(t[4..]);
    assert !MatchesAfterNewline(t[2..]);
    assert !MatchesAfterNewline(t[1..]);
  }

  /** `  end\n` and, for want of a word boundary, `ending` match; so does an `end`
      after an earlier line; `  }\n` does not. */
  lemma EndPatternExamples()
    ensures MatchesEndPattern("  end\n")
    ensures MatchesEndPattern("ending")
    ensures MatchesEndPattern("x\nend")
    ensures !MatchesEndPattern("  }\n")
  {
    EndAfterBlanks();
    EndingMatches();
    EndOnSecondLine();
    BraceLineDoesNotMatch();
  }

  class IndentationManager {
    /** Indentation width, fixed at construction. */
    const spaces: nat
    /** `CONTINUATION_KEYWORDS`, whose contents are not part of this model. */
    const continuationKeywords: set<string>

    /** `@proper[:this_line]`: the indentation the current line should have. */
    var thisLine: int
    /** `@proper[:next_line]`: the indentation the next line should have. */
    var nextLine: int
    /** The column of the current line's first non-space event. */
    var actualIndentation: nat
    var indentReasons: seq<Reason>
    /** Line numbers where the currently open multi-line strings began, innermost last. */
    var tstringNesting: seq<int>
    /** Net change asked for the current line's expectation; negative means decrease. */
    var amountToChangeThis: int
    /** Inside a string interpolation, whose closing brace is not a block close. */
    var embexprBeg: bool
    /** `started?`: expectation updates are on. */
    var doMeasurement: bool

    /** Expectations and recorded expectations all stay on the indentation grid. */
    ghost predicate Valid()
      reads this
    {
      && OnGrid(thisLine, spaces)
      && OnGrid(nextLine, spaces)
      && ReasonsOnGrid(indentReasons, spaces)
    }

    constructor (spaces: nat, continuationKeywords: set<string>)
      ensures this.spaces == spaces && this.continuationKeywords == continuationKeywords
      ensures thisLine == 0 && nextLine == 0 && actualIndentation == 0
      ensures indentReasons == [] && tstringNesting == []
      ensures amountToChangeThis == 0 && !embexprBeg && doMeasurement
      ensures Valid()
    {
      this.spaces := spaces;
      this.continuationKeywords := continuationKeywords;
      thisLine, nextLine := 0, 0;
      actualIndentation := 0;
      indentReasons, tstringNesting := [], [];
      amountToChangeThis := 0;
      embexprBeg := false;
      doMeasurement := true;
    }

    /** `should_be_at`: the indentation the current line should have. */
    function ShouldBeAt(): (r: int)
      reads this
      ensures r == thisLine
    {
      thisLine
    }

    /** `started?` */
    function Started(): (r: bool)
      reads this
      ensures r <==> doMeasurement
    {
      doMeasurement
    }

    /** `decrease_this_line`: one step in for the current line, never below 0; nothing while stopped. */
    method DecreaseThisLine()
      modifies this`thisLine
      ensures thisLine == if old(doMeasurement) then (if old(thisLine) - spaces < 0 then 0 else old(thisLine) - spaces)
                          else old(thisLine)
      ensures old(doMeasurement) ==> thisLine >= 0
      ensures old(Valid()) ==> Valid()
    {
      if Started() {
        if Valid() {
          GridStep(thisLine, spaces);
        }
        thisLine := thisLine - spaces;
        if thisLine < 0 {
          thisLine := 0;
        }
      }
    }

    /** `set_up_line_transition`: applies one `decrease_this_line` when a decrease was asked for. */
    method SetUpLineTransition()
      modifies this`thisLine
      ensures thisLine == if old(amountToChangeThis) < 0 && old(doMeasurement)
                          then (if old(thisLine) - spaces < 0 then 0 else old(thisLine) - spaces)
                          else old(thisLine)
      ensures old(Valid()) ==> Valid()
    {
      if amountToChangeThis < 0 {
        DecreaseThisLine();
      }
    }

    /** `transition_lines`: the next line's expectation becomes the current one; nothing while stopped. */
    method TransitionLines()
      modifies this`thisLine, this`amountToChangeThis
      ensures old(doMeasurement) ==> thisLine == old(nextLine) && amountToChangeThis == 0
      ensures !old(doMeasurement) ==> thisLine == old(thisLine) && amountToChangeThis == old(amountToChangeThis)
      ensures old(Valid()) ==> Valid()
    {
      if Started() {
        amountToChangeThis := 0;
        thisLine := nextLine;
      }
    }

    /** `start` */
    method Start()
      modifies this`doMeasurement
      ensures doMeasurement
    {
      doMeasurement := true;
    }

    /** `stop` */
    method Stop()
      modifies this`doMeasurement
      ensures !doMeasurement
    {
      doMeasurement := false;
    }

    /**
     * `update_actual_indentation`: the column where the line's first
     * non-space event starts, except on the tail of a multi-line string,
     * whose indentation is that of the line it began on. The source
     * dereferences the first non-space event without a check, so a line of
     * only blanks is excluded.
     */
    method UpdateActualIndentation(l: LexedLine)
      requires EndOfMultiLineString(l) || FirstNonSpaceElement(l).Some?
      modifies this`actualIndentation
      ensures EndOfMultiLineString(l) ==> actualIndentation == old(actualIndentation)
      ensures !EndOfMultiLineString(l) ==>
                exists k :: 0 <= k < |l| && !IsBlank(l[k]) && (forall i :: 0 <= i < k ==> IsBlank(l[i])) &&
                            actualIndentation == l[k].col
    {
      if EndOfMultiLineString(l) {
        return;
      }
      var firstNonSpaceElement := FirstNonSpaceElement(l);
      actualIndentation := firstNonSpaceElement.value.col;
    }

    /** `line_ends_with_single_token_indenter?`: the line ends with an operator,
        a comma, a period or a modifier keyword. */
    function LineEndsWithSingleTokenIndenter(l: LexedLine, isModifier: (string, LexedLine) -> bool): (r: bool)
      ensures r <==> match LastNonLineFeedEvent(l)
                     case None => false
                     case Some(e) => e.category == OnOp || e.category == OnComma || e.category == OnPeriod ||
                                     (e.category == OnKw && isModifier(e.text, l))
    {
      var r := EndsWithOp(l) || EndsWithComma(l) || EndsWithPeriod(l) || EndsWithModifierKw(l, isModifier);
      assert EndsWithModifierKw(l, isModifier) ==>
          (LastNonLineFeedEvent(l).Some? && LastNonLineFeedEvent(l).value.category == OnKw &&
           isModifier(LastNonLineFeedEvent(l).value.text, l)) by {
        if EndsWithModifierKw(l, isModifier) {
          var e := LastNonLineFeedEvent(l).value;
          var j :| 0 <= j < |l| && l[j] == e && !IsLineFeed(l[j]) && forall i :: j < i < |l| ==> IsLineFeed(l[i]);
          var k :| 0 <= k < |l| && l[k].category == OnKw && isModifier(l[k].text, l) &&
                   !IsLineFeed(l[k]) && forall i :: k < i < |l| ==> IsLineFeed(l[i]);
          assert !(j < k) && !(k < j);
        }
      }
      assert (LastNonLineFeedEvent(l).Some? && LastNonLineFeedEvent(l).value.category == OnKw &&
              isModifier(LastNonLineFeedEvent(l).value.text, l)) ==> EndsWithModifierKw(l, isModifier) by {
        if LastNonLineFeedEvent(l).Some? {
          var e := LastNonLineFeedEvent(l).value;
          var j :| 0 <= j < |l| && l[j] == e && !IsLineFeed(l[j]) && forall i :: j < i < |l| ==> IsLineFeed(l[i]);
        }
      }
      r
    }

    /** `line_ends_with_same_as_last`: the innermost reason was opened by an event of this event's category. */
    function LineEndsWithSameAsLast(tokenEvent: Event): (r: bool)
      reads this
      ensures r <==> |indentReasons| > 0 && indentReasons[|indentReasons| - 1].eventType == tokenEvent.category
    {
      if indentReasons == [] then false
      else indentReasons[|indentReasons| - 1].eventType == tokenEvent.category
    }

    /**
     * `comma_is_part_of_enclosed_statement?`. As Ruby parses the condition,
     * `&&` binds tighter than `||`, so only the brace case needs the line to
     * end with a comma: an innermost bracket or parenthesis answers true on
     * any line.
     */
    function CommaIsPartOfEnclosedStatement(l: LexedLine, lineno: int): (r: bool)
      reads this
      ensures r ==> |indentReasons| > 0
      ensures |indentReasons| > 0 ==>
                var top := indentReasons[|indentReasons| - 1].eventType;
                && (top == OnLbracket || top == OnLparen ==> r)
                && (top == OnLbrace ==> (r <==> EndsWithComma(l)))
                && (top != OnLbrace && top != OnLbracket && top != OnLparen ==> !r)
    {
      if indentReasons == [] then false
      else
        var top := indentReasons[|indentReasons| - 1].eventType;
        (EndsWithComma(l) && top == OnLbrace) || top == OnLbracket || top == OnLparen
    }

    /** `keyword_and_single_token_line?`: some reason opened on `lineno` is not a brace, bracket or parenthesis. */
    function KeywordAndSingleTokenLine(lineno: int): (r: bool)
      reads this
      ensures r <==> exists i :: 0 <= i < |indentReasons| && indentReasons[i].lineno == lineno &&
                                 !IsOpeningBracket(indentReasons[i].token)
    {
      var dTokens := DoubleTokensInLine(lineno);
      if dTokens == [] then false
      else
        var kwToken := FindLastIndex(dTokens, (t: Reason) => !IsOpeningBracket(t.token));
        if kwToken.None? then
          assert forall i :: 0 <= i < |indentReasons| && indentReasons[i].lineno == lineno ==>
            IsOpeningBracket(indentReasons[i].token) by {
            forall i | 0 <= i < |indentReasons| && indentReasons[i].lineno == lineno
              ensures IsOpeningBracket(indentReasons[i].token)
            {
              assert indentReasons[i] in dTokens;
            }
          }
          false
        else
          var sToken := FindLastIndex(indentReasons, (t: Reason) => t.lineno == lineno);
          assert dTokens[kwToken.value] in indentReasons;
          sToken.Some?
    }

    /** `single_token_start_line`: the line of the outermost reason, or nil. */
    function SingleTokenStartLine(): (r: Option<int>)
      reads this
      ensures r.None? <==> indentReasons == []
      ensures r.Some? ==> r.value == indentReasons[0].lineno
    {
      if indentReasons == [] then None else Some(indentReasons[0].lineno)
    }

    /** `double_token_start_line`: the line of the innermost reason, or nil. */
    function DoubleTokenStartLine(): (r: Option<int>)
      reads this
      ensures r.None? <==> indentReasons == []
      ensures r.Some? ==> r.value == indentReasons[|indentReasons| - 1].lineno
    {
      if indentReasons == [] then None else Some(indentReasons[|indentReasons| - 1].lineno)
    }

    /** `double_tokens_in_line`: the reasons opened on `lineno`, in stack order. */
    function DoubleTokensInLine(lineno: int): (r: seq<Reason>)
      reads this
      ensures forall i :: 0 <= i < |r| ==> r[i].lineno == lineno && r[i] in indentReasons
      ensures forall i :: 0 <= i < |indentReasons| && indentReasons[i].lineno == lineno ==> indentReasons[i] in r
      ensures var pos := MatchPositions(indentReasons, (t: Reason) => t.lineno == lineno, 0);
              && (forall j, k :: 0 <= j < k < |pos| ==> pos[j] < pos[k])
              && (forall i :: 0 <= i < |indentReasons| && indentReasons[i].lineno == lineno ==> i in pos)
              && |r| == |pos| && forall j :: 0 <= j < |r| ==> r[j] == indentReasons[pos[j]]
    {
      MatchPositionsIncreasing(indentReasons, (t: Reason) => t.lineno == lineno, 0);
      MatchPositionsComplete(indentReasons, (t: Reason) => t.lineno == lineno, 0);
      FilterAtMatchPositions(indentReasons, (t: Reason) => t.lineno == lineno, 0);
      assert indentReasons[0..] == indentReasons;
      Filter(indentReasons, (t: Reason) => t.lineno == lineno)
    }

    /** Some reason was opened by `opener`, and none of those on line `lineno`. */
    ghost predicate OpenedOnlyBefore(opener: string, lineno: int)
      reads this
    {
      && (exists i :: 0 <= i < |indentReasons| && indentReasons[i].token == opener)
      && (forall i :: 0 <= i < |indentReasons| && indentReasons[i].token == opener ==> indentReasons[i].lineno != lineno)
    }

    /** The query behind `multi_line_{braces,brackets,parens}?`: some reason has token
        `opener`, and none of the reasons with that token was opened on `lineno`. */
    function MultiLine(opener: string, lineno: int): (r: bool)
      reads this
      ensures r <==> OpenedOnlyBefore(opener, lineno)
    {
      var tokens := Filter(indentReasons, (t: Reason) => t.token == opener);
      if tokens == [] then
        assert forall i :: 0 <= i < |indentReasons| ==> indentReasons[i].token != opener;
        false
      else
        var tokenOnThisLine := FindIndex(tokens, (t: Reason) => t.lineno == lineno);
        assert tokens[0] in indentReasons;
        assert tokenOnThisLine.Some? ==> tokens[tokenOnThisLine.value] in indentReasons;
        assert tokenOnThisLine.None? ==>
          forall i :: 0 <= i < |indentReasons| && indentReasons[i].token == opener ==> indentReasons[i].lineno != lineno by {
          if tokenOnThisLine.None? {
            forall i | 0 <= i < |indentReasons| && indentReasons[i].token == opener
              ensures indentReasons[i].lineno != lineno
            {
              assert indentReasons[i] in tokens;
            }
          }
        }
        tokenOnThisLine.None?
    }

    /** `multi_line_braces?` */
    function MultiLineBraces(lineno: int): (r: bool)
      reads this
      ensures r <==> OpenedOnlyBefore("{", lineno)
    {
      MultiLine("{", lineno)
    }

    /** `multi_line_brackets?` */
    function MultiLineBrackets(lineno: int): (r: bool)
      reads this
      ensures r <==> OpenedOnlyBefore("[", lineno)
    {
      MultiLine("[", lineno)
    }

    /** `multi_line_parens?` */
    function MultiLineParens(lineno: int): (r: bool)
      reads this
      ensures r <==> OpenedOnlyBefore("(", lineno)
    {
      MultiLine("(", lineno)
    }

    /** `continuing_enclosed_statement?`: a brace, bracket or parenthesis is open from an earlier line. */
    function ContinuingEnclosedStatement(lineno: int): (r: bool)
      reads this
      ensures r <==> OpenedOnlyBefore("{", lineno) || OpenedOnlyBefore("[", lineno) || OpenedOnlyBefore("(", lineno)
    {
      MultiLineBraces(lineno) || MultiLineBrackets(lineno) || MultiLineParens(lineno)
    }

    /** `in_tstring?`: inside a multi-line string. */
    function InTstring(): (r: bool)
      reads this
      ensures r <==> |tstringNesting| > 0
    {
      tstringNesting != []
    }

    /** `last_indent_reason_type`: the event category of the innermost reason, or nil. */
    function LastIndentReasonType(): (r: Option<Category>)
      reads this
      ensures r.None? <==> indentReasons == []
      ensures r.Some? ==> r.value == indentReasons[|indentReasons| - 1].eventType
    {
      if indentReasons == [] then None else Some(indentReasons[|indentReasons| - 1].eventType)
    }

    /** `add_indent_reason`: pushes one reason recording the current expectation;
        the next line goes one step further in. */
    method AddIndentReason(eventType: Category, token: string, lineno: int)
      modifies this`indentReasons, this`nextLine
      ensures indentReasons == old(indentReasons) + [Reason(eventType, token, lineno, thisLine)]
      ensures nextLine == thisLine + spaces
      ensures old(Valid()) ==> Valid()
    {
      indentReasons := indentReasons + [Reason(eventType, token, lineno, thisLine)];
      nextLine := indentReasons[|indentReasons| - 1].shouldBeAt + spaces;
      if old(Valid()) {
        GridStep(thisLine, spaces);
      }
    }

    /**
     * `update_for_opening_reason`: a modifier keyword or a loop's optional
     * `do` changes nothing; anything else pushes one reason. A continuation
     * keyword with no earlier reason on its line also asks for the current
     * line to come one step back out.
     */
    method UpdateForOpeningReason(eventType: Category, token: Token, lineno: int)
      modifies this`indentReasons, this`nextLine, this`amountToChangeThis
      ensures token.modifierKeyword || token.doIsForALoop ==>
                indentReasons == old(indentReasons) && nextLine == old(nextLine) &&
                amountToChangeThis == old(amountToChangeThis)
      ensures !token.modifierKeyword && !token.doIsForALoop ==>
                && indentReasons == old(indentReasons) + [Reason(eventType, token.text, lineno, thisLine)]
                && nextLine == thisLine + spaces
                && amountToChangeThis ==
                     if token.continuationKeyword &&
                        forall i :: 0 <= i < |old(indentReasons)| ==> old(indentReasons)[i].lineno != lineno
                     then old(amountToChangeThis) - 1
                     else old(amountToChangeThis)
      ensures old(Valid()) ==> Valid()
    {
      if token.modifierKeyword {
        return;
      }
      if token.doIsForALoop {
        return;
      }
      AddIndentReason(eventType, token.text, lineno);
      var dTokens := PopLast(indentReasons);
      assert dTokens == old(indentReasons);
      var onLineToken := FindIndex(dTokens, (t: Reason) => t.lineno == lineno);
      if token.continuationKeyword && onLineToken.None? {
        amountToChangeThis := amountToChangeThis - 1;
        return;
      }
    }

    /**
     * `update_for_closing_reason`. The closing brace of a string
     * interpolation only ends the interpolation. Any other closer drops the
     * continuation-keyword reasons on top of the stack and one more, and the
     * next line goes back to the expectation of the reason now on top (0 with
     * none). The current line comes one step out, with no lower bound and
     * whether or not measuring is on, when the line is just this closer
     * (`lineIsOnlyCloser`, the answer of `only_<event_type>?`, whose
     * definition is not part of this model) or its text matches
     * `/^\s*end\n?/`.
     */
    method UpdateForClosingReason(eventType: Category, token: string, l: LexedLine, lineIsOnlyCloser: bool)
      modifies this`embexprBeg, this`indentReasons, this`nextLine, this`thisLine
      ensures eventType == OnRbrace && old(embexprBeg) ==>
                !embexprBeg && indentReasons == old(indentReasons) &&
                nextLine == old(nextLine) && thisLine == old(thisLine)
      ensures !(eventType == OnRbrace && old(embexprBeg)) ==>
                && embexprBeg == old(embexprBeg)
                && indentReasons == PopLast(StripContinuations(old(indentReasons), continuationKeywords))
                && nextLine == (if indentReasons == [] then 0 else indentReasons[|indentReasons| - 1].shouldBeAt + spaces)
                && thisLine == if lineIsOnlyCloser || MatchesEndPattern(ToS(l)) then old(thisLine) - spaces
                               else old(thisLine)
      ensures old(Valid()) ==> Valid()
    {
      if eventType == OnRbrace && embexprBeg {
        embexprBeg := false;
        return;
      }
      var closesThisLine := lineIsOnlyCloser || MatchesEndPattern(ToS(l));
      PopIndentReason();
      if closesThisLine {
        if old(Valid()) {
          GridStep(thisLine, spaces);
        }
        thisLine := thisLine - spaces;
      }
    }

    /** The stack half of a close (`update_for_closing_reason` lines 306-313):
        continuation keywords and one more reason go, and `next_line` follows the new top. */
    method PopIndentReason()
      modifies this`indentReasons, this`nextLine
      ensures indentReasons == PopLast(StripContinuations(old(indentReasons), continuationKeywords))
      ensures nextLine == if indentReasons == [] then 0 else indentReasons[|indentReasons| - 1].shouldBeAt + spaces
      ensures ReasonsOnGrid(old(indentReasons), spaces) ==> ReasonsOnGrid(indentReasons, spaces) && OnGrid(nextLine, spaces)
    {
      RemoveContinuationKeywords();
      indentReasons := PopLast(indentReasons);
      nextLine := if indentReasons == [] then 0 else indentReasons[|indentReasons| - 1].shouldBeAt + spaces;
      if ReasonsOnGrid(old(indentReasons), spaces) {
        PopKeepsGrid(old(indentReasons), continuationKeywords, spaces);
      }
    }

    /**
     * `remove_continuation_keywords`: pops reasons while the innermost one is
     * a continuation keyword. The source reads the top of the stack in the
     * loop test without a check; this loop stops at an empty stack.
     */
    method RemoveContinuationKeywords()
      modifies this`indentReasons
      ensures indentReasons == StripContinuations(old(indentReasons), continuationKeywords)
    {
      if indentReasons == [] {
        return;
      }
      while indentReasons != [] && indentReasons[|indentReasons| - 1].token in continuationKeywords
        invariant StripContinuations(indentReasons, continuationKeywords) ==
                  StripContinuations(old(indentReasons), continuationKeywords)
        decreases |indentReasons|
      {
        indentReasons := indentReasons[..|indentReasons| - 1];
      }
    }
  }

  /** A `def` on line 1 and its `end` on line 2, with two-space indentation. */
  method DefEndScenario()
  {
    var m := new IndentationManager(2, {"then", "do"});
    m.UpdateForOpeningReason(OnKw, Token("def", false, false, false), 1);
    assert m.nextLine == 2 && |m.indentReasons| == 1;
    m.SetUpLineTransition();
    m.TransitionLines();
    assert m.thisLine == 2;
    var endLine := [Event(2, 0, OnKw, "end"), Event(2, 3, OnNl, "\n")];
    assert ToS(endLine) == "end\n";
    BlanksThenEndMatches("", "\n");
    assert "" + "end" + "\n" == "end\n";
    m.UpdateForClosingReason(OnKw, "end", endLine, false);
    assert m.indentReasons == [] && m.nextLine == 0 && m.thisLine == 0;
  }

  /**
   * `if x` / `then` on line 1 and `end` on line 3: the continuation keyword
   * shares its line with `if`, so it asks for no decrease, and the one `end`
   * closes both reasons.
   */
  method IfThenEndScenario()
  {
    var m := new IndentationManager(2, {"then"});
    m.UpdateForOpeningReason(OnKw, Token("if", false, false, false), 1);
    assert m.indentReasons[0].lineno == 1;
    m.UpdateForOpeningReason(OnKw, Token("then", false, false, true), 1);
    assert m.amountToChangeThis == 0 && |m.indentReasons| == 2 && m.nextLine == 2;
    m.TransitionLines();
    m.TransitionLines();
    assert m.thisLine == 2;
    var endLine := [Event(3, 0, OnKw, "end")];
    assert ToS(endLine) == "end";
    BlanksThenEndMatches("", "");
    assert "" + "end" + "" == "end";
    CloseUndoesOpen([], Reason(OnKw, "if", 1, 0), [Reason(OnKw, "then", 1, 0)], {"then"});
    assert [] + [Reason(OnKw, "if", 1, 0)] + [Reason(OnKw, "then", 1, 0)] == m.indentReasons;
    m.UpdateForClosingReason(OnKw, "end", endLine, false);
    assert m.indentReasons == [] && m.nextLine == 0 && m.thisLine == 0;
  }

  /** A continuation keyword opening a line of its own asks for that line to come back out. */
  method ContinuationScenario()
  {
    var m := new IndentationManager(2, {"then"});
    m.UpdateForOpeningReason(OnKw, Token("if", false, false, false), 1);
    m.UpdateForOpeningReason(OnKw, Token("then", false, false, true), 2);
    assert m.amountToChangeThis == -1;
    m.UpdateForOpeningReason(OnKw, Token("if", true, false, false), 2);
    m.UpdateForOpeningReason(OnKw, Token("do", false, true, false), 2);
    assert |m.indentReasons| == 2;
  }

  /** An open `[` makes any comma line enclosed, and only lines after it continue it. */
  method BracketScenario()
  {
    var m := new IndentationManager(2, {});
    m.UpdateForOpeningReason(OnLbracket, Token("[", false, false, false), 1);
    assert m.indentReasons == [Reason(OnLbracket, "[", 1, 0)];
    var noComma := [Event(2, 2, OnInt, "1"), Event(2, 3, OnNl, "\n")];
    assert m.CommaIsPartOfEnclosedStatement(noComma, 2);
    assert m.OpenedOnlyBefore("[", 2) && !m.OpenedOnlyBefore("[", 1) && !m.OpenedOnlyBefore("{", 2);
    assert m.MultiLineBrackets(2) && !m.MultiLineBrackets(1) && !m.MultiLineBraces(2);
    assert m.ContinuingEnclosedStatement(2);
  }

  /** The `}` of an interpolation only ends it: no reason is popped. */
  method EmbexprCloseScenario()
  {
    var m := new IndentationManager(2, {});
    m.UpdateForOpeningReason(OnLbrace, Token("{", false, false, false), 1);
    m.embexprBeg := true;
    m.UpdateForClosingReason(OnRbrace, "}", [Event(2, 0, OnRbrace, "}")], true);
    assert !m.embexprBeg && |m.indentReasons| == 1 && m.nextLine == 2;
  }
}
