/**
 * The ruler that checks the number of spaces before a `{`
 * (`SpacesBeforeLBraceRuler`): it measures the whitespace event in front of
 * the brace and records a problem when the count differs from the configured
 * one.
 */
module SpacesBeforeLBrace {
  import opened Options
  import opened Lexing

  /** The details attached to a spacing problem: what was found (nil when
      nothing could be measured) and what the configuration asks for. */
  datatype SpacingDetails = SpacingDetails(actualSpaces: Option<nat>, shouldHave: nat)

  datatype Problem = Problem(ruleType: string, lineno: int, column: int, details: SpacingDetails)

  const SpacesBeforeLbraceRule: string := "spaces_before_lbrace"

  /**
   * `count_spaces`: looks up the brace's position in the line, then asks for
   * the event at *column* `position - 1`, a column and a position mixed up
   * exactly as the source does. No event there gives nil, a non-space event
   * 0, a space event the length of its text. The source would raise when no
   * event starts at `column`, so one is required.
   */
  function CountSpaces(l: LexedLine, column: int): (r: Option<nat>)
    requires EventIndex(l, column).Some?
    ensures var lookup := EventIndex(l, column).value - 1;
            && (r.None? <==> EventIndex(l, lookup).None?)
            && (r.Some? ==> var k := EventIndex(l, lookup).value;
                            r.value == if l[k].category == OnSp then |l[k].text| else 0)
  {
    var currentIndex := EventIndex(l, column).value;
    var previousEvent := EventAt(l, currentIndex - 1);
    if previousEvent.None? then None
    else if previousEvent.value.category != OnSp then Some(0)
    else Some(|previousEvent.value.text|)
  }

  /** The count is nil when, `k` being the brace's position, no event starts at column `k - 1`. */
  lemma CountSpacesNoneAt(l: LexedLine, column: int, k: nat)
    requires k < |l| && l[k].col == column && forall i :: 0 <= i < k ==> l[i].col != column
    requires forall i :: 0 <= i < |l| ==> l[i].col != k - 1
    ensures CountSpaces(l, column).None?
  {
    EventIndexAt(l, column, k);
  }

  /**
   * Where every event's column equals its position in the line (each event
   * one character wide, from column 0), the lookup does find the event just
   * before the brace.
   */
  lemma CountSpacesOnUnitWidthLine(l: LexedLine, k: nat)
    requires 0 < k < |l| && forall i :: 0 <= i < |l| ==> l[i].col == i
    ensures EventIndex(l, k) == Some(k)
    ensures CountSpaces(l, k) == Some(if l[k - 1].category == OnSp then |l[k - 1].text| else 0)
  {
    assert forall i :: 0 <= i < k ==> l[i].col != k;
    EventIndexAt(l, k, k);
    assert forall i :: 0 <= i < k - 1 ==> l[i].col != k - 1;
    EventIndexAt(l, k - 1, k - 1);
  }

  /** A brace at the start of the line has no predecessor: nil. */
  lemma CountSpacesAtLineStart(l: LexedLine)
    requires |l| > 0 && l[0].col == 0
    ensures EventIndex(l, 0) == Some(0)
    ensures CountSpaces(l, 0).None?
  {
    EventIndexAt(l, 0, 0);
    CountSpacesNoneAt(l, 0, 0);
  }

  /**
   * `foo {`: the brace is at column 4 and position 2, so the lookup asks for
   * column 1, where no event starts, and the single space before the brace
   * is reported as nil.
   */
  lemma CountSpacesMissesTheSpaceBeforeBrace()
    ensures var l := [Event(1, 0, OnIdent, "foo"), Event(1, 3, OnSp, " "), Event(1, 4, OnLbrace, "{")];
            EventIndex(l, 4) == Some(2) && CountSpaces(l, 4).None?
  {
    FooBrace([Event(1, 0, OnIdent, "foo"), Event(1, 3, OnSp, " "), Event(1, 4, OnLbrace, "{")]);
  }

  lemma FooBrace(l: LexedLine)
    requires l == [Event(1, 0, OnIdent, "foo"), Event(1, 3, OnSp, " "), Event(1, 4, OnLbrace, "{")]
    ensures EventIndex(l, 4) == Some(2) && CountSpaces(l, 4).None?
  {
    EventIndexAt(l, 4, 2);
    CountSpacesNoneAt(l, 4, 2);
  }

  /** ` {` counts 1, `  {` counts 2, `x{` counts 0. */
  lemma CountSpacesExamples()
    ensures CountSpaces([Event(1, 0, OnSp, " "), Event(1, 1, OnLbrace, "{")], 1) == Some(1)
    ensures CountSpaces([Event(1, 0, OnSp, "  "), Event(1, 2, OnLbrace, "{")], 2) == Some(2)
    ensures CountSpaces([Event(1, 0, OnIdent, "x"), Event(1, 1, OnLbrace, "{")], 1) == Some(0)
  {
    OneSpaceBrace([Event(1, 0, OnSp, " "), Event(1, 1, OnLbrace, "{")]);
    TwoSpacesBrace([Event(1, 0, OnSp, "  "), Event(1, 2, OnLbrace, "{")]);
    IdentBrace([Event(1, 0, OnIdent, "x"), Event(1, 1, OnLbrace, "{")]);
  }

  lemma OneSpaceBrace(l: LexedLine)
    requires l == [Event(1, 0, OnSp, " "), Event(1, 1, OnLbrace, "{")]
    ensures EventIndex(l, 1) == Some(1) && CountSpaces(l, 1) == Some(1)
  {
    EventIndexAt(l, 1, 1);
    EventIndexAt(l, 0, 0);
  }

  lemma TwoSpacesBrace(l: LexedLine)
    requires l == [Event(1, 0, OnSp, "  "), Event(1, 2, OnLbrace, "{")]
    ensures EventIndex(l, 2) == Some(1) && CountSpaces(l, 2) == Some(2)
  {
    EventIndexAt(l, 2, 1);
    EventIndexAt(l, 0, 0);
  }

  lemma IdentBrace(l: LexedLine)
    requires l == [Event(1, 0, OnIdent, "x"), Event(1, 1, OnLbrace, "{")]
    ensures EventIndex(l, 1) == Some(1) && CountSpaces(l, 1) == Some(0)
  {
    EventIndexAt(l, 1, 1);
    EventIndexAt(l, 0, 0);
  }

  /** What one `lbrace_update` adds to the problem list: nothing when the count
      is the configured one, else exactly one `spaces_before_lbrace` problem. */
  function LbraceProblems(count: Option<nat>, config: nat, lineno: int, column: int): (ps: seq<Problem>)
    ensures |ps| <= 1
    ensures ps == [] <==> count == Some(config)
    ensures count.None? ==> |ps| == 1
    ensures forall p :: p in ps ==> p.ruleType == SpacesBeforeLbraceRule && p.lineno == lineno &&
                                    p.column == column && p.details == SpacingDetails(count, config)
  {
    if count != Some(config) then [Problem(SpacesBeforeLbraceRule, lineno, column, SpacingDetails(count, config))]
    else []
  }

  class SpacesBeforeLBraceRuler {
    /** The number of spaces wanted before a `{`. */
    const config: nat
    var problems: seq<Problem>

    constructor (config: nat)
      ensures this.config == config && problems == []
    {
      this.config := config;
      problems := [];
    }

    /** `lbrace_update`: records a problem for this brace when its spacing is off. */
    method LbraceUpdate(l: LexedLine, lineno: int, column: int)
      requires EventIndex(l, column).Some?
      modifies this`problems
      ensures problems == old(problems) + LbraceProblems(CountSpaces(l, column), config, lineno, column)
    {
      var count := CountSpaces(l, column);
      if count != Some(config) {
        problems := problems + [Problem(SpacesBeforeLbraceRule, lineno, column, SpacingDetails(count, config))];
      }
    }
  }

  /** With one space configured, `foo {` is reported with a nil count, and ` {` is not reported. */
  method LbraceScenario()
  {
    var ruler := new SpacesBeforeLBraceRuler(1);
    var l := [Event(1, 0, OnIdent, "foo"), Event(1, 3, OnSp, " "), Event(1, 4, OnLbrace, "{")];
    FooBrace(l);
    ruler.LbraceUpdate(l, 1, 4);
    assert ruler.problems == [Problem(SpacesBeforeLbraceRule, 1, 4, SpacingDetails(None, 1))];
    var m := [Event(1, 0, OnSp, " "), Event(1, 1, OnLbrace, "{")];
    OneSpaceBrace(m);
    ruler.LbraceUpdate(m, 2, 1);
    assert |ruler.problems| == 1;
  }
}
