/**
 * Tokenizer events and the per-line view of them (`Tailor::LexedLine`).
 *
 * An event is what the tokenizer emits for one lexeme: its position
 * (1-based line, 0-based column), its category (Ripper's `:on_*` symbol)
 * and its exact text. A lexed line is the ordered run of events whose
 * position is on one source line, and every query here is a pure function
 * of that run.
 */
module Lexing {
  import opened Options
  import opened Seqs

  /** Ripper's event categories that the rulers look at; every other category is `OnOther`. */
  datatype Category =
    | OnSp | OnNl | OnIgnoredNl | OnComment
    | OnKw | OnIdent | OnConst | OnInt | OnOp | OnComma | OnPeriod | OnSymbeg
    | OnLbrace | OnRbrace | OnLbracket | OnRbracket | OnLparen | OnRparen
    | OnTstringBeg | OnTstringContent | OnTstringEnd | OnEmbexprBeg | OnEmbexprEnd
    | OnOther(name: string)

  datatype Event = Event(line: nat, col: nat, category: Category, text: string)

  type LexedLine = seq<Event>

  /** All events of `l` are on source line `n`: what makes a run of events a lexed line of line `n`. */
  predicate OnLine(l: seq<Event>, n: int)
  {
    forall i :: 0 <= i < |l| ==> l[i].line == n
  }

  /** Spaces and both kinds of newline: what `first_non_space_element` passes over. */
  predicate IsBlank(e: Event)
  {
    e.category == OnSp || e.category == OnNl || e.category == OnIgnoredNl
  }

  /** A newline event, or a space event that is a backslash line continuation. */
  predicate IsLineFeed(e: Event)
  {
    e.category == OnNl || e.category == OnIgnoredNl || (e.category == OnSp && e.text == "\\\n")
  }

  /** `LexedLine.new(lexed_file, lineno)`: the events of line `n`, in file order. */
  function LineOf(events: seq<Event>, n: int): (l: LexedLine)
    ensures OnLine(l, n)
    ensures forall i :: 0 <= i < |events| && events[i].line == n ==> events[i] in l
    ensures forall e :: e in l ==> e in events
  {
    Filter(events, (e: Event) => e.line == n)
  }

  /** Selecting line `n` from two consecutive stretches of the file selects it from each. */
  lemma LineOfAppend(a: seq<Event>, b: seq<Event>, n: int)
    ensures LineOf(a + b, n) == LineOf(a, n) + LineOf(b, n)
  {
    FilterAppend(a, b, (e: Event) => e.line == n);
  }

  /** A stretch of events that is all on line `n` is its own line `n`. */
  lemma LineOfOwnLine(l: seq<Event>, n: int)
    requires OnLine(l, n)
    ensures LineOf(l, n) == l
  {
    FilterAllMatch(l, (e: Event) => e.line == n);
  }

  /** The events of a file that are on line `n`, given as the file's other
      lines before and after it, are exactly that line. */
  lemma LineOfPicksOneLine(before: seq<Event>, l: seq<Event>, after: seq<Event>, n: int)
    requires forall i :: 0 <= i < |before| ==> before[i].line != n
    requires forall i :: 0 <= i < |after| ==> after[i].line != n
    requires OnLine(l, n)
    ensures LineOf(before + l + after, n) == l
  {
    LineOfAppend(before + l, after, n);
    LineOfAppend(before, l, n);
    LineOfOwnLine(l, n);
    FilterNoneMatch(before, (e: Event) => e.line == n);
    FilterNoneMatch(after, (e: Event) => e.line == n);
  }

  /** `first_non_space_element`: the first event that is not a space or a newline, or nil. */
  function FirstNonSpaceElement(l: LexedLine): (r: Option<Event>)
    ensures r.None? <==> forall i :: 0 <= i < |l| ==> IsBlank(l[i])
    ensures r.Some? ==> exists k :: 0 <= k < |l| && l[k] == r.value && !IsBlank(l[k]) &&
                                   forall i :: 0 <= i < k ==> IsBlank(l[i])
  {
    match FindIndex(l, (e: Event) => !IsBlank(e))
    case None => None
    case Some(k) => Some(l[k])
  }

  /** The first non-blank event, once its position is known. */
  lemma FirstNonSpaceElementAt(l: LexedLine, k: nat)
    requires k < |l| && !IsBlank(l[k]) && forall i :: 0 <= i < k ==> IsBlank(l[i])
    ensures FirstNonSpaceElement(l) == Some(l[k])
  {
    var j := FindIndex(l, (e: Event) => !IsBlank(e)).value;
    assert !(j < k) && !(k < j);
  }

  /** `only_spaces?`: the line holds nothing but spaces and newlines. */
  function OnlySpaces(l: LexedLine): (r: bool)
    ensures r <==> forall i :: 0 <= i < |l| ==> IsBlank(l[i])
  {
    FirstNonSpaceElement(l).None?
  }

  /** `last_non_line_feed_event`: the last event that is not a line feed, or nil. */
  function LastNonLineFeedEvent(l: LexedLine): (r: Option<Event>)
    ensures r.None? <==> forall i :: 0 <= i < |l| ==> IsLineFeed(l[i])
    ensures r.Some? ==> exists k :: 0 <= k < |l| && l[k] == r.value && !IsLineFeed(l[k]) &&
                                   forall i :: k < i < |l| ==> IsLineFeed(l[i])
  {
    match FindLastIndex(l, (e: Event) => !IsLineFeed(e))
    case None => None
    case Some(k) => Some(l[k])
  }

  /** The last non-line-feed event, once its position is known. */
  lemma LastNonLineFeedEventAt(l: LexedLine, k: nat)
    requires k < |l| && !IsLineFeed(l[k]) && forall i :: k < i < |l| ==> IsLineFeed(l[i])
    ensures LastNonLineFeedEvent(l) == Some(l[k])
  {
    var j := FindLastIndex(l, (e: Event) => !IsLineFeed(e)).value;
    assert !(j < k) && !(k < j);
  }

  /** There is only one last event that is not a line feed. */
  lemma LastNonLineFeedUnique(l: LexedLine, j: nat, k: nat)
    requires j < |l| && !IsLineFeed(l[j]) && forall i :: j < i < |l| ==> IsLineFeed(l[i])
    requires k < |l| && !IsLineFeed(l[k]) && forall i :: k < i < |l| ==> IsLineFeed(l[i])
    ensures j == k
  {
    assert !(j < k) && !(k < j);
  }

  /** `does_line_end_with(category)`: the last non-line-feed event has that category. */
  function DoesLineEndWith(l: LexedLine, category: Category): (r: bool)
    ensures r <==> exists k :: 0 <= k < |l| && l[k].category == category && !IsLineFeed(l[k]) &&
                              forall i :: k < i < |l| ==> IsLineFeed(l[i])
  {
    var last := LastNonLineFeedEvent(l);
    if last.None? then false
    else
      // the last non-line-feed event is unique, so it is the witness
      assert forall k :: 0 <= k < |l| && !IsLineFeed(l[k]) && (forall i :: k < i < |l| ==> IsLineFeed(l[i])) ==>
        l[k] == last.value by {
        forall k | 0 <= k < |l| && !IsLineFeed(l[k]) && (forall i :: k < i < |l| ==> IsLineFeed(l[i]))
          ensures l[k] == last.value
        {
          var j :| 0 <= j < |l| && l[j] == last.value && !IsLineFeed(l[j]) &&
                   forall i :: j < i < |l| ==> IsLineFeed(l[i]);
          assert !(k < j) && !(j < k);
        }
      }
      last.value.category == category
  }

  /** `does_line_end_with(category)`, once the last non-line-feed position is known. */
  lemma DoesLineEndWithAt(l: LexedLine, category: Category, k: nat)
    requires k < |l| && !IsLineFeed(l[k]) && forall i :: k < i < |l| ==> IsLineFeed(l[i])
    ensures DoesLineEndWith(l, category) <==> l[k].category == category
  {
    LastNonLineFeedEventAt(l, k);
  }

  /** `ends_with_op?` */
  function EndsWithOp(l: LexedLine): (r: bool)
    ensures r <==> LastNonLineFeedEvent(l).Some? && LastNonLineFeedEvent(l).value.category == OnOp
  {
    DoesLineEndWith(l, OnOp)
  }

  /** `ends_with_comma?` */
  function EndsWithComma(l: LexedLine): (r: bool)
    ensures r <==> LastNonLineFeedEvent(l).Some? && LastNonLineFeedEvent(l).value.category == OnComma
  {
    DoesLineEndWith(l, OnComma)
  }

  /** `ends_with_period?` */
  function EndsWithPeriod(l: LexedLine): (r: bool)
    ensures r <==> LastNonLineFeedEvent(l).Some? && LastNonLineFeedEvent(l).value.category == OnPeriod
  {
    DoesLineEndWith(l, OnPeriod)
  }

  /** `ends_with_kw?` */
  function EndsWithKw(l: LexedLine): (r: bool)
    ensures r <==> LastNonLineFeedEvent(l).Some? && LastNonLineFeedEvent(l).value.category == OnKw
  {
    DoesLineEndWith(l, OnKw)
  }

  /**
   * `ends_with_modifier_kw?`: the line ends with a keyword and the token
   * classifier calls that keyword, in this line, a statement modifier.
   * The classifier is not part of this model; `isModifier` stands for it.
   */
  function EndsWithModifierKw(l: LexedLine, isModifier: (string, LexedLine) -> bool): (r: bool)
    ensures r <==> exists k :: 0 <= k < |l| && l[k].category == OnKw && isModifier(l[k].text, l) &&
                              !IsLineFeed(l[k]) && forall i :: k < i < |l| ==> IsLineFeed(l[i])
  {
    if !EndsWithKw(l) then false
    else
      var last := LastNonLineFeedEvent(l).value;
      assert forall k :: 0 <= k < |l| && !IsLineFeed(l[k]) && (forall i :: k < i < |l| ==> IsLineFeed(l[i])) ==>
        l[k] == last by {
        forall k | 0 <= k < |l| && !IsLineFeed(l[k]) && (forall i :: k < i < |l| ==> IsLineFeed(l[i]))
          ensures l[k] == last
        {
          LastNonLineFeedEventAt(l, k);
        }
      }
      isModifier(last.text, l)
  }

  /** `ends_with_modifier_kw?`, once the last non-line-feed position is known. */
  lemma EndsWithModifierKwAt(l: LexedLine, isModifier: (string, LexedLine) -> bool, k: nat)
    requires k < |l| && !IsLineFeed(l[k]) && forall i :: k < i < |l| ==> IsLineFeed(l[i])
    ensures EndsWithModifierKw(l, isModifier) <==> l[k].category == OnKw && isModifier(l[k].text, l)
  {
    LastNonLineFeedEventAt(l, k);
  }

  /** Keywords that open a loop whose `do` is optional. */
  predicate IsLoopKeyword(e: Event)
  {
    e.category == OnKw && (e.text == "while" || e.text == "until" || e.text == "for")
  }

  /** `loop_with_do?`: a `while`/`until`/`for` line whose last non-line-feed event is the keyword `do`. */
  function LoopWithDo(l: LexedLine): (r: bool)
    ensures r <==> (exists i :: 0 <= i < |l| && IsLoopKeyword(l[i])) &&
                   LastNonLineFeedEvent(l).Some? && LastNonLineFeedEvent(l).value.category == OnKw &&
                   LastNonLineFeedEvent(l).value.text == "do"
  {
    FindIndex(l, IsLoopKeyword).Some? &&
    match LastNonLineFeedEvent(l)
    case None => false
    case Some(e) => e.category == OnKw && e.text == "do"
  }

  /** `loop_with_do?`, once a loop keyword and the last non-line-feed position are known. */
  lemma LoopWithDoAt(l: LexedLine, j: nat, k: nat)
    requires j < |l| && IsLoopKeyword(l[j])
    requires k < |l| && !IsLineFeed(l[k]) && forall i :: k < i < |l| ==> IsLineFeed(l[i])
    ensures LoopWithDo(l) <==> l[k].category == OnKw && l[k].text == "do"
  {
    LastNonLineFeedEventAt(l, k);
  }

  /** `event_at(column)`: the first event that starts at `column`, or nil. */
  function EventAt(l: LexedLine, column: int): (r: Option<Event>)
    ensures r.None? <==> forall i :: 0 <= i < |l| ==> l[i].col != column
    ensures r.Some? ==> r.value.col == column && r.value in l
  {
    match FindIndex(l, (e: Event) => e.col == column)
    case None => None
    case Some(k) => Some(l[k])
  }

  /** Ruby `Array#index(e)`: the position of the first element equal to `e`. */
  function IndexOf(l: LexedLine, e: Event): (r: Option<nat>)
    ensures r.Some? <==> e in l
    ensures r.Some? ==> r.value < |l| && l[r.value] == e && forall i :: 0 <= i < r.value ==> l[i] != e
  {
    FindIndex(l, (x: Event) => x == e)
  }

  /** `event_index(column)`: where in the line the event `event_at(column)` stands, or nil. */
  function EventIndex(l: LexedLine, column: int): (r: Option<nat>)
    ensures r.None? <==> EventAt(l, column).None?
    ensures r.Some? ==> r.value < |l| && l[r.value] == EventAt(l, column).value
    ensures r.Some? ==> l[r.value].col == column && forall i :: 0 <= i < r.value ==> l[i].col != column
  {
    match EventAt(l, column)
    case None => None
    case Some(e) =>
      var k := IndexOf(l, e).value;
      // no event before position k starts at `column`: the first such one is `e` itself
      assert forall i :: 0 <= i < k ==> l[i].col != column by {
        var j := FindIndex(l, (x: Event) => x.col == column).value;
        assert l[j] == e;
        assert !(j < k);
      }
      Some(k)
  }

  /** `event_index(column)`, once the first event at that column is known. */
  lemma EventIndexAt(l: LexedLine, column: int, k: nat)
    requires k < |l| && l[k].col == column && forall i :: 0 <= i < k ==> l[i].col != column
    ensures EventIndex(l, column) == Some(k)
    ensures EventAt(l, column) == Some(l[k])
  {
    var j := EventIndex(l, column).value;
    assert !(j < k) && !(k < j);
  }

  /** `to_s`: the texts of the events, concatenated. */
  function ToS(l: LexedLine): (s: string)
    ensures l != [] ==> s == l[0].text + ToS(l[1..])
  {
    if l == [] then "" else l[0].text + ToS(l[1..])
  }

  /** The text of two consecutive stretches of events is the text of each, joined. */
  lemma {:induction false} ToSAppend(a: LexedLine, b: LexedLine)
    ensures ToS(a + b) == ToS(a) + ToS(b)
  {
    if a == [] {
      assert a + b == b;
    } else {
      assert (a + b)[1..] == a[1..] + b;
      ToSAppend(a[1..], b);
    }
  }

  /** The events left after dropping trailing space events. */
  function DropTrailingSpaces(l: LexedLine): (r: LexedLine)
    ensures IsPrefix(r, l)
    ensures forall i :: |r| <= i < |l| ==> l[i].category == OnSp
    ensures r == [] || r[|r| - 1].category != OnSp
  {
    DropLastWhile(l, (e: Event) => e.category == OnSp)
  }

  /** The result of dropping trailing spaces, once the cut point is known. */
  lemma DropTrailingSpacesAt(l: LexedLine, k: nat)
    requires k <= |l| && (forall i :: k <= i < |l| ==> l[i].category == OnSp)
    requires k == 0 || l[k - 1].category != OnSp
    ensures DropTrailingSpaces(l) == l[..k]
  {
    DropLastWhileAt(l, (e: Event) => e.category == OnSp, k);
  }

  /** Categories after which the tokenizer reads the newline as an ignorable one
      because the statement is not finished yet. */
  predicate LeavesStatementOpen(c: Category)
  {
    c == OnComma || c == OnOp || c == OnPeriod
  }

  /** The newline event that closes what is left of line `line` once its
      trailing comment is gone: it starts just after the last kept event. */
  function ClosingNewline(kept: LexedLine, line: nat): (nl: Event)
    ensures nl.line == line && nl.text == "\n"
    ensures kept == [] ==> nl.col == 0 && nl.category == OnNl
    ensures kept != [] ==> nl.col == kept[|kept| - 1].col + |kept[|kept| - 1].text|
    ensures kept != [] ==> (nl.category == OnIgnoredNl <==> LeavesStatementOpen(kept[|kept| - 1].category))
    ensures nl.category == OnNl || nl.category == OnIgnoredNl
  {
    if kept == [] then Event(line, 0, OnNl, "\n")
    else
      var last := kept[|kept| - 1];
      Event(line, last.col + |last.text|, if LeavesStatementOpen(last.category) then OnIgnoredNl else OnNl, "\n")
  }

  /**
   * `remove_trailing_comment(file_text)`: the line without its trailing
   * comment and the spaces before it, closed by a newline event that starts
   * just after the last remaining event: `:on_ignored_nl` when that event
   * leaves the statement open, `:on_nl` otherwise.
   */
  function RemoveTrailingComment(l: LexedLine): (r: LexedLine)
    requires |l| > 0 && l[|l| - 1].category == OnComment
    ensures |r| >= 1 && IsPrefix(r[..|r| - 1], l[..|l| - 1])
    ensures forall i :: |r| - 1 <= i < |l| - 1 ==> l[i].category == OnSp
    ensures |r| >= 2 ==> r[|r| - 2].category != OnSp
    ensures r[|r| - 1] == ClosingNewline(r[..|r| - 1], l[0].line)
    ensures forall n :: OnLine(l, n) ==> OnLine(r, n)
  {
    var kept := DropTrailingSpaces(l[..|l| - 1]);
    assert (kept + [ClosingNewline(kept, l[0].line)])[..|kept|] == kept;
    kept + [ClosingNewline(kept, l[0].line)]
  }

  /** A line made of code, then spaces, then a comment loses exactly the spaces and the comment. */
  lemma RemoveTrailingCommentKeepsCode(code: LexedLine, spaces: LexedLine, comment: Event)
    requires comment.category == OnComment
    requires forall i :: 0 <= i < |spaces| ==> spaces[i].category == OnSp
    requires code != [] && code[|code| - 1].category != OnSp
    ensures RemoveTrailingComment(code + spaces + [comment]) == code + [ClosingNewline(code, code[0].line)]
  {
    var l := code + spaces + [comment];
    assert l[..|l| - 1] == code + spaces;
    assert l[0] == code[0];
    DropTrailingSpacesAt(code + spaces, |code|);
    assert (code + spaces)[..|code|] == code;
  }

  /** No string literal begins on the line. */
  predicate NoStringBegin(l: LexedLine)
  {
    forall i :: 0 <= i < |l| ==> l[i].category != OnTstringBeg
  }

  /**
   * `end_of_multi_line_string?`: the line opens with a string-end event and
   * no string begins on it, i.e. it is only the tail of a string literal
   * begun on an earlier line.
   */
  function EndOfMultiLineString(l: LexedLine): (r: bool)
    ensures r ==> exists i :: 0 <= i < |l| && l[i].category == OnTstringEnd
    ensures (exists i :: 0 <= i < |l| && l[i].category == OnTstringBeg) ==> !r
    ensures l != [] && l[0].category == OnTstringEnd && NoStringBegin(l) ==> r
  {
    |l| > 0 && l[0].category == OnTstringEnd && NoStringBegin(l)
  }

  /**
   * `is_line_only_a(category)`: the last non-line-feed event has that
   * category and nothing but space events comes before it.
   */
  function IsLineOnlyA(l: LexedLine, category: Category): (r: bool)
    ensures r <==> exists k :: 0 <= k < |l| && l[k].category == category && !IsLineFeed(l[k]) &&
                              (forall i :: k < i < |l| ==> IsLineFeed(l[i])) &&
                              (forall i :: 0 <= i < k ==> l[i].category == OnSp)
  {
    match FindLastIndex(l, (e: Event) => !IsLineFeed(e))
    case None => false
    case Some(k) =>
      assert forall m :: 0 <= m < |l| && !IsLineFeed(l[m]) && (forall i :: m < i < |l| ==> IsLineFeed(l[i])) ==>
        m == k by {
        forall m | 0 <= m < |l| && !IsLineFeed(l[m]) && (forall i :: m < i < |l| ==> IsLineFeed(l[i]))
          ensures m == k
        {
          assert !(m < k) && !(k < m);
        }
      }
      l[k].category == category && forall i :: 0 <= i < k ==> l[i].category == OnSp
  }

  /** `is_line_only_a`, once the position of the last non-line-feed event is known. */
  lemma IsLineOnlyAAt(l: LexedLine, category: Category, k: nat)
    requires k < |l| && !IsLineFeed(l[k]) && forall i :: k < i < |l| ==> IsLineFeed(l[i])
    ensures IsLineOnlyA(l, category) <==>
              l[k].category == category && forall i :: 0 <= i < k ==> l[i].category == OnSp
  {
    if IsLineOnlyA(l, category) {
      var m :| 0 <= m < |l| && l[m].category == category && !IsLineFeed(l[m]) &&
               (forall i :: m < i < |l| ==> IsLineFeed(l[i])) &&
               (forall i :: 0 <= i < m ==> l[i].category == OnSp);
      assert !(m < k) && !(k < m);
    }
  }

  /**
   * A line that is only one event of a non-blank category, after spaces, has
   * that event as its first non-space element and as its last non-line-feed
   * event.
   */
  lemma IsLineOnlyAFirstAndLast(l: LexedLine, category: Category)
    requires category != OnSp && category != OnNl && category != OnIgnoredNl
    requires IsLineOnlyA(l, category)
    ensures FirstNonSpaceElement(l).Some? && LastNonLineFeedEvent(l).Some?
    ensures FirstNonSpaceElement(l) == LastNonLineFeedEvent(l)
    ensures FirstNonSpaceElement(l).value.category == category
  {
    var k :| 0 <= k < |l| && l[k].category == category && !IsLineFeed(l[k]) &&
             (forall i :: k < i < |l| ==> IsLineFeed(l[i])) &&
             (forall i :: 0 <= i < k ==> l[i].category == OnSp);
    assert !IsBlank(l[k]);
    FirstNonSpaceElementAt(l, k);
    LastNonLineFeedEventAt(l, k);
  }

  /** Position `k` holds the last event of `l` that is not a line feed. */
  predicate IsLastNonLineFeedAt(l: LexedLine, k: int)
  {
    0 <= k < |l| && !IsLineFeed(l[k]) && forall i :: k < i < |l| ==> IsLineFeed(l[i])
  }

  /**
   * `keyword_is_symbol?`: the line's trailing keyword (its last event that is
   * not a line feed) comes directly after a symbol-begin marker (`:class`),
   * so it names a symbol, not a keyword.
   */
  function KeywordIsSymbol(l: LexedLine): (r: bool)
    ensures r <==> exists k :: IsLastNonLineFeedAt(l, k) && k > 0 &&
                              l[k].category == OnKw && l[k - 1].category == OnSymbeg
  {
    match FindLastIndex(l, (e: Event) => !IsLineFeed(e))
    case None =>
      assert forall k :: !IsLastNonLineFeedAt(l, k);
      false
    case Some(k) =>
      assert IsLastNonLineFeedAt(l, k);
      assert forall m :: IsLastNonLineFeedAt(l, m) ==> m == k by {
        forall m | IsLastNonLineFeedAt(l, m) ensures m == k {
          LastNonLineFeedUnique(l, m, k);
        }
      }
      k > 0 && l[k].category == OnKw && l[k - 1].category == OnSymbeg
  }

  /** `keyword_is_symbol?`, once the position of the last non-line-feed event is known. */
  lemma KeywordIsSymbolAt(l: LexedLine, k: nat)
    requires k < |l| && !IsLineFeed(l[k]) && forall i :: k < i < |l| ==> IsLineFeed(l[i])
    ensures KeywordIsSymbol(l) <==> k > 0 && l[k].category == OnKw && l[k - 1].category == OnSymbeg
  {
    if KeywordIsSymbol(l) {
      var m :| IsLastNonLineFeedAt(l, m) && m > 0 && l[m].category == OnKw && l[m - 1].category == OnSymbeg;
      LastNonLineFeedUnique(l, m, k);
    }
  }

  /** A keyword that names a symbol still ends the line as a keyword: `ends_with_kw?`
      holds, which is why callers have to ask `keyword_is_symbol?` as well. */
  lemma KeywordIsSymbolEndsWithKw(l: LexedLine)
    requires KeywordIsSymbol(l)
    ensures LastNonLineFeedEvent(l).Some? && LastNonLineFeedEvent(l).value.category == OnKw
    ensures EndsWithKw(l)
  {
    var k :| IsLastNonLineFeedAt(l, k) && k > 0 && l[k].category == OnKw && l[k - 1].category == OnSymbeg;
    LastNonLineFeedEventAt(l, k);
  }
}
