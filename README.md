# tailor indentation and spacing core, in Dafny

This project models the part of the tailor Ruby style checker that decides
how far each line should be indented and checks the spacing before `{`.

- **Lexed lines** (`Lexing`). The tokenizer's output is a sequence of
  events. Each event has a line, a column, a category (`:on_sp`, `:on_kw`,
  …) and a text. A `LexedLine` is the events of one line. The queries the
  rulers ask of a line are pure functions: the first non-space element,
  the last event that is not a line feed, what the line ends with,
  `event_at` / `event_index`, `to_s`, `remove_trailing_comment`,
  `is_line_only_a`, `keyword_is_symbol?`, and so on.
  `LexedLineExamples` states every documented example of these queries as
  a lemma.
- **The indentation manager** (`Indentation.IndentationManager`). This is a
  class whose methods update its fields in place:
  - the expectations `this_line` and `next_line`;
  - the actual indentation;
  - the stack of indent reasons;
  - the multi-line-string stack;
  - the pending change for the current line;
  - the interpolation flag;
  - the measuring switch.

  Opening events push reasons. Closing events strip continuation keywords
  and pop. The model proves that a close undoes an open
  (`CloseUndoesOpen`). Every method keeps the expectations on the grid of
  multiples of `spaces` (`Valid`). Ruby's `/^\s*end\n?/` is written out as
  a predicate over strings.
- **The indentation ruler** (`IndentationRuler.IndentationSpacesRuler`).
  This is a thin class that owns a manager. It adds the string and
  interpolation callbacks, `single_line_indent_statement?` and
  `r_event_without_content?`.
- **The spaces-before-lbrace ruler** (`SpacesBeforeLBrace`). It provides
  `count_spaces` and `lbrace_update`, which appends a problem to the
  ruler's list.

Ruby's `nil` is `Option.None`. Ruby integers are unbounded, and so are
Dafny's.

## Model

| member | source | states |
|---|---|---|
| Lexing.LineOf | spec/unit/tailor/lexed_line_spec.rb:11-41 | `LexedLine.new(events, n)` keeps exactly the events of line n, and only events from the input |
| Lexing.LineOfAppend | spec/unit/tailor/lexed_line_spec.rb:11-41 | picking a line out of a concatenation is picking it out of each part |
| Lexing.LineOfPicksOneLine | spec/unit/tailor/lexed_line_spec.rb:29-40 | a line's events surrounded by other lines' events are picked out unchanged and in order |
| LexedLineExamples.NewPicksLineOne | spec/unit/tailor/lexed_line_spec.rb:11-41 | the documented two-line input yields line 1 |
| Lexing.OnlySpaces | spec/unit/tailor/lexed_line_spec.rb:43-97 | `only_spaces?` holds iff every event is a space or newline |
| LexedLineExamples.OnlySpacesExamples | spec/unit/tailor/lexed_line_spec.rb:43-97 | only spaces, only a newline: true; a comment or code: false |
| Lexing.FirstNonSpaceElement | spec/unit/tailor/lexed_line_spec.rb:374-404 | nil iff every event is blank; otherwise the first non-blank event |
| Lexing.FirstNonSpaceElementAt | spec/unit/tailor/lexed_line_spec.rb:374-404 | a non-blank event with only blanks before it is the first non-space element |
| LexedLineExamples.FirstNonSpaceElementExamples | spec/unit/tailor/lexed_line_spec.rb:374-404 | the documented lines give nil and `}` at column 2 |
| Lexing.LastNonLineFeedEvent | spec/unit/tailor/lexed_line_spec.rb:228-259 | nil iff every event is a line feed (a newline or a backslash-newline space event); otherwise the last event that is not |
| Lexing.LastNonLineFeedEventAt | spec/unit/tailor/lexed_line_spec.rb:228-259 | a non-line-feed event with only line feeds after it is the last non-line-feed event |
| LexedLineExamples.LastNonLineFeedEventExamples | spec/unit/tailor/lexed_line_spec.rb:228-259 | trailing newline and backslash-newline events are skipped |
| Lexing.DoesLineEndWith | spec/unit/tailor/lexed_line_spec.rb:204-226 | true iff the last non-line-feed event has the given category |
| Lexing.DoesLineEndWithAt | spec/unit/tailor/lexed_line_spec.rb:204-226 | once the last non-line-feed position is known, the line ends with a category iff that event has it |
| LexedLineExamples.DoesLineEndWithExamples | spec/unit/tailor/lexed_line_spec.rb:204-226 | `def thing ` plus a newline ends with `:on_sp` and not with `:on_kw` |
| Lexing.EndsWithOp | spec/unit/tailor/lexed_line_spec.rb:99-136 | true iff the last non-line-feed event is an operator |
| LexedLineExamples.EndsWithOpExamples | spec/unit/tailor/lexed_line_spec.rb:99-136 | the documented operator and non-operator endings |
| Lexing.EndsWithComma | spec/unit/tailor/lexed_line_spec.rb:204-226 | true iff the last non-line-feed event is a comma |
| Lexing.EndsWithPeriod | spec/unit/tailor/lexed_line_spec.rb:204-226 | true iff the last non-line-feed event is a period |
| Lexing.EndsWithKw | spec/unit/tailor/lexed_line_spec.rb:204-226 | true iff the last non-line-feed event is a keyword |
| Lexing.EndsWithModifierKw | spec/unit/tailor/lexed_line_spec.rb:138-202 | true iff the last non-line-feed event is a keyword that the token classifier calls a modifier |
| LexedLineExamples.EndsWithModifierKwExamples | spec/unit/tailor/lexed_line_spec.rb:138-202 | a trailing keyword counts only when it is a modifier; a trailing non-keyword never counts |
| Lexing.LoopWithDo | spec/unit/tailor/lexed_line_spec.rb:261-372 | true iff the line has `while`, `until` or `for` and its last non-line-feed event is the keyword `do` |
| Lexing.LoopWithDoAt | spec/unit/tailor/lexed_line_spec.rb:261-372 | on a line with a loop keyword, `loop_with_do?` holds iff the last non-line-feed event is the keyword `do` |
| LexedLineExamples.LoopWithDoExamples | spec/unit/tailor/lexed_line_spec.rb:262-327 | `while true do` and `until true do` are loops with `do`; without the `do` they are not |
| LexedLineExamples.ForLoopWithDoExamples | spec/unit/tailor/lexed_line_spec.rb:328-372 | `for i in 1..5 do` is a loop with `do`; without the `do` it is not |
| Lexing.EventAt | spec/unit/tailor/lexed_line_spec.rb:406-420 | nil iff no event starts at the column; otherwise an event of the line starting there |
| Lexing.IndexOf | spec/unit/tailor/lexed_line_spec.rb:422-435 | the position of the first occurrence of the event, nil iff absent |
| Lexing.EventIndex | spec/unit/tailor/lexed_line_spec.rb:422-435 | nil iff `event_at` is nil; otherwise the position of the first event starting at the column |
| Lexing.EventIndexAt | spec/unit/tailor/lexed_line_spec.rb:406-435 | the first event starting at a column is what `event_at` returns and where `event_index` points |
| LexedLineExamples.EventAtAndIndexExamples | spec/unit/tailor/lexed_line_spec.rb:406-435 | column 0 gives the space event at position 0; column 1234 gives nil |
| Lexing.ToS | spec/unit/tailor/lexed_line_spec.rb:437-451 | the texts of the events joined in order: the first event's text, then the text of the rest |
| Lexing.ToSAppend | spec/unit/tailor/lexed_line_spec.rb:437-451 | `to_s` of two lines joined is the two texts joined |
| LexedLineExamples.ToSExample | spec/unit/tailor/lexed_line_spec.rb:437-451 | `def thing ` plus newline is rebuilt from its events |
| Lexing.DropTrailingSpaces | spec/unit/tailor/lexed_line_spec.rb:453-580 | the longest prefix that does not end in a space event; only space events are removed |
| Lexing.ClosingNewline | spec/unit/tailor/lexed_line_spec.rb:453-580 | the newline goes just after the last kept event; it is `:on_ignored_nl` iff that event leaves the statement open (comma, operator, period); an empty line gets `:on_nl` at column 0 |
| Lexing.RemoveTrailingComment | spec/unit/tailor/lexed_line_spec.rb:453-580 | the comment and the spaces before it are gone, the rest is kept in order, one closing newline is added, and the result stays on the same line |
| Lexing.RemoveTrailingCommentKeepsCode | spec/unit/tailor/lexed_line_spec.rb:453-580 | code, then spaces, then a comment becomes exactly the code plus its closing newline |
| LexedLineExamples.RemoveTrailingCommentAfterCommaAndSpaces | spec/unit/tailor/lexed_line_spec.rb:455-485 | `def thing one,  # comment` becomes the line up to the comma plus `:on_ignored_nl` at column 14 |
| LexedLineExamples.RemoveTrailingCommentAfterComma | spec/unit/tailor/lexed_line_spec.rb:486-516 | `def thing one,# comment` becomes the line up to the comma plus `:on_ignored_nl` at column 14 |
| LexedLineExamples.RemoveTrailingCommentAfterStatementAndSpaces | spec/unit/tailor/lexed_line_spec.rb:518-546 | `def thing one  # comment` becomes the statement plus `:on_nl` at column 13 |
| LexedLineExamples.RemoveTrailingCommentAfterStatement | spec/unit/tailor/lexed_line_spec.rb:547-580 | `def thing one# comment` becomes the statement plus `:on_nl` at column 13 |
| Lexing.EndOfMultiLineString | spec/unit/tailor/lexed_line_spec.rb:582-616 | true whenever the line opens with a string end and no string begins on it; true only when the line has a string end; false whenever a string begins anywhere on the line |
| LexedLineExamples.EndOfMultiLineStringExamples | spec/unit/tailor/lexed_line_spec.rb:582-616 | a line opening with `}` string end: true; a comma line, a whole `%Q{…}` literal, or a `}` tail followed by a new literal: false |
| LexedLineExamples.StringTailThenNewString | spec/unit/tailor/lexed_line_spec.rb:603-616 | a line holding a `}` string tail and then a whole new literal has both a begin and an end, so it is false |
| Lexing.IsLineOnlyA | spec/unit/tailor/lexed_line_spec.rb:618-659 | true iff the last non-line-feed event has the category and only space events come before it |
| Lexing.IsLineOnlyAAt | spec/unit/tailor/lexed_line_spec.rb:618-659 | the same, once the last non-line-feed position is known |
| Lexing.IsLineOnlyAFirstAndLast | spec/unit/tailor/lexed_line_spec.rb:618-659 | a line that is only one non-blank event has it as both first non-space and last non-line-feed event |
| LexedLineExamples.IsLineOnlyAExamples | spec/unit/tailor/lexed_line_spec.rb:618-659 | a comma line is not only a period; spaces then a comma is only a comma; an identifier then a comma is not |
| Lexing.KeywordIsSymbol | spec/unit/tailor/lexed_line_spec.rb:661-716 | true iff the last event that is not a line feed is a keyword and the event right before it is `:on_symbeg` |
| Lexing.KeywordIsSymbolAt | spec/unit/tailor/lexed_line_spec.rb:661-716 | once the last non-line-feed position is known: true iff that event is a keyword with a `:on_symbeg` just before it |
| Lexing.KeywordIsSymbolEndsWithKw | spec/unit/tailor/lexed_line_spec.rb:661-716 | whenever the trailing keyword names a symbol, the line still ends with a keyword (`ends_with_kw?`) |
| LexedLineExamples.KeywordIsSymbolExamples | spec/unit/tailor/lexed_line_spec.rb:661-716 | no trailing keyword, no predecessor, or a predecessor that is not `:on_symbeg`: false; `INDENT_OK[:class`, and `x = :class` followed by its newline: true |
| Indentation.StripContinuations | lib/tailor/rulers/indentation_spaces_ruler/indentation_manager.rb:331-337 | a prefix of the stack; every removed reason is a continuation keyword and the new top is not |
| Indentation.CloseUndoesOpen | lib/tailor/rulers/indentation_spaces_ruler/indentation_manager.rb:260-337 | pushing a reason and continuation keywords after it, then closing once, restores the stack |
| Indentation.BlanksThenEndIff | lib/tailor/rulers/indentation_spaces_ruler/indentation_manager.rb:317 | `\s*end` matches at the start of a string iff the letters `end` occur at some position with only Ruby blanks before it |
| Indentation.MatchesEndPatternIff | lib/tailor/rulers/indentation_spaces_ruler/indentation_manager.rb:317 | `/^\s*end\n?/` matches iff `\s*end` matches at a line start: position 0 or just after a newline |
| Indentation.BlanksThenEndMatches | lib/tailor/rulers/indentation_spaces_ruler/indentation_manager.rb:317 | blanks followed by `end` match `/^\s*end\n?/`, whatever follows |
| Indentation.EndPatternExamples | lib/tailor/rulers/indentation_spaces_ruler/indentation_manager.rb:317 | `  end` plus newline, `ending` and an `end` on a later line match; `  }` plus newline does not |
| Indentation.PopKeepsGrid | lib/tailor/rulers/indentation_spaces_ruler/indentation_manager.rb:306-313 | after a close, the recorded expectations and the next line's new expectation stay multiples of `spaces` |
| Indentation.IndentationManager.Valid | lib/tailor/rulers/indentation_spaces_ruler/indentation_manager.rb:20-55 | the grid invariant: both expectations and every recorded reason's expectation are multiples of `spaces`; every state-changing method keeps it |
| Indentation.IndentationManager.constructor | lib/tailor/rulers/indentation_spaces_ruler/indentation_manager.rb:20-32 | both expectations and the actual indentation are 0, both stacks are empty, the pending change is 0 and measuring is on |
| Indentation.IndentationManager.ShouldBeAt | lib/tailor/rulers/indentation_spaces_ruler/indentation_manager.rb:35-38 | the current line's expectation |
| Indentation.IndentationManager.Started | lib/tailor/rulers/indentation_spaces_ruler/indentation_manager.rb:134-136 | whether measuring is on |
| Indentation.IndentationManager.DecreaseThisLine | lib/tailor/rulers/indentation_spaces_ruler/indentation_manager.rb:42-55 | when started, `this_line` drops by `spaces`, clamped at 0; when stopped, nothing changes |
| Indentation.IndentationManager.SetUpLineTransition | lib/tailor/rulers/indentation_spaces_ruler/indentation_manager.rb:88-106 | one `decrease_this_line` is applied iff the pending change is negative |
| Indentation.IndentationManager.TransitionLines | lib/tailor/rulers/indentation_spaces_ruler/indentation_manager.rb:111-121 | when started, `this_line` takes `next_line` and the pending change resets to 0; when stopped, nothing changes |
| Indentation.IndentationManager.Start | lib/tailor/rulers/indentation_spaces_ruler/indentation_manager.rb:125-129 | measuring is on |
| Indentation.IndentationManager.Stop | lib/tailor/rulers/indentation_spaces_ruler/indentation_manager.rb:140-148 | measuring is off |
| Indentation.IndentationManager.UpdateActualIndentation | lib/tailor/rulers/indentation_spaces_ruler/indentation_manager.rb:153-162 | the column of the first non-blank event, left alone on a multi-line-string tail |
| Indentation.IndentationManager.LineEndsWithSingleTokenIndenter | lib/tailor/rulers/indentation_spaces_ruler/indentation_manager.rb:168-173 | true iff the last non-line-feed event is an operator, comma, period or modifier keyword |
| Indentation.IndentationManager.LineEndsWithSameAsLast | lib/tailor/rulers/indentation_spaces_ruler/indentation_manager.rb:181-185 | true iff the stack is non-empty and its top was opened by an event of this category |
| Indentation.IndentationManager.CommaIsPartOfEnclosedStatement | lib/tailor/rulers/indentation_spaces_ruler/indentation_manager.rb:195-203 | false on an empty stack; with `[` or `(` on top always true; with `{` on top true iff the line ends with a comma; otherwise false |
| Indentation.IndentationManager.KeywordAndSingleTokenLine | lib/tailor/rulers/indentation_spaces_ruler/indentation_manager.rb:211-225 | true iff some reason opened on the line is not a brace, bracket or parenthesis |
| Indentation.IndentationManager.SingleTokenStartLine | lib/tailor/rulers/indentation_spaces_ruler/indentation_manager.rb:227-231 | nil iff the stack is empty; else the line of the outermost reason |
| Indentation.IndentationManager.DoubleTokenStartLine | lib/tailor/rulers/indentation_spaces_ruler/indentation_manager.rb:233-237 | nil iff the stack is empty; else the line of the innermost reason |
| Indentation.IndentationManager.ContinuingEnclosedStatement | lib/tailor/rulers/indentation_spaces_ruler/indentation_manager.rb:239-243 | true iff a brace, bracket or parenthesis is open and none of that kind was opened on this line |
| Indentation.IndentationManager.DoubleTokensInLine | lib/tailor/rulers/indentation_spaces_ruler/indentation_manager.rb:245-247 | exactly the reasons opened on the line: the stack's entries at the positions of the matching reasons, which are increasing and include every matching position, so each reason once and in stack order |
| Indentation.IndentationManager.AddIndentReason | lib/tailor/rulers/indentation_spaces_ruler/indentation_manager.rb:249-258 | exactly one reason recording the current expectation is appended; `next_line` is one step further in |
| Indentation.IndentationManager.UpdateForOpeningReason | lib/tailor/rulers/indentation_spaces_ruler/indentation_manager.rb:260-295 | a modifier or a loop's `do` changes nothing; otherwise one reason is pushed, and the pending change drops by one iff the token is a continuation keyword with no earlier reason on its line |
| Indentation.IndentationManager.UpdateForClosingReason | lib/tailor/rulers/indentation_spaces_ruler/indentation_manager.rb:297-323 | an interpolation's `}` only clears the flag; otherwise continuation keywords and one more reason are popped, `next_line` follows the new top (0 when empty), and `this_line` drops by `spaces`, unclamped, iff the line is only the closer or matches `/^\s*end\n?/` |
| Indentation.IndentationManager.PopIndentReason | lib/tailor/rulers/indentation_spaces_ruler/indentation_manager.rb:306-313 | the stack loses its continuation-keyword suffix and one more reason, `next_line` follows the new top (0 when empty), and both stay on the grid |
| Indentation.IndentationManager.LastIndentReasonType | lib/tailor/rulers/indentation_spaces_ruler/indentation_manager.rb:325-329 | nil iff the stack is empty; else the category of the innermost reason |
| Indentation.IndentationManager.RemoveContinuationKeywords | lib/tailor/rulers/indentation_spaces_ruler/indentation_manager.rb:331-337 | the pop loop leaves exactly the stack with its continuation-keyword suffix removed |
| Indentation.IndentationManager.MultiLine | lib/tailor/rulers/indentation_spaces_ruler/indentation_manager.rb:344-369 | true iff some reason has the token and none with that token was opened on the line |
| Indentation.IndentationManager.MultiLineBraces | lib/tailor/rulers/indentation_spaces_ruler/indentation_manager.rb:344-369 | the same for `{` |
| Indentation.IndentationManager.MultiLineBrackets | lib/tailor/rulers/indentation_spaces_ruler/indentation_manager.rb:344-369 | the same for `[` |
| Indentation.IndentationManager.MultiLineParens | lib/tailor/rulers/indentation_spaces_ruler/indentation_manager.rb:344-369 | the same for `(` |
| Indentation.IndentationManager.InTstring | lib/tailor/rulers/indentation_spaces_ruler/indentation_manager.rb:371-373 | true iff the string stack is non-empty |
| IndentationRuler.IndentationSpacesRuler.constructor | spec/tailor/rulers/indentation_spaces_ruler_spec.rb:12-33 | a new ruler's manager is fresh, with both expectations at 0 and measuring on |
| IndentationRuler.IndentationSpacesRuler.NextShouldBeAt | spec/tailor/rulers/indentation_spaces_ruler_spec.rb:28-33 | the next line's expectation |
| IndentationRuler.IndentationSpacesRuler.TstringBegUpdate | spec/tailor/rulers/indentation_spaces_ruler_spec.rb:396-406 | the line is pushed on the string stack and measuring stops |
| IndentationRuler.IndentationSpacesRuler.TstringEndUpdate | spec/tailor/rulers/indentation_spaces_ruler_spec.rb:408-419 | the innermost string line is popped and measuring starts |
| IndentationRuler.IndentationSpacesRuler.EmbexprBegUpdate | spec/tailor/rulers/indentation_spaces_ruler_spec.rb:339-345 | the interpolation flag is set |
| IndentationRuler.IndentationSpacesRuler.EmbexprEndUpdate | spec/tailor/rulers/indentation_spaces_ruler_spec.rb:348-354 | the interpolation flag is cleared |
| IndentationRuler.IndentationSpacesRuler.SingleLineIndentStatement | spec/tailor/rulers/indentation_spaces_ruler_spec.rb:127-163 | false when no keyword line is recorded; otherwise true iff it is the current line |
| IndentationRuler.IndentationSpacesRuler.REventWithoutContent | spec/tailor/rulers/indentation_spaces_ruler_spec.rb:441-497 | true iff the line's first non-blank event starts at the current column |
| IndentationRuler.REventWithoutContentExamples | spec/tailor/rulers/indentation_spaces_ruler_spec.rb:441-497 | `  )` at column 2: true; `  })` at column 3 and `def some_method` at column 3: false |
| SpacesBeforeLBrace.CountSpaces | lib/tailor/rulers/spaces_before_lbrace_ruler.rb:10-21 | the lookup asks for the event at column `event_index(column) - 1`: none gives nil, a non-space event 0, a space event its length |
| SpacesBeforeLBrace.CountSpacesOnUnitWidthLine | lib/tailor/rulers/spaces_before_lbrace_ruler.rb:10-21 | when every event's column is its position, the count is that of the event right before the brace |
| SpacesBeforeLBrace.CountSpacesNoneAt | lib/tailor/rulers/spaces_before_lbrace_ruler.rb:10-15 | when no event starts at the column one less than the brace's position, the count is nil |
| SpacesBeforeLBrace.CountSpacesAtLineStart | lib/tailor/rulers/spaces_before_lbrace_ruler.rb:10-15 | a brace opening the line has no predecessor and counts nil |
| SpacesBeforeLBrace.CountSpacesMissesTheSpaceBeforeBrace | lib/tailor/rulers/spaces_before_lbrace_ruler.rb:11-15 | in `foo {` the lookup asks for column 1, finds nothing, and counts nil although one space precedes the brace |
| SpacesBeforeLBrace.CountSpacesExamples | lib/tailor/rulers/spaces_before_lbrace_ruler.rb:10-21 | ` {` counts 1, `  {` counts 2, `x{` counts 0 |
| SpacesBeforeLBrace.LbraceProblems | lib/tailor/rulers/spaces_before_lbrace_ruler.rb:27-30 | no problem iff the count equals the configured one, at most one otherwise, always one for nil, carrying the line, column, count and configured value |
| SpacesBeforeLBrace.SpacesBeforeLBraceRuler.constructor | lib/tailor/rulers/spaces_before_lbrace_ruler.rb:5 | a new ruler has no problems |
| SpacesBeforeLBrace.SpacesBeforeLBraceRuler.LbraceUpdate | lib/tailor/rulers/spaces_before_lbrace_ruler.rb:23-31 | the problem list grows by exactly what `LbraceProblems` gives for this brace's count |

## Left out

- The tokenizer (Ripper) is not modelled. Events are given as input. The
  examples that lex a source string use the event sequence Ripper
  produces for it.
- Token classification is not modelled: `modifier_keyword?`,
  `do_is_for_a_loop?` and `continuation_keyword?` are fields of `Token`
  supplied by the caller. `CONTINUATION_KEYWORDS` is a set given to the
  constructor. `ends_with_modifier_kw?` takes the modifier test as a
  function parameter. Their definitions are not part of this model.
- Logging (`log`, `Tailor::Logger`) is left out because it changes no
  state.
- `lib/tailor/rake_task.rb` and the `Critic`, `Problem` and `Ruler` base
  classes are not part of this model. `Problem` is a plain datatype, and a
  ruler's problems are a `seq` field.
- The commented-out `increase_next_line` / `decrease_next_line`,
  `@double_tokens` and `@amount_to_change_next` bookkeeping in the manager
  is not modelled. Neither are the ruler tests of that removed code.
- `comma_update` is left out because its tests pin down no behaviour. So
  are the other ruler callbacks whose tests are all pending.
- The Ruby `LexedLine` class itself (its source and `method_missing`) is
  not part of this model. Its queries are defined from their documented
  behaviour.
- `does_line_end_with` is modelled only with newlines excluded, which is
  how every caller shown uses it.
- IndentationManager.UpdateForClosingReason: the source builds
  `only_<event_type>?` with `sub("^on_", '')`. That call treats its
  argument as a literal string, so it never strips anything, and it
  dispatches through `LexedLine#method_missing`, which is not shown. The
  answer of that call is taken as the parameter `lineIsOnlyCloser`.
- IndentationManager.RemoveContinuationKeywords: the source reads the top
  of the stack in its loop test even after popping the last reason, and
  would raise there. The model's loop stops at an empty stack.
- IndentationManager.UpdateActualIndentation requires the line to have a
  non-blank event (or be a string tail), because the source dereferences
  it unchecked.
- IndentationSpacesRuler.REventWithoutContent requires the line to have a
  non-blank event. `lib/tailor/rulers/indentation_spaces_ruler.rb` is not
  part of this model, and every documented case has such an event, so what
  the ruler does on a blank line is left open.
- SpacesBeforeLBrace.CountSpaces requires an event to start at `column`,
  because the source subtracts from a nil index otherwise.
- Lexing.RemoveTrailingComment builds the closing newline directly rather
  than re-lexing the kept text. A newline after an operator or a period is
  also `:on_ignored_nl`, as it is after a comma. A line that was only a
  comment becomes a single `:on_nl` at column 0.
- Lexing.ToS states its recursive definition only. `ToSAppend` states
  what it means for joined lines.
- The manager's Valid() does not say that expectations are non-negative,
  although they are documented as indentation levels. The closing
  decrement is unclamped, so `this_line` can fall below 0 after a closer
  on a line with nothing to close. Only the grid property (multiples of
  `spaces`) is kept.
- The ruler's `count_spaces` follows the code, not the documented intent.
  It looks up the event that starts at column `event_index(column) - 1`,
  a position used as a column. That is the event in front of the brace
  only when that event happens to start at that column, as it does on
  every line whose columns equal positions (`CountSpacesOnUnitWidthLine`)
  and on `  {`. On `foo {` nothing starts at column 1, so the space is
  missed (`CountSpacesMissesTheSpaceBeforeBrace`). A lone `{` at the start
  of a line gives nil and so always yields a problem.
- Lexing.KeywordIsSymbol takes the trailing keyword to be the last event
  that is not a line feed, as `ends_with_kw?` does, so a line ending in
  `:class` and a newline counts. The one documented case with a newline
  ends in a comma, where both readings give false, so none of the
  documented cases tells this apart from the literal last event.
