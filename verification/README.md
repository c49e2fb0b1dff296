# rubocop-socketry rules, modelled in Dafny

This project models three RuboCop rules of the socketry style guide. Each rule is a deterministic function of an already-parsed Ruby syntax tree and the raw source text. It reports offenses that carry character ranges and, for two of the rules, a corrective edit.

- **Layout/ConsistentBlankLineIndentation** (`blank_line_indentation.dfy`). A walk over the tree builds a `line → delta` map: each node of 14 structural types adds +1 on its first line and −1 on its last line. A scan over the lines keeps a running level. A blank line must equal the style character (tab or space) repeated `level × width` times. Otherwise the whole line is reported, with a fix that replaces it by the expected text.
  The walk (`Walk`, `BuildIndentationDeltas`) and the scan (`OnNewInvestigation`) are methods. They are proved against a structural specification: the level at a line is the number of tracked constructs that opened on an earlier line and are still open (`OpenAt`).
- **Layout/BlockDelimiterSpacing** (`block_delimiter_spacing.dfy`). A brace block is described by the facts the rule queries (`BlockFacts`). It is classified by a priority-ordered chain: lambda/proc, method chain, expression, parenthesised call, bare call. The policy's check then inspects the characters before `{`. It reports a removal of the whitespace run, the insertion of one space, or the replacement of the gap by one space. The backward whitespace scan is a loop (`ScanWhitespaceBack`) proved against `RunStart`. `Apply` applies an edit to the buffer so that properties after a fix can be stated.
- **Style/GlobalExceptionVariables** (`global_exception_variables.dfy`). A reference to `$!`, `$@`, `$ERROR_INFO` or `$ERROR_POSITION` is classified by the types of its ancestors. Parameter defaults, rescue modifiers and rescue clauses allow it. These checks come before the ensure check. An `ensure` ancestor yields the "extremely unsafe" message; anything else yields the generic message.

Shared vocabulary lives in `source_text.dfy`: ranges, edits, offenses, Ruby's `/\s/` and `String#strip` character sets, and `String#*`. The node types are in `syntax.dfy`.

The model follows the code in these points, which are easy to misread:
- The allow rules are checked before the ensure rule (`lib/rubocop/socketry/style/global_exception_variables.rb:74-90`). So an enclosing rescue clause wins over an `ensure`; it is not the other way round.
- The remove-space checks fire only when the character before `{` is a literal space (`lib/rubocop/socketry/layout/block_delimiter_spacing.rb:120`). A lone tab is not reported.
- The blank-line offense range is the line without its terminator (`lib/rubocop/socketry/cop/layout/consistent_blank_line_indentation.rb:48`).
- `Proc.new` is recognised whatever its arguments, provided the receiver's constant name compares equal to `:Proc` (see "## Left out").

`test/rubocop/socketry/layout/consistent_blank_line_indentation.rb` exercises `RuboCop::Socketry::Layout::ConsistentBlankLineIndentation`, a different class whose source is not part of this model. It is not used as evidence here. `test/rubocop/socketry/cop/layout/consistent_blank_line_indentation.rb:17` refers to a constant `MSG`, but the class defines `MESSAGE`.

## Model

| member | source | states |
|---|---|---|
| `BlankLineIndentation.ConfiguredIndentationWidth` | lib/rubocop/socketry/cop/layout/consistent_blank_line_indentation.rb:19-21 | the width is the rule's own option if set, else `Layout/IndentationWidth` Width, else 1 |
| `BlankLineIndentation.ConfiguredIndentationStyle` | lib/rubocop/socketry/cop/layout/consistent_blank_line_indentation.rb:23-25 | the style is the rule's own option if set, else `Layout/IndentationStyle` Style, else "tab" |
| `BlankLineIndentation.Indentation` | lib/rubocop/socketry/cop/layout/consistent_blank_line_indentation.rb:27-34 | the expected text has length `level × width`, is all tabs for "tab" and all spaces for "space", and is itself a blank line |
| `BlankLineIndentation.Bump` | lib/rubocop/socketry/cop/layout/consistent_blank_line_indentation.rb:79-80 | `deltas[key] += d` on a `Hash.new(0)` changes the value at `key` by `d` and at no other line |
| `BlankLineIndentation.Walk` | lib/rubocop/socketry/cop/layout/consistent_blank_line_indentation.rb:73-87 | after the walk, each line's delta has grown by the number of tracked, located nodes of the subtree that open on it minus those that close on it; atoms are skipped, and untracked nodes still have their children walked |
| `BlankLineIndentation.BuildIndentationDeltas` | lib/rubocop/socketry/cop/layout/consistent_blank_line_indentation.rb:67-71 | starting from an empty `Hash.new(0)`, the delta of each line is the number of openings minus the number of closings on it |
| `BlankLineIndentation.OpenAtStep` | lib/rubocop/socketry/cop/layout/consistent_blank_line_indentation.rb:78-80 | the nesting depth at line L+1 is the depth at line L plus L's delta |
| `BlankLineIndentation.RunningSumIsDepth` | lib/rubocop/socketry/cop/layout/consistent_blank_line_indentation.rb:59-60 | the sum of the deltas of lines 1..L−1 is the number of tracked nodes with `first < L ≤ last`, so it is never negative |
| `BlankLineIndentation.OnNewInvestigation` | lib/rubocop/socketry/cop/layout/consistent_blank_line_indentation.rb:36-62 | the scan starts at level 0 and adds each line's delta after judging it; its offenses are exactly those of the structural specification, in which each line is judged at its nesting depth |
| `BlankLineIndentation.LineOffenseIff` | lib/rubocop/socketry/cop/layout/consistent_blank_line_indentation.rb:44-56 | a line is reported iff it is blank and differs from the expected text; the range is the whole line from column 0, and the fix replaces exactly that range with the expected text |
| `BlankLineIndentation.NonBlankLinesNeverOffend` | lib/rubocop/socketry/cop/layout/consistent_blank_line_indentation.rb:44 | a line with any character that `strip` keeps is never reported |
| `BlankLineIndentation.LineRangeSelectsLine` | lib/rubocop/socketry/cop/layout/consistent_blank_line_indentation.rb:89-91 | `source_range(buffer, line, 0, line.length)` lies in the buffer and holds exactly that line's text |
| `BlankLineIndentation.FixReplacesLine` | lib/rubocop/socketry/cop/layout/consistent_blank_line_indentation.rb:50-55 | applying the fix to the buffer gives the buffer of the same lines with that one line replaced |
| `BlankLineIndentation.LineRangesAscend` | lib/rubocop/socketry/cop/layout/consistent_blank_line_indentation.rb:89-91 | the range of an earlier line ends before the range of a later line starts |
| `BlankLineIndentation.OffensesAscend` | lib/rubocop/socketry/cop/layout/consistent_blank_line_indentation.rb:40-61 | the offenses are in strictly ascending buffer order, and those of the first n lines all end before line n+1 starts |
| `BlankLineIndentation.CorrectedIsFixes` | lib/rubocop/socketry/cop/layout/consistent_blank_line_indentation.rb:50-55 | each corrected line is the replacement text of that line's fix, or the line itself when it has no offense |
| `BlankLineIndentation.ApplyFixesUpTo` | lib/rubocop/socketry/cop/layout/consistent_blank_line_indentation.rb:40-61 | applying the fixes of the first n lines, last to first, to the buffer whose later lines are already corrected gives the fully corrected buffer |
| `BlankLineIndentation.FixesProduceCorrected` | lib/rubocop/socketry/cop/layout/consistent_blank_line_indentation.rb:36-62 | applying every fix of one pass to the buffer gives the buffer of the corrected lines, and a second pass over them reports nothing |
| `BlankLineIndentation.CorrectionIsIdempotent` | lib/rubocop/socketry/cop/layout/consistent_blank_line_indentation.rb:44-55 | with the same tree, a second pass over the corrected lines reports nothing |
| `BlankLineIndentation.ScenarioMisindented` | test/rubocop/socketry/cop/layout/consistent_blank_line_indentation.rb:8-19 | `def foo` with a two-tab blank line at depth 1 gives exactly one offense, over that line, fixed to one tab |
| `BlankLineIndentation.ScenarioIndented` | test/rubocop/socketry/cop/layout/consistent_blank_line_indentation.rb:21-31 | the same method with a one-tab blank line gives no offense |
| `BlockDelimiterSpacing.ClassifyIsFirstMatch` | lib/rubocop/socketry/layout/block_delimiter_spacing.rb:37-61 | each block gets exactly one policy: the eligible one of lowest rank in the order lambda/proc, method chain, expression, parenthesised, bare |
| `BlockDelimiterSpacing.LambdaOrProcForms` | lib/rubocop/socketry/layout/block_delimiter_spacing.rb:67-80 | a stabby lambda, `lambda`, `proc` and `new` on an unscoped `Proc` constant are lambda/proc; `new` on a scoped `Proc` is not |
| `BlockDelimiterSpacing.ChainAndExpressionPrecedence` | lib/rubocop/socketry/layout/block_delimiter_spacing.rb:86-106 | a block that receives a call is a method chain even when parenthesised; a block under a brace block is an expression; with no parent, or a `begin`, `kwbegin` or `do…end` parent, a block without receiver is parenthesised or bare |
| `BlockDelimiterSpacing.RunStart` | lib/rubocop/socketry/layout/block_delimiter_spacing.rb:122-126 | the start of the whitespace run ending at a position: everything from it to the position is `\s`, and the character before it is not, or it is offset 0 |
| `BlockDelimiterSpacing.ScanWhitespaceBack` | lib/rubocop/socketry/layout/block_delimiter_spacing.rb:123-126 | the backward `while` loop stops exactly at the start of the maximal whitespace run |
| `BlockDelimiterSpacing.CheckNoSpaceForLambda` | lib/rubocop/socketry/layout/block_delimiter_spacing.rb:109-140 | reports and deletes the whitespace run before `{` when a space precedes it, with the lambda/proc message |
| `BlockDelimiterSpacing.CheckNoSpaceForExpression` | lib/rubocop/socketry/layout/block_delimiter_spacing.rb:143-174 | the same check with the expression message |
| `BlockDelimiterSpacing.CheckNoSpaceBeforeBrace` | lib/rubocop/socketry/layout/block_delimiter_spacing.rb:234-270 | the same check with the method-chain message, except when the call's closing delimiter ends at `{` |
| `BlockDelimiterSpacing.Verdict` | lib/rubocop/socketry/layout/block_delimiter_spacing.rb:30-62 | a `do…end` block never yields an offense; every offense carries a fix, and both lie within the buffer |
| `BlockDelimiterSpacing.OnBlock` | lib/rubocop/socketry/layout/block_delimiter_spacing.rb:30-62 | `on_block` skips non-brace blocks, classifies, and runs the check of the chosen policy |
| `BlockDelimiterSpacing.RemoveSpaceFiresIff` | lib/rubocop/socketry/layout/block_delimiter_spacing.rb:113-139 | the remove check fires iff `{` is not at offset 0 and a literal space precedes it; the range is the maximal `\s` run ending at `{`, and the fix deletes it |
| `BlockDelimiterSpacing.RemovalLeavesBraceTight` | lib/rubocop/socketry/layout/block_delimiter_spacing.rb:128-139 | after the removal, `{` follows a non-whitespace character or starts the buffer, nothing else changed, and the check no longer fires |
| `BlockDelimiterSpacing.ChainGuardNeverFires` | lib/rubocop/socketry/layout/block_delimiter_spacing.rb:245-250 | when the closing delimiter ends with `)`, the guard after the space test never fires and the chain check equals the plain remove check |
| `BlockDelimiterSpacing.ParenthesesGapBecomesOneSpace` | lib/rubocop/socketry/layout/block_delimiter_spacing.rb:197-231 | the check fires iff the gap is empty or is all `\s` but not a single space, so no offense for a one-space gap or a gap with a non-whitespace character; an empty gap is reported at `{`, a whitespace gap over itself; the fix leaves exactly one space between `)` and `{`, after which the check is satisfied |
| `BlockDelimiterSpacing.BareInsertsOneSpace` | lib/rubocop/socketry/layout/block_delimiter_spacing.rb:273-293 | the bare check fires iff `{` is not at offset 0 and the character before it is not a space; the fix inserts one space, after which the check is satisfied |
| `BlockDelimiterSpacing.FixIsIdempotent` | lib/rubocop/socketry/layout/block_delimiter_spacing.rb:37-61 | applying the fix and checking the moved block again reports nothing; lambda, chain and expression blocks end up tight, standalone blocks one space after what precedes them |
| `BlockDelimiterSpacing.ScenarioBareWithoutSpace` | test/rubocop/socketry/layout/block_delimiter_spacing.rb:25-36 | `foo{bar}` gives one add-space offense whose fix yields `foo {bar}` |
| `BlockDelimiterSpacing.ScenarioChainWithoutSpace` | test/rubocop/socketry/layout/block_delimiter_spacing.rb:77-87 | `array.each{|x| x * 2}.reverse` gives no offense |
| `BlockDelimiterSpacing.ScenarioChainBeatsParentheses` | test/rubocop/socketry/layout/block_delimiter_spacing.rb:237-248 | `obj.method(1, 2) {|x| x}.other` gives one method-chain remove-space offense over the space after `)`, whose fix deletes it |
| `BlockDelimiterSpacing.ScenarioParenthesesWithoutSpace` | test/rubocop/socketry/layout/block_delimiter_spacing.rb:51-62 | `foo(1, 2, 3){bar}` gives one add-space offense whose fix yields `foo(1, 2, 3) {bar}` |
| `BlockDelimiterSpacing.ScenarioNestedBlocks` | test/rubocop/socketry/layout/block_delimiter_spacing.rb:189-199 | in `foo {bar{baz}}` neither block is reported |
| `BlockDelimiterSpacing.ScenarioLambdaWithSpace` | test/rubocop/socketry/layout/block_delimiter_spacing.rb:263-274 | `->(foo) {foo}` gives one remove-space offense with the lambda message |
| `GlobalExceptionVariables.OnGvar` | lib/rubocop/socketry/style/global_exception_variables.rb:69-97 | at most one offense per reference, over the reference, naming the variable, never with a fix, and only for the four exception globals |
| `GlobalExceptionVariables.OnGvarOutcomes` | lib/rubocop/socketry/style/global_exception_variables.rb:74-96 | no offense iff the name is not an exception global or an ancestor allows it; otherwise the ensure message iff there is an `ensure` ancestor, else the generic message with "this context" |
| `GlobalExceptionVariables.OtherGlobalsNeverFlagged` | lib/rubocop/socketry/style/global_exception_variables.rb:67-72 | any global other than `$!`, `$@`, `$ERROR_INFO`, `$ERROR_POSITION` is never reported |
| `GlobalExceptionVariables.AllowedIsUpwardClosed` | lib/rubocop/socketry/style/global_exception_variables.rb:74-81 | an allowed reference stays allowed whatever further ancestors enclose it, an `ensure` included |
| `GlobalExceptionVariables.OrderOfAncestorsIrrelevant` | lib/rubocop/socketry/style/global_exception_variables.rb:101-120 | the decision depends only on which ancestors there are, not on their order |
| `GlobalExceptionVariables.ScenarioEnsure` | test/rubocop/socketry/style/global_exception_variables.rb:55-74 | both `$!` in `log($!.message) if $!` inside `ensure` get the unsafe message |
| `GlobalExceptionVariables.ScenarioRescueClause` | test/rubocop/socketry/style/global_exception_variables.rb:13-31 | `$!` inside a rescue clause is not reported |
| `GlobalExceptionVariables.ScenarioParameterDefaults` | test/rubocop/socketry/style/global_exception_variables.rb:93-114 | `$!` as a positional or keyword parameter default is not reported |
| `GlobalExceptionVariables.ScenarioUnscoped` | test/rubocop/socketry/style/global_exception_variables.rb:182-199 | both references in `puts $!.message if $!` in a method body get the generic message |

## Left out

- Parsing, `ProcessedSource`, the `Commissioner` that calls `on_new_investigation`, `on_block` and `on_gvar`, and `cop_config` lookup are library code. The tree, its lines and the option values are inputs.
- Offenses are returned as values rather than appended to the cop's internal offense list by `add_offense`.
- The corrector is modelled by `ApplyFixes`. It applies the fixes of ascending, non-overlapping ranges from the last to the first, so each range still refers to the original text. Merging of overlapping edits from different rules is not modelled. The block-spacing idempotence (`FixIsIdempotent`) is stated for one block's fix at a time.
- `IsLambdaOrProc` assumes that `receiver.const_name == :Proc` holds for the constant `Proc` (`lib/rubocop/socketry/layout/block_delimiter_spacing.rb:76`). The return type of `const_name` belongs to a library that is not part of this model. If it returns a String, the comparison with the Symbol never holds, and `Proc.new {…}` would fall through to the method-chain policy. That policy has the same edit but a different message.
- `Parent.receiverIsThisBlock` is an input flag. The source compares `parent.receiver == block_node` by structure, so a structurally equal block elsewhere under the same call also sets it.
- The block-spacing rule is modelled one block at a time, by the facts it queries (`BlockFacts`), rather than on a tree. The exception-variable rule is modelled one reference at a time, with its ancestors as a sequence from innermost to outermost.
- Whether the parser gives a rescue modifier a `resbody` child is outside the model. It is the `hasResBodyChild` input of each `rescue` ancestor.
- Offsets are character offsets of a buffer whose lines are joined by `"\n"`. Other line terminators are not modelled.
- Option values are modelled as present or absent. A configured `false`, which Ruby's `||` also skips, and options of other types are not modelled.
- `BlankLineIndentation.Indentation`: a style other than "tab" or "space" yields `nil` in the source; the model excludes it by precondition (`SupportedConfig`). A negative width, for which `String#*` raises, is excluded the same way.
- `BlankLineIndentation.OnNewInvestigation`: requires every tracked location to satisfy `1 ≤ line ≤ last_line`, as the parser's locations do. Without it a running level could be negative and `String#*` would raise.
- `BlockDelimiterSpacing.FixIsIdempotent`: assumes the call's closing delimiter, when present, ends with `)`. The parser guarantees this, but `BlockFacts` does not record it.
- Messages are datatype values; `MessageText` gives their text by concatenation in place of `format`.
