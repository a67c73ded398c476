# spreadsheet-builder, modelled in Dafny

spreadsheet-builder turns a small template language into spreadsheets. A template
is parsed into a list of elements: sheets, anchors, moves, rows of cells, formats,
column and row sizes, and `for` loops over arrays. An interpreter (the VM) expands
the loops. It evaluates cell and format expressions against a stack of variable
scopes. Each resolved element goes to a consumer, and the xlsx writer is the one
that keeps a cursor on the sheet.

This project models that core and proves what it promises. It is organised by the
source files:

| module | file | source |
|---|---|---|
| `Diag` | diag.dfy | the single error kind (src/engine/diag.rs), plus the `Result`/`Option` wrappers |
| `Numbers` | numbers.dfy | Rust's integer `parse`/`to_string` and the fixed-width integer ranges |
| `Paths` | paths.dfy | `PathSplitter`, the cursor over dotted paths (src/engine/scope.rs) |
| `Values` | values.dfy | `Value`, its arithmetic tables and path resolution (src/engine/scope.rs) |
| `Scoping` | scope.dfy | `Scope` and `Scopes` (src/engine/scope.rs) |
| `Ast` | ast.dfy | the syntax tree (src/engine/ast.rs) |
| `Vm` | vm.dfy | the interpreter (src/engine/vm.rs) |
| `Parser` | parser.dfy | the tree-to-syntax-tree builders (src/engine/parser.rs) |
| `Xlsx` | xlsx.dfy | the writer's cursor, anchors, formats and cell layout (src/xlsx.rs) |

Numbers:

- **Integers** are mathematical integers. Every field the source declares as
  `u16`, `i16`, `i32` or `u32` is a subset type with that range.
- **Floats (`f64`)** are symbolic terms (`Parsed(text)`, `FromInt(i)`, `Sum`,
  `Difference`, `Product`, `Quotient`, `Negated`). Only which kind of value
  comes out is proved about them.

Where the source updates state in place, the model does too:

- `PathSplitter`, `Scopes`, the VM, a recording consumer and the xlsx writer are
  classes.
- The loops of `decode_string`, the `parse_*` builders, `resolve`,
  `resolve_format`, `run`, `for_loop`, `process_row` and `process_format` are
  loops.
- Each such method is proved equal to a specification function. The
  properties are then proved about that function.

The parse tree that pest produces is an input here: a tree of
`Pair(rule, text, children)`. The operator-precedence parser is a parameter that
maps the children of an `expr` pair to an `Expr`. Every spreadsheet-library call
the writer makes becomes a `Call` record appended to its worksheet. Whether the
library accepts a call is a parameter (`Library`).

Arithmetic that wraps: the writer's `row += 1`, `col += colspan` and merge-range
ends overflow `u32`/`u16`. They wrap around here, as in a release build.

A span of 0 is accepted. `parse_cell` reads the text "0" as a valid `u16`, and
the writer then uses it as written (`Xlsx.ZeroSpans`):

- a row span of 0 next to a column span above 1 makes the merge rectangle end
  one row above where it starts;
- a column span of 0 next to a row span above 1 makes it end one column left of
  where it starts;
- a text cell whose column span is 0 and whose row span is at most 1 is not
  written at all.

## Model

| member | source | states |
|---|---|---|
| Numbers.ParseInt | src/engine/parser.rs:214-214 | `str::parse` for an integer type: a parsed value lies in the type's range and the text starts with a digit or a sign the type allows |
| Numbers.ParseIntText | src/engine/scope.rs:32-39 | an integer printed as `to_string` does parses back to itself |
| Numbers.NatTextValue | src/engine/scope.rs:32-39 | the decimal text of a natural number reads back, digit by digit, as that number |
| Numbers.FloatSyntax | src/xlsx.rs:264-264 | the texts `parse::<f64>` accepts are never empty |
| Numbers.DigitsAreFloat | src/xlsx.rs:264-264 | every non-empty run of digits also reads as a float |
| Numbers.FloatsAccepted | src/xlsx.rs:264-264 | a signed integer and a number with an exponent read as floats |
| Numbers.FloatsRejected | src/xlsx.rs:264-264 | the empty text, a lone dot and a word do not |
| Paths.PieceEnd | src/engine/scope.rs:456-470 | the scan stops at the first '.' at or after the start, or at the end |
| Paths.NextPiece | src/engine/scope.rs:456-478 | one `next` step: None exactly at the end or at a '.', cursor unmoved then; otherwise the maximal dot-free piece, the cursor moved past it and its dot |
| Paths.PathSplitter.constructor | src/engine/scope.rs:482-484 | a new splitter is at position 0 of its path |
| Paths.PathSplitter.Reset | src/engine/scope.rs:486-488 | reset puts the cursor back at 0 |
| Paths.PathSplitter.Next | src/engine/scope.rs:456-478 | the `while` loop returns what `NextPiece` specifies and keeps `pos <= |path|` |
| Paths.NoneIsFinal | src/engine/scope.rs:456-478 | after a None the splitter keeps returning None without moving |
| Paths.PiecesAreSegments | src/engine/scope.rs:456-478 | the pieces yielded before the first None are the path's dot-separated segments up to the first empty one |
| Values.Value.AsF64 | src/engine/scope.rs:23-30 | Boolean, Array and Object read as 0.0 |
| Values.Value.AsStr | src/engine/scope.rs:32-39 | Boolean, Array and Object read as ""; an Integer reads as its decimal text |
| Values.Value.Add | src/engine/scope.rs:59-134 | the `+` table: defined exactly for the pairings the table allows, with the result kind it gives; every other pairing is an "invalid operation" error |
| Values.Value.Sub | src/engine/scope.rs:136-185 | the `-` table, with the same three facts |
| Values.Value.Neg | src/engine/scope.rs:187-202 | negation keeps the kind and is defined only on Integer, Float and Boolean |
| Values.Value.Div | src/engine/scope.rs:204-251 | the `/` table: defined only on numbers and always a Float |
| Values.Value.Mul | src/engine/scope.rs:253-300 | the `*` table, with the same three facts |
| Values.NumericResultKinds | src/engine/scope.rs:62-63 | Integer with Integer stays Integer for + - *, any Float makes a Float, `/` is always Float |
| Values.AddArrays | src/engine/scope.rs:114-116 | Array + Array concatenates, left elements first; the length is the sum |
| Values.ArrayActsAsLength | src/engine/scope.rs:76-113 | a number plus an Array, an Array plus a number, and a number minus an Array use the array's length |
| Values.RefusedPairings | src/engine/scope.rs:136-185 | the pairings every table refuses: Array left of - * /, Array right of * /, Boolean or Object on the left, Object on the right, String in - * /, String + Array/Object/Boolean |
| Values.NegTwice | src/engine/scope.rs:187-202 | negating twice gives back an Integer or Boolean; String, Array and Object cannot be negated |
| Values.AddConcatenates | src/engine/scope.rs:59-134 | `+` with a String on either side concatenates, the Integer or Float operand turned into its text, in operand order |
| Values.ConcatenationExample | src/engine/scope.rs:59-134 | `"a" + 1 + 2` is `"a12"` |
| Values.IntegerArithmetic | src/engine/scope.rs:59-300 | two Integers give their sum, difference and product |
| Values.AddIntegersCommutes | src/engine/scope.rs:62-62 | integer addition does not depend on operand order |
| Values.Child | src/engine/scope.rs:41-57 | one path step: an Object's key, or an Array's decimal in-range index; a scalar has no child |
| Values.Value.Resolve | src/engine/scope.rs:41-57 | with no piece left the value itself; a scalar has no children, so a further piece gives None (its partner `ResolveFollowsSegments` ties it to a walk over the segments) |
| Values.ResolveFollowsSegments | src/engine/scope.rs:41-57 | `resolve` walks the value along the path's segments one step at a time, giving None at the first step that fails |
| Values.ResolveAlong | src/engine/scope.rs:41-57 | the recursive walk over a live splitter gives what `resolve` specifies from the splitter's position |
| Scoping.Scope.Get | src/engine/scope.rs:400-402 | a lookup finds exactly the bound names, with their values |
| Scoping.Scope.Define | src/engine/scope.rs:393-397 | define binds the name (overwriting), leaves every other name as it was, adds only that key |
| Scoping.InnermostIndex | src/engine/scope.rs:337-342 | the last saved scope holding the name, and no later one holds it |
| Scoping.ScopeStack.Get | src/engine/scope.rs:337-342 | top first, then the innermost saved scope that binds the name; the unknown-variable error exactly when no scope binds it |
| Scoping.ScopeStack.Enter | src/engine/scope.rs:325-327 | enter pushes the top onto the saved scopes and starts an empty top |
| Scoping.ScopeStack.Exit | src/engine/scope.rs:332-334 | exit pops the last saved scope back into the top |
| Scoping.ScopeStack.DefineTop | src/engine/scope.rs:393-397 | defining changes only the top: the name resolves to the new value, other names resolve as before |
| Scoping.ScopeStack.Resolve | src/engine/scope.rs:365-370 | a literal resolves to its own value |
| Scoping.ScopeStack.ResolveIdentifier | src/engine/scope.rs:352-363 | an identifier with an empty first segment resolves to nothing, and one that resolves names a variable that is bound |
| Scoping.EnterThenExit | src/engine/scope.rs:325-334 | enter then exit restores the stack exactly |
| Scoping.EnterKeepsLookups | src/engine/scope.rs:325-342 | entering a scope hides nothing: every name resolves as before |
| Scoping.ResolveIdentifierBySegments | src/engine/scope.rs:352-363 | the sigil is dropped, the first segment is looked up, and the value is walked along the remaining segments |
| Scoping.NestedLookupExample | src/engine/scope.rs:352-363 | `$dict.inner` finds the nested value |
| Scoping.MissingKeyExample | src/engine/scope.rs:352-363 | a path through a key the object lacks gives None |
| Scoping.UnboundExample | src/engine/scope.rs:352-363 | a variable bound in no scope gives None |
| Scoping.Scopes.constructor | src/engine/scope.rs:317-322 | a new stack is an empty top with nothing saved |
| Scoping.Scopes.Enter | src/engine/scope.rs:325-327 | the state becomes the specified `Enter` |
| Scoping.Scopes.Exit | src/engine/scope.rs:332-334 | the state becomes the specified `Exit`; it needs a saved scope |
| Scoping.Scopes.Define | src/engine/scope.rs:393-397 | the state becomes the specified `DefineTop` |
| Scoping.Scopes.Get | src/engine/scope.rs:337-342 | the search loop from the innermost saved scope returns what `ScopeStack.Get` specifies |
| Scoping.Scopes.ResolveIdentifier | src/engine/scope.rs:352-363 | the splitter-driven lookup returns what the specification gives |
| Scoping.Scopes.Resolve | src/engine/scope.rs:365-370 | the same, for a primary expression |
| Ast.Expression.AsStr | src/engine/ast.rs:131-136 | an identifier reads as ""; a literal reads as its value's text: a String as itself, an Integer as its decimal text, Boolean, Array and Object as "" |
| Ast.Expression.AsF64 | src/engine/ast.rs:138-143 | an identifier reads as 0.0; a literal reads as its value's float: a String as its parse, an Integer as its `as f64`, Boolean, Array and Object as 0.0 |
| Ast.Expr.AsStr | src/engine/ast.rs:147-152 | anything but a primary value reads as "" |
| Ast.Expr.AsF64 | src/engine/ast.rs:154-159 | anything but a primary value reads as 0.0 |
| Ast.DefaultExprViews | src/engine/ast.rs:102-106 | the default expression is the empty string: it reads as "" and as the float parsed from "", the failed parse `as_f64` turns into 0.0 |
| Ast.ElementSize | src/engine/ast.rs:61-73 | every element has a positive size, so running a nested body always terminates |
| Vm.ResolveExpression | src/engine/vm.rs:68-84 | a literal gives its value; an identifier gives its resolution or, when it has none, the "Unresolved identifier" error |
| Vm.Handle | src/engine/vm.rs:86-94 | each infix operator defers to its value table; Neg as an infix operator is the "Invalid infix operator" error |
| Vm.Shortcut | src/engine/vm.rs:99-117 | whenever an identifier short-cut applies, its value is what strict evaluation gives |
| Vm.ResolveExpr | src/engine/vm.rs:96-130 | evaluation with the identifier short-cuts equals strict left-then-right evaluation, errors included |
| Vm.OperatorMisuse | src/engine/vm.rs:121-127 | Neg used infix and a non-Neg prefix are errors; Neg prefix negates; an error on the left wins |
| Vm.PrimaryResults | src/engine/vm.rs:68-84 | a literal evaluates to itself; an unresolvable identifier is an "Unresolved identifier" error |
| Vm.ResolvedCells | src/engine/vm.rs:132-146 | on success the same number of cells, each with every field kept and its value replaced by the evaluated literal; on failure the error of the first failing cell |
| Vm.CellsResolve | src/engine/vm.rs:132-146 | a row resolves exactly when every one of its cells evaluates |
| Vm.ResolvedModifiers | src/engine/vm.rs:148-161 | the same for format modifiers: statements and count kept |
| Vm.CellsStopAtError | src/engine/vm.rs:134-135 | once a cell fails, later cells do not change the result |
| Vm.ModifiersStopAtError | src/engine/vm.rs:150-151 | once a modifier fails, later ones do not change the result |
| Vm.CellsStep | src/engine/vm.rs:134-143 | resolving one more cell appends that cell, with every field kept and its value evaluated, or fails with that cell's error |
| Vm.ModifiersStep | src/engine/vm.rs:150-156 | resolving one more modifier appends it with its statement kept and its expression evaluated, or fails with its error |
| Vm.IterationScopes | src/engine/vm.rs:58-60 | an iteration's scope is a pushed empty scope with `index` and the variable (sigil dropped) bound; everything else resolves as before, and exit restores the stack |
| Vm.RunSpec | src/engine/vm.rs:24-48 | a run that succeeds leaves the scopes as they were; the consumer's trace only gains elements at its end, none of them a loop, and rows and formats only with literal values |
| Vm.StepSpec | src/engine/vm.rs:30-45 | one element (formats and rows resolved first, loops expanded): scopes restored on success, and only resolved, loop-free elements reach the consumer |
| Vm.LoopSpec | src/engine/vm.rs:50-66 | a loop that succeeds leaves the scopes as they were; the trace only grows |
| Vm.IterationSpec | src/engine/vm.rs:58-62 | an iteration that succeeds exits the scope it entered, so the stack is as before; the trace only grows |
| Vm.IterSpec | src/engine/vm.rs:57-63 | the first n iterations, in array order: scopes restored on success, only resolved elements handed over |
| Vm.RunStopsAtError | src/engine/vm.rs:29-47 | the first error stops the run: later elements change nothing |
| Vm.IterStopsAtError | src/engine/vm.rs:57-63 | the first failing iteration stops the loop |
| Vm.RunConcat | src/engine/vm.rs:29-47 | running a concatenation runs the first part, then, if that succeeded, the second |
| Vm.PlainElementsPassThrough | src/engine/vm.rs:42-44 | elements other than Format, Row and ForLoop reach an accepting consumer unchanged and in order |
| Vm.NonArraySourceSkips | src/engine/vm.rs:56-65 | a loop whose source is not an Array does nothing and succeeds |
| Vm.IndexVariableOverwrites | src/engine/vm.rs:59-60 | a loop variable named `$index` overwrites the index binding |
| Vm.IterationBindings | src/engine/vm.rs:58-60 | inside iteration i, `$x` resolves to the element and `$index` to i |
| Vm.EchoLoop | src/engine/vm.rs:55-65 | a loop over a two-element array hands over one resolved row per element, in order, and restores the scopes |
| Vm.ErrorLeavesScopeEntered | src/engine/vm.rs:61-62 | an error inside a loop body skips `exit`: the iteration's scope stays pushed |
| Vm.Recorder.Process | src/engine/vm.rs:7-9 | the consumer either refuses an element with an error, or appends it to its trace |
| Vm.VM.constructor | src/engine/vm.rs:15-21 | a new VM has an empty scope stack |
| Vm.VM.Resolve | src/engine/vm.rs:132-146 | the cell loop returns the specified resolved row |
| Vm.VM.ResolveFormat | src/engine/vm.rs:148-161 | the modifier loop returns the specified resolved format |
| Vm.VM.Run | src/engine/vm.rs:24-48 | the element loop produces exactly the specified result, scopes and trace |
| Vm.VM.RunElement | src/engine/vm.rs:30-45 | one element, dispatched on its kind, produces exactly the outcome `StepSpec` specifies |
| Vm.VM.RunLoop | src/engine/vm.rs:50-66 | the loop over the array produces exactly the specified outcome |
| Vm.VM.RunIteration | src/engine/vm.rs:58-62 | enter, bind `index` and the variable, run the body, exit on success |
| Parser.LastIn | src/engine/parser.rs:147-155 | "the last pair of a rule wins": None when there is none, otherwise a pair of that rule with none after it |
| Parser.FirstIn | src/engine/parser.rs:375-388 | the first pair of the given rules, with none before it |
| Parser.LastInConcat | src/engine/parser.rs:345-360 | in a concatenation, the right part's last match wins when it has one |
| Parser.LastTextIsLastIn | src/engine/parser.rs:147-155 | the text the loop keeps by overwriting is the text of the last pair of that rule |
| Parser.LastTextConcat | src/engine/parser.rs:345-360 | over a concatenation, the right part's last text of a rule wins when it has one |
| Parser.LastTextAbsent | src/engine/parser.rs:311-316 | with no pair of the rule, nothing overwrites the default |
| Parser.DecodeString | src/engine/parser.rs:167-205 | the one-pass loop with its `quoted` flag returns the quotes-stripped, unescaped text |
| Parser.PendingStep | src/engine/parser.rs:183-204 | each character read either emits its escape, arms the escape flag, or emits itself |
| Parser.DecodedShrinks | src/engine/parser.rs:167-205 | decoding never lengthens a string |
| Parser.DecodedPlain | src/engine/parser.rs:194-200 | with no backslash and no surrounding quotes, decoding is the identity |
| Parser.EscapePairExamples | src/engine/parser.rs:170-204 | `\n \r \t \\ \"` decode to their characters |
| Parser.EscapeEdgeExamples | src/engine/parser.rs:170-204 | any other escaped character decodes to itself, and a trailing lone backslash is dropped |
| Parser.QuoteExamples | src/engine/parser.rs:170-204 | one pair of quotes is stripped, and only when the text is at least two long |
| Parser.ParseValue | src/engine/parser.rs:207-224 | number text with '.' or 'e' is a Float, otherwise an `i64` Integer that is 0 when it does not parse; a string is decoded; anything else is "" |
| Parser.ParseValueOfIntText | src/engine/parser.rs:214-214 | an integer literal as `i64` prints it reads back as that integer |
| Parser.ParseExpression | src/engine/parser.rs:375-388 | the first number, string or variable among the children; Integer 0 when there is none |
| Parser.ParseExpressionExample | src/engine/parser.rs:375-388 | the first primary wins over later ones |
| Parser.CellTypeOf | src/engine/parser.rs:319-328 | any type text other than "num", "date", "img" is Str |
| Parser.ColumnStep | src/engine/parser.rs:253-273 | one more child changes at most one column field: the first three numbers go to start, end, width |
| Parser.RowSpecStep | src/engine/parser.rs:287-302 | the first two numbers go to start and height |
| Parser.CellStep | src/engine/parser.rs:317-365 | one more child changes at most the one cell field its rule names |
| Parser.ParseSheet | src/engine/parser.rs:147-155 | the loop returns the decoded last sheet identifier, "" when there is none |
| Parser.ParseAnchor | src/engine/parser.rs:157-165 | the loop returns the last anchor identifier |
| Parser.ParseMover | src/engine/parser.rs:226-245 | the loop returns the specified move |
| Parser.MoveStep | src/engine/parser.rs:226-245 | one more child sets the anchor, the row or the column its rule names, and nothing else |
| Parser.ParseColumn | src/engine/parser.rs:247-279 | the counter-driven loop returns the specified column |
| Parser.ParseRowspec | src/engine/parser.rs:281-308 | the counter-driven loop returns the specified row size |
| Parser.ReadSpan | src/engine/parser.rs:345-352 | every number inside a span pair replaces the span, a failed parse giving 1 |
| Parser.ParseCell | src/engine/parser.rs:310-373 | the loop returns the specified cell |
| Parser.ParseRow | src/engine/parser.rs:411-420 | one cell per `cell` child, in order |
| Parser.ParseModifier | src/engine/parser.rs:114-135 | a modifier's statement (or "") and expression (or the default) |
| Parser.ParseFormat | src/engine/parser.rs:105-145 | the last format identifier and one modifier per `format_modifier`, in order |
| Parser.FormatStep | src/engine/parser.rs:105-145 | one more child sets the identifier, appends one modifier, or changes nothing |
| Parser.ParseForLoop | src/engine/parser.rs:78-103 | variable, source and body as specified: every other child that is an element joins the body |
| Parser.LoopStep | src/engine/parser.rs:78-103 | one more child sets the variable or the source, or appends the element it stands for to the body |
| Parser.ParseElement | src/engine/parser.rs:38-76 | the rule dispatch; a pair that is not an element gives None |
| Parser.ParseElements | src/engine/parser.rs:26-36 | the elements among the pairs, in order |
| Parser.CellDefaults | src/engine/parser.rs:311-316 | with none of its attributes, a cell is Str, Integer 0, no format, spans 1, no image mode |
| Parser.SpanExamples | src/engine/parser.rs:345-360 | a span is its number as a `u16`; text that is not one (not digits, too large) gives 1; the last number wins |
| Parser.ColumnIgnoresExtras | src/engine/parser.rs:253-266 | a fourth number changes nothing |
| Parser.RowSpecIgnoresExtras | src/engine/parser.rs:287-297 | a third number changes nothing |
| Parser.ColumnExample | src/engine/parser.rs:247-279 | start, end and width come from the numbers in order; the unit from `width_unit` |
| Parser.MoverLastWins | src/engine/parser.rs:235-237 | the last `mover_x` sets the row as an `i32`, 0 when it is not one, and nothing else changes |
| Parser.MoverWithoutAnchor | src/engine/parser.rs:227-233 | with no anchor child the move has no anchor |
| Parser.ElementsConcat | src/engine/parser.rs:26-36 | building elements distributes over concatenation |
| Parser.NonElementsSkipped | src/engine/parser.rs:74-74 | a pair that is not an element leaves no trace in the list |
| Parser.LoopWithoutSource | src/engine/parser.rs:79-80 | a loop with no `expression` child iterates over Integer 0 |
| Xlsx.Wrap32 | src/xlsx.rs:85-85 | `u32` `+=`, wrapping: unchanged in range, 2^32 becomes 0 |
| Xlsx.CheckedAdd | src/xlsx.rs:76-81 | `checked_add_signed(..).unwrap_or_default()`: the sum when it fits the type, 0 otherwise |
| Xlsx.InterpretBorder | src/xlsx.rs:313-330 | each of the 14 names gives the style spelled that way; any other text is Thin |
| Xlsx.BorderNamesRoundTrip | src/xlsx.rs:313-330 | every style is reached by its own name |
| Xlsx.SetterOf | src/xlsx.rs:221-295 | the setting each modifier statement applies; `indent` only when the parameter is a `u8`, `font_size` only when it is a float |
| Xlsx.StyleOf | src/xlsx.rs:216-296 | a format holds at most one setting per modifier |
| Xlsx.StyleExamples | src/xlsx.rs:246-272 | bad `indent` or `align` parameters and unknown statements are skipped; an unknown border name is thin |
| Xlsx.FormatFor | src/xlsx.rs:126-142 | a cell's named format when registered, carrying the style registered under that name at the time of the write; otherwise the built-in number format ("0.00") for Num, the date format ("dd/mm/yyyy hh:mm") for Date, the default for the rest |
| Xlsx.CellCalls | src/xlsx.rs:144-204 | a cell makes no call exactly when it is an unmerged text cell with a span other than 1; a merged cell's first call is its merge |
| Xlsx.Attempt | src/xlsx.rs:144-204 | calls go out in order: success exactly when the library accepts them all, and then all are made |
| Xlsx.AttemptStopsAtRefusal | src/xlsx.rs:144-204 | the first refused call ends the cell, keeping only the calls before it |
| Xlsx.RowCells | src/xlsx.rs:125-206 | writing cells changes only the worksheet and the column |
| Xlsx.CellEffect | src/xlsx.rs:126-205 | one cell sends its calls for the cursor position and, when all go through, moves the column right by its colspan; a refused call keeps the column and reports the library error |
| Xlsx.RowCellsStopAtError | src/xlsx.rs:125-206 | after a refused call no later cell is attempted |
| Xlsx.RowCellsWrites | src/xlsx.rs:125-206 | the worksheet receives each cell's calls in order, cell k placed at the starting column plus the spans of the cells before it |
| Xlsx.RowCellsColumn | src/xlsx.rs:125-206 | after the cells the column is the starting column plus all their spans, wrapped to `u16` |
| Xlsx.RowMovesDown | src/xlsx.rs:121-213 | a row that goes through moves one row down and back to the starting column, touching nothing else |
| Xlsx.RowWithoutSheet | src/xlsx.rs:122-122 | without a worksheet a row changes nothing |
| Xlsx.RowErrorKeepsRow | src/xlsx.rs:164-209 | a refused call leaves the cursor on the same row and the column where the failing cell left it: the row effect is just the cell writes |
| Xlsx.MergeBounds | src/xlsx.rs:144-162 | a merge comes first and happens exactly when a span exceeds 1, ending at row + rowspan - 1 and col + colspan - 1 |
| Xlsx.WritesUseChosenFormat | src/xlsx.rs:164-190 | every write goes to the cell's position in the chosen format |
| Xlsx.ImagePlacement | src/xlsx.rs:156-202 | an image is always loaded, after a textless merge when it spans more than one grid cell; "embed" (the default) fits it, "insert" places it, other modes place nothing |
| Xlsx.TextCells | src/xlsx.rs:144-182 | a single text cell is written as text; a merged one gets its text through the merge |
| Xlsx.RowExample | src/xlsx.rs:121-213 | a two-wide text cell then a number cell: the merge over columns 1-2, the number at column 3 |
| Xlsx.ZeroSpans | src/xlsx.rs:144-182 | spans of 0 as written: a row span of 0 makes a merge end one row above its start, a column span of 0 one column left of it, and a 0-wide text cell makes no call at all |
| Xlsx.SheetStarts | src/xlsx.rs:51-61 | a sheet files the previous worksheet and starts an empty one at row 0, column 0; a refused name leaves no worksheet and the cursor where it was |
| Xlsx.CarriageReturn | src/xlsx.rs:84-87 | a carriage return goes to column 0 of the next row |
| Xlsx.ReturnToAnchor | src/xlsx.rs:65-83 | an anchor stores the cursor, and a zero move to it later returns there |
| Xlsx.MoverBounds | src/xlsx.rs:73-83 | a move adds its deltas to the cursor or a known anchor, a coordinate leaving the grid becomes 0, an unknown anchor changes nothing |
| Xlsx.Process | src/xlsx.rs:48-119 | an element fails only with a library error; only a format element changes the formats, only an anchor the anchors, only a sheet the workbook; a loop is ignored |
| Xlsx.FormatRegistered | src/xlsx.rs:215-299 | a registered format is inserted or overwritten under its name, and later cells naming it are written with that style |
| Xlsx.StyleFixedAtWrite | src/xlsx.rs:126-128 | a write carries the style its format had when the cell was written, so writes under different registrations of a name differ |
| Xlsx.XlsxWriter.constructor | src/xlsx.rs:23-37 | a new writer has no worksheet, the cursor at the origin, no anchors and no formats |
| Xlsx.XlsxWriter.Perform | src/xlsx.rs:144-204 | the call loop does what `Attempt` specifies and changes only the worksheet |
| Xlsx.XlsxWriter.WriteCell | src/xlsx.rs:126-205 | one pass of the cell loop has exactly the specified cell effect |
| Xlsx.XlsxWriter.ProcessRow | src/xlsx.rs:121-213 | the cell loop produces exactly the specified row effect |
| Xlsx.XlsxWriter.ProcessFormat | src/xlsx.rs:215-299 | the modifier loop registers the specified style under the format's name and changes nothing else |
| Xlsx.XlsxWriter.ProcessInternal | src/xlsx.rs:48-119 | each element's effect on the writer is exactly the specified one |

## Left out

- The pest grammar, `parse_stream` and `parse_expr` (src/engine/parser.rs:14-24, 390-409) are not modelled. The parse tree is an input, and the operator-precedence parser is a parameter.
- Floating-point arithmetic, `f64::to_string` and the text-to-float reading in `as_f64` are not modelled. Floats are symbolic terms, so only result kinds are proved.
- Values.Value.Add: integer overflow of `i64` is not modelled; the same holds for Sub, Mul and Neg. Integers are unbounded, so `NegTwice` holds for every integer, including the `i64` minimum.
- The serde `Deserialize` glue, `Scopes::get_mut`, `Scope::get_mut`, `Slot` and `Scope`'s `Debug` output are not modelled. They are a data-loading layer and reference plumbing.
- `Arc` sharing is not modelled. Values are immutable, so sharing cannot be observed.
- Object key order is not modelled: an Object is a map.
- Scoping.Scopes.ResolveIdentifier: identifiers and loop variables must be non-empty, because the source slices off their first character and would panic on an empty one. Text is indexed by character where the source indexes bytes; the two agree on the ASCII sigil.
- Scoping.Scopes.Define: a definition replaces the top scope as a value; it is not an in-place insert.
- Vm.Recorder.Process: the consumer is an abstract recorder with a refusal oracle. A refused element is not added to its trace.
- The exact text of library errors is not modelled. `handle_error` formats the library's error with `Debug`; here every refused call gives one fixed message.
- The workbook, `save`, and what each library call does to the file are not modelled. Calls are recorded, and whether each succeeds is a parameter. A refused call records nothing.
- Xlsx.Wrap32: `row += 1`, `col += colspan` and the merge-range ends wrap around as in a release build. A debug build would panic instead.
- Xlsx.SetterOf: the style setters are kept as records. Their effect on a format is the library's.
- `width as u16` and `height as u16` (float to integer casts) are not modelled. The sizing calls record the symbolic float and a pixels flag.
- src/csv.rs (a CSV writer) and src/main.rs (the entry point and file I/O) are not part of this model.
- src/engine/diag.rs is absorbed into the model as `Diag.Error` (its one `Message` variant); its `Display` text ("Message: ...") and the `From` conversions are not modelled.
