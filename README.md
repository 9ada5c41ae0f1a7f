# Periodic table generator: query language, element data and layout

This project models the core of a Rust periodic-table generator in Dafny:

- **The query language** (`src/query.rs`). A query is one expression over a few symbols of an element:
  - symbols: `z`/`atomic_number`, `group`, `period`, `block`, and the four `oxidation_states.*` sets;
  - literals: booleans, 32-bit integers and set literals;
  - thirteen binary operators, on a fixed precedence ladder from `||` (loosest) to `/`;
  - two prefix operators, `!` and `-`.

  `Syntax` models the recursive-descent parser character by character. `Unparse` is a printer, the parser's partner. `Evaluation` is the evaluator. `Queries` holds `Query::new` (the whole input must be one expression, then whitespace) and `evaluate_on` (the value must be a boolean). `QueryExamples` restates the source's parser unit tests and a set of edge cases as lemmas.
- **Element data** (`src/elements.rs`), in `Elements`:
  - period and group from the atomic number, and the block from the group;
  - the table of all 118 element records;
  - the line-by-line builder of the oxidation-state table from the cleaned reference text, as functions with a proved imperative counterpart (`BuildOxidationStates`, `RecordStates`).
- **The printable table layout** (`src/main.rs`), in `Layout`. These are the tiles of `new_elements`:
  - the narrow layout, with the f-block in rows 9-10;
  - the wide layout, with the f-block inside periods 6-7;
  - helium beside hydrogen or at column 18.

Parsers are functions of the whole input and a position. They return the parsed value and the position after it, or `NoParse`. Every parser failure is recoverable, as in the source, which never cuts.

Integer arithmetic that leaves the `i32` range, and division by zero, are failures of their own (`Overflow`, `DivisionByZero`) rather than aborts. See "Left out".

## Model

| member | source | states |
|---|---|---|
| Syntax.SkipSpace | src/query.rs:263 | skipping whitespace stops at the end or at the first non-whitespace character |
| Syntax.SkippedSpace | src/query.rs:263 | every character skipped is whitespace |
| Syntax.Parse | src/query.rs:196-198 | a successful parse consumes at least one character and stays inside the input |
| Syntax.Level | src/query.rs:200-258 | each ladder level consumes input when it succeeds |
| Syntax.Fold | src/query.rs:318-325 | the fold of `tag operand` pairs always succeeds, never moves backwards, and keeps to the input |
| Syntax.Primary | src/query.rs:260-272 | the five primaries, tried in order, consume input when one succeeds |
| Syntax.Parenthesised | src/query.rs:262-266 | a parenthesised expression consumes input |
| Syntax.LiteralSet | src/query.rs:300-306 | a set literal consumes input |
| Syntax.SetItems | src/query.rs:303 | the separated list never fails and stays inside the input |
| Syntax.SetTail | src/query.rs:303 | the list read so far is a prefix of the result |
| Syntax.LiteralBool | src/query.rs:274-279 | a boolean literal consumes input |
| Syntax.DigitsEnd | src/query.rs:282 | the digit run ends at the end of the input or at a non-digit |
| Syntax.DigitRun | src/query.rs:282 | everything inside the run is a digit |
| Syntax.LiteralInt | src/query.rs:281-285 | an integer literal consumes input |
| Syntax.PartEnd | src/query.rs:288-290 | a symbol part consumes at least its letter |
| Syntax.IdentEnd | src/query.rs:289 | the identifier run ends at the end or at a character that is not a letter, digit or `_` |
| Syntax.IdentRun | src/query.rs:289 | everything inside the run is a letter, digit or `_` |
| Syntax.DottedEnd | src/query.rs:294 | the dotted continuation never moves backwards |
| Syntax.ParseSymbol | src/query.rs:287-298 | a symbol consumes input |
| Unparse.BinaryLevel | src/query.rs:200-250 | each binary operator has its own rung among the thirteen binary rungs |
| Unparse.Prec | src/query.rs:200-258 | binary expressions sit on binary rungs of their operator, prefix ones on the two prefix rungs, everything else at the primaries |
| Unparse.NatText | src/query.rs:282 | decimal text is non-empty and all digits |
| Unparse.NatTextValue | src/query.rs:282 | the digits of `m` read back as `m` |
| Unparse.RoundTrip | src/query.rs:196-345 | every printable expression is read back from its printed text at any level, whatever ends it |
| Unparse.ParenRoundTrip | src/query.rs:260-266 | an expression printed in parentheses is read back |
| Unparse.BinaryRoundTrip | src/query.rs:310-326 | a printed binary expression is read back as the same left fold |
| Unparse.UnaryRoundTrip | src/query.rs:328-345 | a printed prefix expression is read back |
| Unparse.SetRoundTrip | src/query.rs:300-306 | a printed set literal is read back with its members in order |
| Unparse.SetItemsRoundTrip | src/query.rs:303 | the printed members of a set are read back as the list |
| Unparse.SetTailRoundTrip | src/query.rs:303 | the printed remaining members are read back after the first |
| Unparse.AtomRoundTrip | src/query.rs:267-270 | a printed boolean, integer or symbol is read back |
| Unparse.IntRoundTrip | src/query.rs:281-285 | a printed integer is read back with its sign |
| Unparse.LiteralIntReads | src/query.rs:281-285 | the decimal text of any `i32` is read as that integer |
| Unparse.LeastMagnitudeFails | src/query.rs:282 | the digits of 2147483648 do not fit `i32`, so the primary fails |
| Unparse.SymbolRoundTrip | src/query.rs:287-298 | a printed symbol is read back |
| Unparse.ParseSymbolReads | src/query.rs:287-298 | a well-formed dotted name followed by a token boundary is read whole |
| Unparse.KeywordAbsent | src/query.rs:274-279 | a symbol that does not begin with a keyword does not match it |
| Unparse.LevelSkipsSpace | src/query.rs:310-345 | leading whitespace never changes what any level parses |
| Unparse.LevelFails | src/query.rs:260-345 | no level parses where no expression can start |
| Unparse.BinaryLevelFolds | src/query.rs:318-325 | a binary level is its operand level followed by the fold |
| Unparse.FoldStops | src/query.rs:320-324 | the fold stops where its operator does not follow |
| Unparse.FoldStep | src/query.rs:320-324 | one step folds the operator and the next operand in as the right child |
| Unparse.UnaryTakes | src/query.rs:337-341 | a prefix level takes its tag and operand when both are there |
| Unparse.LiftBinaries | src/query.rs:318-325 | a result of a tighter level is the result of every looser level when no operator follows |
| Unparse.FailBinaries | src/query.rs:319 | a failure of a tighter level is a failure of every looser binary level |
| Unparse.StopBeforeOperator | src/query.rs:321 | a spaced operator ends every operand of a tighter level |
| Evaluation.StatesValue | src/query.rs:58-60 | an oxidation-state set becomes the set of the same integers, all within `i8` |
| Evaluation.Resolve | src/query.rs:65-83 | exactly the nine element symbols resolve: `atomic_number` and `z` to the atomic number, `group` to the group or -1 when there is none, `period` and `block` to their fields, and the four oxidation-state names each to its own set; any other name is an unknown-symbol failure |
| Evaluation.Checked | src/query.rs:120-123 | an integer result is kept exactly when it fits `i32`, and is otherwise an overflow |
| Evaluation.ApplyUnary | src/query.rs:91-101 | `!` negates booleans and unary `-` negates integers; every other operand is a mismatch; only negating the least `i32` overflows |
| Evaluation.ApplyBinary | src/query.rs:102-135 | the result kind follows the operator family, an operand pair outside it is a mismatch, and only arithmetic fails otherwise; division by zero exactly for a zero divisor |
| Evaluation.LogicValues | src/query.rs:108-115 | `\|\|` and `&&` are disjunction and conjunction of booleans, and `==`, `!=` are equality and its negation on any two values of one kind |
| Evaluation.OrderValues | src/query.rs:116-119 | `<`, `<=` compare two integers, and `>`, `>=` are the same comparisons with the operands swapped |
| Evaluation.ArithmeticValues | src/query.rs:120-123 | integer `+`, `-` and `*` give the mathematical result when it fits `i32` and an overflow otherwise; `+` and `*` are commutative |
| Evaluation.SetValues | src/query.rs:124-129 | set `+` is union and set `-` difference; `in` is membership for a non-set left operand and inclusion for a set one |
| Evaluation.DivideMeaning | src/query.rs:123 | division truncates toward zero, and only the least `i32` divided by -1 overflows |
| Ints.TruncDiv | src/query.rs:123 | the remainder of truncating division is smaller than the divisor in magnitude and, when not zero, has the sign of the dividend; the quotient is no larger in magnitude than the dividend |
| Evaluation.Eval | src/query.rs:55-136 | a value always has the kind the reference typing assigns to the query; a well-typed query fails only through arithmetic |
| Evaluation.EvalItems | src/query.rs:85-90 | a set literal evaluates only when every member is well-typed, and then fails only through arithmetic |
| Evaluation.ArithmeticFailureSource | src/query.rs:120-123 | overflow and division by zero come only from arithmetic operators |
| Evaluation.WellTypedEvaluates | src/query.rs:55-136 | a well-typed query without arithmetic evaluates on every element, to its kind |
| Evaluation.ClosedIgnoresElement | src/query.rs:55-136 | a query without symbols means the same on every element |
| Evaluation.EvalItemsMeaning | src/query.rs:85-90 | a set literal succeeds exactly when every member does and then holds their values; otherwise it fails with the failure of its first failing member |
| Evaluation.SingletonIn | src/query.rs:126-129 | `{a} in s` asks the same as `a in s` for a non-set `a` |
| Evaluation.SetOnLeftIsInclusion | src/query.rs:128-129 | a set on the left of `in` asks for inclusion, not membership |
| Evaluation.TableSymbols | src/query.rs:66-70 | on the table's records, the symbols take their documented ranges |
| Queries.New | src/query.rs:9-28 | a query compiles exactly when one expression is read from the start and only whitespace follows it; the compiled expression is that one; otherwise it is a syntax error |
| Queries.EvaluateOn | src/query.rs:30-38 | the answer is the value when it is a boolean; an evaluation failure is passed on, and any other value is refused |
| Queries.ParsePrinted | src/query.rs:196-198 | a printable expression with whitespace around it is read back up to the whitespace after it |
| Queries.NewAcceptsPrinted | src/query.rs:9-28 | every printable expression, with any whitespace around it, compiles to itself |
| Queries.ReadBinary | src/query.rs:432-436 | extra whitespace after a binary operator, or parentheses around its right operand, do not change what is read |
| Queries.EvaluateOnKinds | src/query.rs:30-38 | a query answers only when its expression is of boolean kind, and always does when it also has no arithmetic |
| QueryExamples.SymbolTest | src/query.rs:355-367 | `atomic_number `, `oxidation_state.notable  ` and `CamelCase  ` are read as symbols up to the trailing spaces |
| QueryExamples.DoubleDotTest | src/query.rs:368-371 | `oxidation..state` is read as the symbol `oxidation` alone |
| QueryExamples.SymbolRejectsTest | src/query.rs:372-373 | a symbol cannot begin with `_` or `.` |
| QueryExamples.LiteralBoolTest | src/query.rs:376-379 | `  true ` is the literal true, read up to the last space |
| QueryExamples.LiteralIntTest | src/query.rs:381-384 | `  -15 ` is the literal -15, read up to the last space |
| QueryExamples.EqualityTest | src/query.rs:386-402 | `atomic_number == 5  ` is an equality, read up to the trailing spaces |
| QueryExamples.PrecedenceTest | src/query.rs:409-431 | `&&` binds tighter than `\|\|`, and comparisons tighter than both |
| QueryExamples.SpacingTest | src/query.rs:432-435 | the doubled space and the parenthesised spelling read as the same expression |
| QueryExamples.ArithmeticSpacingTest | src/query.rs:436 | `2 +  2 * 2` and `2 + (2 * 2)` read as the same expression |
| QueryExamples.NegationTest | src/query.rs:439-458 | `!a \|\| b` negates `a` only |
| QueryExamples.MembershipTest | src/query.rs:460-475 | `{Z, 2, 3} in oxidation_states.notable` is a set literal tested against a symbol |
| QueryExamples.ArithmeticTest | src/query.rs:244-246 | `*` binds tighter than `+` |
| QueryExamples.LeftFoldTest | src/query.rs:320-324 | `10 - 2 - 3` is `(10 - 2) - 3` |
| QueryExamples.LeftFoldValue | src/query.rs:121 | `10 - 2 - 3` evaluates to 5 |
| QueryExamples.LeadingMinus | src/query.rs:256-258 | a leading `-` is the prefix operator on the literal 15 |
| QueryExamples.DoubleMinus | src/query.rs:256-285 | in `--15` the second `-` is the literal's sign |
| QueryExamples.DoubleNotFails | src/query.rs:252-254 | `!!a` does not parse, because the operand of `!` cannot begin with `!` |
| QueryExamples.SpaceBeforeCommaFails | src/query.rs:303 | `{1 ,2}` does not parse, because no whitespace may precede a comma |
| QueryExamples.InsideWordIsOperator | src/query.rs:232-234 | `z index` reads as `z in dex`: the `in` tag matches inside a word |
| QueryExamples.PaddedQuery | src/query.rs:12 | whitespace around a whole query is accepted |
| QueryExamples.UpperCaseSymbolFails | src/query.rs:65-83 | symbols are case-sensitive and `\|\|` evaluates both sides, so the upper-case `Z` fails even beside `true` |
| QueryExamples.AtomicNumberQuery | src/query.rs:66 | `atomic_number == 5` answers whether the element is boron |
| QueryExamples.CommonStateQuery | src/query.rs:71-126 | `2 in oxidation_states.common` asks whether 2 is a common state |
| QueryExamples.MixedEqualityFails | src/query.rs:130-133 | `1 == true` is a mismatch, not `false` |
| QueryExamples.MembershipValues | src/query.rs:126-129 | `1 in {1, 2, 3}` and `{1, 2} in {1, 2, 3}` hold, and `{1, 4} in {1, 2, 3}` does not |
| QueryExamples.IntegerQueryRefused | src/query.rs:33-36 | the query `5` is refused as not boolean |
| QueryExamples.SodiumQuery | src/query.rs:30-38 | sodium satisfies `z == 1 \|\| (group == 1 && period >= 2)` |
| QueryExamples.SodiumAnswer | src/query.rs:30-38 | any element of number 11, period 3 and group 1 satisfies `z == 1 \|\| (group == 1 && period >= 2)` |
| Elements.PeriodRanges | src/elements.rs:40-94 | the periods are the rows 1-2, 3-10, 11-18, 19-36, 37-54, 55-86 and 87-118 |
| Elements.PeriodGroup | src/elements.rs:40-93 | exactly the atomic numbers 1-118 have a period, which is 1-7; any group is 1-18; a number outside the table gets `(0, None)` |
| Elements.BlockOf | src/elements.rs:96-102 | the block is 0-3; it is 3 exactly for a missing group (other than helium's), and no block exists exactly for a group outside 1-18 |
| Elements.GroupRange | src/elements.rs:75-92 | only La-Yb and Ac-No lack a group; all other groups are 1-18 |
| Elements.GroupThreeHolders | src/elements.rs:75-92 | group 3 of periods 6 and 7 is held by lutetium and lawrencium |
| Elements.AtomicNumberAt | src/elements.rs:40-94 | the inverse of period and group: any element it finds has that period and group |
| Elements.AtomicNumberAtInverts | src/elements.rs:40-94 | every element with a group is found again at its cell |
| Elements.PeriodGroupUnique | src/elements.rs:40-94 | no two elements with a group share a cell |
| Elements.Blocks | src/elements.rs:96-102 | s-block for groups 1-2 and helium, p for 13-18, d for 3-12, f exactly for no group; the panicking arm is never reached |
| Elements.All | src/elements.rs:33-117 | exists exactly when every symbol has oxidation states, and then holds 118 records in atomic-number order with their symbol, period, group, block and states |
| Elements.AllWellFormed | src/elements.rs:33-117 | every record has a valid atomic number, a period 1-7, and the f-block exactly when it has no group |
| Elements.HeaderCtx | src/elements.rs:166-171 | each of the three contexts is chosen exactly when the line starts with its header, and every header starts with `\|` |
| Elements.HeadersExclusive | src/elements.rs:166-171 | no line starts with two different headers |
| Elements.AddState | src/elements.rs:187-200 | a token fails exactly when its text without `?` does not parse; a token ending in `?` adds its value to citation-needed only, any other adds it to the context's set only |
| Elements.AddStates | src/elements.rs:187-200 | recording a line's tokens never removes a state from any set |
| Elements.StepLine | src/elements.rs:162-201 | only a data line in a context can fail or change the table; the context becomes that of a header line and is otherwise kept; every new entry is the symbol the line captures |
| Elements.Run | src/elements.rs:162-204 | the current context was set by some header line, and every entry of the table is a symbol captured from some line |
| Elements.OxidationTable | src/elements.rs:160-204 | every symbol of the built table was captured from some line of the text |
| Elements.AddStatesRoutes | src/elements.rs:187-200 | the tokens of a line go, each once, into citation-needed or the context's set; nothing else changes; it fails exactly when a token does not parse |
| Elements.AddStatesFailureStays | src/elements.rs:187-200 | a token that fails to parse fails the whole line |
| Elements.RunFailureStays | src/elements.rs:162-204 | a line that fails fails the whole text |
| Elements.SkipsUnpipedLines | src/elements.rs:163-165 | lines not starting with `\|` are skipped |
| Elements.NothingRecordedWithoutContext | src/elements.rs:173 | nothing is recorded before the first header |
| Elements.DataLineRecords | src/elements.rs:173-201 | a data line in a context adds its routed tokens to its symbol's entry, which starts empty; no other entry changes |
| Elements.StepExtends | src/elements.rs:180-200 | one line never removes an entry or a state |
| Elements.RunExtends | src/elements.rs:162-204 | later lines only add entries and states |
| Elements.StepIdempotent | src/elements.rs:187-200 | reading a line twice in a row has the effect of reading it once |
| Elements.RecordState | src/elements.rs:187-200 | recording one token in the entry gives the functional result of that token |
| Elements.RecordStates | src/elements.rs:180-201 | updating the symbol's entry token by token gives the functional result of the whole line |
| Elements.ReadLine | src/elements.rs:162-201 | reading one line into the context and the table gives the functional step of that line |
| Elements.BuildOxidationStates | src/elements.rs:130-207 | the line loop builds exactly the table of the functional builder, failing where it fails |
| Layout.SameSymbols | src/main.rs:30-39 | the layout's symbol list is the element table's, 118 long |
| Layout.PeriodGroup | src/main.rs:45-99 | the layout's own period and group agree with the element table's for every atomic number |
| Layout.Position | src/main.rs:101-130 | a tile is `(0, 0)` exactly for a number outside the table; an element's row is its period, or three below it for the narrow layout's f-block rows |
| Layout.AtPosition | src/main.rs:101-130 | any element found at a tile has that tile as its position |
| Layout.PositionInverts | src/main.rs:101-130 | every element's tile lies inside the grid (7 x 32 wide, 10 x 18 narrow) and is found there again; the `(0, 0)` arms are never taken |
| Layout.TilesDistinct | src/main.rs:101-130 | no two elements share a tile, in either layout |
| Layout.NarrowTiles | src/main.rs:102-113 | La-Lu are on row 9 and Ac-Lr on row 10 from column 4; every other element is at its period and group |
| Layout.WideTiles | src/main.rs:116-129 | groups 1-2 keep their column, groups 3-18 move right by 14, and the ungrouped elements fill columns 3-16 of their period |
| Layout.HeliumTiles | src/main.rs:101-130 | helium's tile depends only on the helium option, in both layouts |
| Layout.NewElements | src/main.rs:29-145 | the keys are exactly 1-118, and each record carries its number, symbol, period, group and tile |

## Left out

- Error messages. `Query::new` and `evaluate_on` return formatted strings, and the parse error shows nom's error position (src/query.rs:14-25, 33-36, 83, 96-99, 130-133). The model returns a datatype of failure causes instead. A parse failure is a single `SyntaxError`.
- Overflow. An `i32` result of `+`, `-`, `*`, `/` or unary `-` that does not fit is `Overflow`. For `+`, `-`, `*` and unary `-`, a debug build of the program panics there and a release build wraps around; the model follows neither. For `/`, the only such case is `i32::MIN / -1`, where the program panics in every build, as it does for a zero divisor.
- Division by zero. It is `DivisionByZero`; the program always panics there.
- Aborts as results. Wherever the program aborts, the model returns a failure instead: overflow and division by zero above, and the `unwrap` panics of the oxidation-state builder and of the element table below. Nothing after an abort is modelled.
- Text clean-up. The regular expressions strip and rewrite the reference text before the line loop (src/elements.rs:140-158). They are not modelled: the builder takes the cleaned lines. The per-line capture (src/elements.rs:174-178) and `str::parse` (src/elements.rs:191, 193) are parameters `capture` and `parse`. Their `unwrap` panics are the `None` results.
- The reference text itself (src/elements.rs:209 onward). The model proves its properties for every text; it does not compute the table of this particular one.
- `Element.symbol` wrapper and `Lazy` statics. `Symbol` is a plain string, and the lazily built statics are plain functions of their inputs.
- Collections. A `HashMap` or `BTreeSet` is a Dafny `map` or `set`; iteration order is not modelled.
- `main` (src/main.rs:5-17): the command-line arguments and the printing of the sorted tiles. src/cli.rs is not part of this model.
- The flash-card script (anki-scripts/gen-flashcards-oxidation-states.py) is not part of this model.
- Block comment. The doc comment at src/elements.rs:20 reads `4=3`; the code assigns 3 to the f-block, and the model follows the code.
- The parser functions in `Syntax` state only that they stay inside the input. What each returns is proved by the round-trip lemmas in `Unparse` and by the examples.
