# tablecloth layout engine, modelled in Dafny

tablecloth turns a Frictionless Data tabular data package into spreadsheet
templates. Its backend-independent core is modelled here:

- the **layout**: a registry of tables and enums. Each table gets its own
  sheet. Every enum gets a column of the shared enum sheet (`lists` by
  default);
- the **helpers** the layout uses:
  - A1-style column codes (bijective base 26) and row codes;
  - cell ranges, with optional `$` fixing, sheet qualification and an
    `INDIRECT(...)` wrapper;
  - the literal form of scalar values;
  - the merging of check formulas into one data-validation formula or one
    conditional-formatting formula;
  - the reduction of (possibly composite) foreign keys to simple keys;
- the **constants**: the record shapes, and the catalogue of formula
  templates for types, constraints and range membership.

Files and modules:

| file | module | contents |
|---|---|---|
| `results.dfy` | `Results` | `Option`, `Result`, `Outcome`, and one `Error` constructor per exception the core raises |
| `strings.dfy` | `Strings` | `', '.join`, `str(int)` and `int(str)`, the part of Python's `str.format` that the templates use, and `Tpl` (a template as alternating literal text and named fields) |
| `constants.dfy` | `Constants` | values, the records, `LETTERS`, and the `TYPES`, `CONSTRAINTS` and `IN_RANGE` catalogues as `Tpl` values; also the facts the catalogue guarantees |
| `helpers.dfy` | `Helpers` | the helper functions and their properties |
| `layout.dfy` | `Layouts` | specification functions over a `LayoutState` value, the lemmas about them, and the class `Layout`, whose methods update `tables` and `enums` in place; `Layout.State()` is the specification function |

### How operations are modelled

- **Exceptions become values.** An operation that raises `ValueError`,
  `KeyError` or `IndexError` returns `Err(e)`. `set_table` returns an
  `Outcome` that is `Fail(e)` or `Pass`; its four checks run in the source's
  order.
- **Python truthiness is written out**:
  - `Given` covers `max_rows` and `max_name_length`: `None` and `0` are both
    false;
  - `Truthy` covers an optional sheet or resource name: `None` and `""` are
    both false;
  - `Falsy` covers the constraint values `None`, `False`, `0`, `''` and `[]`.
- **Loops have invariants.** `column_index_to_code`, `merge_conditions`,
  `reduce_foreign_keys`, the constraint loop of `gather_column_checks`, the
  foreign-key loop, `max(...)` over enum columns, and `from_package` are
  methods with `while` or `for` loops. Each loop is proved equal to a
  recursive specification function, and the properties are lemmas about that
  function.
- **The key renaming is a parameter.** The constraint cleaning is written for any renaming function (`CleanBy`). `CleanConstraints` applies it with `CamelToSnake`, and its lemmas hold for every renaming.
- **Function parameters stand for the per-key computations.** The foreign-key
  computations take the per-key step as a function parameter. `KeyOf` gives
  each foreign key its simple key for the column. `RangeOf` gives each simple
  key its cell range. `KeysIn(table, column)` and `RangeIn(state, table,
  indirect)` are the source's concrete choices, and every operation is
  applied to them.
- **The template catalogue is a parameter** of the check builders
  (`Catalogue`). `Builtin()` is the catalogue in `constants.py`. The lemmas
  assume only the shape the catalogue is proved to have (`Shaped`,
  `BlankFlags`).

### Where the code and its documentation disagree (the model follows the code)

- **Dropdown order.** The docstring of `select_column_dropdown` lists the
  enum before the foreign key. The code tries the foreign key first
  (`ForeignKeyBeforeEnum`, `EnumDropdownLast`).
- **A one-row range has no sheet.** For one row, `column_to_range` returns
  the bare cell before it adds the sheet or `INDIRECT`. So an enum of one
  value has an unqualified range (`SingleCellRange`, `EnumRangeExtent`), and
  so does a column range when `max_rows` is 2.
- **Constraint values Python compares equal to `False` are dropped.**
  `gather_column_checks` drops every constraint whose value equals `None`,
  `False`, `''` or `[]`. In Python `0 == False`, so `maximum: 0` is dropped
  as well.
- **Foreign-key checks are not deduplicated.** `reduce_foreign_keys`
  deduplicates simple keys, but `gather_column_checks` adds one range check
  per foreign key involving the column, repeats included
  (`RepeatedKeyChecked`, `KeyRangesCount`).
- **`set_enum([])` is accepted** and registers an empty enum. `from_package`
  skips empty enums because of its own truthiness test.
- **Templates are as written in `constants.py`**, spaces included
  (`INT({col}{row}) = {col}{row}`).
- **The dropdown key is `values`.** The dropdown record carries `source` and
  `values`.

## Model

| member | source | states |
|---|---|---|
| Strings.Join | src/tablecloth/helpers.py:373-375 | definition of `sep.join(xs)`: nothing for no items, the item for one, the items separated by `sep` otherwise; characterised by `JoinAppend`, and used by `MergeFormulas`, `ReadableJoin` and `Repr` |
| Strings.JoinAppend | src/tablecloth/helpers.py:373-375 | joining one more item appends the separator and the item |
| Strings.NatToDecimal | src/tablecloth/helpers.py:220-221 | `str` of a natural number is a non-empty string of decimal digits |
| Strings.IntToDecimal | src/tablecloth/helpers.py:220-221 | `str` of any integer is non-empty |
| Strings.NatToDecimalValue | src/tablecloth/helpers.py:220-221 | the digits `str(n)` writes have value `n` |
| Strings.DecimalRoundTrip | src/tablecloth/helpers.py:220-221 | reading back `str(n)` gives `n`, negative numbers included |
| Strings.DecimalInjective | src/tablecloth/helpers.py:220-221 | different integers have different decimal texts |
| Strings.Lookup | src/tablecloth/layout.py:358 | a format field is found exactly when its name is bound |
| Strings.Keyword | src/tablecloth/layout.py:380 | a field name gets a keyword value exactly when it is not positional (empty or all digits) and is bound, and then the bound value |
| Strings.FieldError | src/tablecloth/helpers.py:357 | a placeholder without a value raises `IndexError` with its index when it is positional, and `KeyError` with its name otherwise |
| Strings.Format | src/tablecloth/layout.py:380-381 | definition of `str.format(**kwargs)` over named fields: text is copied, `{{` and `}}` give single braces, `{name}` is replaced by its value, and a missing value, a lone `}` or an unclosed `{` is an error; characterised by `FormatLiteral`, `FormatField`, `UnboundFails`, `FormatsBeforeErr` |
| Strings.CloseIndex | src/tablecloth/layout.py:358 | the scan for a field's end stops at the first `}` or at the end of the text |
| Strings.FormatLiteral | src/tablecloth/layout.py:358 | `str.format` copies brace-free text unchanged and goes on with the rest |
| Strings.FormatField | src/tablecloth/layout.py:380 | `str.format` replaces a bound `{name}` by its value and goes on with the rest |
| Strings.FormatRender | src/tablecloth/layout.py:380-381 | formatting the text of a template whose fields are all bound succeeds, and gives the template filled with the bindings |
| Strings.ConcatFormats | src/tablecloth/layout.py:394 | texts that format to `y` and `y2` format, concatenated, to `y + y2` |
| Strings.FormatsBeforeErr | src/tablecloth/helpers.py:357 | an error in the rest of the text is the error of the whole, after a part that formats |
| Strings.FormatsWhole | src/tablecloth/helpers.py:357 | a text that formats to `y` gives `Ok(y)` |
| Strings.RenderFormats | src/tablecloth/layout.py:417-418 | a fully bound template's text formats to the filled template |
| Strings.UnboundFails | src/tablecloth/helpers.py:357 | a placeholder without a value fails: an unbound name with the missing-field error (Python's `KeyError`), a positional (empty or all-digit) name with the index error (Python's `IndexError`) |
| Constants.LettersInOrder | src/tablecloth/constants.py:100 | `LETTERS` has 26 characters, and its `r`-th is the `r`-th capital letter |
| Constants.QuoteFor | src/tablecloth/layout.py:380-381 | definition of the quote `repr` picks for a string: `"` when it holds `'` and no `"`, otherwise `'`; characterised by `ReprPlain`, `ReprSwitchesQuote`, `ReprBothQuotes` |
| Constants.Escaped | src/tablecloth/layout.py:380-381 | definition of a string's `repr` body: the chosen quote and `\` get a backslash, tab, newline and carriage return become `\t`, `\n`, `\r`; characterised by `EscapedAppend`, `EscapedPlain`, `EscapedSpecial` |
| Constants.Repr | src/tablecloth/layout.py:380-381 | definition of Python's `repr` of a value, used for the items of a list formatted into a template; characterised by `ReprPlain`, `ReprSwitchesQuote`, `ReprBothQuotes`, `ReprListExample` |
| Constants.Str | src/tablecloth/layout.py:380-381 | definition of `str` of a value, which `format` uses for `{value}`: a string is itself, anything else its `repr` |
| Constants.EscapedAppend | src/tablecloth/layout.py:380-381 | escaping a concatenation escapes each part |
| Constants.EscapedPlain | src/tablecloth/layout.py:380-381 | a string with no quote, backslash, tab, newline or carriage return is its own escaped form |
| Constants.EscapedSpecial | src/tablecloth/layout.py:380-381 | the quote in use and `\` are escaped with a backslash |
| Constants.ReprPlain | src/tablecloth/layout.py:380-381 | a string with no quote or special character has `repr` `'s'` |
| Constants.ReprSwitchesQuote | src/tablecloth/layout.py:380-381 | a string holding `'` but nothing else to escape for `"` is shown in double quotes, unescaped |
| Constants.ReprBothQuotes | src/tablecloth/layout.py:380-381 | a string holding both quotes is shown in single quotes with its `'` escaped |
| Constants.ReprListExample | src/tablecloth/layout.py:380-381 | `['a', 1, None]` is shown as `['a', 1, None]`, items by `repr` joined with `, ` |
| Constants.NegateComplements | src/tablecloth/constants.py:151-180 | a comparison and the one the invalid formula uses are exact complements; negating twice gives the comparison back |
| Constants.CatalogueKeys | src/tablecloth/constants.py:104-193 | the type catalogue has `number`, `integer`, `year` and `boolean`; the constraint catalogue has the seven constraints other than `enum` |
| Constants.IntegerAndYearShareFormulas | src/tablecloth/constants.py:111-122 | `integer` and `year` use the same formulas and blank policy and differ only in their message |
| Constants.OnlyRequiredChecksBlanks | src/tablecloth/constants.py:104-210 | every template ignores blank cells except `required` |
| Constants.ComparisonsAreComplements | src/tablecloth/constants.py:151-180 | for `unique` and the four bounds, the invalid formula is the valid one with the comparison negated, over the same operands |
| Constants.AppendShape | src/tablecloth/constants.py:144-147 | joining two templates joins their fields and their texts |
| Constants.CompareShape | src/tablecloth/constants.py:151-180 | a comparison template has the fields of its two operands |
| Constants.BoundShape | src/tablecloth/constants.py:151-180 | a comparison on the cell whose fields are listed constraint fields is a well-formed constraint template |
| Constants.TypeCatalogue | src/tablecloth/constants.py:104-138 | every type formula checks `{col}{row}` and uses only `{col}` and `{row}`; type messages have no fields |
| Constants.RequiredShape | src/tablecloth/constants.py:142-150 | `required` checks `{col}{row}` and uses only the documented fields |
| Constants.PatternShape | src/tablecloth/constants.py:181-186 | `pattern` checks `{col}{row}` and uses only the documented fields |
| Constants.ConstraintCatalogue | src/tablecloth/constants.py:141-202 | every constraint formula checks `{col}{row}` and uses only the documented fields; messages use at most `{value}` |
| Constants.InRangeShape | src/tablecloth/constants.py:205-217 | both range formulas check `{col}{row}` against `{range}`; the message names only `{range}` |
| Helpers.Lower | src/tablecloth/helpers.py:27 | lowering yields no capital and leaves other characters alone |
| Helpers.SnakeTail | src/tablecloth/helpers.py:26-27 | after the first character, every capital becomes `_` and its lower case; the result has no capitals and is no shorter |
| Helpers.CamelToSnake | src/tablecloth/helpers.py:13-27 | the result has no capital letters and is never shorter than the input |
| Helpers.SnakeIdentity | src/tablecloth/helpers.py:19-24 | a name with no capitals is returned unchanged (`snake_case`) |
| Helpers.SnakeIdempotent | src/tablecloth/helpers.py:26-27 | converting twice is converting once |
| Helpers.CamelWords | src/tablecloth/helpers.py:19-24 | `camelCase` gives `camel_case`: an inner capital becomes `_` and its lower case |
| Helpers.CamelCons | src/tablecloth/helpers.py:26-27 | a leading capital is lowered with no `_` (`CamelCase` gives `camel_case`) |
| Helpers.SnakeTailCons | src/tablecloth/helpers.py:26-27 | a capital past the start becomes `_` and its lower case; other characters are kept |
| Helpers.SnakeTailAppend | src/tablecloth/helpers.py:26-27 | a capital-free prefix passes through unchanged |
| Helpers.ToList | src/tablecloth/helpers.py:30-49 | an absent or empty name gives `[]`, a name is wrapped, a list is kept; the members are exactly those |
| Helpers.Letter | src/tablecloth/helpers.py:72 | letter `r` is the `r`-th capital |
| Helpers.LetterListed | src/tablecloth/helpers.py:72 | letter `r` is `LETTERS[r]` |
| Helpers.Code | src/tablecloth/helpers.py:68-73 | the bijective base-26 code is all capitals, and empty only for zero |
| Helpers.ColumnCode | src/tablecloth/helpers.py:52-73 | the code of column index `i` is non-empty and all capitals; characterised by `ColumnRoundTrip`, `ColumnCodeInjective` and the examples |
| Helpers.ColumnIndexToCode | src/tablecloth/helpers.py:52-73 | the loop builds the code of `i + 1` in bijective base 26 |
| Helpers.ColumnCodeToIndex | src/tablecloth/helpers.py:76-97 | reading a code fails exactly on the empty code (Python's `reduce` of an empty list) |
| Helpers.CodeValueOfCode | src/tablecloth/helpers.py:94-97 | reading back a bijective code gives its number |
| Helpers.CodeOfCodeValue | src/tablecloth/helpers.py:68-73 | writing the number of a code of capitals gives the code back |
| Helpers.ColumnRoundTrip | src/tablecloth/helpers.py:64-66 | the code of index `i` is a non-empty run of capitals, and it reads back as `i` |
| Helpers.CodeRoundTrip | src/tablecloth/helpers.py:88-90 | every non-empty code of capitals reads as an index whose code is that code |
| Helpers.ColumnCodeInjective | src/tablecloth/helpers.py:52-73 | distinct column indices have distinct codes |
| Helpers.ColumnCodeSingleLetters | src/tablecloth/helpers.py:58-59 | columns 0, 1 and 25 are `A`, `B` and `Z` |
| Helpers.ColumnCodeDoubleLetters | src/tablecloth/helpers.py:60-61 | columns 26 and 28 are `AA` and `AC` |
| Helpers.ColumnCodeLast | src/tablecloth/helpers.py:62-63 | column 16383 is `XFD` |
| Helpers.RowIndexToCode | src/tablecloth/helpers.py:100-112 | a row code reads back as its row index |
| Helpers.RowCodeToIndex | src/tablecloth/helpers.py:115-127 | definition of `code - 1`; characterised by `RowIndexToCode` and `RowRoundTrip` (the two are inverse) |
| Helpers.RowRoundTrip | src/tablecloth/helpers.py:115-127 | a row index written as a code gives the code back |
| Helpers.ColumnToRange | src/tablecloth/helpers.py:130-191 | the method builds the range `RangeString` specifies |
| Helpers.RangeString | src/tablecloth/helpers.py:130-191 | definition of `column_to_range`: the start cell, one cell for one row, else `start:end` or an open range, qualified by the sheet and wrapped in `INDIRECT` when asked; characterised by `SingleCellRange`, `BoundedRange`, `OpenRange`, `CellRoundTrip` and the examples |
| Helpers.StartCell | src/tablecloth/helpers.py:177-180 | definition of the start cell `{prefix}{col_code}{prefix}{row_code}`; characterised by `CellRoundTrip` (it reads back as column, row and fixing) and `SingleCellRange` |
| Helpers.Qualify | src/tablecloth/helpers.py:187-190 | definition of the sheet qualification: `'sheet'!cells` for a truthy sheet, inside `INDIRECT("…")` when `indirect` too, the cells unchanged otherwise; characterised by `BoundedRange`, `OpenRange` and `SheetRangeExamples` |
| Helpers.SingleCellRange | src/tablecloth/helpers.py:181-182 | one row gives the bare start cell, whatever the sheet and `indirect` |
| Helpers.BoundedRange | src/tablecloth/helpers.py:183-191 | `n` rows, `n` other than 1, span from the start cell to row `row + n`, qualified by the sheet when one is given |
| Helpers.OpenRange | src/tablecloth/helpers.py:183-191 | no row count gives an open range down the whole column, qualified by the sheet when one is given |
| Helpers.RangeExamples | src/tablecloth/helpers.py:160-171 | the documented unqualified ranges: `A2`, `$A$2`, `A2:A`, `$A$2:$A`, `A2:A3`, `$A$2:$A$3` |
| Helpers.SheetRangeExamples | src/tablecloth/helpers.py:172-175 | a sheet gives `'sheet'!$A$2:$A$3`; with `indirect` it gives `INDIRECT("'sheet'!A2:A")` |
| Helpers.CellRoundTrip | src/tablecloth/helpers.py:177-182 | the start cell reads back as its column, row and fixing |
| Helpers.BoolLiteral | src/tablecloth/helpers.py:218-219 | definition of `str(x).upper()` for a boolean: `TRUE` or `FALSE`; characterised by `KindOfLiteral`, `FormatValueInjective` and `BlankGuardText` |
| Helpers.FormatValue | src/tablecloth/helpers.py:194-226 | exactly the lists are rejected, with the unexpected-value error |
| Helpers.KindOfLiteral | src/tablecloth/helpers.py:218-225 | the literal's form shows the value's kind: `TRUE`/`FALSE`, a number, a quoted string, or empty for `None` |
| Helpers.FormatValueInjective | src/tablecloth/helpers.py:218-225 | different scalar values have different literals |
| Helpers.BlankGuard | src/tablecloth/helpers.py:320 | the blank guard leaves exactly `{col}` and `{row}` for the caller to fill |
| Helpers.Formulas | src/tablecloth/helpers.py:251-255 | one leaf per formula, in order |
| Helpers.MergeFormulas | src/tablecloth/helpers.py:229-255 | definition of `merge_formulas`: `''`, the one formula, or `OP(f1, f2, ...)`; characterised by `MergeFormulasExamples`, `TwoMerged`, `MergedFormulasText` |
| Helpers.ConditionTree | src/tablecloth/helpers.py:258-321 | definition of the tree `merge_conditions` builds: the kept formulas, then one guard around the blank-ignoring ones, or the index error when flags run short; characterised by `MergeConditions`, `ConditionText`, `KeptSkippedPartition`, `MergedMeaning` |
| Helpers.MergeConditions | src/tablecloth/helpers.py:258-321 | the loop splits the formulas into kept and blank-ignoring ones, as the condition tree the merged text comes from; a non-empty flag list shorter than the formulas gives the index error, and an empty one makes every formula ignore blanks |
| Helpers.MergedFormulasText | src/tablecloth/helpers.py:229-255 | the text of a merged node is `merge_formulas` of its parts |
| Helpers.MergeFormulasExamples | src/tablecloth/helpers.py:242-249 | the documented merges: `''`, `A2 > 0`, `AND(A2 > 0, A2 < 3)`, `OR(A2 > 0, A2 < 3)` |
| Helpers.BlankGuardText | src/tablecloth/helpers.py:320 | the guard's text is `IF(ISBLANK({col}{row}), TRUE, ` (or `FALSE, `) |
| Helpers.ConditionText | src/tablecloth/helpers.py:310-321 | the merged text is `merge_formulas` of the kept formulas, then one guard that holds the merge of the blank-ignoring ones, if any |
| Helpers.NoFlagsAllSkipped | src/tablecloth/helpers.py:313 | with no flags, every formula counts as ignoring blanks |
| Helpers.TwoMerged | src/tablecloth/helpers.py:255 | two formulas merge as `OP(x, y)` |
| Helpers.SecondSkippedText | src/tablecloth/helpers.py:305-308 | a kept formula and a blank-ignoring one give `AND(a, IF(ISBLANK({col}{row}), TRUE, b))` (`OR`/`FALSE` for invalid) |
| Helpers.WrappedPair | src/tablecloth/helpers.py:305-308 | a formula merged with a guarded one is `OP(a, guard + b + ")")` |
| Helpers.NoneSkippedText | src/tablecloth/helpers.py:290-303 | two kept formulas give `AND(a, b)` or `OR(a, b)` |
| Helpers.KeptSkippedPartition | src/tablecloth/helpers.py:311-316 | every formula lands in exactly the group its flag selects |
| Helpers.AndHoldsWhenAllPass | src/tablecloth/helpers.py:276-279 | a valid-merge that holds means every formula holds, or the cell is blank and the formula ignores blanks |
| Helpers.AndFailsWhenOneFails | src/tablecloth/helpers.py:276-279 | a valid-merge that fails means some formula fails on a cell that counts |
| Helpers.OrHoldsWhenOnePasses | src/tablecloth/helpers.py:276-279 | an invalid-merge that holds means some formula flags a cell that counts |
| Helpers.OrFailsWhenNonePass | src/tablecloth/helpers.py:276-279 | an invalid-merge that fails means no formula flags a cell that counts |
| Helpers.MergedMeaning | src/tablecloth/helpers.py:258-321 | a valid-merge holds iff all formulas pass; an invalid-merge holds iff some formula fires; blank-ignoring formulas are skipped on blank cells |
| Helpers.ReadableJoinFew | src/tablecloth/helpers.py:360-375 | zero, one, two and three items give `''`, `a`, `a and b`, `a, b, and c` |
| Helpers.ReadableJoinLonger | src/tablecloth/helpers.py:373-375 | four or more items: the first, a comma, then the join of the rest (Oxford comma) |
| Helpers.ReadableJoin | src/tablecloth/helpers.py:360-375 | definition of `_readable_join`; characterised by `ReadableJoinFew` and `ReadableJoinLonger` |
| Helpers.FormulasOf | src/tablecloth/helpers.py:392 | the formulas of the checks, in order |
| Helpers.MessagesOf | src/tablecloth/helpers.py:393 | the messages of the checks, in order |
| Helpers.FlagsOf | src/tablecloth/helpers.py:355 | the blank flags of the checks, in order |
| Helpers.BuildColumnValidation | src/tablecloth/helpers.py:378-398 | no checks give no validation; otherwise it ignores blanks, and its message is `Value must be ` and the readable join of the messages |
| Helpers.ValidationMeaning | src/tablecloth/helpers.py:390-398 | the validation formula is the AND-merge of the check formulas, and holds iff every check formula holds |
| Helpers.CellBindings | src/tablecloth/helpers.py:357 | the final format binds exactly `col` and `row` |
| Helpers.BuildColumnCondition | src/tablecloth/helpers.py:324-357 | as written: `None` exactly when there are no checks; otherwise the merged text is re-formatted, which can fail |
| Helpers.ColumnCondition | src/tablecloth/helpers.py:324-357 | corrected: `None` exactly when there are no checks; only the guards' `{col}{row}` are filled |
| Helpers.JoinFormats | src/tablecloth/helpers.py:255 | joining texts that each format gives a text that formats to the joined results |
| Helpers.TextFormats | src/tablecloth/helpers.py:357 | a merged text from brace-free formulas formats to the text with the guards filled |
| Helpers.TreeBraceFree | src/tablecloth/helpers.py:310-321 | brace-free formulas give a condition tree whose formulas are all brace-free |
| Helpers.ConditionAgrees | src/tablecloth/helpers.py:350-357 | when no check formula has a brace, the code as written and the corrected condition agree |
| Helpers.FilledGuard | src/tablecloth/helpers.py:320 | filling the wrapper head `IF(ISBLANK({col}{row}), TRUE, ` with `col` and `row` gives `IF(ISBLANK(<col><row>), TRUE, ` (`FALSE` for invalid), nothing else changed |
| Helpers.MergedFormulasAt | src/tablecloth/helpers.py:251-255 | a merge of plain formulas reads the same once the cell is written in: `merge_formulas` of them |
| Helpers.ColumnConditionText | src/tablecloth/helpers.py:310-321 | corrected: the condition is the AND/OR merge of the blank-keeping formulas, in order, then one `IF(ISBLANK(<cell>), TRUE, …)` (`OR`/`FALSE` for invalid) around the merge of the others; every check formula appears unchanged, braces included |
| Helpers.SkippedCondition | src/tablecloth/helpers.py:317-320 | corrected: one blank-ignoring check with any formula `f` gives `IF(ISBLANK(<col><row>), TRUE, f)` (`FALSE` for invalid) |
| Helpers.PatternQuantifierCorrected | src/tablecloth/helpers.py:350-357 | corrected: the `pattern` constraint `[0-9]{4}` gives `IF(ISBLANK(A2), FALSE, NOT(REGEXMATCH(TO_TEXT(A2), "^[0-9]{4}$")))`, quantifier kept |
| Helpers.SingleKeptText | src/tablecloth/helpers.py:253-254 | one kept formula is its own condition |
| Helpers.SingleSkippedText | src/tablecloth/helpers.py:317-320 | one blank-ignoring formula is wrapped in one guard: `IF(ISBLANK({col}{row}), TRUE, f)` |
| Helpers.UnboundInFormula | src/tablecloth/helpers.py:357 | a check formula holding a placeholder without a value (an unbound name or a position) makes the final format fail with that placeholder's error |
| Helpers.UnboundInGuard | src/tablecloth/helpers.py:320 | a failure inside the guarded part is the failure of the whole |
| Helpers.RescanFails | src/tablecloth/helpers.py:350-357 | as written: a single check whose formula holds any placeholder other than `{col}`/`{row}` fails with that placeholder's error (`KeyError` for a name, `IndexError` for a position) |
| Helpers.PatternQuantifierFails | src/tablecloth/helpers.py:350-357 | as written: the `pattern` constraint `[0-9]{4}` gives a check formula holding `{4}`, and the final format fails on positional field 4 (Python's `IndexError`) |
| Helpers.IndexOf | src/tablecloth/helpers.py:422 | `list.index` over any element type (column names, and the value lists `get_enum` compares at layout.py:136-138): the first position holding the item |
| Helpers.IndexOfAppended | src/tablecloth/layout.py:109 | an item appended to a list it was not in is found at the end |
| Helpers.IndexOfExtended | src/tablecloth/layout.py:109 | appending does not move the items already there |
| Helpers.KeyFor | src/tablecloth/helpers.py:419-427 | definition of one foreign key's contribution to a column's simple keys; characterised by `KeyForMeaning` |
| Helpers.ForeignTable | src/tablecloth/helpers.py:426 | definition of `reference.get('resource') or table`; characterised by `KeyForMeaning` (the key names no table exactly when this is the column's own table) |
| Helpers.SimpleKeys | src/tablecloth/helpers.py:401-430 | definition of `reduce_foreign_keys` over the first `n` foreign keys; characterised by `SimpleKeysError`, `SimpleKeysMembers`, `SimpleKeysOrder`, `ReduceExample` |
| Helpers.KeyForMeaning | src/tablecloth/helpers.py:419-427 | a key gives the column nothing when it is not among the key's fields, and fails when the reference has too few fields; otherwise it gives the foreign column at the same position, and `None` for the own table |
| Helpers.ReduceExample | src/tablecloth/helpers.py:409-415 | the documented example gives `[(None, 'aa'), ('y', 'a')]` |
| Helpers.ReduceForeignKeys | src/tablecloth/helpers.py:401-430 | the method returns the simple keys `SimpleKeys` specifies for the column |
| Helpers.ReduceBy | src/tablecloth/helpers.py:417-430 | the loop returns the simple keys `SimpleKeys` specifies |
| Helpers.PrefixErrorStays | src/tablecloth/helpers.py:421-425 | once a foreign key has failed, the reduction fails with that error |
| Helpers.SimpleKeysError | src/tablecloth/helpers.py:421-425 | the reduction fails iff some foreign key is indexed past its reference's fields |
| Helpers.SimpleKeysDistinct | src/tablecloth/helpers.py:428-429 | the simple keys have no repeats |
| Helpers.SimpleKeysContributed | src/tablecloth/helpers.py:417-430 | a simple key is listed iff some foreign key gives it to the column |
| Helpers.SimpleKeysMembers | src/tablecloth/helpers.py:401-430 | the keys are distinct, and are exactly those some foreign key gives |
| Helpers.FirstBeforeGrows | src/tablecloth/helpers.py:428-429 | an order of first appearance survives further keys |
| Helpers.SimpleKeysOrder | src/tablecloth/helpers.py:428-429 | keys are listed in the order of their first appearance among the foreign keys |
| Layouts.DistinctByCount | src/tablecloth/layout.py:107 | `len(columns) != len(set(columns))` holds exactly when the columns repeat |
| Layouts.SheetFor | src/tablecloth/layout.py:100 | definition of `sheet or table`; characterised by `AddTableKeepsValid`, `FindAddedTable` and `Layout.SetTable` (the appended table has this sheet) |
| Layouts.AddTableOutcome | src/tablecloth/layout.py:100-109 | definition of the four checks of `set_table`, in the source's order; characterised by `AddTableMeaning`, `AddTableKeepsValid` |
| Layouts.AddTableMeaning | src/tablecloth/layout.py:100-109 | a table is accepted iff its name is new, its sheet is new and not the enum sheet, the sheet fits the length limit, and its columns are distinct |
| Layouts.AddTableKeepsValid | src/tablecloth/layout.py:100-109 | adding an accepted table keeps names and sheets unique, off the enum sheet, within the length limit, and columns distinct |
| Layouts.FindTable | src/tablecloth/layout.py:111-116 | found iff registered, and then the first table with that name; otherwise the not-found error |
| Layouts.FindAddedTable | src/tablecloth/layout.py:109-116 | after `set_table` the new table is found, and lookups of other names are unchanged |
| Layouts.Locate | src/tablecloth/layout.py:183-184 | found iff the table exists and holds the column, at the column's first position; otherwise the table or column error |
| Layouts.ColumnCodeOf | src/tablecloth/layout.py:183-185 | definition of `get_column_code`: the table's and the column's errors, else `column_index_to_code` of the column's position; characterised by `CodeOfListedColumn`, `ColumnCodeMeaning` and `ColumnCodeExample` |
| Layouts.CodeOfListedColumn | src/tablecloth/layout.py:183-185 | a listed column's code is the code of its position |
| Layouts.ColumnCodeMeaning | src/tablecloth/layout.py:163-185 | a code exists iff table and column exist, and it reads back as the column's position |
| Layouts.ColumnCodeExample | src/tablecloth/layout.py:176-181 | the documented example: `id` is `A`, `x` is `B` |
| Layouts.ColumnRange | src/tablecloth/layout.py:216-225 | definition of `get_column_range`; characterised by `ColumnRangeExtent` |
| Layouts.RowsFor | src/tablecloth/layout.py:221 | definition of `nrows or (max_rows - 1 if max_rows else None)`; characterised through `ColumnRangeExtent` |
| Layouts.ColumnRangeExtent | src/tablecloth/layout.py:216-225 | with no row count, a column range starts at row 2 and runs to row `max_rows` (a single cell when that is 2), or down the whole column when there is no limit; `absolute` names the table's sheet |
| Layouts.HighestColumn | src/tablecloth/layout.py:128-129 | definition of `max(x['col'] for x in enums)`; characterised by `HighestColumnIsMax` and computed by `MaxColumn` |
| Layouts.NextColumn | src/tablecloth/layout.py:128-131 | definition of the new enum's column, the highest plus one or 0 without enums; characterised by `NextColumnIsCount` |
| Layouts.HighestColumnIsMax | src/tablecloth/layout.py:129 | the highest column is at least every enum's column and is one of them |
| Layouts.NextColumnIsCount | src/tablecloth/layout.py:128-131 | when enums fill columns 0 to n-1, the next enum goes in column n |
| Layouts.AddEnum | src/tablecloth/layout.py:126-132 | definition of `set_enum`'s effect: nothing new for known values, else the values in the next column; characterised by `AddEnumKeepsValid`, `AddEnumIdempotent`, `FindAddedEnum` |
| Layouts.LooksLikeFormula | src/tablecloth/layout.py:120 | definition of the warning test: a string starting with `+`, `=` or `'`; stated by `Layout.SetEnum`'s warning flag |
| Layouts.AddEnumKeepsValid | src/tablecloth/layout.py:126-132 | adding an enum keeps enums in consecutive columns with distinct values; it adds one exactly when the values are new |
| Layouts.AddEnumIdempotent | src/tablecloth/layout.py:126-127 | setting the same enum twice is setting it once |
| Layouts.FindEnum | src/tablecloth/layout.py:134-139 | found iff values are registered, the first enum with them; otherwise the not-found error |
| Layouts.FindAddedEnum | src/tablecloth/layout.py:126-139 | after `set_enum` the values are found, and new values sit in the next column |
| Layouts.EnumOrderMatters | src/tablecloth/layout.py:137 | enum lookup compares lists, so order matters: `[2, 1]` is not `[1, 2]` |
| Layouts.EnumRange | src/tablecloth/layout.py:153-161 | definition of `get_enum_range`; characterised by `EnumRangeExtent` |
| Layouts.EnumRangeOf | src/tablecloth/layout.py:297 | definition of the enum range for a constraint value: a list's enum range, anything else not found |
| Layouts.EnumRangeExtent | src/tablecloth/layout.py:153-161 | an enum covers rows 1 to `len(values)` of its fixed column on the enum sheet; an enum of one value is a single unqualified cell |
| Layouts.KeysWhenKeyedBefore | src/tablecloth/layout.py:282-285 | some simple key exists iff some foreign key involves the column |
| Layouts.KeysWhenKeyed | src/tablecloth/layout.py:282-285 | the same, over all the foreign keys |
| Layouts.Get | src/tablecloth/layout.py:295 | definition of `constraints.get(key)` over the pairs of the dict, also `field.get('constraints', {}).get('enum')` at layout.py:68; characterised by `GetMeaning` |
| Layouts.GetMeaning | src/tablecloth/layout.py:295 | a value is found exactly for a key some pair has, and it is the value of the last pair with that key, as the dict built from the pairs holds |
| Layouts.KeyRange | src/tablecloth/layout.py:285-292 | definition of a simple key's range, for the dropdown and for each foreign-key check: `get_column_range(key table or table, key column, fixed=True, absolute=key table is not None)`, where a key names no table exactly when it points at the column's own table; characterised by `KeyDropdownRange`, `FirstKeyRange` and `DropdownMatchesKeyCheck`; the foreign-key checks use the same range (layout.py:407-414) |
| Layouts.DropdownFor | src/tablecloth/layout.py:278-299 | definition of `select_column_dropdown`; characterised by `BooleanDropdownFirst`, `ForeignKeyBeforeEnum`, `EnumDropdownLast`, `KeyDropdownRange` |
| Layouts.BooleanDropdownFirst | src/tablecloth/layout.py:279-280 | the dropdown is the boolean list iff the type is `boolean` |
| Layouts.ForeignKeyBeforeEnum | src/tablecloth/layout.py:282-293 | when a foreign key involves the column and the type is not boolean, the dropdown comes from the foreign key |
| Layouts.EnumDropdownLast | src/tablecloth/layout.py:294-299 | no dropdown iff no key involves the column and the enum is absent or falsy; an enum dropdown only without keys, and then it holds the enum's range |
| Layouts.Bind | src/tablecloth/layout.py:343-350 | the defaults bind `col`, `row`, `min_col`, `max_col`, `max_row` and `ncols` |
| Layouts.With | src/tablecloth/layout.py:380 | adding a binding adds its name |
| Layouts.DefaultsOf | src/tablecloth/layout.py:342-350 | definition of the defaults of `gather_column_checks`; characterised by `DefaultsOfListed`, `DefaultsSpanTable` |
| Layouts.MaxRowText | src/tablecloth/layout.py:348 | definition of `f'${max_rows}' if max_rows else ''`; characterised through `DefaultsOfListed` |
| Layouts.DefaultsOfListed | src/tablecloth/layout.py:342-350 | the defaults are the codes of the column and of the first and last columns, the `$`-prefixed row limit, and the column count |
| Layouts.DefaultsSpanTable | src/tablecloth/layout.py:342-350 | in a valid layout, `min_col` is `A`, `max_col` is the last column's code, `ncols` the column count, and `col` reads back as the column's position |
| Layouts.EndsOfDistinct | src/tablecloth/layout.py:346-347 | in distinct columns, the first and last are at positions 0 and n-1 |
| Layouts.CatalogShaped | src/tablecloth/constants.py:104-210 | the built-in catalogue has the shape the check builders rely on |
| Layouts.Builtin | src/tablecloth/constants.py:104-210 | the built-in catalogue is well shaped, and only `required` sees blanks |
| Layouts.Put | src/tablecloth/layout.py:367-371 | a dict assignment keeps a key's position, or appends a new key |
| Layouts.PutValue | src/tablecloth/layout.py:367-371 | after an assignment the key holds the new value, other keys are unchanged, keys stay distinct |
| Layouts.CleanBy | src/tablecloth/layout.py:365-372 | definition of the cleaning comprehension for a given renaming of keys: falsy values are dropped, the rest assigned in order; characterised by `CleanMeaning`, `CleanOrder` |
| Layouts.CleanConstraints | src/tablecloth/layout.py:365-372 | the cleaning with `camel_to_snake_case` as the renaming; characterised by `CleanMeaning`, `CleanOrder`, `RequiredOnlyBlankCheck` |
| Layouts.CleanMeaning | src/tablecloth/layout.py:365-372 | for any renaming of keys (the source's is `camel_to_snake_case`): the cleaned keys are distinct renamed keys; no value is falsy; a key is kept iff a truthy value was given for it, and holds the last such value; keys come in the order of their first truthy occurrence |
| Layouts.CleanDistinct | src/tablecloth/layout.py:365-372 | cleaned keys are distinct (for any renaming) |
| Layouts.CleanTruthy | src/tablecloth/layout.py:370 | no cleaned value is `None`, `False`, `0`, `''` or `[]` (for any renaming) |
| Layouts.CleanKeys | src/tablecloth/layout.py:367-370 | a key is kept iff some truthy value was given for it (for any renaming) |
| Layouts.CleanValues | src/tablecloth/layout.py:367-370 | a kept key holds the last truthy value given for it (for any renaming) |
| Layouts.GivenBeforeGrows | src/tablecloth/layout.py:365-372 | a key's first truthy occurrence before another's stays so as more pairs follow |
| Layouts.GivenIsKept | src/tablecloth/layout.py:367-370 | a key given a truthy value is kept |
| Layouts.KeptIsGiven | src/tablecloth/layout.py:367-370 | a kept key was given a truthy value |
| Layouts.LastKeptGiven | src/tablecloth/layout.py:367-370 | a key has a last truthy value iff some truthy value was given for it |
| Layouts.CleanOrderUpTo | src/tablecloth/layout.py:365-372 | after the first `n` pairs, the cleaned keys are in the order of their first truthy occurrence |
| Layouts.CleanOrder | src/tablecloth/layout.py:365-372 | the cleaned keys are in the order of their first truthy occurrence (a dict keeps the position of a key's first assignment) |
| Layouts.EnumRanges | src/tablecloth/layout.py:389-392 | one enum range when an `enum` is kept, none otherwise |
| Layouts.KeyRangesErrorStays | src/tablecloth/layout.py:400-415 | once a foreign key fails, collecting its ranges fails with that error |
| Layouts.RangeChecks | src/tablecloth/layout.py:393-398 | one range check per range |
| Layouts.KeyRangesCount | src/tablecloth/layout.py:400-421 | one range check per foreign key involving the column: repeats are not merged |
| Layouts.RepeatedKeyChecked | src/tablecloth/layout.py:400-421 | a foreign key given twice is checked twice, though it is one simple key |
| Layouts.NoKeysNoRanges | src/tablecloth/layout.py:400-406 | with no simple key there are no foreign-key ranges |
| Layouts.FirstKeyRange | src/tablecloth/layout.py:400-415 | the first collected range is the range of the first simple key |
| Layouts.KeyDropdownRange | src/tablecloth/layout.py:285-293 | a foreign-key dropdown holds the fixed range of the first simple key's column |
| Layouts.RangeCheckAmong | src/tablecloth/layout.py:393-398 | each range has its check among the range checks |
| Layouts.DropdownMatchesKeyCheck | src/tablecloth/layout.py:282-293 | the range a foreign-key dropdown offers is checked by one of the column's checks |
| Layouts.SeesBlankConcat | src/tablecloth/layout.py:352-421 | a list of checks sees blanks iff one of its parts does |
| Layouts.RangeAndTypeChecksIgnoreBlanks | src/tablecloth/layout.py:355-362 | type checks and range checks always ignore blanks |
| Layouts.ConstraintChecksStep | src/tablecloth/layout.py:375-384 | each cleaned constraint adds at most its own check, after the earlier ones |
| Layouts.CheckOfSeesBlank | src/tablecloth/layout.py:378-382 | a constraint's check sees blanks iff the constraint is `required` |
| Layouts.KeysOfStep | src/tablecloth/layout.py:375 | the keys of a prefix extend one at a time |
| Layouts.ConstraintFlags | src/tablecloth/layout.py:375-384 | the constraint checks see blanks iff `required` is among the cleaned keys |
| Layouts.RequiredOnlyBlankCheck | src/tablecloth/layout.py:301-422 | a column's checks see blanks iff a truthy `required` constraint was given |
| Layouts.ConstraintChecksCount | src/tablecloth/layout.py:375-384 | one constraint check per cleaned key the catalogue knows; unknown keys are skipped |
| Layouts.ChecksCount | src/tablecloth/layout.py:354-421 | checks come in order: at most one type check, one per known constraint, one for an enum, one per foreign key involving the column; the count is their sum |
| Layouts.EnumCheckPlace | src/tablecloth/layout.py:389-398 | an enum check comes right after the type and constraint checks, against the enum's range |
| Layouts.TypeChecks | src/tablecloth/layout.py:353-361 | definition of the type check: one check for a type in the catalogue, none otherwise; characterised by `TypeCheckFormats`, `ChecksCount` and `RangeAndTypeChecksIgnoreBlanks` |
| Layouts.TypeCheckFormats | src/tablecloth/layout.py:353-361 | a known type gives exactly one check, whose formula is `str.format(**defaults)` on the template's text, which cannot fail; the message and `ignore_blank` are the template's |
| Layouts.ConstraintCheck | src/tablecloth/layout.py:378-384 | definition of one constraint's check; characterised by `ConstraintCheckFormats` and `CheckOfSeesBlank` |
| Layouts.ConstraintCheckFormats | src/tablecloth/layout.py:378-384 | the formula is `str.format(**defaults, value=value)` on the template, the message `str.format(value=value)` on its message, neither can fail, and `ignore_blank` is the template's |
| Layouts.ConstraintChecks | src/tablecloth/layout.py:374-384 | definition of the constraint checks over the cleaned constraints, in order, skipping unknown keys; characterised by `ConstraintChecksStep`, `ConstraintChecksCount`, `ConstraintFlags` and computed by `BuildConstraintChecks` |
| Layouts.InRangeCheck | src/tablecloth/layout.py:385-397 | definition of the check that a cell is in a range, for the enum and for each foreign key (layout.py:415-419); characterised by `InRangeCheckFormats`, `RangeCheckAmong` and `DropdownMatchesKeyCheck` |
| Layouts.InRangeCheckFormats | src/tablecloth/layout.py:392-396 | the formula is `str.format(**defaults, range=range)` on the IN_RANGE template, the message `str.format(range=range)`, neither can fail, and `ignore_blank` is the template's |
| Layouts.KeyStep | src/tablecloth/layout.py:399-420 | definition of one foreign key's step: its error, nothing when the column is not in its fields, else its range appended; characterised through `KeyRangesCount` and `KeyRangesErrorStays` |
| Layouts.KeyRanges | src/tablecloth/layout.py:399-420 | definition of the foreign-key ranges, one per key naming the column, not deduplicated; characterised by `KeyRangesCount`, `RepeatedKeyChecked`, `NoKeysNoRanges`, `FirstKeyRange`, `KeyRangesErrorStays` and computed by `CollectKeyRanges` |
| Layouts.ColumnChecks | src/tablecloth/layout.py:301-422 | definition of `gather_column_checks`: type check, constraint checks, enum and foreign-key range checks; characterised by `ChecksCount`, `EnumCheckPlace`, `RequiredOnlyBlankCheck`, `DropdownMatchesKeyCheck` |
| Layouts.EnumOf | src/tablecloth/layout.py:67-70 | definition of a field's enum: its `enum` constraint when that is a non-empty list |
| Layouts.FieldEnums | src/tablecloth/layout.py:67-70 | definition of the enums after a resource's fields are added; characterised by `FieldEnumsKeepValid` |
| Layouts.PackageLayout | src/tablecloth/layout.py:61-71 | definition of `from_package` over the first `n` resources; characterised by `PackageStep`, `PackageStaysValid`, `PackageTables`, `PackageErrorStays` |
| Layouts.PackageStep | src/tablecloth/layout.py:62-70 | each resource adds its table, named after the resource, and then its fields' enums |
| Layouts.FieldEnumsKeepValid | src/tablecloth/layout.py:67-70 | adding the fields' enums keeps the enums valid |
| Layouts.PackageStaysValid | src/tablecloth/layout.py:61-71 | a package that loads keeps tables and enums valid and the settings unchanged |
| Layouts.PackageTables | src/tablecloth/layout.py:62-66 | a loaded package has one table per resource, in order, with the resource's name as table and sheet and its field names as columns |
| Layouts.PackageLayoutValid | src/tablecloth/layout.py:47-71 | the conjunction of the two: a valid layout with one table per resource and the settings kept |
| Layouts.PackageErrorStays | src/tablecloth/layout.py:62-66 | once a resource is rejected, loading the package fails with that error |
| Layouts.Layout.constructor | src/tablecloth/layout.py:34-44 | a new layout has no tables or enums and the given settings |
| Layouts.Layout.SetTable | src/tablecloth/layout.py:73-109 | the outcome is `AddTableOutcome`; the table is appended exactly on success; validity is kept |
| Layouts.Layout.GetTable | src/tablecloth/layout.py:111-116 | the loop returns `FindTable` of the tables |
| Layouts.Layout.SetEnum | src/tablecloth/layout.py:118-132 | warns iff some value is a string starting with `+`, `=` or `'`; the enums become `AddEnum`; validity is kept |
| Layouts.Layout.GetEnum | src/tablecloth/layout.py:134-139 | the loop returns `FindEnum` of the enums |
| Layouts.Layout.GetEnumRange | src/tablecloth/layout.py:141-161 | returns the enum's range (see `EnumRangeExtent`) |
| Layouts.Layout.GetColumnCode | src/tablecloth/layout.py:163-185 | returns the column's code (see `ColumnCodeMeaning`) |
| Layouts.Layout.GetColumnRange | src/tablecloth/layout.py:187-225 | returns the column's range (see `ColumnRangeExtent`) |
| Layouts.Layout.GetEnumRangeOf | src/tablecloth/layout.py:297 | the range of an enum given as a constraint value; a non-list is not found |
| Layouts.Layout.SelectColumnDropdown | src/tablecloth/layout.py:227-299 | returns `DropdownFor` (see the dropdown lemmas) |
| Layouts.Layout.GetDefaults | src/tablecloth/layout.py:342-350 | returns the defaults (see `DefaultsSpanTable`) |
| Layouts.Layout.BuildKeyRanges | src/tablecloth/layout.py:400-415 | returns the foreign-key ranges `KeyRanges` specifies |
| Layouts.Layout.GatherColumnChecks | src/tablecloth/layout.py:301-422 | returns `ColumnChecks` over the built-in catalogue (see `ChecksCount`, `RequiredOnlyBlankCheck`, `DropdownMatchesKeyCheck`) |
| Layouts.Layout.AddFieldEnums | src/tablecloth/layout.py:67-70 | each field's non-empty list enum is set, in order; validity is kept |
| Layouts.Layout.AddResource | src/tablecloth/layout.py:63-70 | the table outcome as `set_table`; on success the table and the fields' enums are added, on failure nothing changes; validity is kept |
| Layouts.Layout.FromPackage | src/tablecloth/layout.py:47-71 | a fresh valid layout whose state is `PackageLayout` of the resources, or that function's error |
| Layouts.CollectKeyRanges | src/tablecloth/layout.py:400-415 | the loop returns the ranges `KeyRanges` specifies |
| Layouts.MaxColumn | src/tablecloth/layout.py:129 | the loop returns the highest enum column |
| Layouts.BuildConstraintChecks | src/tablecloth/layout.py:375-384 | the loop returns the constraint checks `ConstraintChecks` specifies |

## Left out

- Floating-point values: `Value` has booleans, integers, strings, `None` and lists. `format_value` of a float and float constraint values are not modelled.
- `str.format` is modelled as `format(**kwargs)`: named fields, failures for unbound names, positional fields (`IndexError`, since no positional argument is passed), a lone `}` and an unclosed `{`. `{{` and `}}` stand for single braces. A field name holding `.`, `[`, `!` or `:` (attribute access, indexing, conversion, format spec) is looked up whole, and braces nested inside a field are not modelled.
- Constants.Repr: characters other than tab, newline and carriage return that Python escapes in `repr` (other control and non-printable characters, shown as `\xhh`, `\uXXXX`) are kept as they are.
- Layouts.CleanConstraints: a `Constraints` value stands for the items of a Python dict, whose keys are distinct. The model accepts any sequence of pairs; for a repeated raw key it keeps the first position and the last truthy value, as it does for distinct raw keys that rename to the same key (which Python handles the same way).
- Helpers.CamelToSnake: lowers ASCII capitals only. Python's `[A-Z]` look-ahead inserts `_` only before ASCII capitals, but `.lower()` also lowers non-ASCII capitals, and the model does not.
- Layouts.Layout.SetEnum: the warning is returned as a flag, not through Python's `warnings` module.
- Helpers.ColumnCodeToIndex: non-capital characters get Python's value for them (`ord(c) - ord('A') + 1`, which may be zero or negative). The model's contracts speak only of the empty code and of codes of capitals.
- Helpers.ColumnIndexToCode: defined for non-negative indices. For a negative index other than -1, Python's loop does not end.
- Python equality across types (`1 == True`, `0 == False`) is not modelled in enum and table lookups, which compare values structurally. It is modelled in the falsy-value test of `gather_column_checks`.
- Layouts.EnumOf: a truthy enum that is not a list, such as a string, is ignored by the model. `from_package` would pass it to `set_enum`.
- Package dictionaries are modelled as `Resource` and `SchemaField` records. A missing key (Python's `KeyError` on `resource['schema']`) cannot be expressed.
- The spreadsheet backends (`excel.py`, `gsheets.py`) are not part of this model: writing workbooks, column widths, formatting and their calls to `build_column_condition` and `build_column_validation`.
- `merge_conditions` and `build_column_validation` are given meaning through an evaluation of the condition tree over an arbitrary truth assignment. Spreadsheet formula semantics are not modelled.

## Findings

| source | as written | input that shows it | evidently intended | confidence | as-written member | corrected member |
|---|---|---|---|---|---|---|
| src/tablecloth/helpers.py:350-357 | the merged formula is passed through `str.format(col=..., row=...)` again, so every brace in a check formula is read as a placeholder | a `pattern` constraint `[0-9]{4}`: its check formula holds `{4}`, read as positional field 4, and the format raises `IndexError`; a constraint value with a named placeholder such as `{x}` raises `KeyError` | fill only the `{col}{row}` that `merge_conditions` inserts in its blank guard, and leave the check formulas alone | not executed | Helpers.BuildColumnCondition, Helpers.RescanFails, Helpers.PatternQuantifierFails | Helpers.ColumnCondition, Helpers.ColumnConditionText, Helpers.SkippedCondition, Helpers.PatternQuantifierCorrected, Helpers.ConditionAgrees |
