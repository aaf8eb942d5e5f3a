/**
 * Coordinate and formula helpers: column codes in bijective base 26, row
 * codes, A1-style cell ranges, scalar literals, and the merging of check
 * formulas into one data-validation or conditional-formatting formula.
 */
module Helpers {
  import opened Results
  import opened Strings
  import opened Constants

  // ---- Key names ----

  predicate IsUpper(c: char)
  {
    'A' <= c <= 'Z'
  }

  predicate NoUpper(s: string)
  {
    forall i :: 0 <= i < |s| ==> !IsUpper(s[i])
  }

  function Lower(c: char): (d: char)
    ensures !IsUpper(d)
    ensures !IsUpper(c) ==> d == c
  {
    if IsUpper(c) then (c as int - 'A' as int + 'a' as int) as char else c
  }

  /** Every uppercase letter becomes '_' and its lowercase form. */
  function SnakeTail(s: string): (r: string)
    ensures NoUpper(r)
    ensures |r| >= |s|
  {
    if |s| == 0 then ""
    else (if IsUpper(s[0]) then ['_', Lower(s[0])] else [s[0]]) + SnakeTail(s[1..])
  }

  /**
   * camelCase (or CamelCase) to snake_case: an underscore before every
   * uppercase letter but the first character, then everything lowercased.
   */
  function CamelToSnake(s: string): (r: string)
    ensures NoUpper(r)
    ensures |r| >= |s|
  {
    if |s| == 0 then "" else [Lower(s[0])] + SnakeTail(s[1..])
  }

  lemma {:induction false} SnakeTailIdentity(s: string)
    requires NoUpper(s)
    ensures SnakeTail(s) == s
  {
    if |s| > 0 {
      SnakeTailIdentity(s[1..]);
    }
  }

  /** A key already in snake_case is kept as it is. */
  lemma {:induction false} SnakeIdentity(s: string)
    requires NoUpper(s)
    ensures CamelToSnake(s) == s
  {
    if |s| > 0 {
      SnakeTailIdentity(s[1..]);
    }
  }

  /** Converting twice is converting once. */
  lemma {:induction false} SnakeIdempotent(s: string)
    ensures CamelToSnake(CamelToSnake(s)) == CamelToSnake(s)
  {
    SnakeIdentity(CamelToSnake(s));
  }

  lemma {:induction false} SnakeTailCons(c: char, s: string)
    ensures SnakeTail([c] + s) == (if IsUpper(c) then ['_', Lower(c)] else [c]) + SnakeTail(s)
  {
    assert ([c] + s)[1..] == s;
  }

  /** A prefix with no uppercase letter passes through unchanged. */
  lemma {:induction false} SnakeTailAppend(p: string, s: string)
    requires NoUpper(p)
    ensures SnakeTail(p + s) == p + SnakeTail(s)
  {
    if |p| > 0 {
      assert (p + s)[1..] == p[1..] + s;
      SnakeTailAppend(p[1..], s);
      assert p == [p[0]] + p[1..];
    } else {
      assert p + s == s;
    }
  }

  /**
   * A camelCase key of two words gets an underscore between them and the
   * second word's capital lowercased, as `minLength` becomes `min_length`.
   */
  lemma {:induction false} CamelWords(p: string, c: char, t: string)
    requires |p| > 0 && NoUpper(p) && IsUpper(c) && NoUpper(t)
    ensures CamelToSnake(p + [c] + t) == p + ['_', Lower(c)] + t
  {
    var rest := [c] + t;
    assert p + [c] + t == [p[0]] + (p[1..] + rest);
    CamelCons(p[0], p[1..] + rest);
    SnakeTailAppend(p[1..], rest);
    SnakeTailCons(c, t);
    SnakeTailIdentity(t);
    assert Lower(p[0]) == p[0];
    assert [p[0]] + (p[1..] + (['_', Lower(c)] + t)) == p + ['_', Lower(c)] + t;
  }

  /** The first character is lowercased, the rest goes through `SnakeTail`. */
  lemma {:induction false} CamelCons(h: char, u: string)
    ensures CamelToSnake([h] + u) == [Lower(h)] + SnakeTail(u)
  {
    assert ([h] + u)[0] == h && ([h] + u)[1..] == u;
  }

  /** A foreign key's column names as a list: absent or empty names none. */
  function ToList(f: Fields): (r: seq<string>)
    ensures f.FieldList? ==> r == f.names
    ensures f.FieldName? ==> (r == [] <==> f.name == "")
    ensures forall c :: c in r <==> (f.FieldName? && c == f.name && c != "") || (f.FieldList? && c in f.names)
  {
    match f
    case NoFields => []
    case FieldName(n) => if n == "" then [] else [n]
    case FieldList(ns) => ns
  }

  // ---- Column codes ----

  predicate AllUpper(s: string)
  {
    forall i :: 0 <= i < |s| ==> IsUpper(s[i])
  }

  /** The letter for remainder `r`: entry `r` of the alphabet constant, as `LetterListed` shows. */
  function Letter(r: int): (c: char)
    requires 0 <= r < 26
    ensures IsUpper(c) && c as int == 'A' as int + r
  {
    ('A' as int + r) as char
  }

  lemma {:induction false} LetterListed(r: int)
    requires 0 <= r < 26
    ensures Letter(r) == Letters[r]
  {
    LettersInOrder();
  }

  /** `n` in bijective base 26 over A-Z (0 has the empty code). */
  function Code(n: nat): (s: string)
    ensures AllUpper(s)
    ensures |s| == 0 <==> n == 0
    decreases n
  {
    if n == 0 then "" else Code((n - 1) / 26) + [Letter((n - 1) % 26)]
  }

  /** The spreadsheet code of zero-based column `i`: 0 is A, 25 is Z, 26 is AA. */
  function ColumnCode(i: nat): (code: string)
    ensures |code| > 0 && AllUpper(code)
  {
    Code(i + 1)
  }

  method ColumnIndexToCode(i: nat) returns (code: string)
    ensures code == ColumnCode(i)
  {
    var letters := "";
    var n: nat := i + 1;
    while n != 0
      invariant Code(n) + letters == Code(i + 1)
      decreases n
    {
      var q, r := (n - 1) / 26, (n - 1) % 26;
      assert Code(n) == Code(q) + [Letter(r)];
      letters := [Letter(r)] + letters;
      assert Code(q) + letters == Code(n) + letters[1..];
      n := q;
    }
    assert Code(0) == "";
    code := letters;
  }

  /** Reads a code most significant letter first, A standing for 1 and Z for 26. */
  function CodeValue(s: string): int
  {
    if |s| == 0 then 0 else CodeValue(s[..|s| - 1]) * 26 + (s[|s| - 1] as int - 'A' as int + 1)
  }

  /** The zero-based index of a column code; the empty code has none. */
  function ColumnCodeToIndex(code: string): (r: Result<int>)
    ensures r.Err? <==> code == ""
    ensures r.Err? ==> r.error == EmptyColumnCode
  {
    if |code| == 0 then Err(EmptyColumnCode) else Ok(CodeValue(code) - 1)
  }

  lemma {:induction false} CodeValueOfCode(n: nat)
    ensures CodeValue(Code(n)) == n
    decreases n
  {
    if n > 0 {
      var s := Code(n);
        CodeValueOfCode((n - 1) / 26);
      assert s[..|s| - 1] == Code((n - 1) / 26);
    }
  }

  lemma {:induction false} CodeOfCodeValue(s: string)
    requires AllUpper(s)
    ensures CodeValue(s) >= 0
    ensures Code(CodeValue(s)) == s
    decreases |s|
  {
    if |s| > 0 {
      var p, c := s[..|s| - 1], s[|s| - 1];
      assert AllUpper(p) && IsUpper(c);
      CodeOfCodeValue(p);
      var q, k := CodeValue(p), c as int - 'A' as int;
      AppendLetter(p, c, q);
      assert CodeValue(s) == q * 26 + k + 1;
      assert s == p + [c];
    }
  }

  /** The code of `p` followed by the uppercase letter `c`, as a number. */
  lemma {:induction false} AppendLetter(p: string, c: char, q: nat)
    requires IsUpper(c) && Code(q) == p
    ensures Code(q * 26 + (c as int - 'A' as int) + 1) == p + [c]
  {
    var k := c as int - 'A' as int;
    LetterOf(c);
    CodeStep(q, k);
    assert Code(q) + [Letter(k)] == p + [c];
  }

  /** One more letter after the code of `q`. */
  lemma {:induction false} CodeStep(q: nat, k: int)
    requires 0 <= k < 26
    ensures Code(q * 26 + k + 1) == Code(q) + [Letter(k)]
  {
    DigitSplit(q, k);
  }

  /** An uppercase letter is the letter at its distance from A. */
  lemma {:induction false} LetterOf(c: char)
    requires IsUpper(c)
    ensures 0 <= c as int - 'A' as int < 26 && Letter(c as int - 'A' as int) == c
  {
  }

  /** Quotient and remainder of one more base-26 digit. */
  lemma {:induction false} DigitSplit(q: int, k: int)
    requires q >= 0 && 0 <= k < 26
    ensures (q * 26 + k) / 26 == q && (q * 26 + k) % 26 == k
  {
  }

  /** Every column index has a non-empty code from which it is read back. */
  lemma {:induction false} ColumnRoundTrip(i: nat)
    ensures |ColumnCode(i)| > 0 && AllUpper(ColumnCode(i))
    ensures ColumnCodeToIndex(ColumnCode(i)) == Ok(i)
  {
    CodeValueOfCode(i + 1);
  }

  /** Every non-empty code over A-Z is the code of the index it is read as. */
  lemma {:induction false} CodeRoundTrip(code: string)
    requires |code| > 0 && AllUpper(code)
    ensures ColumnCodeToIndex(code).Ok? && ColumnCodeToIndex(code).value >= 0
    ensures ColumnCode(ColumnCodeToIndex(code).value) == code
  {
    CodeOfCodeValue(code);
  }

  /** Different columns have different codes. */
  lemma {:induction false} ColumnCodeInjective(i: nat, j: nat)
    requires ColumnCode(i) == ColumnCode(j)
    ensures i == j
  {
    ColumnRoundTrip(i);
    ColumnRoundTrip(j);
  }

  lemma {:induction false} ColumnCodeSingleLetters()
    ensures ColumnCode(0) == "A" && ColumnCode(1) == "B" && ColumnCode(25) == "Z"
  {
    assert Code(1) == "A";
    assert Code(2) == "B";
    assert Code(26) == "Z";
  }

  lemma {:induction false} ColumnCodeDoubleLetters()
    ensures ColumnCode(26) == "AA" && ColumnCode(28) == "AC"
  {
    CodeStep(0, 0);
    CodeStep(1, 0);
    CodeStep(1, 2);
    assert Code(1) == "A";
  }

  /** The last column of a worksheet. */
  lemma {:induction false} ColumnCodeLast()
    ensures ColumnCode(16383) == "XFD"
  {
    CodeStep(0, 23);
    CodeStep(24, 5);
    CodeStep(630, 3);
    assert Code(24) == "X";
  }

  // ---- Row codes ----

  /** The 1-based spreadsheet row of zero-based row `i`. */
  function RowIndexToCode(i: int): (code: int)
    ensures RowCodeToIndex(code) == i
  {
    i + 1
  }

  /** The zero-based row of 1-based spreadsheet row `code`. */
  function RowCodeToIndex(code: int): (i: int)
  {
    code - 1
  }

  lemma {:induction false} RowRoundTrip(code: int)
    ensures RowIndexToCode(RowCodeToIndex(code)) == code
  {
  }

  // ---- Cell ranges ----

  function Prefix(fixed: bool): string
  {
    if fixed then "$" else ""
  }

  /** The cell in column `col`, zero-based row `row`, e.g. `A2` or `$A$2`. */
  function StartCell(col: nat, row: int, fixed: bool): string
  {
    Prefix(fixed) + ColumnCode(col) + Prefix(fixed) + IntToDecimal(RowIndexToCode(row))
  }

  predicate Truthy(sheet: Option<string>)
  {
    sheet.Some? && sheet.value != ""
  }

  /** `'sheet'!cells`, further wrapped in `INDIRECT("…")` when asked; unchanged without a sheet. */
  function Qualify(sheet: Option<string>, indirect: bool, cells: string): string
  {
    if !Truthy(sheet) then cells
    else
      var named := "'" + sheet.value + "'!" + cells;
      if indirect then "INDIRECT(\"" + named + "\")" else named
  }

  /**
   * The range of `nrows` cells (all the rest of the column when `None`) from
   * zero-based row `row` of column `col`; a single cell has no sheet.
   */
  function RangeString(col: nat, row: int, nrows: Option<int>, fixed: bool,
                       sheet: Option<string>, indirect: bool): string
  {
    var start := StartCell(col, row, fixed);
    if nrows == Some(1) then start
    else
      var span := start + ":" + Prefix(fixed) + ColumnCode(col);
      Qualify(sheet, indirect, if nrows.Some? then span + Prefix(fixed) + IntToDecimal(row + nrows.value) else span)
  }

  method ColumnToRange(col: nat, row: int, nrows: Option<int>, fixed: bool,
                       sheet: Option<string>, indirect: bool) returns (cells: string)
    ensures cells == RangeString(col, row, nrows, fixed, sheet, indirect)
  {
    var colCode := ColumnIndexToCode(col);
    var rowCode := RowIndexToCode(row);
    var prefix := if fixed then "$" else "";
    cells := prefix + colCode + prefix + IntToDecimal(rowCode);
    if nrows == Some(1) {
      return;
    }
    cells := cells + ":" + prefix + colCode;
    if nrows.Some? {
      var lastRow := row + nrows.value;
      cells := cells + prefix + IntToDecimal(lastRow);
    }
    if sheet.Some? && sheet.value != "" {
      cells := "'" + sheet.value + "'!" + cells;
      if indirect {
        cells := "INDIRECT(\"" + cells + "\")";
      }
    }
  }

  /** A range of one row is its start cell, whatever the sheet and `indirect`. */
  lemma {:induction false} SingleCellRange(col: nat, row: int, fixed: bool, sheet: Option<string>, indirect: bool)
    ensures RangeString(col, row, Some(1), fixed, sheet, indirect) == StartCell(col, row, fixed)
  {
  }

  /**
   * A bounded range of `n` rows runs from the start cell to the cell `n - 1`
   * rows below it: it covers rows `row` to `row + n - 1`.
   */
  lemma {:induction false} BoundedRange(col: nat, row: int, n: int, fixed: bool, sheet: Option<string>, indirect: bool)
    requires n != 1
    ensures RangeString(col, row, Some(n), fixed, sheet, indirect) ==
      Qualify(sheet, indirect, StartCell(col, row, fixed) + ":" + StartCell(col, row + n - 1, fixed))
  {
    var p, c, d := Prefix(fixed), ColumnCode(col), IntToDecimal(row + n);
    var s := StartCell(col, row, fixed);
    assert StartCell(col, row + n - 1, fixed) == p + c + p + d;
    Associate(s, ":", p + c + p + d, p, c, p, d);
  }

  lemma {:induction false} Associate(s: string, colon: string, t: string, p: string, c: string, q: string, d: string)
    requires t == p + c + q + d
    ensures s + colon + p + c + q + d == s + colon + t
  {
  }

  /** An open range names its column again after the colon, with no last row. */
  lemma {:induction false} OpenRange(col: nat, row: int, fixed: bool, sheet: Option<string>, indirect: bool)
    ensures RangeString(col, row, None, fixed, sheet, indirect) ==
      Qualify(sheet, indirect, StartCell(col, row, fixed) + ":" + Prefix(fixed) + ColumnCode(col))
  {
  }

  /** `column_to_range` on the examples of its documentation, for column A from row index 1. */
  lemma {:induction false} RangeExamples()
    ensures RangeString(0, 1, Some(1), false, None, false) == "A2"
    ensures RangeString(0, 1, Some(1), true, None, false) == "$A$2"
    ensures RangeString(0, 1, None, false, None, false) == "A2:A"
    ensures RangeString(0, 1, None, true, None, false) == "$A$2:$A"
    ensures RangeString(0, 1, Some(2), false, None, false) == "A2:A3"
    ensures RangeString(0, 1, Some(2), true, None, false) == "$A$2:$A$3"
  {
    ColumnCodeSingleLetters();
    assert IntToDecimal(2) == "2" && IntToDecimal(3) == "3";
    assert StartCell(0, 1, false) == "A2" && StartCell(0, 1, true) == "$A$2";
  }

  /** The examples of `column_to_range` with a sheet: quoted and marked, then wrapped when `indirect`. */
  lemma {:induction false} SheetRangeExamples(sheet: string)
    requires sheet != ""
    ensures RangeString(0, 1, Some(2), true, Some(sheet), false) == "'" + sheet + "'!" + "$A$2:$A$3"
    ensures RangeString(0, 1, None, false, Some(sheet), true) == "INDIRECT(\"" + ("'" + sheet + "'!" + "A2:A") + "\")"
  {
    RangeExamples();
    assert RangeString(0, 1, Some(2), true, Some(sheet), false) == Qualify(Some(sheet), false, "$A$2:$A$3");
    assert RangeString(0, 1, None, false, Some(sheet), true) == Qualify(Some(sheet), true, "A2:A");
  }

  /** The length of the leading run of uppercase letters of `s`. */
  function LetterRun(s: string): (k: nat)
    ensures k <= |s|
    ensures AllUpper(s[..k])
    ensures k < |s| ==> !IsUpper(s[k])
  {
    if |s| == 0 || !IsUpper(s[0]) then 0
    else
      var k := 1 + LetterRun(s[1..]);
      assert s[..k] == [s[0]] + s[1..][..k - 1];
      k
  }

  /** Reads a cell reference such as `B7` or `$B$7` back into its column, zero-based row and `$` flag. */
  function ParseCell(s: string): Option<(int, int, bool)>
  {
    var fixed := |s| > 0 && s[0] == '$';
    var t := if fixed then s[1..] else s;
    var k := LetterRun(t);
    var rest := t[k..];
    if k == 0 then None
    else if fixed && (|rest| == 0 || rest[0] != '$') then None
    else match ParseInt(if fixed then rest[1..] else rest)
      case None => None
      case Some(n) => Some((CodeValue(t[..k]) - 1, RowCodeToIndex(n), fixed))
  }

  lemma {:induction false} LetterRunOf(u: string, v: string)
    requires AllUpper(u)
    requires |v| > 0 ==> !IsUpper(v[0])
    ensures LetterRun(u + v) == |u|
    decreases |u|
  {
    if |u| > 0 {
      assert (u + v)[1..] == u[1..] + v;
      LetterRunOf(u[1..], v);
    } else {
      assert u + v == v;
    }
  }

  /** Letters `c` then the row digits `d`, without `$`, read back into their parts. */
  lemma {:induction false} ParsePlainCell(c: string, d: string, n: int)
    requires |c| > 0 && AllUpper(c)
    requires |d| > 0 && !IsUpper(d[0])
    requires ParseInt(d) == Some(n)
    ensures ParseCell(c + d) == Some((CodeValue(c) - 1, RowCodeToIndex(n), false))
  {
    var s := c + d;
    assert s[0] == c[0] && IsUpper(c[0]);
    LetterRunOf(c, d);
    assert s[..|c|] == c;
    assert s[|c|..] == d;
  }

  /** `$`, letters `c`, `$` and the row digits `d`, read back into their parts. */
  lemma {:induction false} ParseFixedCell(c: string, d: string, n: int)
    requires |c| > 0 && AllUpper(c)
    requires ParseInt(d) == Some(n)
    ensures ParseCell("$" + c + "$" + d) == Some((CodeValue(c) - 1, RowCodeToIndex(n), true))
  {
    var s := "$" + c + "$" + d;
    var t := s[1..];
    assert t == c + ("$" + d);
    LetterRunOf(c, "$" + d);
    assert t[..|c|] == c;
    assert t[|c|..] == "$" + d;
    assert t[|c|..][1..] == d;
  }

  /** A cell reference determines its column, its row and whether it is fixed. */
  lemma {:induction false} CellRoundTrip(col: nat, row: int, fixed: bool)
    ensures ParseCell(StartCell(col, row, fixed)) == Some((col, row, fixed))
  {
    var n := RowIndexToCode(row);
    var c, d := ColumnCode(col), IntToDecimal(n);
    ColumnRoundTrip(col);
    assert CodeValue(c) - 1 == col;
    DecimalRoundTrip(n);
    if fixed {
      assert StartCell(col, row, fixed) == "$" + c + "$" + d;
      ParseFixedCell(c, d, n);
    } else {
      assert StartCell(col, row, fixed) == c + d;
      assert d[0] == '-' || IsDigit(d[0]);
      ParsePlainCell(c, d, n);
    }
  }

  // ---- Scalar literals ----

  function BoolLiteral(b: bool): Literal
  {
    if b then "TRUE" else "FALSE"
  }

  /** A scalar as a spreadsheet literal: TRUE/FALSE, a decimal, a quoted string, or nothing for None. */
  function FormatValue(v: Value): (r: Result<string>)
    ensures r.Err? <==> v.VList?
    ensures r.Err? ==> r.error == UnexpectedValue
  {
    match v
    case VBool(b) => Ok(BoolLiteral(b))
    case VInt(i) => Ok(IntToDecimal(i))
    case VStr(s) => Ok("\"" + s + "\"")
    case VNone => Ok("")
    case VList(_) => Err(UnexpectedValue)
  }

  /** What a literal starts with: nothing, a quote, a letter of TRUE/FALSE, or a digit or sign. */
  function LiteralKind(s: string): nat
  {
    if |s| == 0 then 0 else if s[0] == '"' then 1 else if s[0] == 'T' || s[0] == 'F' then 2 else 3
  }

  function ValueKind(v: Value): nat
  {
    match v
    case VNone => 0
    case VStr(_) => 1
    case VBool(_) => 2
    case VInt(_) => 3
    case VList(_) => 4
  }

  lemma {:induction false} KindOfLiteral(v: Value)
    requires FormatValue(v).Ok?
    ensures LiteralKind(FormatValue(v).value) == ValueKind(v)
  {
    if v.VInt? {
      var d := IntToDecimal(v.i);
      assert d[0] == '-' || IsDigit(d[0]);
    } else if v.VBool? {
      assert BoolLiteral(true)[0] == 'T' && BoolLiteral(false)[0] == 'F';
    }
  }

  /** Different scalars are written differently. */
  lemma {:induction false} FormatValueInjective(a: Value, b: Value)
    requires FormatValue(a).Ok? && FormatValue(b).Ok?
    requires FormatValue(a) == FormatValue(b)
    ensures a == b
  {
    var s := FormatValue(a).value;
    KindOfLiteral(a);
    KindOfLiteral(b);
    if a.VInt? {
      DecimalInjective(a.i, b.i);
    } else if a.VStr? {
      assert a.s == s[1..|s| - 1] == b.s;
    }
  }

  // ---- Merging formulas ----

  datatype Operator = And | Or

  function OperatorName(op: Operator): string
  {
    match op
    case And => "AND"
    case Or => "OR"
  }

  /** No formula is nothing, one formula is itself, several are `OP(f1, f2, …)`. */
  function MergeFormulas(formulas: seq<string>, op: Operator): string
  {
    if |formulas| == 0 then ""
    else if |formulas| == 1 then formulas[0]
    else OperatorName(op) + "(" + Join(", ", formulas) + ")"
  }

  /**
   * A merged formula as a tree over the formulas it was built from. Merged
   * nodes with one part are that part; `SkipBlank(v, body)` stands for
   * `IF(ISBLANK({col}{row}), v, body)`.
   */
  datatype Condition =
    | Formula(text: string)
    | Merged(op: Operator, parts: seq<Condition>)
    | SkipBlank(value: bool, body: Condition)

  /** `IF(ISBLANK({col}{row}), TRUE, ` (or `FALSE`): the head of the blank-cell wrapper. */
  function BlankGuard(value: bool): (t: Tpl)
    ensures Placeholders(t) == {Col, Row}
  {
    var tail := Plain("), " + BoolLiteral(value) + ", ");
    assert Placeholders(tail) == {};
    assert Placeholders(Cell(tail)) == {Col} + ({Row} + Placeholders(tail));
    Lit("IF(ISBLANK(", Cell(tail))
  }

  /** The formula a tree denotes, as `merge_formulas` and the IF wrapper write it. */
  function Text(c: Condition): string
  {
    match c
    case Formula(t) => t
    case Merged(op, ps) => MergeFormulas(seq(|ps|, k requires 0 <= k < |ps| => Text(ps[k])), op)
    case SkipBlank(v, b) => Render(BlankGuard(v)) + Text(b) + ")"
  }

  /**
   * What a tree evaluates to on a cell, given what each formula evaluates to
   * there and whether the cell is blank.
   */
  predicate Eval(c: Condition, truth: string -> bool, blank: bool)
  {
    match c
    case Formula(t) => truth(t)
    case Merged(And, ps) => forall k :: 0 <= k < |ps| ==> Eval(ps[k], truth, blank)
    case Merged(Or, ps) => exists k :: 0 <= k < |ps| && Eval(ps[k], truth, blank)
    case SkipBlank(v, b) => if blank then v else Eval(b, truth, blank)
  }

  /** Whether formula `i` ignores blank cells: always when no flags are given. */
  predicate IgnoresBlank(ignoreBlanks: seq<bool>, i: nat)
    requires |ignoreBlanks| == 0 || i < |ignoreBlanks|
  {
    |ignoreBlanks| == 0 || ignoreBlanks[i]
  }

  /** The flags are absent, or there is one for every formula. */
  predicate FlagsCover(n: nat, ignoreBlanks: seq<bool>)
  {
    |ignoreBlanks| == 0 || n <= |ignoreBlanks|
  }

  /** The first `n` formulas that do not ignore blanks, in order. */
  function Kept(formulas: seq<string>, ignoreBlanks: seq<bool>, n: nat): seq<string>
    requires n <= |formulas| && FlagsCover(n, ignoreBlanks)
  {
    if n == 0 then []
    else Kept(formulas, ignoreBlanks, n - 1) + (if IgnoresBlank(ignoreBlanks, n - 1) then [] else [formulas[n - 1]])
  }

  /** The first `n` formulas that ignore blanks, in order. */
  function Skipped(formulas: seq<string>, ignoreBlanks: seq<bool>, n: nat): seq<string>
    requires n <= |formulas| && FlagsCover(n, ignoreBlanks)
  {
    if n == 0 then []
    else Skipped(formulas, ignoreBlanks, n - 1) + (if IgnoresBlank(ignoreBlanks, n - 1) then [formulas[n - 1]] else [])
  }

  function Formulas(fs: seq<string>): (r: seq<Condition>)
    ensures |r| == |fs|
    ensures forall k :: 0 <= k < |fs| ==> r[k] == Formula(fs[k])
  {
    seq(|fs|, k requires 0 <= k < |fs| => Formula(fs[k]))
  }

  function OperatorFor(valid: bool): Operator
  {
    if valid then And else Or
  }

  /**
   * The tree `merge_conditions` builds: the formulas that keep blanks, then
   * one IF wrapper around all the ones that ignore blanks; no flag at index
   * `|ignoreBlanks|` when a non-empty flag list is shorter than the
   * formulas (an empty one makes every formula ignore blanks).
   */
  function ConditionTree(formulas: seq<string>, valid: bool, ignoreBlanks: seq<bool>): Result<Condition>
  {
    if !FlagsCover(|formulas|, ignoreBlanks) then Err(IndexOutOfRange(|ignoreBlanks|))
    else
      var op := OperatorFor(valid);
      var skipped := Skipped(formulas, ignoreBlanks, |formulas|);
      var wrapper := if |skipped| == 0 then [] else [SkipBlank(valid, Merged(op, Formulas(skipped)))];
      Ok(Merged(op, Formulas(Kept(formulas, ignoreBlanks, |formulas|)) + wrapper))
  }

  function TextOf(r: Result<Condition>): Result<string>
  {
    match r
    case Ok(c) => Ok(Text(c))
    case Err(e) => Err(e)
  }

  method MergeConditions(formulas: seq<string>, valid: bool, ignoreBlanks: seq<bool>)
    returns (r: Result<string>)
    ensures r == TextOf(ConditionTree(formulas, valid, ignoreBlanks))
  {
    var op := if valid then And else Or;
    var fs, fsIgnore := [], [];
    var i := 0;
    while i < |formulas|
      invariant 0 <= i <= |formulas|
      invariant FlagsCover(i, ignoreBlanks)
      invariant fs == Kept(formulas, ignoreBlanks, i)
      invariant fsIgnore == Skipped(formulas, ignoreBlanks, i)
    {
      if |ignoreBlanks| > 0 && i >= |ignoreBlanks| {
        return Err(IndexOutOfRange(i));
      }
      if |ignoreBlanks| > 0 && !ignoreBlanks[i] {
        fs := fs + [formulas[i]];
      } else {
        fsIgnore := fsIgnore + [formulas[i]];
      }
      i := i + 1;
    }
    var kept := Formulas(Kept(formulas, ignoreBlanks, |formulas|));
    var skipped := Formulas(fsIgnore);
    if |fsIgnore| > 0 {
      var merged := MergeFormulas(fsIgnore, op);
      assert merged == Text(Merged(op, skipped)) by {
        assert seq(|skipped|, k requires 0 <= k < |skipped| => Text(skipped[k])) == fsIgnore;
      }
      fs := fs + [Render(BlankGuard(valid)) + merged + ")"];
      var parts := kept + [SkipBlank(valid, Merged(op, skipped))];
      assert seq(|parts|, k requires 0 <= k < |parts| => Text(parts[k])) == fs;
      assert ConditionTree(formulas, valid, ignoreBlanks) == Ok(Merged(op, parts));
    } else {
      assert seq(|kept|, k requires 0 <= k < |kept| => Text(kept[k])) == fs;
      assert kept + [] == kept;
      assert ConditionTree(formulas, valid, ignoreBlanks) == Ok(Merged(op, kept));
    }
    r := Ok(MergeFormulas(fs, op));
  }

  /** A merge of plain formulas is written as `merge_formulas` writes them. */
  lemma {:induction false} MergedFormulasText(fs: seq<string>, op: Operator)
    ensures Text(Merged(op, Formulas(fs))) == MergeFormulas(fs, op)
  {
    var ps := Formulas(fs);
    assert seq(|ps|, k requires 0 <= k < |ps| => Text(ps[k])) == fs;
  }

  /** `merge_formulas` on the examples of its documentation. */
  lemma {:induction false} MergeFormulasExamples()
    ensures MergeFormulas([], And) == ""
    ensures MergeFormulas(["A2 > 0"], And) == "A2 > 0"
    ensures MergeFormulas(["A2 > 0", "A2 < 3"], And) == "AND(A2 > 0, A2 < 3)"
    ensures MergeFormulas(["A2 > 0", "A2 < 3"], Or) == "OR(A2 > 0, A2 < 3)"
  {
    var fs := ["A2 > 0", "A2 < 3"];
    assert fs[1..] == ["A2 < 3"];
    assert Join(", ", fs) == "A2 > 0, A2 < 3";
  }

  /** The head of the blank-cell wrapper, spelled out. */
  lemma {:induction false} BlankGuardText(value: bool)
    ensures Render(BlankGuard(value)) == Guard(value)
  {
    var tail: Literal := "), " + BoolLiteral(value) + ", ";
    assert Render(Plain(tail)) == tail;
    assert Render(Cell(Plain(tail))) == "{" + Col + "}" + ("{" + Row + "}" + tail);
  }

  /** `IF(ISBLANK({col}{row}), TRUE, ` (or `FALSE`) as text. */
  function Guard(value: bool): string
  {
    "IF(ISBLANK(" + ("{" + Col + "}" + ("{" + Row + "}" + ("), " + BoolLiteral(value) + ", ")))
  }

  /**
   * `merge_conditions` as text: the formulas that keep blank cells, in their
   * order, then one `IF(ISBLANK({col}{row}), TRUE|FALSE, …)` around the merge
   * of all the others, everything merged with AND when `valid` and OR otherwise.
   */
  lemma {:induction false} ConditionText(formulas: seq<string>, valid: bool, ignoreBlanks: seq<bool>)
    requires FlagsCover(|formulas|, ignoreBlanks)
    ensures var op := OperatorFor(valid);
      var skipped := Skipped(formulas, ignoreBlanks, |formulas|);
      var wrapper := if |skipped| == 0 then [] else [Guard(valid) + MergeFormulas(skipped, op) + ")"];
      TextOf(ConditionTree(formulas, valid, ignoreBlanks)) == Ok(MergeFormulas(Kept(formulas, ignoreBlanks, |formulas|) + wrapper, op))
  {
    var op := OperatorFor(valid);
    var kept := Kept(formulas, ignoreBlanks, |formulas|);
    var skipped := Skipped(formulas, ignoreBlanks, |formulas|);
    var ks := Formulas(kept);
    if |skipped| == 0 {
      assert ks + [] == ks;
      assert kept + [] == kept;
      MergedFormulasText(kept, op);
    } else {
      var parts := ks + [SkipBlank(valid, Merged(op, Formulas(skipped)))];
      MergedFormulasText(skipped, op);
      BlankGuardText(valid);
      var texts := kept + [Guard(valid) + MergeFormulas(skipped, op) + ")"];
      assert seq(|parts|, k requires 0 <= k < |parts| => Text(parts[k])) == texts;
    }
  }

  /** Without flags every formula ignores blank cells: none is kept out of the wrapper. */
  lemma {:induction false} NoFlagsAllSkipped(formulas: seq<string>, n: nat)
    requires n <= |formulas|
    ensures Kept(formulas, [], n) == [] && Skipped(formulas, [], n) == formulas[..n]
  {
    if n > 0 {
      NoFlagsAllSkipped(formulas, n - 1);
      assert formulas[..n] == formulas[..n - 1] + [formulas[n - 1]];
    }
  }

  /** `OP(x, y)` written from `x`, the separator and `y`. */
  lemma {:induction false} TwoMerged(op: Operator, x: string, y: string)
    ensures MergeFormulas([x, y], op) == OperatorName(op) + "(" + x + ", " + y + ")"
  {
    assert [x, y][1..] == [y] && Join(", ", [y]) == y;
    var o, j := OperatorName(op), Join(", ", [x, y]);
    assert j == x + ", " + y;
    assert o + "(" + j + ")" == o + "(" + x + ", " + y + ")";
  }

  /**
   * Of two formulas where only the second ignores blank cells, the second
   * goes inside the wrapper: `AND(a, IF(ISBLANK({col}{row}), TRUE, b))`, or
   * with OR and FALSE when not `valid`.
   */
  lemma {:induction false} SecondSkippedText(a: string, b: string, valid: bool)
    ensures TextOf(ConditionTree([a, b], valid, [false, true])) ==
      Ok(OperatorName(OperatorFor(valid)) + "(" + a + ", " + (Guard(valid) + b + ")") + ")")
  {
    var fs, flags := [a, b], [false, true];
    assert Kept(fs, flags, 1) == [a] && Skipped(fs, flags, 1) == [];
    assert Kept(fs, flags, 2) == [a] && Skipped(fs, flags, 2) == [b];
    ConditionText(fs, valid, flags);
    WrappedPair(OperatorFor(valid), a, b, Guard(valid));
  }

  /** A formula and a wrapped one merge as `OP(a, g b)`, whatever the wrapper's text `g`. */
  lemma {:induction false} WrappedPair(op: Operator, a: string, b: string, g: string)
    ensures MergeFormulas([a] + [g + MergeFormulas([b], op) + ")"], op) == OperatorName(op) + "(" + a + ", " + (g + b + ")") + ")"
  {
    assert MergeFormulas([b], op) == b;
    assert [a] + [g + b + ")"] == [a, g + b + ")"];
    TwoMerged(op, a, g + b + ")");
  }

  /** With no formula ignoring blank cells there is no wrapper: `AND(a, b)` or `OR(a, b)`. */
  lemma {:induction false} NoneSkippedText(a: string, b: string, valid: bool)
    ensures TextOf(ConditionTree([a, b], valid, [false, false])) ==
      Ok(OperatorName(OperatorFor(valid)) + "(" + a + ", " + b + ")")
  {
    var fs, flags := [a, b], [false, false];
    ConditionText(fs, valid, flags);
    assert Kept(fs, flags, 1) == [a] && Skipped(fs, flags, 1) == [];
    assert Kept(fs, flags, 2) == [a, b] && Skipped(fs, flags, 2) == [];
    assert [a, b] + [] == [a, b];
    TwoMerged(OperatorFor(valid), a, b);
  }

  /** A formula's outcome on a cell once IF wrappers are taken into account. */
  predicate Passes(f: string, ignores: bool, truth: string -> bool, blank: bool, valid: bool)
  {
    if blank && ignores then valid else truth(f)
  }

  lemma {:induction false} KeptSkippedPartition(formulas: seq<string>, ignoreBlanks: seq<bool>, n: nat)
    requires n <= |formulas| && FlagsCover(n, ignoreBlanks)
    ensures forall f :: f in Kept(formulas, ignoreBlanks, n) <==>
      exists i :: 0 <= i < n && !IgnoresBlank(ignoreBlanks, i) && formulas[i] == f
    ensures forall f :: f in Skipped(formulas, ignoreBlanks, n) <==>
      exists i :: 0 <= i < n && IgnoresBlank(ignoreBlanks, i) && formulas[i] == f
  {
    if n > 0 {
      KeptSkippedPartition(formulas, ignoreBlanks, n - 1);
    }
  }

  lemma {:induction false} AndHoldsWhenAllPass(formulas: seq<string>, valid: bool, ignoreBlanks: seq<bool>,
                                               truth: string -> bool, blank: bool)
    requires FlagsCover(|formulas|, ignoreBlanks)
    requires valid && Eval(ConditionTree(formulas, valid, ignoreBlanks).value, truth, blank)
    ensures forall i :: 0 <= i < |formulas| ==> Passes(formulas[i], IgnoresBlank(ignoreBlanks, i), truth, blank, valid)
  {
    var n := |formulas|;
    KeptSkippedPartition(formulas, ignoreBlanks, n);
    var kept, skipped := Kept(formulas, ignoreBlanks, n), Skipped(formulas, ignoreBlanks, n);
    var op := OperatorFor(valid);
    var wrapper := if |skipped| == 0 then [] else [SkipBlank(valid, Merged(op, Formulas(skipped)))];
    var parts := Formulas(kept) + wrapper;
    var c := Merged(op, parts);
    assert ConditionTree(formulas, valid, ignoreBlanks) == Ok(c);
    forall i | 0 <= i < n
      ensures Passes(formulas[i], IgnoresBlank(ignoreBlanks, i), truth, blank, valid)
    {
      if IgnoresBlank(ignoreBlanks, i) {
        assert formulas[i] in skipped;
        var k :| 0 <= k < |skipped| && skipped[k] == formulas[i];
        assert Eval(parts[|parts| - 1], truth, blank);
        if !blank {
          assert Eval(Formulas(skipped)[k], truth, blank);
        }
      } else {
        assert formulas[i] in kept;
        var k :| 0 <= k < |kept| && kept[k] == formulas[i];
        assert Eval(parts[k], truth, blank);
      }
    }
  }

  lemma {:induction false} AndFailsWhenOneFails(formulas: seq<string>, valid: bool, ignoreBlanks: seq<bool>,
                                                truth: string -> bool, blank: bool)
    requires FlagsCover(|formulas|, ignoreBlanks)
    requires valid && !Eval(ConditionTree(formulas, valid, ignoreBlanks).value, truth, blank)
    ensures !(forall i :: 0 <= i < |formulas| ==> Passes(formulas[i], IgnoresBlank(ignoreBlanks, i), truth, blank, valid))
  {
    var n := |formulas|;
    KeptSkippedPartition(formulas, ignoreBlanks, n);
    var kept, skipped := Kept(formulas, ignoreBlanks, n), Skipped(formulas, ignoreBlanks, n);
    var op := OperatorFor(valid);
    var wrapper := if |skipped| == 0 then [] else [SkipBlank(valid, Merged(op, Formulas(skipped)))];
    var parts := Formulas(kept) + wrapper;
    var c := Merged(op, parts);
    assert ConditionTree(formulas, valid, ignoreBlanks) == Ok(c);
    var k :| 0 <= k < |parts| && !Eval(parts[k], truth, blank);
    if k < |kept| {
      assert kept[k] in kept;
      var i :| 0 <= i < n && !IgnoresBlank(ignoreBlanks, i) && formulas[i] == kept[k];
      assert !Passes(formulas[i], IgnoresBlank(ignoreBlanks, i), truth, blank, valid);
    } else {
      assert parts[k] == SkipBlank(valid, Merged(op, Formulas(skipped)));
      assert !blank && !Eval(Merged(op, Formulas(skipped)), truth, blank);
      var j :| 0 <= j < |skipped| && !Eval(Formulas(skipped)[j], truth, blank);
      assert skipped[j] in skipped;
      var i :| 0 <= i < n && IgnoresBlank(ignoreBlanks, i) && formulas[i] == skipped[j];
      assert !Passes(formulas[i], IgnoresBlank(ignoreBlanks, i), truth, blank, valid);
    }
  }

  lemma {:induction false} OrHoldsWhenOnePasses(formulas: seq<string>, valid: bool, ignoreBlanks: seq<bool>,
                                                truth: string -> bool, blank: bool)
    requires FlagsCover(|formulas|, ignoreBlanks)
    requires !valid && Eval(ConditionTree(formulas, valid, ignoreBlanks).value, truth, blank)
    ensures exists i :: 0 <= i < |formulas| && Passes(formulas[i], IgnoresBlank(ignoreBlanks, i), truth, blank, valid)
  {
    var n := |formulas|;
    KeptSkippedPartition(formulas, ignoreBlanks, n);
    var kept, skipped := Kept(formulas, ignoreBlanks, n), Skipped(formulas, ignoreBlanks, n);
    var op := OperatorFor(valid);
    var wrapper := if |skipped| == 0 then [] else [SkipBlank(valid, Merged(op, Formulas(skipped)))];
    var parts := Formulas(kept) + wrapper;
    var c := Merged(op, parts);
    assert ConditionTree(formulas, valid, ignoreBlanks) == Ok(c);
    var k :| 0 <= k < |parts| && Eval(parts[k], truth, blank);
    if k < |kept| {
      assert kept[k] in kept;
      var i :| 0 <= i < n && !IgnoresBlank(ignoreBlanks, i) && formulas[i] == kept[k];
      assert Passes(formulas[i], IgnoresBlank(ignoreBlanks, i), truth, blank, valid);
    } else {
      assert parts[k] == SkipBlank(valid, Merged(op, Formulas(skipped)));
      assert !blank && Eval(Merged(op, Formulas(skipped)), truth, blank);
      var j :| 0 <= j < |skipped| && Eval(Formulas(skipped)[j], truth, blank);
      assert skipped[j] in skipped;
      var i :| 0 <= i < n && IgnoresBlank(ignoreBlanks, i) && formulas[i] == skipped[j];
      assert Passes(formulas[i], IgnoresBlank(ignoreBlanks, i), truth, blank, valid);
    }
  }

  lemma {:induction false} OrFailsWhenNonePass(formulas: seq<string>, valid: bool, ignoreBlanks: seq<bool>,
                                               truth: string -> bool, blank: bool)
    requires FlagsCover(|formulas|, ignoreBlanks)
    requires !valid && !Eval(ConditionTree(formulas, valid, ignoreBlanks).value, truth, blank)
    ensures !(exists i :: 0 <= i < |formulas| && Passes(formulas[i], IgnoresBlank(ignoreBlanks, i), truth, blank, valid))
  {
    var n := |formulas|;
    KeptSkippedPartition(formulas, ignoreBlanks, n);
    var kept, skipped := Kept(formulas, ignoreBlanks, n), Skipped(formulas, ignoreBlanks, n);
    var op := OperatorFor(valid);
    var wrapper := if |skipped| == 0 then [] else [SkipBlank(valid, Merged(op, Formulas(skipped)))];
    var parts := Formulas(kept) + wrapper;
    var c := Merged(op, parts);
    assert ConditionTree(formulas, valid, ignoreBlanks) == Ok(c);
    forall i | 0 <= i < n
      ensures !Passes(formulas[i], IgnoresBlank(ignoreBlanks, i), truth, blank, valid)
    {
      if IgnoresBlank(ignoreBlanks, i) {
        assert formulas[i] in skipped;
        var k :| 0 <= k < |skipped| && skipped[k] == formulas[i];
        assert !Eval(parts[|parts| - 1], truth, blank);
        if !blank {
          assert !Eval(Formulas(skipped)[k], truth, blank);
        }
      } else {
        assert formulas[i] in kept;
        var k :| 0 <= k < |kept| && kept[k] == formulas[i];
        assert !Eval(parts[k], truth, blank);
      }
    }
  }

  /**
   * The merged condition holds on a cell exactly when every formula passes
   * there (for valid formulas, AND) or some formula passes there (for
   * invalid formulas, OR), a formula that ignores blanks passing as `valid`
   * on a blank cell.
   */
  lemma {:induction false} MergedMeaning(formulas: seq<string>, valid: bool, ignoreBlanks: seq<bool>,
                      truth: string -> bool, blank: bool)
    requires FlagsCover(|formulas|, ignoreBlanks)
    ensures ConditionTree(formulas, valid, ignoreBlanks).Ok?
    ensures valid ==> (Eval(ConditionTree(formulas, valid, ignoreBlanks).value, truth, blank) <==>
      forall i :: 0 <= i < |formulas| ==> Passes(formulas[i], IgnoresBlank(ignoreBlanks, i), truth, blank, valid))
    ensures !valid ==> (Eval(ConditionTree(formulas, valid, ignoreBlanks).value, truth, blank) <==>
      exists i :: 0 <= i < |formulas| && Passes(formulas[i], IgnoresBlank(ignoreBlanks, i), truth, blank, valid))
  {
    if valid {
      if Eval(ConditionTree(formulas, valid, ignoreBlanks).value, truth, blank) {
        AndHoldsWhenAllPass(formulas, valid, ignoreBlanks, truth, blank);
      } else {
        AndFailsWhenOneFails(formulas, valid, ignoreBlanks, truth, blank);
      }
    } else {
      if Eval(ConditionTree(formulas, valid, ignoreBlanks).value, truth, blank) {
        OrHoldsWhenOnePasses(formulas, valid, ignoreBlanks, truth, blank);
      } else {
        OrFailsWhenNonePass(formulas, valid, ignoreBlanks, truth, blank);
      }
    }
  }

  // ---- Messages and whole-column formulas ----

  /** An English list with an Oxford comma: `a`, `a and b`, `a, b, and c`. */
  function ReadableJoin(values: seq<string>): string
  {
    if |values| < 3 then Join(" and ", values)
    else Join(", ", values[..|values| - 1]) + ", and " + values[|values| - 1]
  }

  lemma {:induction false} ReadableJoinFew(a: string, b: string, c: string)
    ensures ReadableJoin([]) == ""
    ensures ReadableJoin([a]) == a
    ensures ReadableJoin([a, b]) == a + " and " + b
    ensures ReadableJoin([a, b, c]) == a + ", " + b + ", and " + c
  {
    assert [a, b][1..] == [b];
    assert Join(" and ", [a, b]) == a + " and " + Join(" and ", [b]);
    assert [a, b, c][..2] == [a, b];
    assert Join(", ", [a, b]) == a + ", " + Join(", ", [b]);
  }

  /** From four values on, the list is its first value, a comma, and the list of the rest. */
  lemma {:induction false} ReadableJoinLonger(values: seq<string>)
    requires |values| >= 4
    ensures ReadableJoin(values) == values[0] + ", " + ReadableJoin(values[1..])
  {
    var n := |values|;
    var init := values[..n - 1];
    assert init[1..] == values[1..][..n - 2];
    assert Join(", ", init) == values[0] + ", " + Join(", ", init[1..]);
  }

  function FormulasOf(checks: seq<Check>): (r: seq<string>)
    ensures |r| == |checks| && forall k :: 0 <= k < |checks| ==> r[k] == checks[k].formula
  {
    seq(|checks|, k requires 0 <= k < |checks| => checks[k].formula)
  }

  function MessagesOf(checks: seq<Check>): (r: seq<string>)
    ensures |r| == |checks| && forall k :: 0 <= k < |checks| ==> r[k] == checks[k].message
  {
    seq(|checks|, k requires 0 <= k < |checks| => checks[k].message)
  }

  function FlagsOf(checks: seq<Check>): (r: seq<bool>)
    ensures |r| == |checks| && forall k :: 0 <= k < |checks| ==> r[k] == checks[k].ignoreBlank
  {
    seq(|checks|, k requires 0 <= k < |checks| => checks[k].ignoreBlank)
  }

  /** A column's data validation: every formula must hold, a message naming all requirements. */
  function BuildColumnValidation(checks: seq<Check>): (r: Option<Check>)
    ensures r.None? <==> |checks| == 0
    ensures r.Some? ==> r.value.ignoreBlank
    ensures r.Some? ==> r.value.message == "Value must be " + ReadableJoin(MessagesOf(checks))
  {
    if |checks| == 0 then None
    else Some(Check(MergeFormulas(FormulasOf(checks), And), "Value must be " + ReadableJoin(MessagesOf(checks)), true))
  }

  /** The validation formula is the conjunction of the check formulas. */
  lemma {:induction false} ValidationMeaning(checks: seq<Check>, truth: string -> bool, blank: bool)
    requires |checks| > 0
    ensures BuildColumnValidation(checks).value.formula == Text(Merged(And, Formulas(FormulasOf(checks))))
    ensures Eval(Merged(And, Formulas(FormulasOf(checks))), truth, blank) <==>
      forall k :: 0 <= k < |checks| ==> truth(checks[k].formula)
  {
    var ps := Formulas(FormulasOf(checks));
    assert seq(|ps|, k requires 0 <= k < |ps| => Text(ps[k])) == FormulasOf(checks);
    if !Eval(Merged(And, ps), truth, blank) {
      var k :| 0 <= k < |ps| && !Eval(ps[k], truth, blank);
      assert !truth(checks[k].formula);
    }
  }

  /** The bindings `str.format` receives for a column's conditional formatting. */
  function CellBindings(col: string, row: int): (b: Bindings)
    ensures Names(b) == {Col, Row}
  {
    var b := [(Col, col), (Row, IntToDecimal(row))];
    assert b[0].0 == Col && b[1].0 == Row;
    assert Col != Row;
    b
  }

  /**
   * `build_column_condition` as written: the checks' formulas are merged and
   * the merged text, formulas included, is formatted with `col` and `row`.
   */
  function BuildColumnCondition(checks: seq<Check>, valid: bool, col: string, row: int): (r: Result<Option<string>>)
    ensures r == Ok(None) <==> |checks| == 0
  {
    if |checks| == 0 then Ok(None)
    else match ConditionTree(FormulasOf(checks), valid, FlagsOf(checks))
      case Err(e) => Err(e)
      case Ok(c) =>
        match Format(Text(c), CellBindings(col, row))
        case Err(e) => Err(e)
        case Ok(s) => Ok(Some(s))
  }

  /** The tree's formula with the cell written into every blank-cell wrapper, formulas left as they are. */
  function TextAt(c: Condition, col: string, row: int): string
  {
    match c
    case Formula(t) => t
    case Merged(op, ps) => MergeFormulas(seq(|ps|, k requires 0 <= k < |ps| => TextAt(ps[k], col, row)), op)
    case SkipBlank(v, b) => Fill(BlankGuard(v), CellBindings(col, row)) + TextAt(b, col, row) + ")"
  }

  /**
   * The corrected `build_column_condition`: only the wrappers' `{col}{row}`
   * are filled in, so text inside the checks' formulas is never read as a
   * placeholder.
   */
  function ColumnCondition(checks: seq<Check>, valid: bool, col: string, row: int): (r: Option<string>)
    ensures r.None? <==> |checks| == 0
  {
    if |checks| == 0 then None
    else Some(TextAt(ConditionTree(FormulasOf(checks), valid, FlagsOf(checks)).value, col, row))
  }

  /** The check formulas in a tree hold no brace. */
  predicate BraceFreeFormulas(c: Condition)
  {
    match c
    case Formula(t) => BraceFree(t)
    case Merged(_, ps) => forall k :: 0 <= k < |ps| ==> BraceFreeFormulas(ps[k])
    case SkipBlank(_, b) => BraceFreeFormulas(b)
  }

  lemma {:induction false} JoinFormats(xs: seq<string>, ys: seq<string>, b: Bindings)
    requires |xs| == |ys| && forall k :: 0 <= k < |xs| ==> FormatsTo(xs[k], b, ys[k])
    ensures FormatsTo(Join(", ", xs), b, Join(", ", ys))
    decreases |xs|
  {
    if |xs| == 0 {
      LiteralFormats("", b);
    } else if |xs| > 1 {
      JoinFormats(xs[1..], ys[1..], b);
      LiteralFormats(", ", b);
      ConcatFormats(xs[0], ys[0], ", ", ", ", b);
      ConcatFormats(xs[0] + ", ", ys[0] + ", ", Join(", ", xs[1..]), Join(", ", ys[1..]), b);
    }
  }

  lemma {:induction false} TextFormats(c: Condition, col: string, row: int)
    requires BraceFreeFormulas(c)
    ensures FormatsTo(Text(c), CellBindings(col, row), TextAt(c, col, row))
  {
    var b := CellBindings(col, row);
    match c
    case Formula(t) =>
      LiteralFormats(t, b);
    case Merged(op, ps) =>
      var xs := seq(|ps|, k requires 0 <= k < |ps| => Text(ps[k]));
      var ys := seq(|ps|, k requires 0 <= k < |ps| => TextAt(ps[k], col, row));
      forall k | 0 <= k < |ps| ensures FormatsTo(xs[k], b, ys[k]) {
        TextFormats(ps[k], col, row);
      }
      if |ps| == 0 {
        LiteralFormats("", b);
      } else if |ps| > 1 {
        var head := OperatorName(op) + "(";
        JoinFormats(xs, ys, b);
        LiteralFormats(head, b);
        LiteralFormats(")", b);
        ConcatFormats(head, head, Join(", ", xs), Join(", ", ys), b);
        ConcatFormats(head + Join(", ", xs), head + Join(", ", ys), ")", ")", b);
      }
    case SkipBlank(v, body) =>
      TextFormats(body, col, row);
      RenderFormats(BlankGuard(v), b);
      LiteralFormats(")", b);
      var g := Render(BlankGuard(v));
      var h := Fill(BlankGuard(v), b);
      ConcatFormats(g, h, Text(body), TextAt(body, col, row), b);
      ConcatFormats(g + Text(body), h + TextAt(body, col, row), ")", ")", b);
  }

  lemma {:induction false} TreeBraceFree(formulas: seq<string>, valid: bool, ignoreBlanks: seq<bool>)
    requires FlagsCover(|formulas|, ignoreBlanks)
    requires forall k :: 0 <= k < |formulas| ==> BraceFree(formulas[k])
    ensures BraceFreeFormulas(ConditionTree(formulas, valid, ignoreBlanks).value)
  {
    var n := |formulas|;
    KeptSkippedPartition(formulas, ignoreBlanks, n);
    var kept, skipped := Kept(formulas, ignoreBlanks, n), Skipped(formulas, ignoreBlanks, n);
    assert forall k :: 0 <= k < |kept| ==> kept[k] in kept;
    assert forall k :: 0 <= k < |skipped| ==> skipped[k] in skipped;
    var op := OperatorFor(valid);
    var inner := Merged(op, Formulas(skipped));
    assert BraceFreeFormulas(inner);
  }

  /** When no check formula holds a brace, the formula as written is the corrected one. */
  lemma {:induction false} ConditionAgrees(checks: seq<Check>, valid: bool, col: string, row: int)
    requires forall k :: 0 <= k < |checks| ==> BraceFree(checks[k].formula)
    ensures BuildColumnCondition(checks, valid, col, row) == Ok(ColumnCondition(checks, valid, col, row))
  {
    if |checks| > 0 {
      var fs := FormulasOf(checks);
      TreeBraceFree(fs, valid, FlagsOf(checks));
      var c := ConditionTree(fs, valid, FlagsOf(checks)).value;
      TextFormats(c, col, row);
      FormatsWhole(Text(c), CellBindings(col, row), TextAt(c, col, row));
    }
  }

  /** `IF(ISBLANK(A2), TRUE, ` (or `FALSE`): the wrapper's head with the cell written in. */
  function GuardAt(value: bool, col: string, row: int): string
  {
    "IF(ISBLANK(" + (col + (IntToDecimal(row) + ("), " + BoolLiteral(value) + ", ")))
  }

  /** Filling the wrapper's head with `col` and `row` writes the cell in and nothing else. */
  lemma {:induction false} FilledGuard(value: bool, col: string, row: int)
    ensures Fill(BlankGuard(value), CellBindings(col, row)) == GuardAt(value, col, row)
  {
    var b := CellBindings(col, row);
    var tail: Literal := "), " + BoolLiteral(value) + ", ";
    assert b[1..] == [(Row, IntToDecimal(row))];
    assert Lookup(b, Col) == Some(col);
    assert Lookup(b, Row) == Some(IntToDecimal(row));
    assert Fill(Plain(tail), b) == tail;
    assert Fill(Cell(Plain(tail)), b) == col + (IntToDecimal(row) + tail);
  }

  /** A merge of plain formulas is written the same with the cell filled in. */
  lemma {:induction false} MergedFormulasAt(fs: seq<string>, op: Operator, col: string, row: int)
    ensures TextAt(Merged(op, Formulas(fs)), col, row) == MergeFormulas(fs, op)
  {
    var ps := Formulas(fs);
    assert seq(|ps|, k requires 0 <= k < |ps| => TextAt(ps[k], col, row)) == fs;
  }

  /**
   * The corrected condition as text: the formulas that keep blank cells, then
   * one `IF(ISBLANK(<cell>), TRUE|FALSE, …)` around the merge of all the
   * others, with the cell written into that wrapper only. Every check
   * formula appears exactly as it is, braces included.
   */
  lemma {:induction false} ColumnConditionText(checks: seq<Check>, valid: bool, col: string, row: int)
    requires |checks| > 0
    ensures var fs, flags, op := FormulasOf(checks), FlagsOf(checks), OperatorFor(valid);
      var skipped := Skipped(fs, flags, |fs|);
      var wrapper := if |skipped| == 0 then [] else [GuardAt(valid, col, row) + MergeFormulas(skipped, op) + ")"];
      ColumnCondition(checks, valid, col, row) == Some(MergeFormulas(Kept(fs, flags, |fs|) + wrapper, op))
  {
    var fs, flags, op := FormulasOf(checks), FlagsOf(checks), OperatorFor(valid);
    var kept := Kept(fs, flags, |fs|);
    var skipped := Skipped(fs, flags, |fs|);
    var ks := Formulas(kept);
    if |skipped| == 0 {
      assert ks + [] == ks;
      assert kept + [] == kept;
      MergedFormulasAt(kept, op, col, row);
    } else {
      var parts := ks + [SkipBlank(valid, Merged(op, Formulas(skipped)))];
      MergedFormulasAt(skipped, op, col, row);
      FilledGuard(valid, col, row);
      var texts := kept + [GuardAt(valid, col, row) + MergeFormulas(skipped, op) + ")"];
      assert seq(|parts|, k requires 0 <= k < |parts| => TextAt(parts[k], col, row)) == texts;
    }
  }

  /**
   * One blank-ignoring check, whatever its formula holds: the corrected
   * condition is that formula, unchanged, inside the filled wrapper.
   */
  lemma {:induction false} SkippedCondition(f: string, message: string, valid: bool, col: string, row: int)
    ensures ColumnCondition([Check(f, message, true)], valid, col, row) == Some(GuardAt(valid, col, row) + f + ")")
  {
    var checks := [Check(f, message, true)];
    assert FormulasOf(checks) == [f] && FlagsOf(checks) == [true];
    assert Kept([f], [true], 1) == [] && Skipped([f], [true], 1) == [f];
    ColumnConditionText(checks, valid, col, row);
    assert [] + [GuardAt(valid, col, row) + MergeFormulas([f], OperatorFor(valid)) + ")"] ==
      [GuardAt(valid, col, row) + f + ")"];
  }

  /**
   * The corrected conditional formatting of the `pattern: '[0-9]{4}'` column
   * of `PatternQuantifierFails`: the quantifier `{4}` stays in the regular
   * expression and the cell `A2` is written into the wrapper.
   */
  lemma {:induction false} PatternQuantifierCorrected()
    ensures ColumnCondition(
      [Check("NOT(REGEXMATCH(TO_TEXT(A2), \"^[0-9]" + "{" + "4" + "}" + "$\"))", "matching the regular expression [0-9]{4}", true)],
      false, "A", 2) ==
      Some("IF(ISBLANK(A2), FALSE, " + ("NOT(REGEXMATCH(TO_TEXT(A2), \"^[0-9]" + "{" + "4" + "}" + "$\"))") + ")")
  {
    var f := "NOT(REGEXMATCH(TO_TEXT(A2), \"^[0-9]" + "{" + "4" + "}" + "$\"))";
    SkippedCondition(f, "matching the regular expression [0-9]{4}", false, "A", 2);
    assert IntToDecimal(2) == "2";
    assert GuardAt(false, "A", 2) == "IF(ISBLANK(A2), FALSE, ";
  }

  /** A formula that keeps blank cells is the merged text as it is. */
  lemma {:induction false} SingleKeptText(f: string, valid: bool)
    ensures ConditionTree([f], valid, [false]) == Ok(Merged(OperatorFor(valid), Formulas([f])))
    ensures Text(Merged(OperatorFor(valid), Formulas([f]))) == f
  {
    SingleKeptTree(f, valid);
    SingleFormulaText(f, OperatorFor(valid));
  }

  lemma {:induction false} SingleKeptTree(f: string, valid: bool)
    ensures ConditionTree([f], valid, [false]) == Ok(Merged(OperatorFor(valid), Formulas([f])))
  {
    assert Skipped([f], [false], 1) == [];
    assert Kept([f], [false], 1) == [f];
    assert Formulas([f]) + [] == Formulas([f]);
  }

  lemma {:induction false} SingleFormulaText(f: string, op: Operator)
    ensures Text(Merged(op, Formulas([f]))) == f
  {
    var ps := Formulas([f]);
    assert seq(|ps|, k requires 0 <= k < |ps| => Text(ps[k])) == [f];
  }

  /** A formula that ignores blank cells sits inside the one wrapper. */
  lemma {:induction false} SingleSkippedText(f: string, valid: bool)
    ensures ConditionTree([f], valid, [true]) ==
      Ok(Merged(OperatorFor(valid), [SkipBlank(valid, Merged(OperatorFor(valid), Formulas([f])))]))
    ensures Text(Merged(OperatorFor(valid), [SkipBlank(valid, Merged(OperatorFor(valid), Formulas([f])))])) ==
      Render(BlankGuard(valid)) + f + ")"
  {
    var op := OperatorFor(valid);
    assert Skipped([f], [true], 1) == [f];
    assert Kept([f], [true], 1) == [];
    var ps := Formulas([f]);
    assert seq(|ps|, k requires 0 <= k < |ps| => Text(ps[k])) == [f];
    var w := SkipBlank(valid, Merged(op, ps));
    assert seq(1, k requires 0 <= k < 1 => Text([w][k])) == [Text(w)];
    assert Formulas([]) + [w] == [w];
  }

  /** A formula holding a placeholder without a value fails to format, on its own ... */
  lemma {:induction false} UnboundInFormula(pre: string, name: string, post: string, b: Bindings)
    requires BraceFree(pre) && BraceFree(name) && (Positional(name) || name !in Names(b))
    ensures Format(pre + "{" + name + "}" + post, b) == Err(FieldError(name))
  {
    var tail := "{" + name + "}" + post;
    LiteralFormats(pre, b);
    UnboundFails(name, post, b);
    FormatsBeforeErr(pre, b, pre, tail);
    RegroupField(s => Format(s, b), pre, name, post);
  }

  /** ... and inside the blank-cell wrapper. */
  lemma {:induction false} UnboundInGuard(f: string, valid: bool, col: string, row: int)
    requires Format(f + ")", CellBindings(col, row)).Err?
    ensures Format(Render(BlankGuard(valid)) + f + ")", CellBindings(col, row)) == Format(f + ")", CellBindings(col, row))
  {
    var b := CellBindings(col, row);
    var g := Render(BlankGuard(valid));
    RenderFormats(BlankGuard(valid), b);
    FormatsBeforeErr(g, b, Fill(BlankGuard(valid), b), f + ")");
    RegroupThree(s => Format(s, b), g, f, ")");
  }

  /**
   * A single check whose formula holds a placeholder other than `{col}` or
   * `{row}` (after brace-free text) makes the formula as written fail.
   */
  lemma {:induction false} RescanFails(pre: string, name: string, post: string, message: string, ignore: bool,
                    valid: bool, col: string, row: int)
    requires BraceFree(pre) && BraceFree(name) && name != Col && name != Row
    ensures BuildColumnCondition([Check(pre + "{" + name + "}" + post, message, ignore)], valid, col, row)
      == Err(FieldError(name))
  {
    var f := pre + "{" + name + "}" + post;
    var checks := [Check(f, message, ignore)];
    assert FormulasOf(checks) == [f] && FlagsOf(checks) == [ignore];
    UnboundInFormula(pre, name, post, CellBindings(col, row));
    if ignore {
      UnboundInFormula(pre, name, post + ")", CellBindings(col, row));
      assert pre + "{" + name + "}" + (post + ")") == f + ")" by {
        RegroupThree(s => s, pre + "{" + name + "}", post, ")");
      }
      UnboundInGuard(f, valid, col, row);
      SingleSkippedText(f, valid);
    } else {
      SingleKeptText(f, valid);
    }
  }

  /**
   * The conditional formatting of column `A` with the constraint `pattern:
   * '[0-9]{4}'` (four digits). Its check is the one the `pattern` template
   * gives, with the value inside `^...$`. The formula holds `{4}`, which the
   * code as written reads as positional field 4: Python's `IndexError`.
   */
  lemma {:induction false} PatternQuantifierFails()
    ensures BuildColumnCondition(
      [Check("NOT(REGEXMATCH(TO_TEXT(A2), \"^[0-9]" + "{" + "4" + "}" + "$\"))", "matching the regular expression [0-9]{4}", true)],
      false, "A", 2) == Err(IndexOutOfRange(4))
  {
    assert Positional("4") && DigitsValue("4") == 4;
    RescanFails("NOT(REGEXMATCH(TO_TEXT(A2), \"^[0-9]", "4", "$\"))", "matching the regular expression [0-9]{4}",
      true, false, "A", 2);
  }

  // ---- Foreign keys ----

  /** A simple foreign key: the referenced table (`None` for the table itself) and column. */
  type SimpleKey = (Option<string>, string)

  /** The position of the first `x` in `xs` (`list.index`). */
  function IndexOf<T(==)>(xs: seq<T>, x: T): (i: nat)
    requires x in xs
    ensures i < |xs| && xs[i] == x && x !in xs[..i]
  {
    if xs[0] == x then 0
    else
      var i := 1 + IndexOf(xs[1..], x);
      assert xs[..i] == [xs[0]] + xs[1..][..i - 1];
      i
  }

  /** A name appended to a list without it is found at the end. */
  lemma {:induction false} IndexOfAppended(xs: seq<string>, x: string)
    requires x !in xs
    ensures x in xs + [x] && IndexOf(xs + [x], x) == |xs|
  {
    assert (xs + [x])[|xs|] == x;
    var i := IndexOf(xs + [x], x);
    assert (xs + [x])[..|xs|] == xs;
  }

  /** Appending a name leaves where the names already there are found. */
  lemma {:induction false} IndexOfExtended(xs: seq<string>, y: string, x: string)
    requires y in xs
    ensures y in xs + [x] && IndexOf(xs + [x], y) == IndexOf(xs, y)
  {
    var i := IndexOf(xs, y);
    assert (xs + [x])[i] == y;
    var j := IndexOf(xs + [x], y);
    forall k | 0 <= k < j
      ensures (xs + [x])[k] != y
    {
      assert (xs + [x])[..j][k] == (xs + [x])[k];
    }
    forall k | 0 <= k < i
      ensures xs[k] != y
    {
      assert xs[..i][k] == xs[k];
    }
  }

  /** The table a reference points to: its resource, or `table` when that is absent or empty. */
  function ForeignTable(r: Reference, table: string): string
  {
    if Truthy(r.resource) then r.resource.value else table
  }

  /**
   * The simple key through which `column` of `table` takes part in `fk`:
   * none when the column is not one of the key's fields, an error when the
   * reference lists fewer fields than the column's position.
   */
  function KeyFor(fk: ForeignKey, table: string, column: string): Result<Option<SimpleKey>>
  {
    var columns, foreign := ToList(fk.fields), ToList(fk.reference.fields);
    if column !in columns then Ok(None)
    else
      var i := IndexOf(columns, column);
      if i >= |foreign| then Err(IndexOutOfRange(i))
      else
        var ft := ForeignTable(fk.reference, table);
        Ok(Some((if ft == table then None else Some(ft), foreign[i])))
  }
  /** What a foreign key gives one of its columns. */
  lemma {:induction false} KeyForMeaning(fk: ForeignKey, table: string, column: string)
    ensures KeyFor(fk, table, column) == Ok(None) <==> column !in ToList(fk.fields)
    ensures KeyFor(fk, table, column).Err? <==> column in ToList(fk.fields) && IndexOf(ToList(fk.fields), column) >= |ToList(fk.reference.fields)|
    ensures KeyFor(fk, table, column).Ok? && KeyFor(fk, table, column).value.Some? ==>
      var i := IndexOf(ToList(fk.fields), column);
      // the foreign column sits where `column` sits among the local fields
      KeyFor(fk, table, column).value.value.1 == ToList(fk.reference.fields)[i] &&
      // a missing resource or the table itself gives None
      (KeyFor(fk, table, column).value.value.0 == None <==> ForeignTable(fk.reference, table) == table) &&
      (KeyFor(fk, table, column).value.value.0 != None ==> KeyFor(fk, table, column).value.value.0.value == ForeignTable(fk.reference, table))
  {
  }

  /** A way to give each foreign key the simple key it contributes, if any. */
  type KeyOf = ForeignKey -> Result<Option<SimpleKey>>

  /** The simple keys foreign keys give `column` of `table`. */
  function KeysIn(table: string, column: string): KeyOf
  {
    fk => KeyFor(fk, table, column)
  }

  /** The distinct simple keys of the first `n` foreign keys, in order of first appearance. */
  function SimpleKeys(keyOf: KeyOf, fks: seq<ForeignKey>, n: nat): Result<seq<SimpleKey>>
    requires n <= |fks|
  {
    if n == 0 then Ok([])
    else match SimpleKeys(keyOf, fks, n - 1)
      case Err(e) => Err(e)
      case Ok(keys) =>
        match keyOf(fks[n - 1])
        case Err(e) => Err(e)
        case Ok(None) => Ok(keys)
        case Ok(Some(k)) => Ok(if k in keys then keys else keys + [k])
  }

  /** The documented example: a key on the table itself gives `None`, a composite key the matching column. */
  lemma {:induction false} ReduceExample()
    ensures var fks := [ForeignKey(FieldList(["a"]), Reference(Some("x"), FieldList(["aa"]))),
                        ForeignKey(FieldList(["b"]), Reference(Some("x"), FieldList(["bb"]))),
                        ForeignKey(FieldList(["b", "a"]), Reference(Some("y"), FieldList(["b", "a"])))];
      SimpleKeys(KeysIn("x", "a"), fks, 3) == Ok([(None, "aa"), (Some("y"), "a")])
  {
    var fks := [ForeignKey(FieldList(["a"]), Reference(Some("x"), FieldList(["aa"]))),
                ForeignKey(FieldList(["b"]), Reference(Some("x"), FieldList(["bb"]))),
                ForeignKey(FieldList(["b", "a"]), Reference(Some("y"), FieldList(["b", "a"])))];
    var own: SimpleKey := (None, "aa");
    var other: SimpleKey := (Some("y"), "a");
    assert IndexOf(["a"], "a") == 0;
    assert ["b", "a"][0] != "a";
    assert IndexOf(["b", "a"], "a") == 1;
    var keyOf := KeysIn("x", "a");
    assert keyOf(fks[0]) == Ok(Some(own));
    assert keyOf(fks[1]) == Ok(None);
    assert keyOf(fks[2]) == Ok(Some(other));
    var none: seq<SimpleKey> := [];
    assert SimpleKeys(keyOf, fks, 0) == Ok(none);
    assert own !in none && none + [own] == [own];
    assert SimpleKeys(keyOf, fks, 1) == Ok([own]);
    assert SimpleKeys(keyOf, fks, 2) == Ok([own]);
    assert other !in [own] && [own] + [other] == [own, other];
    assert SimpleKeys(keyOf, fks, 3) == Ok([own, other]);
  }

  /** `reduce_foreign_keys`: the distinct simple keys the foreign keys give `column` of `table`. */
  method ReduceForeignKeys(fks: seq<ForeignKey>, table: string, column: string)
    returns (r: Result<seq<SimpleKey>>)
    ensures r == SimpleKeys(KeysIn(table, column), fks, |fks|)
  {
    r := ReduceBy(KeysIn(table, column), fks);
  }

  /** The loop of `reduce_foreign_keys`, with `keyOf` giving each foreign key's simple key. */
  method ReduceBy(keyOf: KeyOf, fks: seq<ForeignKey>) returns (r: Result<seq<SimpleKey>>)
    ensures r == SimpleKeys(keyOf, fks, |fks|)
  {
    var keys: seq<SimpleKey> := [];
    var i := 0;
    while i < |fks|
      invariant 0 <= i <= |fks|
      invariant SimpleKeys(keyOf, fks, i) == Ok(keys)
    {
      var key := keyOf(fks[i]);
      if key.Err? {
        r := Err(key.error);
        assert SimpleKeys(keyOf, fks, i + 1) == r;
        PrefixErrorStays(keyOf, fks, i + 1, |fks|);
        return;
      }
      if key.value.Some? && key.value.value !in keys {
        keys := keys + [key.value.value];
      }
      i := i + 1;
    }
    r := Ok(keys);
  }

  /** Once a foreign key fails, every longer prefix fails with the same error. */
  lemma {:induction false} PrefixErrorStays(keyOf: KeyOf, fks: seq<ForeignKey>, m: nat, n: nat)
    requires m <= n <= |fks|
    requires SimpleKeys(keyOf, fks, m).Err?
    ensures SimpleKeys(keyOf, fks, n) == SimpleKeys(keyOf, fks, m)
    decreases n - m
  {
    if m < n {
      PrefixErrorStays(keyOf, fks, m, n - 1);
    }
  }

  predicate Distinct<T(==)>(xs: seq<T>)
  {
    forall i, j :: 0 <= i < j < |xs| ==> xs[i] != xs[j]
  }

  /** Foreign key `j` contributes the simple key `k`. */
  predicate Contributes(keyOf: KeyOf, fks: seq<ForeignKey>, j: nat, k: SimpleKey)
    requires j < |fks|
  {
    keyOf(fks[j]) == Ok(Some(k))
  }

  /** The reduction fails exactly when some foreign key fails. */
  lemma {:induction false} SimpleKeysError(keyOf: KeyOf, fks: seq<ForeignKey>, n: nat)
    requires n <= |fks|
    ensures SimpleKeys(keyOf, fks, n).Err? <==> exists j :: 0 <= j < n && keyOf(fks[j]).Err?
  {
    if n > 0 {
      SimpleKeysError(keyOf, fks, n - 1);
      var prev, kf := SimpleKeys(keyOf, fks, n - 1), keyOf(fks[n - 1]);
      if prev.Err? {
        var j :| 0 <= j < n - 1 && keyOf(fks[j]).Err?;
        assert SimpleKeys(keyOf, fks, n).Err?;
      } else if kf.Err? {
        assert SimpleKeys(keyOf, fks, n).Err?;
      } else {
        assert SimpleKeys(keyOf, fks, n).Ok?;
        forall j | 0 <= j < n ensures keyOf(fks[j]).Ok? {
          if j == n - 1 {
            assert keyOf(fks[j]) == kf;
          }
        }
      }
    }
  }

  /** The reduced keys are exactly the keys the foreign keys contribute, each once. */
  lemma {:induction false} SimpleKeysMembers(keyOf: KeyOf, fks: seq<ForeignKey>, n: nat)
    requires n <= |fks| && SimpleKeys(keyOf, fks, n).Ok?
    ensures Distinct(SimpleKeys(keyOf, fks, n).value)
    ensures forall k :: k in SimpleKeys(keyOf, fks, n).value <==>
      exists j :: 0 <= j < n && Contributes(keyOf, fks, j, k)
  {
    SimpleKeysDistinct(keyOf, fks, n);
    SimpleKeysContributed(keyOf, fks, n);
  }

  lemma {:induction false} SimpleKeysDistinct(keyOf: KeyOf, fks: seq<ForeignKey>, n: nat)
    requires n <= |fks| && SimpleKeys(keyOf, fks, n).Ok?
    ensures Distinct(SimpleKeys(keyOf, fks, n).value)
  {
    if n > 0 {
      var prev := SimpleKeys(keyOf, fks, n - 1);
      assert prev.Ok?;
      SimpleKeysDistinct(keyOf, fks, n - 1);
      var keys := prev.value;
      var kf := keyOf(fks[n - 1]);
      assert kf.Ok?;
      if kf.value.Some? && kf.value.value !in keys {
        var ks := keys + [kf.value.value];
        assert SimpleKeys(keyOf, fks, n).value == ks;
        forall i, j | 0 <= i < j < |ks| ensures ks[i] != ks[j] {
          if j == |keys| {
            assert ks[i] == keys[i];
          }
        }
      }
    }
  }

  lemma {:induction false} SimpleKeysContributed(keyOf: KeyOf, fks: seq<ForeignKey>, n: nat)
    requires n <= |fks| && SimpleKeys(keyOf, fks, n).Ok?
    ensures forall k :: k in SimpleKeys(keyOf, fks, n).value <==>
      exists j :: 0 <= j < n && Contributes(keyOf, fks, j, k)
  {
    if n > 0 {
      var prev := SimpleKeys(keyOf, fks, n - 1);
      assert prev.Ok?;
      SimpleKeysContributed(keyOf, fks, n - 1);
      var keys := prev.value;
      var kf := keyOf(fks[n - 1]);
      assert kf.Ok?;
      var now := SimpleKeys(keyOf, fks, n).value;
      assert now == if kf.value.Some? && kf.value.value !in keys then keys + [kf.value.value] else keys;
      forall k ensures k in now <==> exists j :: 0 <= j < n && Contributes(keyOf, fks, j, k) {
        if k in now && k !in keys {
          assert Contributes(keyOf, fks, n - 1, k);
        }
        if exists j :: 0 <= j < n && Contributes(keyOf, fks, j, k) {
          var j :| 0 <= j < n && Contributes(keyOf, fks, j, k);
          if j < n - 1 {
            assert k in keys;
          } else {
            assert kf == Ok(Some(k));
          }
        }
      }
    }
  }

  /** Among the first `n` foreign keys, `k` is contributed before `l` first is. */
  predicate FirstBefore(keyOf: KeyOf, fks: seq<ForeignKey>, n: nat, k: SimpleKey, l: SimpleKey)
    requires n <= |fks|
  {
    exists j :: 0 <= j < n && Contributes(keyOf, fks, j, k) &&
      forall j2 :: 0 <= j2 <= j ==> !Contributes(keyOf, fks, j2, l)
  }

  lemma {:induction false} FirstBeforeGrows(keyOf: KeyOf, fks: seq<ForeignKey>, n: nat, k: SimpleKey, l: SimpleKey)
    requires n < |fks| && FirstBefore(keyOf, fks, n, k, l)
    ensures FirstBefore(keyOf, fks, n + 1, k, l)
  {
    var j :| 0 <= j < n && Contributes(keyOf, fks, j, k) &&
      forall j2 :: 0 <= j2 <= j ==> !Contributes(keyOf, fks, j2, l);
  }

  /** The reduced keys keep the order in which they are first contributed. */
  lemma {:induction false} SimpleKeysOrder(keyOf: KeyOf, fks: seq<ForeignKey>, n: nat)
    requires n <= |fks| && SimpleKeys(keyOf, fks, n).Ok?
    ensures var keys := SimpleKeys(keyOf, fks, n).value;
      forall a, c :: 0 <= a < c < |keys| ==> FirstBefore(keyOf, fks, n, keys[a], keys[c])
  {
    if n > 0 {
      SimpleKeysOrder(keyOf, fks, n - 1);
      SimpleKeysMembers(keyOf, fks, n - 1);
      var keys := SimpleKeys(keyOf, fks, n - 1).value;
      forall a, c | 0 <= a < c < |keys| ensures FirstBefore(keyOf, fks, n, keys[a], keys[c]) {
        FirstBeforeGrows(keyOf, fks, n - 1, keys[a], keys[c]);
      }
      var kf := keyOf(fks[n - 1]).value;
      if kf.Some? && kf.value !in keys {
        var keys2 := keys + [kf.value];
        forall a | 0 <= a < |keys| ensures FirstBefore(keyOf, fks, n, keys2[a], kf.value) {
          assert keys2[a] == keys[a] && keys[a] in keys;
          var j :| 0 <= j < n - 1 && Contributes(keyOf, fks, j, keys[a]);
        }
        forall a, c | 0 <= a < c < |keys2| ensures FirstBefore(keyOf, fks, n, keys2[a], keys2[c]) {
          if c < |keys| {
            assert keys2[a] == keys[a] && keys2[c] == keys[c];
          }
        }
      }
    }
  }
}
