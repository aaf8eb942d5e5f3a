/**
 * The records the layout engine exchanges (tables, enums, checks, dropdowns,
 * foreign keys, constraint values) and its static catalogue of formula
 * templates for type checks, constraint checks and range membership.
 */
module Constants {
  import opened Results
  import opened Strings

  /** The values a table schema can carry: booleans, integers, strings, null and lists. */
  datatype Value = VBool(b: bool) | VInt(i: int) | VStr(s: string) | VNone | VList(items: seq<Value>)

  /** The quote `repr` puts around a string: `"` when it holds `'` but no `"`, otherwise `'`. */
  function QuoteFor(s: string): char
  {
    if '\'' in s && '"' !in s then '"' else '\''
  }

  /** The body of a string's `repr`: the quote and `\` are escaped, as are tab, newline and carriage return. */
  function Escaped(s: string, quote: char): string
  {
    if |s| == 0 then ""
    else
      var c := s[0];
      var e := if c == quote || c == '\\' then ['\\', c]
        else if c == '\t' then "\\t"
        else if c == '\n' then "\\n"
        else if c == '\r' then "\\r"
        else [c];
      e + Escaped(s[1..], quote)
  }

  /** Python's `repr` of a value. */
  function Repr(v: Value): string
  {
    match v
    case VBool(b) => if b then "True" else "False"
    case VInt(i) => IntToDecimal(i)
    case VStr(s) => var q := QuoteFor(s); [q] + Escaped(s, q) + [q]
    case VNone => "None"
    case VList(xs) => "[" + Join(", ", seq(|xs|, k requires 0 <= k < |xs| => Repr(xs[k]))) + "]"
  }

  /** Escaping works character by character. */
  lemma {:induction false} EscapedAppend(s: string, t: string, quote: char)
    ensures Escaped(s + t, quote) == Escaped(s, quote) + Escaped(t, quote)
  {
    if |s| > 0 {
      EscapedAppend(s[1..], t, quote);
      assert (s + t)[0] == s[0] && (s + t)[1..] == s[1..] + t;
    } else {
      assert s + t == t;
    }
  }

  /** A character `repr` writes as it is inside quotes `quote`. */
  predicate Unescaped(c: char, quote: char)
  {
    c != quote && c != '\\' && c != '\t' && c != '\n' && c != '\r'
  }

  /** Text of plain characters is its own escaped form. */
  lemma {:induction false} EscapedPlain(s: string, quote: char)
    requires forall i | 0 <= i < |s| :: Unescaped(s[i], quote)
    ensures Escaped(s, quote) == s
  {
    if |s| > 0 {
      EscapedPlain(s[1..], quote);
      assert [s[0]] + s[1..] == s;
    }
  }

  /** A string with no quote, backslash or control character is put in single quotes as it is. */
  lemma {:induction false} ReprPlain(s: string)
    requires forall i | 0 <= i < |s| :: Unescaped(s[i], '\'') && s[i] != '"'
    ensures Repr(VStr(s)) == "'" + s + "'"
  {
    assert '\'' !in s;
    EscapedPlain(s, '\'');
  }

  /** A string holding `'` but no `"` is put in double quotes, its `'` unescaped. */
  lemma {:induction false} ReprSwitchesQuote(s: string)
    requires '\'' in s
    requires forall i | 0 <= i < |s| :: Unescaped(s[i], '"')
    ensures Repr(VStr(s)) == "\"" + s + "\""
  {
    assert '"' !in s;
    EscapedPlain(s, '"');
  }

  /** A string holding both quotes keeps single quotes, and so escapes its `'`. */
  lemma {:induction false} ReprBothQuotes(s: string)
    requires '\'' in s && '"' in s
    ensures Repr(VStr(s)) == "'" + Escaped(s, '\'') + "'"
  {
  }

  /** The quote in use and the backslash are escaped. */
  lemma {:induction false} EscapedSpecial(c: char, quote: char)
    requires c == quote || c == '\\'
    ensures Escaped([c], quote) == ['\\', c]
  {
    assert [c][1..] == [];
  }

  /** The `repr` of a list is its items' `repr`s, between brackets. */
  lemma {:induction false} ReprListExample()
    ensures Repr(VList([VStr("a"), VInt(1), VNone])) == "['a', 1, None]"
  {
    var xs := [VStr("a"), VInt(1), VNone];
    assert IntToDecimal(1) == "1";
    assert Repr(xs[0]) == "'a'";
    assert seq(|xs|, k requires 0 <= k < |xs| => Repr(xs[k])) == ["'a'", "1", "None"];
    assert Join(", ", ["'a'", "1", "None"]) == "'a', 1, None";
  }

  /** Python's `str` of a value: a string is itself, everything else its `repr`. */
  function Str(v: Value): string
  {
    if v.VStr? then v.s else Repr(v)
  }

  /** A table placed on its own sheet; its columns in left-to-right order. */
  datatype Table = Table(sheet: string, table: string, columns: seq<string>)

  /** An enumeration stored in column `col` of the enum sheet. */
  datatype Enum = Enum(values: seq<Value>, col: nat)

  /** A formula returning TRUE or FALSE, with its message and blank policy. */
  datatype Check = Check(formula: string, message: string, ignoreBlank: bool)

  /** Formula templates for checking column values. */
  datatype Template = Template(valid: Tpl, invalid: Tpl, message: Tpl, ignoreBlank: bool)

  datatype Source = BooleanSource | ForeignKeySource | EnumSource

  /** Dropdown values: a list of literals or a cell range. */
  datatype DropdownValues = Options(options: seq<string>) | CellRange(range: string)

  datatype Dropdown = Dropdown(values: DropdownValues, source: Source)

  /** Column names of a foreign key: absent, a single name, or a list of names. */
  datatype Fields = NoFields | FieldName(name: string) | FieldList(names: seq<string>)

  /** The table (`None` or empty meaning the owning table) and columns a key refers to. */
  datatype Reference = Reference(resource: Option<string>, fields: Fields)

  datatype ForeignKey = ForeignKey(fields: Fields, reference: Reference)

  /**
   * Column constraints in their given order: key and value. They stand for the
   * items of a Python dict, so no key is given twice. The operations accept
   * any sequence, but they agree with Python only when the keys are distinct.
   */
  type Constraints = seq<(string, Value)>

  const Letters: string := "ABCDEFGHIJKLMNOPQRSTUVWXYZ"

  /** The letters of the Latin alphabet in order: remainder `r` is letter `r`. */
  lemma {:induction false} LettersInOrder()
    ensures |Letters| == 26
    ensures forall r :: 0 <= r < 26 ==> Letters[r] as int == 'A' as int + r
  {
  }

  // ---- Building blocks of the templates ----

  // Placeholder names the templates use.
  const Col: KeywordName := "col"
  const Row: KeywordName := "row"
  const ValueName: KeywordName := "value"
  const MinCol: KeywordName := "min_col"
  const MaxCol: KeywordName := "max_col"
  const MaxRow: KeywordName := "max_row"
  const NCols: KeywordName := "ncols"
  const RangeName: KeywordName := "range"

  /** `{col}{row}` followed by `rest`: the cell being checked. */
  function Cell(rest: Tpl): Tpl
  {
    Field(Col, Field(Row, rest))
  }

  function Plain(s: Literal): Tpl
  {
    Lit(s, End)
  }

  /** Template `a` followed by template `b`. */
  function Append(a: Tpl, b: Tpl): Tpl
  {
    match a
    case End => b
    case Lit(s, r) => Lit(s, Append(r, b))
    case Field(n, r) => Field(n, Append(r, b))
  }

  datatype Comparison = Ge | Le | Lt | Gt

  function Symbol(c: Comparison): Literal
  {
    match c
    case Ge => ">="
    case Le => "<="
    case Lt => "<"
    case Gt => ">"
  }

  function Negate(c: Comparison): Comparison
  {
    match c
    case Ge => Lt
    case Le => Gt
    case Lt => Ge
    case Gt => Le
  }

  predicate Holds(c: Comparison, x: int, y: int)
  {
    match c
    case Ge => x >= y
    case Le => x <= y
    case Lt => x < y
    case Gt => x > y
  }

  /** The negated comparison holds exactly when the comparison does not. */
  lemma {:induction false} NegateComplements(c: Comparison, x: int, y: int)
    ensures Holds(Negate(c), x, y) <==> !Holds(c, x, y)
    ensures Negate(Negate(c)) == c
  {
  }

  /** `lhs op rhs`, with one space around the operator. */
  function Compare(lhs: Tpl, c: Comparison, rhs: Tpl): Tpl
  {
    Append(lhs, Lit(" " + Symbol(c) + " ", rhs))
  }

  const ValueField: Tpl := Field(ValueName, End)
  const Length: Tpl := Lit("LEN(", Cell(Plain(")")))
  const IntegerValid: Tpl :=
    Lit("IF(ISNUMBER(", Cell(Lit("), INT(", Cell(Lit(") = ", Cell(Plain(", FALSE)")))))))
  const IntegerInvalid: Tpl :=
    Lit("IF(ISNUMBER(", Cell(Lit("), INT(", Cell(Lit(") <> ", Cell(Plain(", TRUE)")))))))
  const Count: Tpl :=
    Lit("COUNTIF(", Field(Col, Lit("$", Field(Row, Lit(":", Field(Col, Field(MaxRow,
      Lit(", ", Cell(Plain(")"))))))))))
  const Regex: Tpl :=
    Lit("REGEXMATCH(TO_TEXT(", Cell(Lit("), \"^", Field(ValueName, Plain("$\")")))))

  // ---- The catalogue ----

  const Number: Template := Template(
    Lit("ISNUMBER(", Cell(Plain(")"))),
    Lit("NOT(ISNUMBER(", Cell(Plain("))"))),
    Plain("number"), true)
  const Integer: Template := Template(IntegerValid, IntegerInvalid, Plain("integer"), true)
  const Year: Template := Template(IntegerValid, IntegerInvalid, Plain("year"), true)
  const Boolean: Template := Template(
    Lit("OR(", Cell(Lit(" = TRUE, ", Cell(Plain(" = FALSE)"))))),
    Lit("AND(", Cell(Lit(" <> TRUE, ", Cell(Plain(" <> FALSE)"))))),
    Plain("TRUE or FALSE"), true)

  /** Type checks, for a subset of the Table Schema types. */
  const Types: map<string, Template> :=
    map["number" := Number, "integer" := Integer, "year" := Year, "boolean" := Boolean]

  const RequiredInvalid: Tpl :=
    Lit("AND(ISBLANK(", Cell(Lit("), COUNTBLANK($", Field(MinCol, Field(Row,
      Lit(":$", Field(MaxCol, Field(Row, Lit(") <> ", Field(NCols, Plain(")")))))))))))
  const Required: Template :=
    Template(Lit("NOT(ISBLANK(", Cell(Plain("))"))), RequiredInvalid, Plain("not blank"), false)
  const Unique: Template :=
    Template(Compare(Count, Lt, Plain("2")), Compare(Count, Ge, Plain("2")), Plain("unique"), true)
  const MinLength: Template := Template(
    Compare(Length, Ge, ValueField), Compare(Length, Lt, ValueField),
    Lit("length ≥ ", ValueField), true)
  const MaxLength: Template := Template(
    Compare(Length, Le, ValueField), Compare(Length, Gt, ValueField),
    Lit("length ≤ ", ValueField), true)
  const Minimum: Template := Template(
    Compare(Cell(End), Ge, ValueField), Compare(Cell(End), Lt, ValueField),
    Lit("≥ ", ValueField), true)
  const Maximum: Template := Template(
    Compare(Cell(End), Le, ValueField), Compare(Cell(End), Gt, ValueField),
    Lit("≤ ", ValueField), true)
  const PatternMessage: Tpl := Lit("matching the regular expression ", ValueField)
  const Pattern: Template := Template(Regex, Lit("NOT(", Append(Regex, Plain(")"))), PatternMessage, true)

  /** Constraint checks for every Table Schema constraint but `enum`. */
  const ConstraintTemplates: map<string, Template> := map[
    "required" := Required, "unique" := Unique,
    "min_length" := MinLength, "max_length" := MaxLength,
    "minimum" := Minimum, "maximum" := Maximum,
    "pattern" := Pattern
  ]

  /** Membership of the cell's value in the cell range `{range}`. */
  const InRange: Template := Template(
    Lit("ISNUMBER(MATCH(", Cell(Lit(", ", Field(RangeName, Plain(", 0))"))))),
    Lit("ISNA(MATCH(", Cell(Lit(", ", Field(RangeName, Plain(", 0))"))))),
    Lit("in the range ", Field(RangeName, End)), true)

  // ---- What the catalogue promises ----

  /** Placeholders shared by every template: the cell's column code and first row. */
  const CellNames: set<string> := {"col", "row"}

  /** Placeholders only constraint templates may use. */
  const ConstraintNames: set<string> := {"value", "min_col", "max_col", "max_row", "ncols"}

  /** The template contains `{col}{row}` somewhere. */
  predicate ReferencesCell(t: Tpl)
  {
    match t
    case End => false
    case Lit(_, r) => ReferencesCell(r)
    case Field(n, r) => (n == "col" && r.Field? && r.name == "row") || ReferencesCell(r)
  }

  lemma {:induction false} CatalogueKeys()
    ensures Types.Keys == {"number", "integer", "year", "boolean"}
    ensures ConstraintTemplates.Keys ==
      {"required", "unique", "min_length", "max_length", "minimum", "maximum", "pattern"}
    ensures "enum" !in ConstraintTemplates
  {
  }

  /** `integer` and `year` differ only in their message. */
  lemma {:induction false} IntegerAndYearShareFormulas()
    ensures Types["integer"].valid == Types["year"].valid
    ensures Types["integer"].invalid == Types["year"].invalid
    ensures Types["integer"].ignoreBlank == Types["year"].ignoreBlank
    ensures Types["integer"].message != Types["year"].message
  {
  }

  /** `required` is the one template that does not skip blank cells. */
  lemma {:induction false} OnlyRequiredChecksBlanks()
    ensures forall k | k in Types :: Types[k].ignoreBlank
    ensures forall k | k in ConstraintTemplates :: ConstraintTemplates[k].ignoreBlank <==> k != "required"
    ensures InRange.ignoreBlank
  {
  }

  /**
   * For the bound constraints (and `unique`) the invalid formula is the strict
   * complement of the valid one, over the same operands.
   */
  lemma {:induction false} ComparisonsAreComplements(k: string)
    requires k in {"unique", "min_length", "max_length", "minimum", "maximum"}
    ensures exists lhs: Tpl, c: Comparison, rhs: Tpl ::
      ConstraintTemplates[k].valid == Compare(lhs, c, rhs) &&
      ConstraintTemplates[k].invalid == Compare(lhs, Negate(c), rhs)
  {
    if k == "unique" {
      assert ConstraintTemplates[k].invalid == Compare(Count, Negate(Lt), Plain("2"));
    } else if k == "min_length" {
      assert ConstraintTemplates[k].invalid == Compare(Length, Negate(Ge), ValueField);
    } else if k == "max_length" {
      assert ConstraintTemplates[k].invalid == Compare(Length, Negate(Le), ValueField);
    } else if k == "minimum" {
      assert ConstraintTemplates[k].invalid == Compare(Cell(End), Negate(Ge), ValueField);
    } else {
      assert ConstraintTemplates[k].invalid == Compare(Cell(End), Negate(Le), ValueField);
    }
  }

  /** A type template: both formulas check `{col}{row}` and use nothing else; a plain message. */
  predicate TypeShaped(t: Template)
  {
    ReferencesCell(t.valid) && ReferencesCell(t.invalid) &&
    Placeholders(t.valid) == CellNames && Placeholders(t.invalid) == CellNames &&
    Placeholders(t.message) == {}
  }

  /** A constraint template: both formulas check `{col}{row}`; the message may use `{value}`. */
  predicate ConstraintShaped(t: Template)
  {
    ReferencesCell(t.valid) && ReferencesCell(t.invalid) &&
    CellNames <= Placeholders(t.valid) <= CellNames + ConstraintNames &&
    CellNames <= Placeholders(t.invalid) <= CellNames + ConstraintNames &&
    Placeholders(t.message) <= {"value"}
  }

  lemma {:induction false} AppendShape(a: Tpl, b: Tpl)
    ensures Placeholders(Append(a, b)) == Placeholders(a) + Placeholders(b)
    ensures ReferencesCell(a) || ReferencesCell(b) ==> ReferencesCell(Append(a, b))
    ensures Render(Append(a, b)) == Render(a) + Render(b)
  {
    match a
    case End =>
    case Lit(s, r) =>
      AppendShape(r, b);
      assert s + (Render(r) + Render(b)) == (s + Render(r)) + Render(b);
    case Field(n, r) =>
      AppendShape(r, b);
      assert "{" + n + "}" + (Render(r) + Render(b)) == ("{" + n + "}" + Render(r)) + Render(b);
  }

  /** A comparison has the placeholders of its two operands. */
  lemma {:induction false} CompareShape(lhs: Tpl, c: Comparison, rhs: Tpl)
    ensures Placeholders(Compare(lhs, c, rhs)) == Placeholders(lhs) + Placeholders(rhs)
    ensures ReferencesCell(lhs) ==> ReferencesCell(Compare(lhs, c, rhs))
  {
    AppendShape(lhs, Lit(" " + Symbol(c) + " ", rhs));
  }

  /** The two formulas of a bound constraint, with its message. */
  lemma {:induction false} BoundShape(lhs: Tpl, c: Comparison, rhs: Tpl, message: Tpl)
    requires ReferencesCell(lhs) && CellNames <= Placeholders(lhs)
    requires Placeholders(lhs) + Placeholders(rhs) <= CellNames + ConstraintNames
    requires Placeholders(message) <= {"value"}
    ensures ConstraintShaped(Template(Compare(lhs, c, rhs), Compare(lhs, Negate(c), rhs), message, true))
  {
    CompareShape(lhs, c, rhs);
    CompareShape(lhs, Negate(c), rhs);
  }

  /** Type templates check `{col}{row}` only. */
  lemma {:induction false} TypeCatalogue()
    ensures forall k | k in Types :: TypeShaped(Types[k])
  {
    forall k | k in Types ensures TypeShaped(Types[k]) {
      if k == "number" {
      } else if k == "integer" || k == "year" {
      } else {
      }
    }
  }

  lemma {:induction false} RequiredShape()
    ensures ConstraintShaped(Required)
  {
  }

  lemma {:induction false} PatternShape()
    ensures ConstraintShaped(Pattern)
  {
    AppendShape(Regex, Plain(")"));
  }

  /**
   * Constraint templates check `{col}{row}` and use no
   * placeholder outside CellNames and ConstraintNames.
   */
  lemma {:induction false} ConstraintCatalogue()
    ensures forall k | k in ConstraintTemplates ::
      ConstraintShaped(ConstraintTemplates[k])
  {
    forall k | k in ConstraintTemplates
      ensures ConstraintShaped(ConstraintTemplates[k])
    {
      if k == "required" {
        RequiredShape();
      } else if k == "unique" {
        BoundShape(Count, Lt, Plain("2"), Plain("unique"));
      } else if k == "min_length" {
        BoundShape(Length, Ge, ValueField, Lit("length ≥ ", ValueField));
      } else if k == "max_length" {
        BoundShape(Length, Le, ValueField, Lit("length ≤ ", ValueField));
      } else if k == "minimum" {
        BoundShape(Cell(End), Ge, ValueField, Lit("≥ ", ValueField));
      } else if k == "maximum" {
        BoundShape(Cell(End), Le, ValueField, Lit("≤ ", ValueField));
      } else {
        PatternShape();
      }
    }
  }

  /** The range template uses `{col}{row}` and `{range}`. */
  lemma {:induction false} InRangeShape()
    ensures ReferencesCell(InRange.valid) && ReferencesCell(InRange.invalid)
    ensures Placeholders(InRange.valid) == CellNames + {"range"}
    ensures Placeholders(InRange.invalid) == CellNames + {"range"}
    ensures Placeholders(InRange.message) == {"range"}
  {
  }
}
