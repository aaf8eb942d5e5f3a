/**
 * The layout engine: tables placed on their own sheets, enums stacked in the
 * columns of the enum sheet, and, for any column, its code, its cell range,
 * the dropdown its data validation offers and the checks its type,
 * constraints and foreign keys call for.
 */
module Layouts {
  import opened Results
  import opened Strings
  import opened Constants
  import opened Helpers

  // ---- The state of a layout, as a value ----

  /** Everything a layout holds: its tables and enums and its three settings. */
  datatype LayoutState = LayoutState(
    tables: seq<Table>, enums: seq<Enum>, enumSheet: string,
    maxRows: Option<int>, maxNameLength: Option<int>)

  /** Python truthiness of an optional integer: `None` and `0` are both false. */
  predicate Given(x: Option<int>)
  {
    x.Some? && x.value != 0
  }

  /** Python truthiness of a constraint value, which is also exactly the set `(None, False, '', [])` tests for. */
  predicate Falsy(v: Value)
  {
    v == VNone || v == VBool(false) || v == VInt(0) || v == VStr("") || v == VList([])
  }

  function TableNames(ts: seq<Table>): seq<string>
  {
    seq(|ts|, i requires 0 <= i < |ts| => ts[i].table)
  }

  function SheetNames(ts: seq<Table>): seq<string>
  {
    seq(|ts|, i requires 0 <= i < |ts| => ts[i].sheet)
  }

  function EnumValues(es: seq<Enum>): seq<seq<Value>>
  {
    seq(|es|, i requires 0 <= i < |es| => es[i].values)
  }

  function Elements<T>(xs: seq<T>): set<T>
  {
    set x | x in xs
  }

  /** A list has no duplicates exactly when its set is as long as it is. */
  lemma {:induction false} DistinctByCount<T>(xs: seq<T>)
    ensures |Elements(xs)| <= |xs|
    ensures Distinct(xs) <==> |Elements(xs)| == |xs|
  {
    if |xs| > 0 {
      var ys, y := xs[..|xs| - 1], xs[|xs| - 1];
      DistinctByCount(ys);
      assert xs == ys + [y];
      assert Elements(xs) == Elements(ys) + {y};
      if y in ys {
        var k :| 0 <= k < |ys| && ys[k] == y;
        assert xs[k] == xs[|xs| - 1];
      } else {
        assert Distinct(xs) <==> Distinct(ys);
      }
    }
  }

  // ---- Tables ----

  /** The sheet a table goes on: `sheet`, or the table's own name when that is absent or empty. */
  function SheetFor(table: string, sheet: Option<string>): string
  {
    if Truthy(sheet) then sheet.value else table
  }

  /** What `set_table` decides: its four checks, in the order it makes them. */
  function AddTableOutcome(s: LayoutState, table: string, columns: seq<string>, sheet: Option<string>): Outcome
  {
    var name := SheetFor(table, sheet);
    if table in TableNames(s.tables) then Fail(DuplicateTable(table))
    else if name in SheetNames(s.tables) || name == s.enumSheet then Fail(DuplicateSheet(name))
    else if Given(s.maxNameLength) && |name| > s.maxNameLength.value then Fail(SheetNameTooLong(s.maxNameLength.value))
    else if |columns| != |Elements(columns)| then Fail(DuplicateColumns(columns))
    else Pass
  }

  /** Table and sheet names are unique, no table uses the enum sheet, columns are unique, sheet names fit. */
  ghost predicate TablesValid(ts: seq<Table>, enumSheet: string, maxNameLength: Option<int>)
  {
    Distinct(TableNames(ts)) && Distinct(SheetNames(ts)) && enumSheet !in SheetNames(ts) &&
    (forall i | 0 <= i < |ts| :: Distinct(ts[i].columns)) &&
    (Given(maxNameLength) ==> forall i | 0 <= i < |ts| :: |ts[i].sheet| <= maxNameLength.value)
  }

  /** A table is accepted exactly when its name, its sheet, its sheet's length and its columns are all fine. */
  lemma {:induction false} AddTableMeaning(s: LayoutState, table: string, columns: seq<string>, sheet: Option<string>)
    ensures AddTableOutcome(s, table, columns, sheet) == Pass <==>
      var name := SheetFor(table, sheet);
      table !in TableNames(s.tables) && name !in SheetNames(s.tables) && name != s.enumSheet &&
      (Given(s.maxNameLength) ==> |name| <= s.maxNameLength.value) && Distinct(columns)
  {
    DistinctByCount(columns);
  }

  /** Adding an accepted table keeps the tables valid. */
  lemma {:induction false} AddTableKeepsValid(s: LayoutState, table: string, columns: seq<string>, sheet: Option<string>)
    requires TablesValid(s.tables, s.enumSheet, s.maxNameLength)
    requires AddTableOutcome(s, table, columns, sheet) == Pass
    ensures TablesValid(s.tables + [Table(SheetFor(table, sheet), table, columns)], s.enumSheet, s.maxNameLength)
  {
    AddTableMeaning(s, table, columns, sheet);
    var t := Table(SheetFor(table, sheet), table, columns);
    assert TableNames(s.tables + [t]) == TableNames(s.tables) + [table];
    assert SheetNames(s.tables + [t]) == SheetNames(s.tables) + [t.sheet];
  }

  /** The first table named `name` (`get_table`). */
  function FindTable(ts: seq<Table>, name: string): (r: Result<Table>)
    ensures r.Ok? <==> name in TableNames(ts)
    ensures r.Ok? ==> r.value == ts[IndexOf(TableNames(ts), name)] && r.value.table == name
    ensures r.Err? ==> r.error == TableNotFound(name)
  {
    if |ts| == 0 then Err(TableNotFound(name))
    else if ts[0].table == name then
      assert TableNames(ts)[0] == name;
      Ok(ts[0])
    else
      assert TableNames(ts) == [ts[0].table] + TableNames(ts[1..]);
      FindTable(ts[1..], name)
  }

  /** Looking a table up after adding it finds it; every other name finds what it found before. */
  lemma {:induction false} FindAddedTable(s: LayoutState, table: string, columns: seq<string>, sheet: Option<string>, other: string)
    requires AddTableOutcome(s, table, columns, sheet) == Pass
    ensures FindTable(s.tables + [Table(SheetFor(table, sheet), table, columns)], table) ==
      Ok(Table(SheetFor(table, sheet), table, columns))
    ensures other != table ==>
      FindTable(s.tables + [Table(SheetFor(table, sheet), table, columns)], other) == FindTable(s.tables, other)
  {
    var t := Table(SheetFor(table, sheet), table, columns);
    var ts := s.tables + [t];
    assert table !in TableNames(s.tables);
    assert TableNames(ts) == TableNames(s.tables) + [table];
    IndexOfAppended(TableNames(s.tables), table);
    assert ts[|s.tables|] == t;
    if other != table && other in TableNames(s.tables) {
      IndexOfExtended(TableNames(s.tables), other, table);
      assert ts[IndexOf(TableNames(s.tables), other)] == s.tables[IndexOf(TableNames(s.tables), other)];
    }
  }

  /** A table and the position of the first of its columns named `column`. */
  function Locate(ts: seq<Table>, table: string, column: string): (r: Result<(Table, nat)>)
    ensures r.Ok? <==> FindTable(ts, table).Ok? && column in FindTable(ts, table).value.columns
    ensures r.Ok? ==> (r.value.0 == FindTable(ts, table).value &&
      r.value.1 < |r.value.0.columns| && r.value.0.columns[r.value.1] == column &&
      column !in r.value.0.columns[..r.value.1])
    ensures r.Err? ==> r.error == if FindTable(ts, table).Err? then TableNotFound(table) else ColumnNotFound(column)
  {
    match FindTable(ts, table)
    case Err(e) => Err(e)
    case Ok(t) => if column in t.columns then Ok((t, IndexOf(t.columns, column))) else Err(ColumnNotFound(column))
  }

  /** `get_column_code`. */
  function ColumnCodeOf(s: LayoutState, table: string, column: string): Result<string>
  {
    match Locate(s.tables, table, column)
    case Err(e) => Err(e)
    case Ok((_, i)) => Ok(ColumnCode(i))
  }

  /** The code of a column of a table found by name: its position's code. */
  lemma {:induction false} CodeOfListedColumn(s: LayoutState, table: string, t: Table, column: string)
    requires FindTable(s.tables, table) == Ok(t) && column in t.columns
    ensures ColumnCodeOf(s, table, column) == Ok(ColumnCode(IndexOf(t.columns, column)))
  {
  }

  /** A column's code decodes back to the column's position in its table. */
  lemma {:induction false} ColumnCodeMeaning(s: LayoutState, table: string, column: string)
    ensures ColumnCodeOf(s, table, column).Ok? <==>
      table in TableNames(s.tables) && column in FindTable(s.tables, table).value.columns
    ensures ColumnCodeOf(s, table, column).Ok? ==>
      var cs := FindTable(s.tables, table).value.columns;
      var i := ColumnCodeToIndex(ColumnCodeOf(s, table, column).value).value;
      ColumnCodeToIndex(ColumnCodeOf(s, table, column).value).Ok? &&
      0 <= i < |cs| && cs[i] == column && column !in cs[..i]
  {
    if ColumnCodeOf(s, table, column).Ok? {
      ColumnRoundTrip(Locate(s.tables, table, column).value.1);
    }
  }

  /** In a table of columns `id` and `x`, `id` is column A and `x` column B. */
  lemma {:induction false} ColumnCodeExample()
    ensures var s := LayoutState([Table("table", "table", ["id", "x"])], [], "lists", None, None);
      ColumnCodeOf(s, "table", "id") == Ok("A") && ColumnCodeOf(s, "table", "x") == Ok("B")
  {
    var ts := [Table("table", "table", ["id", "x"])];
    assert TableNames(ts) == ["table"];
    assert FindTable(ts, "table") == Ok(ts[0]);
    assert IndexOf(["id", "x"], "id") == 0;
    assert IndexOf(["id", "x"], "x") == 1;
    ColumnCodeSingleLetters();
    assert Locate(ts, "table", "id") == Ok((ts[0], 0));
    assert Locate(ts, "table", "x") == Ok((ts[0], 1));
  }

  /** The number of rows a column range covers: `nrows`, else all rows up to `max_rows`, else unbounded. */
  function RowsFor(nrows: Option<int>, maxRows: Option<int>): Option<int>
  {
    if Given(nrows) then nrows
    else if Given(maxRows) then Some(maxRows.value - 1)
    else None
  }

  /** `get_column_range`: the column's cells below its header. */
  function ColumnRange(s: LayoutState, table: string, column: string, nrows: Option<int>,
                       absolute: bool, fixed: bool, indirect: bool): Result<string>
  {
    match Locate(s.tables, table, column)
    case Err(e) => Err(e)
    case Ok((t, i)) =>
      Ok(RangeString(i, 1, RowsFor(nrows, s.maxRows), fixed, if absolute then Some(t.sheet) else None, indirect))
  }

  /**
   * Without `nrows`, a column's range runs from row 2 to row `max_rows`
   * (whenever that is not 2 itself), and to the end of the column when
   * `max_rows` is unset.
   */
  lemma {:induction false} ColumnRangeExtent(s: LayoutState, table: string, column: string, absolute: bool, fixed: bool, indirect: bool)
    requires Locate(s.tables, table, column).Ok?
    ensures var (t, i) := Locate(s.tables, table, column).value;
      var sheet := if absolute then Some(t.sheet) else None;
      var start := StartCell(i, 1, fixed);
      ColumnRange(s, table, column, None, absolute, fixed, indirect) ==
        if Given(s.maxRows) && s.maxRows.value != 2 then
          Ok(Qualify(sheet, indirect, start + ":" + StartCell(i, s.maxRows.value - 1, fixed)))
        else if Given(s.maxRows) then Ok(start)
        else Ok(Qualify(sheet, indirect, start + ":" + Prefix(fixed) + ColumnCode(i)))
  {
    var (t, i) := Locate(s.tables, table, column).value;
    var sheet := if absolute then Some(t.sheet) else None;
    var r := RangeString(i, 1, RowsFor(None, s.maxRows), fixed, sheet, indirect);
    assert ColumnRange(s, table, column, None, absolute, fixed, indirect) == Ok(r);
    if Given(s.maxRows) && s.maxRows.value != 2 {
      assert RowsFor(None, s.maxRows) == Some(s.maxRows.value - 1);
      BoundedRange(i, 1, s.maxRows.value - 1, fixed, sheet, indirect);
    } else if Given(s.maxRows) {
      assert RowsFor(None, s.maxRows) == Some(1);
    } else {
      assert RowsFor(None, s.maxRows) == None;
      OpenRange(i, 1, fixed, sheet, indirect);
    }
  }

  // ---- Enums ----

  /** The largest enum column in use. */
  function HighestColumn(es: seq<Enum>): nat
    requires |es| > 0
  {
    if |es| == 1 then es[0].col
    else
      var m := HighestColumn(es[..|es| - 1]);
      if es[|es| - 1].col > m then es[|es| - 1].col else m
  }

  lemma {:induction false} HighestColumnIsMax(es: seq<Enum>)
    requires |es| > 0
    ensures forall i | 0 <= i < |es| :: es[i].col <= HighestColumn(es)
    ensures exists i :: 0 <= i < |es| && es[i].col == HighestColumn(es)
  {
    if |es| > 1 {
      var ps := es[..|es| - 1];
      HighestColumnIsMax(ps);
      var k :| 0 <= k < |ps| && ps[k].col == HighestColumn(ps);
      assert es[k] == ps[k];
      var w := if es[|es| - 1].col > HighestColumn(ps) then |es| - 1 else k;
      assert es[w].col == HighestColumn(es);
      forall i | 0 <= i < |es| ensures es[i].col <= HighestColumn(es) {
        if i < |ps| {
          assert es[i] == ps[i];
        }
      }
    } else {
      assert es[0].col == HighestColumn(es);
    }
  }

  /** The column a new enum takes: one past the highest in use, or the first. */
  function NextColumn(es: seq<Enum>): nat
  {
    if |es| == 0 then 0 else HighestColumn(es) + 1
  }

  /** `set_enum`: the enums after adding `values`, unless an enum with those values exists already. */
  function AddEnum(es: seq<Enum>, values: seq<Value>): seq<Enum>
  {
    if values in EnumValues(es) then es else es + [Enum(values, NextColumn(es))]
  }

  /** Enums sit in columns 0, 1, 2, … in order, and no two have the same values. */
  ghost predicate EnumsValid(es: seq<Enum>)
  {
    (forall i | 0 <= i < |es| :: es[i].col == i) && Distinct(EnumValues(es))
  }

  /** When enums fill columns 0 to n - 1, the next one goes in column n. */
  lemma {:induction false} NextColumnIsCount(es: seq<Enum>)
    requires forall i | 0 <= i < |es| :: es[i].col == i
    ensures NextColumn(es) == |es|
  {
    if |es| > 0 {
      HighestColumnIsMax(es);
      assert es[|es| - 1].col == |es| - 1;
    }
  }

  lemma {:induction false} AddEnumKeepsValid(es: seq<Enum>, values: seq<Value>)
    requires EnumsValid(es)
    ensures EnumsValid(AddEnum(es, values))
    ensures |AddEnum(es, values)| == if values in EnumValues(es) then |es| else |es| + 1
  {
    if values !in EnumValues(es) {
      NextColumnIsCount(es);
      assert EnumValues(es + [Enum(values, |es|)]) == EnumValues(es) + [values];
    }
  }

  /** Adding the same enum twice is adding it once. */
  lemma {:induction false} AddEnumIdempotent(es: seq<Enum>, values: seq<Value>)
    ensures AddEnum(AddEnum(es, values), values) == AddEnum(es, values)
  {
    if values !in EnumValues(es) {
      var e := Enum(values, NextColumn(es));
      assert EnumValues(es + [e]) == EnumValues(es) + [values];
    }
  }

  /** The first enum holding exactly `values`, in the same order (`get_enum`). */
  function FindEnum(es: seq<Enum>, values: seq<Value>): (r: Result<Enum>)
    ensures r.Ok? <==> values in EnumValues(es)
    ensures r.Ok? ==> r.value == es[IndexOf(EnumValues(es), values)] && r.value.values == values
    ensures r.Err? ==> r.error == EnumNotFound
  {
    if |es| == 0 then Err(EnumNotFound)
    else if es[0].values == values then
      assert EnumValues(es)[0] == values;
      Ok(es[0])
    else
      assert EnumValues(es) == [es[0].values] + EnumValues(es[1..]);
      FindEnum(es[1..], values)
  }

  /** After `set_enum(values)` on valid enums, `get_enum(values)` finds them, in the column they were given. */
  lemma {:induction false} FindAddedEnum(es: seq<Enum>, values: seq<Value>)
    requires EnumsValid(es)
    ensures FindEnum(AddEnum(es, values), values).Ok?
    ensures values !in EnumValues(es) ==> FindEnum(AddEnum(es, values), values) == Ok(Enum(values, |es|))
  {
    if values !in EnumValues(es) {
      NextColumnIsCount(es);
      var e := Enum(values, |es|);
      assert EnumValues(es + [e]) == EnumValues(es) + [values];
      assert (es + [e])[|es|] == e;
    }
  }

  /** Enums match on their values in order: `[2, 1]` does not find `[1, 2]`. */
  lemma {:induction false} EnumOrderMatters()
    ensures FindEnum([Enum([VInt(1), VInt(2)], 0)], [VInt(2), VInt(1)]) == Err(EnumNotFound)
  {
    assert [VInt(1), VInt(2)] != [VInt(2), VInt(1)] by {
      assert [VInt(1), VInt(2)][0] != [VInt(2), VInt(1)][0];
    }
    assert EnumValues([Enum([VInt(1), VInt(2)], 0)]) == [[VInt(1), VInt(2)]];
  }

  /** A value `set_enum` warns about: a string starting with `+`, `=` or `'`. */
  predicate LooksLikeFormula(v: Value)
  {
    v.VStr? && |v.s| > 0 && (v.s[0] == '+' || v.s[0] == '=' || v.s[0] == '\'')
  }

  /** `get_enum_range`: the enum's cells on the enum sheet, fixed, starting at row 1. */
  function EnumRange(s: LayoutState, values: seq<Value>, indirect: bool): Result<string>
  {
    match FindEnum(s.enums, values)
    case Err(e) => Err(e)
    case Ok(e) => Ok(RangeString(e.col, 0, Some(|e.values|), true, Some(s.enumSheet), indirect))
  }

  /** The range of an enum named by a constraint value, which must be a list. */
  function EnumRangeOf(s: LayoutState, v: Value, indirect: bool): Result<string>
  {
    if v.VList? then EnumRange(s, v.items, indirect) else Err(EnumNotFound)
  }

  /**
   * An enum of `n` values other than one covers rows 1 to `n` of its column
   * on the enum sheet; an enum of one value is a single cell with no sheet.
   */
  lemma {:induction false} EnumRangeExtent(s: LayoutState, values: seq<Value>, indirect: bool)
    requires values in EnumValues(s.enums)
    ensures var col := FindEnum(s.enums, values).value.col;
      EnumRange(s, values, indirect) ==
        if |values| == 1 then Ok(StartCell(col, 0, true))
        else Ok(Qualify(Some(s.enumSheet), indirect, StartCell(col, 0, true) + ":" + StartCell(col, |values| - 1, true)))
  {
    var col := FindEnum(s.enums, values).value.col;
    if |values| != 1 {
      BoundedRange(col, 0, |values|, true, Some(s.enumSheet), indirect);
    }
  }

  // ---- Dropdowns ----

  /** `constraints.get(key)`: the value of the last pair with that key, as a dict built from the pairs keeps. */
  function Get(cs: Constraints, key: string): Option<Value>
  {
    if |cs| == 0 then None
    else if cs[|cs| - 1].0 == key then Some(cs[|cs| - 1].1)
    else Get(cs[..|cs| - 1], key)
  }

  /** A value is found exactly for a key some pair has, and it is the value of the last such pair. */
  lemma {:induction false} GetMeaning(cs: Constraints, key: string)
    ensures Get(cs, key).Some? <==> key in KeysOf(cs)
    ensures Get(cs, key).Some? ==>
      exists i :: 0 <= i < |cs| && cs[i] == (key, Get(cs, key).value) && (forall j :: i < j < |cs| ==> cs[j].0 != key)
    decreases |cs|
  {
    if |cs| > 0 {
      var init := cs[..|cs| - 1];
      GetMeaning(init, key);
      assert KeysOf(cs) == KeysOf(init) + [cs[|cs| - 1].0];
      if cs[|cs| - 1].0 != key && Get(init, key).Some? {
        var i :| 0 <= i < |init| && init[i] == (key, Get(init, key).value) &&
          (forall j :: i < j < |init| ==> init[j].0 != key);
        assert cs[i] == init[i];
      }
    }
  }

  /** The range behind a simple foreign key: on the referenced sheet (named) or on the column's own sheet. */
  function KeyRange(s: LayoutState, table: string, key: SimpleKey, indirect: bool): Result<string>
  {
    ColumnRange(s, if Truthy(key.0) then key.0.value else table, key.1, None, key.0.Some?, true, indirect)
  }

  const BooleanDropdown: Dropdown := Dropdown(Options(["TRUE", "FALSE"]), BooleanSource)

  /** `select_column_dropdown`: a boolean type, else the first foreign key, else a truthy enum, else none. */
  function DropdownFor(s: LayoutState, table: string, column: string, dtype: Option<string>,
                       constraints: Constraints, fks: seq<ForeignKey>, indirect: bool): Result<Option<Dropdown>>
  {
    if dtype == Some("boolean") then Ok(Some(BooleanDropdown))
    else match SimpleKeys(KeysIn(table, column), fks, |fks|)
      case Err(e) => Err(e)
      case Ok(keys) =>
        if |keys| > 0 then
          match KeyRange(s, table, keys[0], indirect)
          case Err(e) => Err(e)
          case Ok(range) => Ok(Some(Dropdown(CellRange(range), ForeignKeySource)))
        else match Get(constraints, "enum")
          case None => Ok(None)
          case Some(v) =>
            if Falsy(v) then Ok(None)
            else match EnumRangeOf(s, v, indirect)
              case Err(e) => Err(e)
              case Ok(range) => Ok(Some(Dropdown(CellRange(range), EnumSource)))
  }

  /** Some foreign key gives the column a simple key. */
  predicate Keyed(keyOf: KeyOf, fks: seq<ForeignKey>)
  {
    KeyedBefore(keyOf, fks, |fks|)
  }

  /** One of the first `n` foreign keys gives the column a simple key. */
  predicate KeyedBefore(keyOf: KeyOf, fks: seq<ForeignKey>, n: nat)
    requires n <= |fks|
  {
    exists j :: 0 <= j < n && keyOf(fks[j]).Ok? && keyOf(fks[j]).value.Some?
  }

  /** Reducing the first `n` foreign keys leaves some key exactly when one of them gives the column a key. */
  lemma {:induction false} KeysWhenKeyedBefore(keyOf: KeyOf, fks: seq<ForeignKey>, n: nat)
    requires n <= |fks| && SimpleKeys(keyOf, fks, n).Ok?
    ensures |SimpleKeys(keyOf, fks, n).value| > 0 <==> KeyedBefore(keyOf, fks, n)
  {
    if n > 0 {
      var prev := SimpleKeys(keyOf, fks, n - 1);
      assert prev.Ok?;
      KeysWhenKeyedBefore(keyOf, fks, n - 1);
      var kf := keyOf(fks[n - 1]);
      if kf.Ok? && kf.value.Some? {
        assert |SimpleKeys(keyOf, fks, n).value| > 0;
        assert KeyedBefore(keyOf, fks, n);
      } else {
        assert SimpleKeys(keyOf, fks, n) == prev;
        if KeyedBefore(keyOf, fks, n) {
          var j :| 0 <= j < n && keyOf(fks[j]).Ok? && keyOf(fks[j]).value.Some?;
          assert j < n - 1;
        }
      }
    }
  }

  lemma {:induction false} KeysWhenKeyed(keyOf: KeyOf, fks: seq<ForeignKey>)
    requires SimpleKeys(keyOf, fks, |fks|).Ok?
    ensures |SimpleKeys(keyOf, fks, |fks|).value| > 0 <==> Keyed(keyOf, fks)
  {
    KeysWhenKeyedBefore(keyOf, fks, |fks|);
  }

  /** Options TRUE and FALSE are offered exactly for a boolean type. */
  lemma {:induction false} BooleanDropdownFirst(s: LayoutState, table: string, column: string, dtype: Option<string>,
                             constraints: Constraints, fks: seq<ForeignKey>, indirect: bool)
    ensures DropdownFor(s, table, column, dtype, constraints, fks, indirect) == Ok(Some(BooleanDropdown)) <==>
      dtype == Some("boolean")
  {
  }

  /**
   * A column that takes part in a foreign key gets that key's range as its
   * dropdown, whatever its enum: the foreign key comes before the enum.
   */
  lemma {:induction false} ForeignKeyBeforeEnum(s: LayoutState, table: string, column: string, dtype: Option<string>,
                             constraints: Constraints, fks: seq<ForeignKey>, indirect: bool)
    requires dtype != Some("boolean") && SimpleKeys(KeysIn(table, column), fks, |fks|).Ok? && Keyed(KeysIn(table, column), fks)
    ensures var r := DropdownFor(s, table, column, dtype, constraints, fks, indirect);
      r.Ok? ==> r.value.Some? && r.value.value.source == ForeignKeySource
  {
    KeysWhenKeyed(KeysIn(table, column), fks);
  }

  /** The enum gives the dropdown only for a column in no foreign key, and there is none only without a truthy enum too. */
  lemma {:induction false} EnumDropdownLast(s: LayoutState, table: string, column: string, dtype: Option<string>,
                         constraints: Constraints, fks: seq<ForeignKey>, indirect: bool)
    requires dtype != Some("boolean") && SimpleKeys(KeysIn(table, column), fks, |fks|).Ok?
    ensures var r := DropdownFor(s, table, column, dtype, constraints, fks, indirect);
      var e := Get(constraints, "enum");
      (r == Ok(None) <==> !Keyed(KeysIn(table, column), fks) && (e.None? || Falsy(e.value))) &&
      (r.Ok? && r.value.Some? && r.value.value.source == EnumSource ==>
        !Keyed(KeysIn(table, column), fks) && e.Some? && !Falsy(e.value) && r.value.value.values == CellRange(EnumRangeOf(s, e.value, indirect).value))
  {
    KeysWhenKeyed(KeysIn(table, column), fks);
  }

  // ---- Column checks ----

  /** The placeholders' values every check formula is formatted with. */
  datatype Defaults = Defaults(col: string, minCol: string, maxCol: string, maxRow: string, ncols: string)

  function Bind(d: Defaults): (b: Bindings)
    ensures Names(b) == {Col, Row, MinCol, MaxCol, MaxRow, NCols}
  {
    var b := [(Col, d.col), (Row, "2"), (MinCol, d.minCol), (MaxCol, d.maxCol), (MaxRow, d.maxRow), (NCols, d.ncols)];
    assert b[0].0 == Col && b[1].0 == Row && b[2].0 == MinCol && b[3].0 == MaxCol && b[4].0 == MaxRow && b[5].0 == NCols;
    b
  }

  /** `b` with one more keyword argument. */
  function With(b: Bindings, name: string, text: string): (r: Bindings)
    ensures Names(r) == Names(b) + {name}
  {
    var r := b + [(name, text)];
    assert r[|b|].0 == name;
    assert forall i | 0 <= i < |b| :: r[i] == b[i];
    r
  }

  /** The `max_row` placeholder: `$` and the row limit, or nothing without one. */
  function MaxRowText(maxRows: Option<int>): string
  {
    if Given(maxRows) then "$" + IntToDecimal(maxRows.value) else ""
  }

  /** The defaults of `gather_column_checks`: the column's code, its table's first and last column codes, the row limit and the column count. */
  function DefaultsOf(s: LayoutState, table: string, column: string): Result<Defaults>
  {
    match FindTable(s.tables, table)
    case Err(e) => Err(e)
    case Ok(t) =>
      match ColumnCodeOf(s, table, column)
      case Err(e) => Err(e)
      case Ok(col) =>
        var cs := t.columns;
        Ok(Defaults(col, ColumnCode(IndexOf(cs, cs[0])), ColumnCode(IndexOf(cs, cs[|cs| - 1])),
                    MaxRowText(s.maxRows), IntToDecimal(|cs|)))
  }

  /** The defaults for a column of a table found by name, spelled out. */
  lemma {:induction false} DefaultsOfListed(s: LayoutState, table: string, t: Table, column: string)
    requires FindTable(s.tables, table) == Ok(t) && column in t.columns
    ensures var cs := t.columns;
      DefaultsOf(s, table, column) ==
        Ok(Defaults(ColumnCode(IndexOf(cs, column)), ColumnCode(IndexOf(cs, cs[0])), ColumnCode(IndexOf(cs, cs[|cs| - 1])),
                    MaxRowText(s.maxRows), IntToDecimal(|cs|)))
  {
    CodeOfListedColumn(s, table, t, column);
  }

  /** In a table whose columns are unique, the defaults span its columns from A to the last one. */
  lemma {:induction false} DefaultsSpanTable(s: LayoutState, table: string, column: string)
    requires TablesValid(s.tables, s.enumSheet, s.maxNameLength)
    requires DefaultsOf(s, table, column).Ok?
    ensures var cs := FindTable(s.tables, table).value.columns;
      var d := DefaultsOf(s, table, column).value;
      d.minCol == "A" && d.maxCol == ColumnCode(|cs| - 1) && d.ncols == IntToDecimal(|cs|) &&
      ColumnCodeToIndex(d.col) == Ok(IndexOf(cs, column))
  {
    var t := FindTable(s.tables, table).value;
    var k := IndexOf(TableNames(s.tables), table);
    assert t == s.tables[k];
    var cs := t.columns;
    assert column in cs;
    EndsOfDistinct(cs);
    ColumnCodeSingleLetters();
    ColumnRoundTrip(IndexOf(cs, column));
  }

  /** In a list without repeats, the first and the last entries are found where they are. */
  lemma {:induction false} EndsOfDistinct(cs: seq<string>)
    requires Distinct(cs) && |cs| > 0
    ensures IndexOf(cs, cs[0]) == 0 && IndexOf(cs, cs[|cs| - 1]) == |cs| - 1
  {
    var last := IndexOf(cs, cs[|cs| - 1]);
    assert cs[last] == cs[|cs| - 1];
  }

  function Pick(t: Template, valid: bool): Tpl
  {
    if valid then t.valid else t.invalid
  }

  /** The templates checks are made from: one per type, one per constraint, and the range template. */
  datatype Catalogue = Catalogue(types: map<string, Template>, constraints: map<string, Template>, inRange: Template)

  /** The catalogue of the layout engine. */
  const Catalog: Catalogue := Catalogue(Types, ConstraintTemplates, InRange)

  /** A range template: both formulas check `{col}{row}` against `{range}`; the message may name `{range}`. */
  predicate RangeShaped(t: Template)
  {
    Placeholders(t.valid) <= CellNames + {"range"} && Placeholders(t.invalid) <= CellNames + {"range"} &&
    Placeholders(t.message) <= {"range"}
  }

  /** Every template of the catalogue uses only the placeholders its checks are formatted with. */
  ghost predicate Shaped(cat: Catalogue)
  {
    (forall k | k in cat.types :: TypeShaped(cat.types[k])) &&
    (forall k | k in cat.constraints :: ConstraintShaped(cat.constraints[k])) &&
    RangeShaped(cat.inRange)
  }

  /** Every template ignores blank cells but the one for `required`. */
  ghost predicate BlankFlags(cat: Catalogue)
  {
    (forall k | k in cat.types :: cat.types[k].ignoreBlank) &&
    "required" in cat.constraints &&
    (forall k | k in cat.constraints :: cat.constraints[k].ignoreBlank <==> k != "required") &&
    cat.inRange.ignoreBlank
  }

  lemma {:induction false} CatalogShaped()
    ensures Shaped(Catalog) && BlankFlags(Catalog)
  {
    TypeCatalogue();
    ConstraintCatalogue();
    InRangeShape();
    OnlyRequiredChecksBlanks();
  }

  /** The catalogue of the layout engine, with the shape the checks rely on. */
  function Builtin(): (cat: Catalogue)
    ensures cat == Catalog && Shaped(cat) && BlankFlags(cat)
  {
    CatalogShaped();
    Catalog
  }

  /** The check for a type in the catalogue; its message is used as it stands. */
  function TypeChecks(cat: Catalogue, dtype: Option<string>, valid: bool, d: Defaults): seq<Check>
    requires Shaped(cat)
  {
    if dtype.Some? && dtype.value in cat.types then
      var t := cat.types[dtype.value];
      [Check(Fill(Pick(t, valid), Bind(d)), Render(t.message), t.ignoreBlank)]
    else []
  }

  /** The check for constraint `key` of value `v`: the formula sees the defaults and the value, the message only the value. */
  function ConstraintCheck(cat: Catalogue, key: string, v: Value, valid: bool, d: Defaults): Check
    requires Shaped(cat) && key in cat.constraints
  {
    var t := cat.constraints[key];
    Check(Fill(Pick(t, valid), With(Bind(d), ValueName, Str(v))), Fill(t.message, With([], ValueName, Str(v))), t.ignoreBlank)
  }

  /** The checks for the first `n` cleaned constraints, skipping those the catalogue does not know. */
  function ConstraintChecks(cat: Catalogue, clean: Constraints, valid: bool, d: Defaults, n: nat): seq<Check>
    requires Shaped(cat) && n <= |clean|
  {
    if n == 0 then []
    else
      var (key, v) := clean[n - 1];
      ConstraintChecks(cat, clean, valid, d, n - 1) + if key in cat.constraints then [ConstraintCheck(cat, key, v, valid, d)] else []
  }

  /** The check that a cell's value is in `range`. */
  function InRangeCheck(cat: Catalogue, valid: bool, d: Defaults, range: string): Check
    requires Shaped(cat)
  {
    var t := cat.inRange;
    Check(Fill(Pick(t, valid), With(Bind(d), RangeName, range)), Fill(t.message, With([], RangeName, range)), t.ignoreBlank)
  }

  /**
   * A type check is `str.format(**defaults)` on its template's text, which
   * cannot fail: the template uses only the defaults' names.
   */
  lemma {:induction false} TypeCheckFormats(cat: Catalogue, dtype: string, valid: bool, d: Defaults)
    requires Shaped(cat) && dtype in cat.types
    ensures var cs := TypeChecks(cat, Some(dtype), valid, d);
      var t := cat.types[dtype];
      |cs| == 1 && Format(Render(Pick(t, valid)), Bind(d)) == Ok(cs[0].formula) &&
      cs[0].message == Render(t.message) && cs[0].ignoreBlank == t.ignoreBlank
  {
    FormatRender(Pick(cat.types[dtype], valid), Bind(d));
  }

  /**
   * A constraint check is `str.format(**defaults, value=str(v))` on its
   * template's formula and `str.format(value=str(v))` on its message; neither
   * can fail.
   */
  lemma {:induction false} ConstraintCheckFormats(cat: Catalogue, key: string, v: Value, valid: bool, d: Defaults)
    requires Shaped(cat) && key in cat.constraints
    ensures var c := ConstraintCheck(cat, key, v, valid, d);
      var t := cat.constraints[key];
      Format(Render(Pick(t, valid)), With(Bind(d), ValueName, Str(v))) == Ok(c.formula) &&
      Format(Render(t.message), With([], ValueName, Str(v))) == Ok(c.message) &&
      c.ignoreBlank == t.ignoreBlank
  {
    var t := cat.constraints[key];
    FormatRender(Pick(t, valid), With(Bind(d), ValueName, Str(v)));
    FormatRender(t.message, With([], ValueName, Str(v)));
  }

  /**
   * A range check is `str.format(**defaults, range=range)` on the range
   * template's formula and `str.format(range=range)` on its message.
   */
  lemma {:induction false} InRangeCheckFormats(cat: Catalogue, valid: bool, d: Defaults, range: string)
    requires Shaped(cat)
    ensures var c := InRangeCheck(cat, valid, d, range);
      Format(Render(Pick(cat.inRange, valid)), With(Bind(d), RangeName, range)) == Ok(c.formula) &&
      Format(Render(cat.inRange.message), With([], RangeName, range)) == Ok(c.message) &&
      c.ignoreBlank == cat.inRange.ignoreBlank
  {
    FormatRender(Pick(cat.inRange, valid), With(Bind(d), RangeName, range));
    FormatRender(cat.inRange.message, With([], RangeName, range));
  }

  function KeysOf(d: Constraints): seq<string>
  {
    seq(|d|, i requires 0 <= i < |d| => d[i].0)
  }

  /** Sets `key` to `v`, where it already is or at the end. */
  function Put(d: Constraints, key: string, v: Value): (r: Constraints)
    ensures KeysOf(r) == if key in KeysOf(d) then KeysOf(d) else KeysOf(d) + [key]
  {
    if key in KeysOf(d) then
      var r := d[IndexOf(KeysOf(d), key) := (key, v)];
      assert KeysOf(r) == KeysOf(d);
      r
    else
      var r := d + [(key, v)];
      assert KeysOf(r) == KeysOf(d) + [key];
      r
  }

  /** The value of `key` in `d`. */
  function ValueAt(d: Constraints, key: string): Value
    requires key in KeysOf(d)
  {
    d[IndexOf(KeysOf(d), key)].1
  }

  /** How a constraint's key is renamed when it is cleaned; the source renames with `CamelToSnake`. */
  type Rename = string -> string

  /** The cleaned constraints: keys renamed, falsy values dropped, a repeated key keeping its place and its last value. */
  function CleanBy(rename: Rename, cs: Constraints): Constraints
  {
    if |cs| == 0 then []
    else
      var rest := CleanBy(rename, cs[..|cs| - 1]);
      var (key, v) := cs[|cs| - 1];
      if Falsy(v) then rest else Put(rest, rename(key), v)
  }

  /** The cleaning of `gather_column_checks`: keys in snake_case. */
  function CleanConstraints(cs: Constraints): Constraints
  {
    CleanBy(CamelToSnake, cs)
  }

  /** Constraint `j` gives the renamed key `key` a truthy value. */
  predicate Gives(rename: Rename, cs: Constraints, j: nat, key: string)
    requires j < |cs|
  {
    rename(cs[j].0) == key && !Falsy(cs[j].1)
  }

  /** The value of the last constraint that gives the renamed key `key` a truthy value. */
  function LastKept(rename: Rename, cs: Constraints, key: string): Option<Value>
  {
    if |cs| == 0 then None
    else if Gives(rename, cs, |cs| - 1, key) then Some(cs[|cs| - 1].1)
    else LastKept(rename, cs[..|cs| - 1], key)
  }

  lemma {:induction false} PutValue(d: Constraints, key: string, v: Value, other: string)
    requires Distinct(KeysOf(d))
    ensures Distinct(KeysOf(Put(d, key, v)))
    ensures ValueAt(Put(d, key, v), key) == v
    ensures other != key && other in KeysOf(d) ==> ValueAt(Put(d, key, v), other) == ValueAt(d, other)
    ensures forall j | 0 <= j < |Put(d, key, v)| :: Put(d, key, v)[j] in d || Put(d, key, v)[j] == (key, v)
  {
    var r := Put(d, key, v);
    if key in KeysOf(d) {
      var i := IndexOf(KeysOf(d), key);
      assert KeysOf(r) == KeysOf(d);
      if other != key && other in KeysOf(d) {
        var k := IndexOf(KeysOf(d), other);
        assert k != i;
      }
      forall j | 0 <= j < |r| ensures r[j] in d || r[j] == (key, v) {
        if j != i {
          assert r[j] == d[j];
        }
      }
    } else {
      assert KeysOf(r) == KeysOf(d) + [key];
      assert KeysOf(r)[|d|] == key;
      if other != key && other in KeysOf(d) {
        var k := IndexOf(KeysOf(d), other);
        assert KeysOf(r)[..k] == KeysOf(d)[..k];
      }
      forall j | 0 <= j < |r| ensures r[j] in d || r[j] == (key, v) {
        if j < |d| {
          assert r[j] == d[j];
        }
      }
    }
  }

  /**
   * Cleaning keeps each snake_case key once, with the value of the last
   * constraint giving it, in the order the keys are first given, and keeps no
   * falsy value: `minimum: 0` is dropped like `required: false`.
   */
  lemma {:induction false} CleanMeaning(rename: Rename, cs: Constraints)
    ensures Distinct(KeysOf(CleanBy(rename, cs)))
    ensures forall j | 0 <= j < |CleanBy(rename, cs)| :: !Falsy(CleanBy(rename, cs)[j].1)
    ensures forall key :: key in KeysOf(CleanBy(rename, cs)) <==> LastKept(rename, cs, key).Some?
    ensures forall key | key in KeysOf(CleanBy(rename, cs)) :: ValueAt(CleanBy(rename, cs), key) == LastKept(rename, cs, key).value
    ensures var keys := KeysOf(CleanBy(rename, cs));
      forall a, c :: 0 <= a < c < |keys| ==> GivenBefore(rename, cs, |cs|, keys[a], keys[c])
  {
    CleanOrder(rename, cs);
    CleanDistinct(rename, cs);
    CleanTruthy(rename, cs);
    CleanKeys(rename, cs);
    CleanValues(rename, cs);
  }

  /** No key is kept twice. */
  lemma {:induction false} CleanDistinct(rename: Rename, cs: Constraints)
    ensures Distinct(KeysOf(CleanBy(rename, cs)))
  {
    if |cs| > 0 {
      var ps := cs[..|cs| - 1];
      CleanDistinct(rename, ps);
      var (key, v) := cs[|cs| - 1];
      if !Falsy(v) {
        PutValue(CleanBy(rename, ps), rename(key), v, key);
      }
    }
  }

  /** No falsy value is kept. */
  lemma {:induction false} CleanTruthy(rename: Rename, cs: Constraints)
    ensures forall j | 0 <= j < |CleanBy(rename, cs)| :: !Falsy(CleanBy(rename, cs)[j].1)
  {
    if |cs| > 0 {
      var ps := cs[..|cs| - 1];
      CleanTruthy(rename, ps);
      CleanDistinct(rename, ps);
      var rest := CleanBy(rename, ps);
      var (key, v) := cs[|cs| - 1];
      if !Falsy(v) {
        var k := rename(key);
        var r := Put(rest, k, v);
        PutValue(rest, k, v, k);
        forall j | 0 <= j < |r| ensures !Falsy(r[j].1) {
          if r[j] in rest {
            var i :| 0 <= i < |rest| && rest[i] == r[j];
          }
        }
      }
    }
  }

  /** A key is kept exactly when some constraint gives it a truthy value. */
  lemma {:induction false} CleanKeys(rename: Rename, cs: Constraints)
    ensures forall key :: key in KeysOf(CleanBy(rename, cs)) <==> LastKept(rename, cs, key).Some?
  {
    if |cs| > 0 {
      CleanKeys(rename, cs[..|cs| - 1]);
    }
  }

  /** A kept key holds the last truthy value given to it. */
  lemma {:induction false} CleanValues(rename: Rename, cs: Constraints)
    ensures forall key | key in KeysOf(CleanBy(rename, cs)) :: LastKept(rename, cs, key) == Some(ValueAt(CleanBy(rename, cs), key))
  {
    if |cs| > 0 {
      var ps := cs[..|cs| - 1];
      CleanValues(rename, ps);
      CleanKeys(rename, ps);
      CleanDistinct(rename, ps);
      var rest := CleanBy(rename, ps);
      var (key, v) := cs[|cs| - 1];
      if !Falsy(v) {
        var k := rename(key);
        forall other | other in KeysOf(Put(rest, k, v))
          ensures LastKept(rename, cs, other) == Some(ValueAt(Put(rest, k, v), other))
        {
          PutValue(rest, k, v, other);
        }
      }
    }
  }

  /** Among the first `n` constraints, one gives `k` a truthy value before any gives `l` one. */
  ghost predicate GivenBefore(rename: Rename, cs: Constraints, n: nat, k: string, l: string)
    requires n <= |cs|
  {
    exists j :: 0 <= j < n && Gives(rename, cs, j, k) && forall j2 :: 0 <= j2 <= j ==> !Gives(rename, cs, j2, l)
  }

  lemma {:induction false} GivenBeforeGrows(rename: Rename, cs: Constraints, n: nat, k: string, l: string)
    requires n < |cs| && GivenBefore(rename, cs, n, k, l)
    ensures GivenBefore(rename, cs, n + 1, k, l)
  {
    var j :| 0 <= j < n && Gives(rename, cs, j, k) && forall j2 :: 0 <= j2 <= j ==> !Gives(rename, cs, j2, l);
  }

  /** A key has a last truthy value among the first `n` constraints exactly when one of them gives it one. */
  lemma {:induction false} LastKeptGiven(rename: Rename, cs: Constraints, n: nat, key: string)
    requires n <= |cs|
    ensures LastKept(rename, cs[..n], key).Some? <==> exists j :: 0 <= j < n && Gives(rename, cs, j, key)
  {
    if LastKept(rename, cs[..n], key).Some? {
      KeptIsGiven(rename, cs, n, key);
    }
    forall j | 0 <= j < n && Gives(rename, cs, j, key) ensures LastKept(rename, cs[..n], key).Some? {
      GivenIsKept(rename, cs, n, j, key);
    }
  }

  lemma {:induction false} GivenIsKept(rename: Rename, cs: Constraints, n: nat, j: nat, key: string)
    requires j < n <= |cs| && Gives(rename, cs, j, key)
    ensures LastKept(rename, cs[..n], key).Some?
  {
    var p := cs[..n];
    assert p[..n - 1] == cs[..n - 1] && p[n - 1] == cs[n - 1];
    if Gives(rename, p, n - 1, key) {
      assert LastKept(rename, p, key).Some?;
    } else {
      assert j != n - 1;
      GivenIsKept(rename, cs, n - 1, j, key);
      assert LastKept(rename, p, key) == LastKept(rename, cs[..n - 1], key);
    }
  }

  lemma {:induction false} KeptIsGiven(rename: Rename, cs: Constraints, n: nat, key: string)
    requires n <= |cs| && LastKept(rename, cs[..n], key).Some?
    ensures exists j :: 0 <= j < n && Gives(rename, cs, j, key)
  {
    var p := cs[..n];
    assert p[..n - 1] == cs[..n - 1] && p[n - 1] == cs[n - 1];
    if Gives(rename, p, n - 1, key) {
      assert Gives(rename, cs, n - 1, key);
    } else {
      KeptIsGiven(rename, cs, n - 1, key);
    }
  }

  /**
   * The keys cleaned from the first `n` constraints keep the order in which
   * those constraints first give them a truthy value.
   */
  lemma {:induction false} CleanOrderUpTo(rename: Rename, cs: Constraints, n: nat)
    requires n <= |cs|
    ensures forall a, c :: 0 <= a < c < |KeysOf(CleanBy(rename, cs[..n]))| ==>
      GivenBefore(rename, cs, n, KeysOf(CleanBy(rename, cs[..n]))[a], KeysOf(CleanBy(rename, cs[..n]))[c])
  {
    if n > 0 {
      var p := cs[..n];
      assert p[..n - 1] == cs[..n - 1] && p[n - 1] == cs[n - 1];
      CleanOrderUpTo(rename, cs, n - 1);
      var keys := KeysOf(CleanBy(rename, cs[..n - 1]));
      assert forall a, c :: 0 <= a < c < |keys| ==> GivenBefore(rename, cs, n - 1, keys[a], keys[c]);
      forall a, c | 0 <= a < c < |keys| ensures GivenBefore(rename, cs, n, keys[a], keys[c]) {
        GivenBeforeGrows(rename, cs, n - 1, keys[a], keys[c]);
      }
      var k := rename(cs[n - 1].0);
      if !Falsy(cs[n - 1].1) && k !in keys {
        var keys2 := keys + [k];
        assert KeysOf(CleanBy(rename, p)) == keys2;
        CleanKeys(rename, cs[..n - 1]);
        LastKeptGiven(rename, cs, n - 1, k);
        assert Gives(rename, cs, n - 1, k);
        forall a | 0 <= a < |keys| ensures GivenBefore(rename, cs, n, keys2[a], k) {
          assert keys2[a] == keys[a] && keys[a] in keys;
          LastKeptGiven(rename, cs, n - 1, keys[a]);
          var j :| 0 <= j < n - 1 && Gives(rename, cs, j, keys[a]);
        }
        forall a, c | 0 <= a < c < |keys2| ensures GivenBefore(rename, cs, n, keys2[a], keys2[c]) {
          if c < |keys| {
            assert keys2[a] == keys[a] && keys2[c] == keys[c];
          }
        }
      }
    }
  }

  /**
   * Cleaned keys come in the order in which the constraints first give them a
   * truthy value, as a Python dict keeps the order of first insertion.
   */
  lemma {:induction false} CleanOrder(rename: Rename, cs: Constraints)
    ensures var keys := KeysOf(CleanBy(rename, cs));
      forall a, c :: 0 <= a < c < |keys| ==> GivenBefore(rename, cs, |cs|, keys[a], keys[c])
  {
    CleanOrderUpTo(rename, cs, |cs|);
    assert cs[..|cs|] == cs;
  }

  /** The range of the enum check, when the cleaned constraints hold an `enum`. */
  function EnumRanges(s: LayoutState, clean: Constraints, indirect: bool): (r: Result<seq<string>>)
    ensures r.Ok? ==> |r.value| == if "enum" in KeysOf(clean) then 1 else 0
  {
    if "enum" in KeysOf(clean) then
      match EnumRangeOf(s, ValueAt(clean, "enum"), indirect)
      case Err(e) => Err(e)
      case Ok(range) => Ok([range])
    else Ok([])
  }

  /** What gives a simple key the range its values must come from. */
  type RangeOf = SimpleKey -> Result<string>

  /** A simple key's range in state `s`, as a function value. */
  function RangeIn(s: LayoutState, table: string, indirect: bool): RangeOf
  {
    key => KeyRange(s, table, key, indirect)
  }

  /** The ranges of the foreign-key checks for the first `n` foreign keys, `rangeOf` giving each simple key its range: one per key the column takes part in, repeats included. */
  function KeyRanges(keyOf: KeyOf, rangeOf: RangeOf, fks: seq<ForeignKey>, n: nat): Result<seq<string>>
    requires n <= |fks|
  {
    if n == 0 then Ok([])
    else match KeyRanges(keyOf, rangeOf, fks, n - 1)
      case Err(e) => Err(e)
      case Ok(rs) => KeyStep(keyOf, rangeOf, fks[n - 1], rs)
  }

  /** `rs` followed by the range of the simple key `fk` gives the column, if any. */
  function KeyStep(keyOf: KeyOf, rangeOf: RangeOf, fk: ForeignKey, rs: seq<string>): Result<seq<string>>
  {
    match keyOf(fk)
    case Err(e) => Err(e)
    case Ok(None) => Ok(rs)
    case Ok(Some(key)) =>
      match rangeOf(key)
      case Err(e) => Err(e)
      case Ok(range) => Ok(rs + [range])
  }

  /** Once the foreign-key ranges fail, every longer prefix fails with the same error. */
  lemma {:induction false} KeyRangesErrorStays(keyOf: KeyOf, rangeOf: RangeOf,
                                              fks: seq<ForeignKey>, m: nat, n: nat)
    requires m <= n <= |fks|
    requires KeyRanges(keyOf, rangeOf, fks, m).Err?
    ensures KeyRanges(keyOf, rangeOf, fks, n) == KeyRanges(keyOf, rangeOf, fks, m)
  {
    if m < n {
      KeyRangesErrorStays(keyOf, rangeOf, fks, m, n - 1);
    }
  }

  /** The range checks for `ranges`, in order. */
  function RangeChecks(cat: Catalogue, valid: bool, d: Defaults, ranges: seq<string>): (r: seq<Check>)
    requires Shaped(cat)
    ensures |r| == |ranges|
  {
    seq(|ranges|, i requires 0 <= i < |ranges| => InRangeCheck(cat, valid, d, ranges[i]))
  }

  /** `gather_column_checks`: the type check, the constraint checks in order, the enum check, the foreign-key checks. */
  function ColumnChecks(cat: Catalogue, s: LayoutState, table: string, column: string, valid: bool, dtype: Option<string>,
                        constraints: Constraints, fks: seq<ForeignKey>, indirect: bool): Result<seq<Check>>
    requires Shaped(cat)
  {
    match DefaultsOf(s, table, column)
    case Err(e) => Err(e)
    case Ok(d) =>
      var clean := CleanConstraints(constraints);
      match EnumRanges(s, clean, indirect)
      case Err(e) => Err(e)
      case Ok(er) =>
        match KeyRanges(KeysIn(table, column), RangeIn(s, table, indirect), fks, |fks|)
        case Err(e) => Err(e)
        case Ok(kr) =>
          Ok(TypeChecks(cat, dtype, valid, d) + ConstraintChecks(cat, clean, valid, d, |clean|) + RangeChecks(cat, valid, d, er + kr))
  }

  /** The number of the first `n` foreign keys among whose fields the column is. */
  function Involving(fks: seq<ForeignKey>, column: string, n: nat): nat
    requires n <= |fks|
  {
    if n == 0 then 0
    else Involving(fks, column, n - 1) + if column in ToList(fks[n - 1].fields) then 1 else 0
  }

  /** There is one foreign-key check per foreign key the column takes part in: repeats are not merged. */
  lemma {:induction false} KeyRangesCount(rangeOf: RangeOf, table: string, column: string,
                                          fks: seq<ForeignKey>, n: nat)
    requires n <= |fks|
    requires KeyRanges(KeysIn(table, column), rangeOf, fks, n).Ok?
    ensures |KeyRanges(KeysIn(table, column), rangeOf, fks, n).value| == Involving(fks, column, n)
  {
    if n > 0 {
      KeyRangesCount(rangeOf, table, column, fks, n - 1);
      KeyForMeaning(fks[n - 1], table, column);
    }
  }

  /** A foreign key given twice is checked twice, though it reduces to one simple key. */
  lemma {:induction false} RepeatedKeyChecked(keyOf: KeyOf, rangeOf: RangeOf,
                                              fk: ForeignKey, range: string)
    requires KeyRanges(keyOf, rangeOf, [fk], 1) == Ok([range])
    ensures KeyRanges(keyOf, rangeOf, [fk, fk], 2) == Ok([range, range])
    ensures SimpleKeys(keyOf, [fk, fk], 2) == SimpleKeys(keyOf, [fk], 1)
  {
    assert [fk, fk][0] == fk && [fk, fk][1] == fk && [fk][0] == fk;
    var kf := keyOf(fk);
    assert KeyRanges(keyOf, rangeOf, [fk], 0) == Ok([]);
    assert kf.Ok? && kf.value.Some?;
    var kr := rangeOf(kf.value.value);
    assert kr.Ok? && [] + [kr.value] == [range];
    assert kr.value == ([] + [kr.value])[0];
    assert KeyRanges(keyOf, rangeOf, [fk, fk], 1) == Ok([range]);
    assert [range] + [range] == [range, range];
    var k := kf.value.value;
    assert SimpleKeys(keyOf, [fk], 0) == Ok([]) && SimpleKeys(keyOf, [fk, fk], 0) == Ok([]);
    assert [] + [k] == [k] && k in [k];
    assert SimpleKeys(keyOf, [fk], 1) == Ok([k]);
    assert SimpleKeys(keyOf, [fk, fk], 1) == Ok([k]);
  }

  /** No simple key among the first `m` foreign keys means no check from them either. */
  lemma {:induction false} NoKeysNoRanges(keyOf: KeyOf, rangeOf: RangeOf,
                                          fks: seq<ForeignKey>, m: nat)
    requires m <= |fks| && SimpleKeys(keyOf, fks, m) == Ok([])
    ensures KeyRanges(keyOf, rangeOf, fks, m) == Ok([])
  {
    if m > 0 {
      match SimpleKeys(keyOf, fks, m - 1)
      case Err(e) =>
      case Ok(keys) =>
        NoKeysNoRanges(keyOf, rangeOf, fks, m - 1);
    }
  }

  /** The first foreign-key check checks against the range of the first simple key. */
  lemma {:induction false} FirstKeyRange(keyOf: KeyOf, rangeOf: RangeOf,
                                         fks: seq<ForeignKey>, n: nat)
    requires n <= |fks|
    requires SimpleKeys(keyOf, fks, n).Ok? && |SimpleKeys(keyOf, fks, n).value| > 0
    requires KeyRanges(keyOf, rangeOf, fks, n).Ok?
    ensures var key := SimpleKeys(keyOf, fks, n).value[0];
      var rs := KeyRanges(keyOf, rangeOf, fks, n).value;
      |rs| > 0 && rangeOf(key) == Ok(rs[0])
  {
    var keys := SimpleKeys(keyOf, fks, n - 1).value;
    var rs := KeyRanges(keyOf, rangeOf, fks, n - 1).value;
    var kf := keyOf(fks[n - 1]);
    if |keys| > 0 {
      FirstKeyRange(keyOf, rangeOf, fks, n - 1);
      assert SimpleKeys(keyOf, fks, n).value[0] == keys[0];
      assert KeyRanges(keyOf, rangeOf, fks, n).value[0] == rs[0];
    } else {
      NoKeysNoRanges(keyOf, rangeOf, fks, n - 1);
      assert kf.Ok? && kf.value.Some?;
      assert SimpleKeys(keyOf, fks, n).value == [kf.value.value];
    }
  }

  /** A dropdown from a foreign key offers the range of the first simple key. */
  lemma {:induction false} KeyDropdownRange(s: LayoutState, table: string, column: string, dtype: Option<string>,
                         constraints: Constraints, fks: seq<ForeignKey>, indirect: bool, range: string)
    requires DropdownFor(s, table, column, dtype, constraints, fks, indirect) == Ok(Some(Dropdown(CellRange(range), ForeignKeySource)))
    ensures SimpleKeys(KeysIn(table, column), fks, |fks|).Ok? && |SimpleKeys(KeysIn(table, column), fks, |fks|).value| > 0
    ensures KeyRange(s, table, SimpleKeys(KeysIn(table, column), fks, |fks|).value[0], indirect) == Ok(range)
  {
  }

  /** The range check for each of `ranges` is among the range checks. */
  lemma {:induction false} RangeCheckAmong(cat: Catalogue, valid: bool, d: Defaults, ranges: seq<string>, i: nat)
    requires Shaped(cat) && i < |ranges|
    ensures InRangeCheck(cat, valid, d, ranges[i]) in RangeChecks(cat, valid, d, ranges)
  {
    assert RangeChecks(cat, valid, d, ranges)[i] == InRangeCheck(cat, valid, d, ranges[i]);
  }

  /**
   * A dropdown from a foreign key offers the very range the column's first
   * foreign-key check enforces.
   */
  lemma {:induction false} DropdownMatchesKeyCheck(cat: Catalogue, s: LayoutState, table: string, column: string, valid: bool, dtype: Option<string>,
                                constraints: Constraints, fks: seq<ForeignKey>, indirect: bool, range: string)
    requires Shaped(cat)
    requires DropdownFor(s, table, column, dtype, constraints, fks, indirect) == Ok(Some(Dropdown(CellRange(range), ForeignKeySource)))
    requires ColumnChecks(cat, s, table, column, valid, dtype, constraints, fks, indirect).Ok?
    ensures InRangeCheck(cat, valid, DefaultsOf(s, table, column).value, range) in ColumnChecks(cat, s, table, column, valid, dtype, constraints, fks, indirect).value
  {
    var d := DefaultsOf(s, table, column).value;
    var clean := CleanConstraints(constraints);
    KeyDropdownRange(s, table, column, dtype, constraints, fks, indirect, range);
    FirstKeyRange(KeysIn(table, column), RangeIn(s, table, indirect), fks, |fks|);
    var er := EnumRanges(s, clean, indirect).value;
    var kr := KeyRanges(KeysIn(table, column), RangeIn(s, table, indirect), fks, |fks|).value;
    assert (er + kr)[|er|] == range;
    RangeCheckAmong(cat, valid, d, er + kr, |er|);
    var head := TypeChecks(cat, dtype, valid, d) + ConstraintChecks(cat, clean, valid, d, |clean|);
    assert ColumnChecks(cat, s, table, column, valid, dtype, constraints, fks, indirect).value == head + RangeChecks(cat, valid, d, er + kr);
  }

  /** Some check does not ignore blank cells. */
  predicate SeesBlank(cs: seq<Check>)
  {
    exists i :: 0 <= i < |cs| && !cs[i].ignoreBlank
  }

  lemma {:induction false} SeesBlankConcat(a: seq<Check>, b: seq<Check>)
    ensures SeesBlank(a + b) <==> SeesBlank(a) || SeesBlank(b)
  {
    if SeesBlank(a + b) {
      var i :| 0 <= i < |a + b| && !(a + b)[i].ignoreBlank;
      if i >= |a| {
        assert b[i - |a|] == (a + b)[i];
      } else {
        assert a[i] == (a + b)[i];
      }
    }
    if SeesBlank(a) {
      var i :| 0 <= i < |a| && !a[i].ignoreBlank;
      assert (a + b)[i] == a[i];
    }
    if SeesBlank(b) {
      var i :| 0 <= i < |b| && !b[i].ignoreBlank;
      assert (a + b)[|a| + i] == b[i];
    }
  }

  /** Range checks always ignore blank cells, and neither does a type check. */
  lemma {:induction false} RangeAndTypeChecksIgnoreBlanks(cat: Catalogue, valid: bool, d: Defaults, ranges: seq<string>, dtype: Option<string>)
    requires Shaped(cat) && BlankFlags(cat)
    ensures !SeesBlank(RangeChecks(cat, valid, d, ranges))
    ensures !SeesBlank(TypeChecks(cat, dtype, valid, d))
  {
  }

  /** The check a cleaned constraint adds: one exactly when the catalogue knows its key. */
  function CheckOf(cat: Catalogue, entry: (string, Value), valid: bool, d: Defaults): seq<Check>
    requires Shaped(cat)
  {
    if entry.0 in cat.constraints then [ConstraintCheck(cat, entry.0, entry.1, valid, d)] else []
  }

  lemma {:induction false} ConstraintChecksStep(cat: Catalogue, clean: Constraints, valid: bool, d: Defaults, n: nat)
    requires Shaped(cat) && 0 < n <= |clean|
    ensures ConstraintChecks(cat, clean, valid, d, n) == ConstraintChecks(cat, clean, valid, d, n - 1) + CheckOf(cat, clean[n - 1], valid, d)
  {
  }

  /** Of the constraint checks, only the one for `required` looks at blank cells. */
  lemma {:induction false} CheckOfSeesBlank(cat: Catalogue, entry: (string, Value), valid: bool, d: Defaults)
    requires Shaped(cat) && BlankFlags(cat)
    ensures SeesBlank(CheckOf(cat, entry, valid, d)) <==> entry.0 == "required"
  {
    if entry.0 in cat.constraints {
      assert CheckOf(cat, entry, valid, d)[0].ignoreBlank == cat.constraints[entry.0].ignoreBlank;
    }
  }

  lemma {:induction false} KeysOfStep(clean: Constraints, n: nat)
    requires 0 < n <= |clean|
    ensures KeysOf(clean)[..n] == KeysOf(clean)[..n - 1] + [clean[n - 1].0]
  {
  }

  /** The flags of the constraint checks: only `required` does not ignore blanks. */
  lemma {:induction false} ConstraintFlags(cat: Catalogue, clean: Constraints, valid: bool, d: Defaults, n: nat)
    requires Shaped(cat) && BlankFlags(cat) && n <= |clean|
    ensures SeesBlank(ConstraintChecks(cat, clean, valid, d, n)) <==> "required" in KeysOf(clean)[..n]
  {
    if n > 0 {
      ConstraintFlags(cat, clean, valid, d, n - 1);
      ConstraintChecksStep(cat, clean, valid, d, n);
      SeesBlankConcat(ConstraintChecks(cat, clean, valid, d, n - 1), CheckOf(cat, clean[n - 1], valid, d));
      CheckOfSeesBlank(cat, clean[n - 1], valid, d);
      KeysOfStep(clean, n);
    }
  }

  /** Exactly the `required` constraint makes a check that does not ignore blank cells. */
  lemma {:induction false} RequiredOnlyBlankCheck(cat: Catalogue, s: LayoutState, table: string, column: string, valid: bool, dtype: Option<string>,
                               constraints: Constraints, fks: seq<ForeignKey>, indirect: bool)
    requires Shaped(cat) && BlankFlags(cat)
    requires ColumnChecks(cat, s, table, column, valid, dtype, constraints, fks, indirect).Ok?
    ensures SeesBlank(ColumnChecks(cat, s, table, column, valid, dtype, constraints, fks, indirect).value) <==>
      LastKept(CamelToSnake, constraints, "required").Some?
  {
    var d := DefaultsOf(s, table, column).value;
    var clean := CleanConstraints(constraints);
    CleanMeaning(CamelToSnake, constraints);
    ConstraintFlags(cat, clean, valid, d, |clean|);
    assert KeysOf(clean)[..|clean|] == KeysOf(clean);
    var er := EnumRanges(s, clean, indirect).value;
    var kr := KeyRanges(KeysIn(table, column), RangeIn(s, table, indirect), fks, |fks|).value;
    var tc := TypeChecks(cat, dtype, valid, d);
    var cc := ConstraintChecks(cat, clean, valid, d, |clean|);
    RangeAndTypeChecksIgnoreBlanks(cat, valid, d, er + kr, dtype);
    SeesBlankConcat(tc, cc);
    SeesBlankConcat(tc + cc, RangeChecks(cat, valid, d, er + kr));
  }

  /** The number of `keys` the catalogue has a constraint template for. */
  function Known(cat: Catalogue, keys: seq<string>): nat
  {
    if |keys| == 0 then 0 else Known(cat, keys[..|keys| - 1]) + if keys[|keys| - 1] in cat.constraints then 1 else 0
  }

  /** One constraint check per cleaned key the catalogue knows. */
  lemma {:induction false} ConstraintChecksCount(cat: Catalogue, clean: Constraints, valid: bool, d: Defaults, n: nat)
    requires Shaped(cat) && n <= |clean|
    ensures |ConstraintChecks(cat, clean, valid, d, n)| == Known(cat, KeysOf(clean)[..n])
  {
    if n > 0 {
      ConstraintChecksCount(cat, clean, valid, d, n - 1);
      ConstraintChecksStep(cat, clean, valid, d, n);
      KeysOfStep(clean, n);
      assert KeysOf(clean)[..n][..n - 1] == KeysOf(clean)[..n - 1];
    }
  }

  /**
   * The checks of a column come in four runs: at most one type check, then
   * one check per cleaned constraint the catalogue knows, then one enum check
   * when an enum is given, then one check per foreign key among whose fields
   * the column is.
   */
  lemma {:induction false} ChecksCount(cat: Catalogue, s: LayoutState, table: string, column: string, valid: bool, dtype: Option<string>,
                                       constraints: Constraints, fks: seq<ForeignKey>, indirect: bool)
    requires Shaped(cat)
    requires ColumnChecks(cat, s, table, column, valid, dtype, constraints, fks, indirect).Ok?
    ensures var checks := ColumnChecks(cat, s, table, column, valid, dtype, constraints, fks, indirect).value;
      var clean := CleanConstraints(constraints);
      var d := DefaultsOf(s, table, column).value;
      var nt := if dtype.Some? && dtype.value in cat.types then 1 else 0;
      var nc := Known(cat, KeysOf(clean));
      var ne := if "enum" in KeysOf(clean) then 1 else 0;
      |checks| == nt + nc + ne + Involving(fks, column, |fks|) &&
      checks[..nt] == TypeChecks(cat, dtype, valid, d) &&
      checks[nt..nt + nc] == ConstraintChecks(cat, clean, valid, d, |clean|)
  {
    var d := DefaultsOf(s, table, column).value;
    var clean := CleanConstraints(constraints);
    var er := EnumRanges(s, clean, indirect).value;
    var kr := KeyRanges(KeysIn(table, column), RangeIn(s, table, indirect), fks, |fks|).value;
    var tc := TypeChecks(cat, dtype, valid, d);
    var cc := ConstraintChecks(cat, clean, valid, d, |clean|);
    var rc := RangeChecks(cat, valid, d, er + kr);
    ConstraintChecksCount(cat, clean, valid, d, |clean|);
    assert KeysOf(clean)[..|clean|] == KeysOf(clean);
    KeyRangesCount(RangeIn(s, table, indirect), table, column, fks, |fks|);
    Runs(tc, cc, rc);
  }

  /** When an enum is given, its check comes straight after the type and constraint checks. */
  lemma {:induction false} EnumCheckPlace(cat: Catalogue, s: LayoutState, table: string, column: string, valid: bool, dtype: Option<string>,
                                          constraints: Constraints, fks: seq<ForeignKey>, indirect: bool)
    requires Shaped(cat)
    requires ColumnChecks(cat, s, table, column, valid, dtype, constraints, fks, indirect).Ok?
    requires "enum" in KeysOf(CleanConstraints(constraints))
    ensures var checks := ColumnChecks(cat, s, table, column, valid, dtype, constraints, fks, indirect).value;
      var clean := CleanConstraints(constraints);
      var p := |TypeChecks(cat, dtype, valid, DefaultsOf(s, table, column).value)| + Known(cat, KeysOf(clean));
      p < |checks| &&
      checks[p] == InRangeCheck(cat, valid, DefaultsOf(s, table, column).value, EnumRangeOf(s, ValueAt(clean, "enum"), indirect).value)
  {
    var d := DefaultsOf(s, table, column).value;
    var clean := CleanConstraints(constraints);
    var er := EnumRanges(s, clean, indirect).value;
    var kr := KeyRanges(KeysIn(table, column), RangeIn(s, table, indirect), fks, |fks|).value;
    var tc := TypeChecks(cat, dtype, valid, d);
    var cc := ConstraintChecks(cat, clean, valid, d, |clean|);
    var rc := RangeChecks(cat, valid, d, er + kr);
    ConstraintChecksCount(cat, clean, valid, d, |clean|);
    assert KeysOf(clean)[..|clean|] == KeysOf(clean);
    assert rc[0] == InRangeCheck(cat, valid, d, er[0]);
    Runs(tc, cc, rc);
  }

  /** Where each of three concatenated runs sits in the whole. */
  lemma Runs<T>(a: seq<T>, b: seq<T>, c: seq<T>)
    ensures (a + b + c)[..|a|] == a && (a + b + c)[|a|..|a| + |b|] == b
    ensures |c| > 0 ==> (a + b + c)[|a| + |b|] == c[0]
  {
  }

  // ---- Packages ----

  /** A field of a table schema: its name and its constraints. */
  datatype SchemaField = SchemaField(name: string, constraints: Constraints)

  /** A resource of a data package: its name and its schema's fields. */
  datatype Resource = Resource(name: string, fields: seq<SchemaField>)

  function FieldNames(fs: seq<SchemaField>): seq<string>
  {
    seq(|fs|, i requires 0 <= i < |fs| => fs[i].name)
  }

  /** A field's enum values, when its `enum` constraint is a non-empty list. */
  function EnumOf(f: SchemaField): Option<seq<Value>>
  {
    match Get(f.constraints, "enum")
    case Some(VList(xs)) => if |xs| > 0 then Some(xs) else None
    case _ => None
  }

  /** The enums after those of the first `n` fields are added. */
  function FieldEnums(es: seq<Enum>, fs: seq<SchemaField>, n: nat): seq<Enum>
    requires n <= |fs|
  {
    if n == 0 then es
    else
      var prev := FieldEnums(es, fs, n - 1);
      match EnumOf(fs[n - 1])
      case None => prev
      case Some(xs) => AddEnum(prev, xs)
  }

  /** `from_package`: the layout after setting the first `n` resources' tables and their fields' enums. */
  function PackageLayout(s: LayoutState, rs: seq<Resource>, n: nat): Result<LayoutState>
    requires n <= |rs|
  {
    if n == 0 then Ok(s)
    else match PackageLayout(s, rs, n - 1)
      case Err(e) => Err(e)
      case Ok(p) =>
        var r := rs[n - 1];
        match AddTableOutcome(p, r.name, FieldNames(r.fields), None)
        case Fail(e) => Err(e)
        case Pass =>
          Ok(p.(tables := p.tables + [Table(r.name, r.name, FieldNames(r.fields))],
                enums := FieldEnums(p.enums, r.fields, |r.fields|)))
  }

  lemma {:induction false} PackageStep(s: LayoutState, rs: seq<Resource>, n: nat, p: LayoutState)
    requires n < |rs| && PackageLayout(s, rs, n) == Ok(p)
    ensures var r := rs[n];
      var o := AddTableOutcome(p, r.name, FieldNames(r.fields), None);
      PackageLayout(s, rs, n + 1) ==
        if o.Fail? then Err(o.error)
        else Ok(p.(tables := p.tables + [Table(r.name, r.name, FieldNames(r.fields))],
                  enums := FieldEnums(p.enums, r.fields, |r.fields|)))
  {
  }

  lemma {:induction false} FieldEnumsKeepValid(es: seq<Enum>, fs: seq<SchemaField>, n: nat)
    requires n <= |fs| && EnumsValid(es)
    ensures EnumsValid(FieldEnums(es, fs, n))
  {
    if n > 0 {
      FieldEnumsKeepValid(es, fs, n - 1);
      if EnumOf(fs[n - 1]).Some? {
        AddEnumKeepsValid(FieldEnums(es, fs, n - 1), EnumOf(fs[n - 1]).value);
      }
    }
  }

  /** A package laid out from valid settings gives a valid layout with one table per resource, in order. */
  lemma {:induction false} PackageLayoutValid(s: LayoutState, rs: seq<Resource>, n: nat)
    requires n <= |rs|
    requires TablesValid(s.tables, s.enumSheet, s.maxNameLength) && EnumsValid(s.enums)
    ensures PackageLayout(s, rs, n).Ok? ==>
      var p := PackageLayout(s, rs, n).value;
      TablesValid(p.tables, p.enumSheet, p.maxNameLength) && EnumsValid(p.enums) &&
      |p.tables| == |s.tables| + n &&
      (forall i | 0 <= i < n :: p.tables[|s.tables| + i] == Table(rs[i].name, rs[i].name, FieldNames(rs[i].fields))) &&
      p.enumSheet == s.enumSheet && p.maxRows == s.maxRows && p.maxNameLength == s.maxNameLength
  {
    PackageStaysValid(s, rs, n);
    PackageTables(s, rs, n);
  }

  /** Laying out a package from valid settings keeps the tables and enums valid and the settings as they were. */
  lemma {:induction false} PackageStaysValid(s: LayoutState, rs: seq<Resource>, n: nat)
    requires n <= |rs|
    requires TablesValid(s.tables, s.enumSheet, s.maxNameLength) && EnumsValid(s.enums)
    ensures PackageLayout(s, rs, n).Ok? ==>
      var p := PackageLayout(s, rs, n).value;
      TablesValid(p.tables, p.enumSheet, p.maxNameLength) && EnumsValid(p.enums) &&
      p.enumSheet == s.enumSheet && p.maxRows == s.maxRows && p.maxNameLength == s.maxNameLength
  {
    if n > 0 {
      PackageStaysValid(s, rs, n - 1);
      match PackageLayout(s, rs, n - 1)
      case Err(e) =>
      case Ok(p) =>
        var r := rs[n - 1];
        if AddTableOutcome(p, r.name, FieldNames(r.fields), None) == Pass {
          AddTableKeepsValid(p, r.name, FieldNames(r.fields), None);
          FieldEnumsKeepValid(p.enums, r.fields, |r.fields|);
        }
    }
  }

  /** Laying out a package appends one table per resource, in order, named after it and listing its fields. */
  lemma {:induction false} PackageTables(s: LayoutState, rs: seq<Resource>, n: nat)
    requires n <= |rs|
    ensures PackageLayout(s, rs, n).Ok? ==>
      var p := PackageLayout(s, rs, n).value;
      |p.tables| == |s.tables| + n &&
      forall i | 0 <= i < n :: p.tables[|s.tables| + i] == Table(rs[i].name, rs[i].name, FieldNames(rs[i].fields))
  {
    if n > 0 {
      PackageTables(s, rs, n - 1);
      match PackageLayout(s, rs, n - 1)
      case Err(e) =>
      case Ok(p) =>
        var r := rs[n - 1];
        if AddTableOutcome(p, r.name, FieldNames(r.fields), None) == Pass {
          var q := PackageLayout(s, rs, n).value;
          assert q.tables == p.tables + [Table(r.name, r.name, FieldNames(r.fields))];
          forall i | 0 <= i < n ensures q.tables[|s.tables| + i] == Table(rs[i].name, rs[i].name, FieldNames(rs[i].fields)) {
            if i < n - 1 {
              assert q.tables[|s.tables| + i] == p.tables[|s.tables| + i];
            }
          }
        }
    }
  }

  // ---- The layout object ----

  class Layout {
    var tables: seq<Table>
    var enums: seq<Enum>
    var enumSheet: string
    var maxRows: Option<int>
    var maxNameLength: Option<int>

    function State(): LayoutState
      reads this
    {
      LayoutState(tables, enums, enumSheet, maxRows, maxNameLength)
    }

    ghost predicate Valid()
      reads this
    {
      TablesValid(tables, enumSheet, maxNameLength) && EnumsValid(enums)
    }

    constructor(enumSheet: string, maxRows: Option<int>, maxNameLength: Option<int>)
      ensures State() == LayoutState([], [], enumSheet, maxRows, maxNameLength)
      ensures Valid()
    {
      this.tables := [];
      this.enums := [];
      this.enumSheet := enumSheet;
      this.maxRows := maxRows;
      this.maxNameLength := maxNameLength;
    }

    method SetTable(table: string, columns: seq<string>, sheet: Option<string>) returns (o: Outcome)
      modifies this`tables
      ensures o == AddTableOutcome(old(State()), table, columns, sheet)
      ensures tables == if o.Pass? then old(tables) + [Table(SheetFor(table, sheet), table, columns)] else old(tables)
      ensures old(Valid()) ==> Valid()
    {
      var name := if sheet.Some? && sheet.value != "" then sheet.value else table;
      if table in TableNames(tables) {
        return Fail(DuplicateTable(table));
      }
      if name in SheetNames(tables) || name == enumSheet {
        return Fail(DuplicateSheet(name));
      }
      if maxNameLength.Some? && maxNameLength.value != 0 && |name| > maxNameLength.value {
        return Fail(SheetNameTooLong(maxNameLength.value));
      }
      if |columns| != |Elements(columns)| {
        return Fail(DuplicateColumns(columns));
      }
      if Valid() {
        AddTableKeepsValid(State(), table, columns, sheet);
      }
      tables := tables + [Table(name, table, columns)];
      return Pass;
    }

    method GetTable(table: string) returns (r: Result<Table>)
      ensures r == FindTable(tables, table)
    {
      var i := 0;
      while i < |tables|
        invariant 0 <= i <= |tables|
        invariant FindTable(tables, table) == FindTable(tables[i..], table)
      {
        assert tables[i..][1..] == tables[i + 1..];
        if tables[i].table == table {
          return Ok(tables[i]);
        }
        i := i + 1;
      }
      return Err(TableNotFound(table));
    }

    /** Adds an enum unless one with these values exists; tells whether a value looks like a formula. */
    method SetEnum(values: seq<Value>) returns (warned: bool)
      modifies this`enums
      ensures warned <==> exists i :: 0 <= i < |values| && LooksLikeFormula(values[i])
      ensures enums == AddEnum(old(enums), values)
      ensures old(Valid()) ==> Valid()
    {
      warned := exists i | 0 <= i < |values| :: LooksLikeFormula(values[i]);
      if Valid() {
        AddEnumKeepsValid(enums, values);
      }
      if values in EnumValues(enums) {
        return;
      }
      var col := 0;
      if |enums| > 0 {
        var m := MaxColumn(enums);
        col := m + 1;
      }
      enums := enums + [Enum(values, col)];
    }

    method GetEnum(values: seq<Value>) returns (r: Result<Enum>)
      ensures r == FindEnum(enums, values)
    {
      var i := 0;
      while i < |enums|
        invariant 0 <= i <= |enums|
        invariant FindEnum(enums, values) == FindEnum(enums[i..], values)
      {
        assert enums[i..][1..] == enums[i + 1..];
        if enums[i].values == values {
          return Ok(enums[i]);
        }
        i := i + 1;
      }
      return Err(EnumNotFound);
    }

    method GetEnumRange(values: seq<Value>, indirect: bool) returns (r: Result<string>)
      ensures r == EnumRange(State(), values, indirect)
    {
      var e := GetEnum(values);
      if e.Err? {
        return Err(e.error);
      }
      var range := ColumnToRange(e.value.col, 0, Some(|e.value.values|), true, Some(enumSheet), indirect);
      return Ok(range);
    }

    method GetColumnCode(table: string, column: string) returns (r: Result<string>)
      ensures r == ColumnCodeOf(State(), table, column)
    {
      var t := GetTable(table);
      if t.Err? {
        return Err(t.error);
      }
      if column !in t.value.columns {
        return Err(ColumnNotFound(column));
      }
      var code := ColumnIndexToCode(IndexOf(t.value.columns, column));
      return Ok(code);
    }

    method GetColumnRange(table: string, column: string, nrows: Option<int>,
                          absolute: bool, fixed: bool, indirect: bool) returns (r: Result<string>)
      ensures r == ColumnRange(State(), table, column, nrows, absolute, fixed, indirect)
    {
      var t := GetTable(table);
      if t.Err? {
        return Err(t.error);
      }
      if column !in t.value.columns {
        return Err(ColumnNotFound(column));
      }
      var col := IndexOf(t.value.columns, column);
      var rows := if nrows.Some? && nrows.value != 0 then nrows
                  else if maxRows.Some? && maxRows.value != 0 then Some(maxRows.value - 1)
                  else None;
      var range := ColumnToRange(col, 1, rows, fixed, if absolute then Some(t.value.sheet) else None, indirect);
      return Ok(range);
    }

    /** The range of the enum a constraint value names. */
    method GetEnumRangeOf(v: Value, indirect: bool) returns (r: Result<string>)
      ensures r == EnumRangeOf(State(), v, indirect)
    {
      if !v.VList? {
        return Err(EnumNotFound);
      }
      r := GetEnumRange(v.items, indirect);
    }

    method SelectColumnDropdown(table: string, column: string, dtype: Option<string>,
                                constraints: Constraints, fks: seq<ForeignKey>, indirect: bool)
      returns (r: Result<Option<Dropdown>>)
      ensures r == DropdownFor(State(), table, column, dtype, constraints, fks, indirect)
    {
      if dtype == Some("boolean") {
        return Ok(Some(BooleanDropdown));
      }
      var keys := ReduceForeignKeys(fks, table, column);
      if keys.Err? {
        return Err(keys.error);
      }
      if |keys.value| > 0 {
        var key := keys.value[0];
        var range := GetColumnRange(if Truthy(key.0) then key.0.value else table, key.1, None, key.0.Some?, true, indirect);
        if range.Err? {
          return Err(range.error);
        }
        return Ok(Some(Dropdown(CellRange(range.value), ForeignKeySource)));
      }
      var e := Get(constraints, "enum");
      if e.Some? && !Falsy(e.value) {
        var range := GetEnumRangeOf(e.value, indirect);
        if range.Err? {
          return Err(range.error);
        }
        return Ok(Some(Dropdown(CellRange(range.value), EnumSource)));
      }
      return Ok(None);
    }

    method GetDefaults(table: string, column: string) returns (r: Result<Defaults>)
      ensures r == DefaultsOf(State(), table, column)
    {
      var t := GetTable(table);
      if t.Err? {
        return Err(t.error);
      }
      var columns := t.value.columns;
      var col := GetColumnCode(table, column);
      if col.Err? {
        return Err(col.error);
      }
      var minCol := GetColumnCode(table, columns[0]);
      var maxCol := GetColumnCode(table, columns[|columns| - 1]);
      var maxRow := if maxRows.Some? && maxRows.value != 0 then "$" + IntToDecimal(maxRows.value) else "";
      DefaultsOfListed(State(), table, t.value, column);
      return Ok(Defaults(col.value, minCol.value, maxCol.value, maxRow, IntToDecimal(|columns|)));
    }

    /** The ranges of the foreign-key checks, one per foreign key the column takes part in, in order. */
    method BuildKeyRanges(table: string, column: string, fks: seq<ForeignKey>, indirect: bool)
      returns (r: Result<seq<string>>)
      ensures r == KeyRanges(KeysIn(table, column), RangeIn(State(), table, indirect), fks, |fks|)
    {
      r := CollectKeyRanges(KeysIn(table, column), RangeIn(State(), table, indirect), fks);
    }

    method GatherColumnChecks(table: string, column: string, valid: bool, dtype: Option<string>,
                              constraints: Constraints, fks: seq<ForeignKey>, indirect: bool)
      returns (r: Result<seq<Check>>)
      ensures r == ColumnChecks(Builtin(), State(), table, column, valid, dtype, constraints, fks, indirect)
    {
      var d := GetDefaults(table, column);
      if d.Err? {
        return Err(d.error);
      }
      var checks := TypeChecks(Builtin(), dtype, valid, d.value);
      var clean := CleanConstraints(constraints);
      var cc := BuildConstraintChecks(Builtin(), clean, valid, d.value);
      checks := checks + cc;
      var ranges: seq<string> := [];
      if "enum" in KeysOf(clean) {
        var range := GetEnumRangeOf(ValueAt(clean, "enum"), indirect);
        if range.Err? {
          return Err(range.error);
        }
        ranges := [range.value];
      }
      var kr := BuildKeyRanges(table, column, fks, indirect);
      if kr.Err? {
        return Err(kr.error);
      }
      return Ok(checks + RangeChecks(Builtin(), valid, d.value, ranges + kr.value));
    }

    /** Adds the enum of every field that has a non-empty list as its `enum`, in order. */
    method AddFieldEnums(fields: seq<SchemaField>)
      modifies this`enums
      ensures enums == FieldEnums(old(enums), fields, |fields|)
      ensures old(Valid()) ==> Valid()
    {
      var k := 0;
      while k < |fields|
        invariant 0 <= k <= |fields|
        invariant enums == FieldEnums(old(enums), fields, k)
        invariant old(Valid()) ==> Valid()
      {
        var values := EnumOf(fields[k]);
        if values.Some? {
          var _ := SetEnum(values.value);
        }
        k := k + 1;
      }
    }

    /** Sets the table of resource `res`, then the enums of its fields. */
    method AddResource(res: Resource) returns (o: Outcome)
      modifies this`tables, this`enums
      ensures o == AddTableOutcome(old(State()), res.name, FieldNames(res.fields), None)
      ensures o.Pass? ==> State() == old(State()).(tables := old(tables) + [Table(res.name, res.name, FieldNames(res.fields))],
                                                  enums := FieldEnums(old(enums), res.fields, |res.fields|))
      ensures o.Fail? ==> State() == old(State())
      ensures old(Valid()) ==> Valid()
    {
      o := SetTable(res.name, FieldNames(res.fields), None);
      if o.Pass? {
        AddFieldEnums(res.fields);
      }
    }

    /** Lays a data package out: one table per resource, then an enum per field with a non-empty list `enum`. */
    static method FromPackage(resources: seq<Resource>, enumSheet: string, maxRows: Option<int>, maxNameLength: Option<int>)
      returns (r: Result<Layout>)
      ensures var init := LayoutState([], [], enumSheet, maxRows, maxNameLength);
        match r
        case Ok(layout) => fresh(layout) && layout.Valid() && PackageLayout(init, resources, |resources|) == Ok(layout.State())
        case Err(e) => PackageLayout(init, resources, |resources|) == Err(e)
    {
      var layout := new Layout(enumSheet, maxRows, maxNameLength);
      ghost var init := layout.State();
      var i := 0;
      while i < |resources|
        invariant 0 <= i <= |resources|
        invariant fresh(layout) && layout.Valid()
        invariant PackageLayout(init, resources, i) == Ok(layout.State())
      {
        PackageStep(init, resources, i, layout.State());
        var o := layout.AddResource(resources[i]);
        if o.Fail? {
          PackageErrorStays(init, resources, i + 1, |resources|);
          return Err(o.error);
        }
        i := i + 1;
      }
      r := Ok(layout);
    }
  }

  /** The foreign-key ranges of a column, one pass over the foreign keys stopping at the first error; `rangeOf` gives a simple key its range. */
  method CollectKeyRanges(keyOf: KeyOf, rangeOf: RangeOf, fks: seq<ForeignKey>)
    returns (r: Result<seq<string>>)
    ensures r == KeyRanges(keyOf, rangeOf, fks, |fks|)
  {
    var ranges: seq<string> := [];
    var j := 0;
    while j < |fks|
      invariant 0 <= j <= |fks|
      invariant KeyRanges(keyOf, rangeOf, fks, j) == Ok(ranges)
    {
      var next := KeyStep(keyOf, rangeOf, fks[j], ranges);
      if next.Err? {
        KeyRangesErrorStays(keyOf, rangeOf, fks, j + 1, |fks|);
        return next;
      }
      ranges := next.value;
      j := j + 1;
    }
    return Ok(ranges);
  }

  /** The highest column of the enums, by one pass over them. */
  method MaxColumn(es: seq<Enum>) returns (m: nat)
    requires |es| > 0
    ensures m == HighestColumn(es)
  {
    m := es[0].col;
    var i := 1;
    while i < |es|
      invariant 1 <= i <= |es|
      invariant m == HighestColumn(es[..i])
    {
      assert es[..i + 1][..i] == es[..i];
      m := if es[i].col > m then es[i].col else m;
      i := i + 1;
    }
    assert es[..|es|] == es;
  }

  /** The constraint checks, in the order of the cleaned constraints. */
  method BuildConstraintChecks(cat: Catalogue, clean: Constraints, valid: bool, d: Defaults) returns (checks: seq<Check>)
    requires Shaped(cat)
    ensures checks == ConstraintChecks(cat, clean, valid, d, |clean|)
  {
    checks := [];
    var i := 0;
    while i < |clean|
      invariant 0 <= i <= |clean|
      invariant checks == ConstraintChecks(cat, clean, valid, d, i)
    {
      var (key, v) := clean[i];
      if key in cat.constraints {
        checks := checks + [ConstraintCheck(cat, key, v, valid, d)];
      }
      i := i + 1;
    }
  }

  /** Once laying a package out fails, it fails with that error whatever follows. */
  lemma {:induction false} PackageErrorStays(s: LayoutState, rs: seq<Resource>, m: nat, n: nat)
    requires m <= n <= |rs|
    requires PackageLayout(s, rs, m).Err?
    ensures PackageLayout(s, rs, n) == PackageLayout(s, rs, m)
  {
    if m < n {
      PackageErrorStays(s, rs, m, n - 1);
    }
  }
}
