/** Option, Result and the failures the layout engine and its helpers raise. */
module Results {

  datatype Option<+T> = None | Some(value: T)

  /** Every way an operation of the engine or of its helpers can fail. */
  datatype Error =
    // Layout.set_table, in the order it checks them
    | DuplicateTable(table: string)
    | DuplicateSheet(sheet: string)
    | SheetNameTooLong(maxLength: int)
    | DuplicateColumns(columns: seq<string>)
    // Layout lookups
    | TableNotFound(table: string)
    | EnumNotFound
    | ColumnNotFound(column: string)
    // a list indexed past its end (a foreign key's reference fields, ignore_blanks)
    | IndexOutOfRange(index: int)
    // format_value on a value that is not a scalar
    | UnexpectedValue
    // column_code_to_index on the empty code
    | EmptyColumnCode
    // str.format: a placeholder with no binding, a lone '}', a '{' never closed
    | MissingField(name: string)
    | SingleBrace
    | UnclosedBrace

  datatype Result<+T> = Ok(value: T) | Err(error: Error)

  /** Success or failure of an operation that returns nothing. */
  datatype Outcome = Pass | Fail(error: Error)
}
