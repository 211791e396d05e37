/**
 * The values every part of the searcher works on: cells, rows and tables as
 * pandas holds them, the `columns` section of the configuration, and the
 * errors the script raises.
 */
module Tables {

  datatype Option<T> = None | Some(value: T)

  datatype Result<T, E> = Success(value: T) | Failure(error: E)

  /**
   * One cell of a table or one value of a result dict. `Null` is a missing
   * value: Python's None in a result dict, an empty cell in a table read from
   * CSV. `Citations` is the year-to-count dict a details fetch produces.
   */
  datatype Value = Null | Text(s: string) | Citations(pairs: map<string, string>)

  /** A row as a dict from column label to cell, as `to_dict('records')` gives it. */
  type Row = map<string, Value>

  /** A DataFrame: its column labels in order and its rows in order. */
  datatype Table = Table(columns: seq<string>, rows: seq<Row>)

  /** The column bindings of the configuration (`config['columns']`). */
  datatype Config = Config(idCol: string, nameCol: string, orgCol: string)

  datatype Error =
    | MissingRequiredColumns(missing: seq<string>)  // main: required columns absent from the input
    | UndecodableFile                               // read_csv_with_encoding: every encoding failed
    | ReadFailed                                    // read_csv raised something other than a decode error
    | MissingIdColumn                               // the output file has no id column (a KeyError)
    | InvalidMode                                   // search_batch called with an unknown mode

  /** Python truthiness of a value. */
  predicate Truthy(v: Value) {
    match v
    case Null => false
    case Text(s) => s != ""
    case Citations(m) => m != map[]
  }

  /** `row[col]` for a row that has the column, a missing value otherwise. */
  function Cell(row: Row, col: string): Value {
    if col in row then row[col] else Null
  }

  /** The set of a table's column labels. */
  function ColumnSet(columns: seq<string>): set<string> {
    set c | c in columns
  }

  /** Every row of the table holds exactly the table's columns, as in a DataFrame. */
  predicate WellFormed(t: Table) {
    forall r | r in t.rows :: r.Keys == ColumnSet(t.columns)
  }

  /** No cell of the row is a dict. */
  predicate TextCells(r: Row) {
    forall c | c in r :: !r[c].Citations?
  }

  /** No cell is a dict: true of every table pandas parses from CSV text. */
  predicate TextOnly(t: Table) {
    forall r | r in t.rows :: TextCells(r)
  }
}
