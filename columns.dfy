/**
 * The column checks `main` applies to the table it read: the required
 * columns that are missing, and the optional organisation column filled
 * with ''.
 */
module Columns {
  import opened Tables

  /** The labels the output files use for the fetched link. */
  const LinkColumn: string := "Google Scholar Link"

  /** `required_columns` of main: the id and name columns, or the id and link columns in details mode. */
  function RequiredColumns(initialMode: bool, cfg: Config): seq<string> {
    if initialMode then [cfg.idCol, cfg.nameCol] else [cfg.idCol, LinkColumn]
  }

  /** `[col for col in required_columns if col not in df.columns]`. */
  function MissingColumns(required: seq<string>, present: seq<string>): (missing: seq<string>)
    ensures forall c :: c in missing <==> c in required && c !in present
    ensures |missing| <= |required|
  {
    if required == [] then []
    else (if required[0] in present then [] else [required[0]]) + MissingColumns(required[1..], present)
  }

  /** The missing columns keep the order of the required list. */
  lemma {:induction false} MissingColumnsKeepsOrder(a: seq<string>, b: seq<string>, present: seq<string>)
    ensures MissingColumns(a + b, present) == MissingColumns(a, present) + MissingColumns(b, present)
  {
    if a != [] {
      assert (a + b)[0] == a[0];
      assert (a + b)[1..] == a[1..] + b;
      MissingColumnsKeepsOrder(a[1..], b, present);
    } else {
      assert a + b == b;
    }
  }

  /** `if missing_columns: raise ValueError(...)`: the table passes exactly when every required column is present. */
  function CheckColumns(required: seq<string>, t: Table): (r: Result<Table, Error>)
    ensures r.Success? <==> forall c :: c in required ==> c in t.columns
    ensures r.Success? ==> r.value == t
    ensures r.Failure? ==> r.error.MissingRequiredColumns? && r.error.missing != []
    ensures r.Failure? ==> forall c :: c in r.error.missing <==> c in required && c !in t.columns
  {
    var missing := MissingColumns(required, t.columns);
    if missing != [] then
      assert missing[0] in missing;
      Failure(MissingRequiredColumns(missing))
    else Success(t)
  }

  /** `fillna('')` on one cell: a missing value becomes ''. */
  function FillCell(v: Value): Value {
    if v == Null then Text("") else v
  }

  /**
   * The organisation handling of main: a table without the column gains it
   * filled with '' (`df[org] = ''`); a table with it has its missing cells
   * replaced by '' (`fillna('')`). Every other cell is unchanged.
   */
  function FillOrganization(t: Table, orgCol: string): (r: Table)
    requires WellFormed(t)
    ensures WellFormed(r)
    ensures TextOnly(t) ==> TextOnly(r)
    ensures r.columns == if orgCol in t.columns then t.columns else t.columns + [orgCol]
    ensures |r.rows| == |t.rows|
    ensures forall i :: 0 <= i < |r.rows| ==> orgCol in r.rows[i] && r.rows[i][orgCol] != Null
    ensures forall i :: 0 <= i < |r.rows| && orgCol in t.rows[i] && t.rows[i][orgCol] != Null ==>
              r.rows[i][orgCol] == t.rows[i][orgCol]
    ensures forall i :: 0 <= i < |r.rows| && Cell(t.rows[i], orgCol) == Null ==> r.rows[i][orgCol] == Text("")
    ensures forall i, c :: 0 <= i < |r.rows| && c in t.rows[i] && c != orgCol ==> r.rows[i][c] == t.rows[i][c]
  {
    var columns := if orgCol in t.columns then t.columns else t.columns + [orgCol];
    var rows := seq(|t.rows|, i requires 0 <= i < |t.rows| => t.rows[i][orgCol := FillCell(Cell(t.rows[i], orgCol))]);
    assert ColumnSet(columns) == ColumnSet(t.columns) + {orgCol};
    assert forall i :: 0 <= i < |rows| ==> rows[i].Keys == t.rows[i].Keys + {orgCol};
    assert TextOnly(t) ==> TextOnly(Table(columns, rows)) by {
      if TextOnly(t) {
        forall r | r in rows
          ensures TextCells(r)
        {
          var i :| 0 <= i < |rows| && rows[i] == r;
          assert t.rows[i] in t.rows;
        }
      }
    }
    Table(columns, rows)
  }

  /** Filling is idempotent: a second fill changes nothing. */
  lemma FillOrganizationIdempotent(t: Table, orgCol: string)
    requires WellFormed(t)
    ensures FillOrganization(FillOrganization(t, orgCol), orgCol) == FillOrganization(t, orgCol)
  {
    var once := FillOrganization(t, orgCol);
    var twice := FillOrganization(once, orgCol);
    forall i | 0 <= i < |once.rows|
      ensures twice.rows[i] == once.rows[i]
    {
      assert twice.rows[i].Keys == once.rows[i].Keys;
    }
  }
}
