/** The table the application works on, as the CSV reader leaves it: named
    columns and rows whose cells are text, numbers or the missing marker.
    Two in-place operations of the data frame library are modelled, the ones
    the chart pipeline applies to the caller's table: replacing a column by its
    numeric coercion, and dropping the rows whose cell in a column is missing. */
module Frame {
  import opened Python

  /** One cell: text, a number, or NA (missing; pandas' NaN). */
  datatype Cell = Str(s: string) | Num(x: real) | NA

  /** A row maps every column name of its table to a cell. */
  type Row = map<string, Cell>

  datatype Table = Table(columns: seq<string>, rows: seq<Row>)

  function ColumnSet(columns: seq<string>): set<string>
  {
    set c | c in columns
  }

  /** Every row has exactly the table's columns. */
  predicate WellFormed(t: Table)
  {
    forall i :: 0 <= i < |t.rows| ==> t.rows[i].Keys == ColumnSet(t.columns)
  }

  predicate HasColumn(rows: seq<Row>, c: string)
  {
    forall i :: 0 <= i < |rows| ==> c in rows[i]
  }

  /** `pd.to_numeric(..., errors="coerce")` on one cell: numbers stay, text
      that reads as a decimal numeral becomes that number, everything else NA. */
  function ToNumeric(c: Cell): (r: Cell)
    ensures r.Num? || r.NA?
    ensures c.Num? ==> r == c
    ensures c.NA? ==> r.NA?
    ensures c.Str? ==> (r.Num? <==> ParseDecimal(c.s).Some?)
  {
    match c
    case Num(_) => c
    case NA => NA
    case Str(s) =>
      match ParseDecimal(s)
      case Some(x) => Num(x)
      case None => NA
  }

  /** The rows after `df[c] = pd.to_numeric(df[c], errors="coerce")`. */
  function CoerceColumn(rows: seq<Row>, c: string): (r: seq<Row>)
    requires HasColumn(rows, c)
    ensures |r| == |rows|
    ensures forall i :: 0 <= i < |rows| ==> r[i].Keys == rows[i].Keys
    ensures forall i :: 0 <= i < |rows| ==> r[i][c] == ToNumeric(rows[i][c])
    ensures forall i, k :: 0 <= i < |rows| && k in rows[i] && k != c ==> r[i][k] == rows[i][k]
  {
    seq(|rows|, i requires 0 <= i < |rows| => rows[i][c := ToNumeric(rows[i][c])])
  }

  /** The rows after `df.dropna(subset=[c])`: those whose cell in `c` is not
      NA, in their original order. */
  function DropNa(rows: seq<Row>, c: string): (r: seq<Row>)
    requires HasColumn(rows, c)
    ensures |r| <= |rows|
    ensures HasColumn(r, c)
    ensures forall x: Row :: x in r <==> x in rows && !x[c].NA?
  {
    if rows == [] then []
    else (if rows[0][c].NA? then [] else [rows[0]]) + DropNa(rows[1..], c)
  }

  /** Dropping works row by row: it distributes over concatenation, so the
      kept rows keep their relative order. */
  lemma {:induction false} DropNaAppend(a: seq<Row>, b: seq<Row>, c: string)
    requires HasColumn(a, c) && HasColumn(b, c)
    ensures HasColumn(a + b, c)
    ensures DropNa(a + b, c) == DropNa(a, c) + DropNa(b, c)
  {
    if a != [] {
      assert (a + b)[1..] == a[1..] + b;
      DropNaAppend(a[1..], b, c);
    } else {
      assert a + b == b;
    }
  }

  /** Dropping from rows without NA in `c` changes nothing. */
  lemma {:induction false} DropNaNoop(rows: seq<Row>, c: string)
    requires HasColumn(rows, c)
    requires forall i :: 0 <= i < |rows| ==> !rows[i][c].NA?
    ensures DropNa(rows, c) == rows
  {
    if rows != [] {
      DropNaNoop(rows[1..], c);
    }
  }

  lemma {:induction false} DropNaKeepsKeys(rows: seq<Row>, c: string, keys: set<string>)
    requires HasColumn(rows, c)
    requires forall i :: 0 <= i < |rows| ==> rows[i].Keys == keys
    ensures forall i :: 0 <= i < |DropNa(rows, c)| ==> DropNa(rows, c)[i].Keys == keys
  {
    var r := DropNa(rows, c);
    forall i | 0 <= i < |r| ensures r[i].Keys == keys {
      assert r[i] in rows;
    }
  }

  /** A data frame whose rows the library may change in place. */
  class DataFrame {
    var columns: seq<string>
    var rows: seq<Row>

    ghost predicate Valid()
      reads this
    {
      WellFormed(Table(columns, rows))
    }

    function Snapshot(): Table
      reads this
    {
      Table(columns, rows)
    }

    constructor FromTable(t: Table)
      requires WellFormed(t)
      ensures Valid() && Snapshot() == t
    {
      columns := t.columns;
      rows := t.rows;
    }

    /** `self[c] = pd.to_numeric(self[c], errors="coerce")`. */
    method CoerceNumeric(c: string)
      requires Valid() && c in columns
      modifies this
      ensures Valid() && columns == old(columns)
      ensures rows == CoerceColumn(old(rows), c)
    {
      rows := CoerceColumn(rows, c);
    }

    /** `self.dropna(subset=[c], inplace=True)`. */
    method DropNaInPlace(c: string)
      requires Valid() && c in columns
      modifies this
      ensures Valid() && columns == old(columns)
      ensures rows == DropNa(old(rows), c)
    {
      DropNaKeepsKeys(rows, c, ColumnSet(columns));
      rows := DropNa(rows, c);
    }
  }
}
