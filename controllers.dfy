/** The two endpoints. `UploadCsv` checks the file name and the three Ukrainian
    column headers, turns each row whose value `float()` accepts into a
    location record, hands a non-empty batch to the store and reports how
    many records it built. `CreateChart` applies the form defaults, runs the
    chart pipeline without saving, and turns its ValueError into an error
    payload. */
module Controllers {
  import opened Python
  import opened Frame
  import CsvProcess

  const RegionColumn := "Область"
  const DistrictColumn := "Місто/Район"
  const ValueColumn := "Значення"
  const ExpectedColumns := [RegionColumn, DistrictColumn, ValueColumn]
  const SuccessMessage := "CSV file processed successfully."

  // ---------------------------------------------------------------------------
  // Rows to records
  // ---------------------------------------------------------------------------

  /** An unsaved location record; the store assigns its id. Region and
      district are the row's cells as read. */
  datatype Location = Location(region: Cell, district: Cell, value: Float)

  /** `float(cell)`; None is the ValueError. A number converts to itself, NA
      (pandas' NaN) converts to NaN without an error, text converts when it
      reads as a decimal numeral. */
  function PyFloat(c: Cell): (r: Option<Float>)
    ensures c.Num? ==> r == Some(Finite(c.x))
    ensures c.NA? ==> r == Some(NaN)
    ensures c.Str? ==> (r.Some? <==> ParseDecimal(c.s).Some?)
    ensures r.Some? && r.value.NaN? ==> c.NA?
  {
    match c
    case Num(x) => Some(Finite(x))
    case NA => Some(NaN)
    case Str(s) =>
      match ParseDecimal(s)
      case Some(x) => Some(Finite(x))
      case None => None
  }

  /** Every row has the three expected columns. */
  predicate HasExpectedColumns(rows: seq<Row>)
  {
    HasColumn(rows, RegionColumn) && HasColumn(rows, DistrictColumn) && HasColumn(rows, ValueColumn)
  }

  /** The record one row produces, if any. */
  function RowRecord(row: Row): (r: Option<Location>)
    requires RegionColumn in row && DistrictColumn in row && ValueColumn in row
    ensures r.Some? <==> PyFloat(row[ValueColumn]).Some?
    ensures r.Some? ==> r.value.region == row[RegionColumn] && r.value.district == row[DistrictColumn]
                        && r.value.value == PyFloat(row[ValueColumn]).value
  {
    match PyFloat(row[ValueColumn])
    case Some(f) => Some(Location(row[RegionColumn], row[DistrictColumn], f))
    case None => None
  }

  function RowRecords(row: Row): (r: seq<Location>)
    requires RegionColumn in row && DistrictColumn in row && ValueColumn in row
    ensures |r| <= 1
  {
    match RowRecord(row)
    case Some(l) => [l]
    case None => []
  }

  /** The records the loop builds: one per accepted row, in row order. */
  function Records(rows: seq<Row>): (r: seq<Location>)
    requires HasExpectedColumns(rows)
    ensures |r| <= |rows|
  {
    if rows == [] then []
    else
      RowRecords(rows[0]) + Records(rows[1..])
  }

  /** A row yields a record exactly when `float()` accepts its value, and the
      record copies the region and district cells verbatim. */
  lemma RecordsSingleRow(row: Row)
    requires RegionColumn in row && DistrictColumn in row && ValueColumn in row
    ensures HasExpectedColumns([row])
    ensures PyFloat(row[ValueColumn]).None? ==> Records([row]) == []
    ensures PyFloat(row[ValueColumn]).Some? ==>
              Records([row]) == [Location(row[RegionColumn], row[DistrictColumn], PyFloat(row[ValueColumn]).value)]
  {
    assert [row][1..] == [];
  }

  /** Building works row by row, so records keep the input order. */
  lemma {:induction false} RecordsAppend(a: seq<Row>, b: seq<Row>)
    requires HasExpectedColumns(a) && HasExpectedColumns(b)
    ensures HasExpectedColumns(a + b)
    ensures Records(a + b) == Records(a) + Records(b)
  {
    var ab := a + b;
    assert HasExpectedColumns(ab) by {
      forall i | 0 <= i < |ab|
        ensures RegionColumn in ab[i] && DistrictColumn in ab[i] && ValueColumn in ab[i]
      {
        if i < |a| { assert ab[i] == a[i]; } else { assert ab[i] == b[i - |a|]; }
      }
    }
    if a == [] {
      assert ab == b;
    } else {
      assert ab[1..] == a[1..] + b;
      assert ab[0] == a[0];
      RecordsAppend(a[1..], b);
    }
  }

  /** A row whose value is missing (NA) still yields a record, valued NaN. */
  lemma MissingValueIsRecorded(row: Row)
    requires RegionColumn in row && DistrictColumn in row && ValueColumn in row
    requires row[ValueColumn].NA?
    ensures HasExpectedColumns([row])
    ensures Records([row]) == [Location(row[RegionColumn], row[DistrictColumn], NaN)]
  {
    RecordsSingleRow(row);
  }

  predicate Accepted(row: Row)
    requires ValueColumn in row
  {
    PyFloat(row[ValueColumn]).Some?
  }

  /** Every row yields a record exactly when `float()` accepts every value. */
  lemma {:induction false} AllRowsRecorded(rows: seq<Row>)
    requires HasExpectedColumns(rows)
    ensures (forall i :: 0 <= i < |rows| ==> Accepted(rows[i])) <==> |Records(rows)| == |rows|
  {
    if rows != [] {
      AllRowsRecorded(rows[1..]);
      assert forall i :: 1 <= i < |rows| ==> rows[i] == rows[1..][i - 1];
    }
  }

  /** One rejected row among accepted ones costs exactly one record. */
  lemma OneRejectedRow(a: seq<Row>, row: Row, b: seq<Row>)
    requires HasExpectedColumns(a) && HasExpectedColumns(b)
    requires RegionColumn in row && DistrictColumn in row && ValueColumn in row
    requires forall i :: 0 <= i < |a| ==> Accepted(a[i])
    requires forall i :: 0 <= i < |b| ==> Accepted(b[i])
    requires !Accepted(row)
    ensures HasExpectedColumns(a + [row] + b)
    ensures |Records(a + [row] + b)| == |a| + |b|
  {
    RecordsSingleRow(row);
    RecordsAppend(a, [row]);
    RecordsAppend(a + [row], b);
    AllRowsRecorded(a);
    AllRowsRecorded(b);
  }

  /** The loop over the rows: accepted rows become records, the others are
      skipped. */
  method BuildRecords(rows: seq<Row>) returns (records: seq<Location>)
    requires HasExpectedColumns(rows)
    ensures records == Records(rows)
  {
    records := [];
    var i := 0;
    while i < |rows|
      invariant 0 <= i <= |rows|
      invariant records == Records(rows[..i])
    {
      var row := rows[i];
      assert rows[..i + 1] == rows[..i] + [row];
      RecordsAppend(rows[..i], [row]);
      RecordsSingleRow(row);
      var f := PyFloat(row[ValueColumn]);
      i := i + 1;
      if f.None? {
        continue;
      }
      var location := Location(row[RegionColumn], row[DistrictColumn], f.value);
      records := records + [location];
    }
    assert rows[..i] == rows;
  }

  // ---------------------------------------------------------------------------
  // The store
  // ---------------------------------------------------------------------------

  /** The database as this code sees it: the batches committed so far, each
      an `add_all` of records followed by a commit. */
  class Store {
    var batches: seq<seq<Location>>

    constructor ()
      ensures batches == []
    {
      batches := [];
    }

    method AddAllAndCommit(records: seq<Location>)
      modifies this
      ensures batches == old(batches) + [records]
    {
      batches := batches + [records];
    }
  }

  // ---------------------------------------------------------------------------
  // Upload endpoint
  // ---------------------------------------------------------------------------

  datatype UploadResponse =
    | UploadCsvResponse(insertedCount: nat, message: string)
    | HttpError(statusCode: nat, detail: string)

  const OnlyCsvDetail := "Only CSV files are accepted."

  function ColumnsDetail(found: seq<string>): (r: string)
    ensures |r| > 26 && r[..26] == "CSV must contain columns: "
  {
    var d := "CSV must contain columns: " + ListRepr(ExpectedColumns) + ". Found: " + ListRepr(found);
    assert d[..26] == "CSV must contain columns: ";
    d
  }

  /** `set(expected).issubset(columns)`: extra columns are allowed. */
  predicate HasAllExpected(columns: seq<string>)
  {
    forall c :: c in ExpectedColumns ==> c in columns
  }

  /** `upload_csv`. The decoded content is `Ok(table)` or `Err(reason)` when
      the CSV reader failed; it is consulted only after the file name passed. */
  method UploadCsv(filename: string, content: Result<Table, string>, store: Store)
    returns (resp: UploadResponse)
    requires content.Ok? ==> WellFormed(content.value)
    modifies store
    ensures !EndsWith(filename, ".csv") ==>
              resp == HttpError(400, OnlyCsvDetail) && store.batches == old(store.batches)
    ensures EndsWith(filename, ".csv") && content.Err? ==>
              resp == HttpError(400, "Invalid CSV format: " + content.error) &&
              store.batches == old(store.batches)
    ensures EndsWith(filename, ".csv") && content.Ok? && !HasAllExpected(content.value.columns) ==>
              resp == HttpError(400, ColumnsDetail(content.value.columns)) &&
              store.batches == old(store.batches)
    ensures EndsWith(filename, ".csv") && content.Ok? && HasAllExpected(content.value.columns) ==>
              && HasExpectedColumns(content.value.rows)
              && var records := Records(content.value.rows);
                 && resp == UploadCsvResponse(|records|, SuccessMessage)
                 && store.batches == old(store.batches) + (if records == [] then [] else [records])
  {
    if !EndsWith(filename, ".csv") {
      return HttpError(400, OnlyCsvDetail);
    }
    if content.Err? {
      return HttpError(400, "Invalid CSV format: " + content.error);
    }
    var df := content.value;
    if !HasAllExpected(df.columns) {
      return HttpError(400, ColumnsDetail(df.columns));
    }
    assert RegionColumn in ExpectedColumns && DistrictColumn in ExpectedColumns && ValueColumn in ExpectedColumns;
    var records := BuildRecords(df.rows);
    if records != [] {
      store.AddAllAndCommit(records);
    }
    resp := UploadCsvResponse(|records|, SuccessMessage);
  }

  // ---------------------------------------------------------------------------
  // Chart endpoint
  // ---------------------------------------------------------------------------

  const DefaultGroupField := "Область"
  const DefaultValueField := "Значення"
  const DefaultTitle := "Середнє значення по областях"

  /** The chart endpoint's answer: the chart written as a PNG at the given
      resolution, or the ValueError's text as `{"error": ...}`. */
  datatype ChartResponse = PngStream(chart: CsvProcess.Chart, dpi: nat) | ErrorPayload(error: string)

  /** A form field: the value sent, or the default when the field is absent. */
  function FormField(sent: Option<string>, default: string): string
  {
    match sent
    case Some(s) => s
    case None => default
  }

  /** `create_chart` on the decoded upload. */
  method CreateChart(table: Table, groupField: Option<string>, valueField: Option<string>,
                     title: Option<string>)
    returns (resp: ChartResponse)
    requires WellFormed(table)
    ensures var g := FormField(groupField, DefaultGroupField);
            var v := FormField(valueField, DefaultValueField);
            var missing := CsvProcess.Missing(g, v, table.columns);
            && (resp.ErrorPayload? <==> missing != [])
            && (missing != [] ==>
                  resp.error == CsvProcess.ErrorMessage(CsvProcess.MissingColumns(missing, table.columns)))
            && (missing == [] ==>
                  && HasColumn(table.rows, v)
                  && var cleaned := CsvProcess.Clean(table.rows, v);
                     && HasColumn(cleaned, g)
                     && resp == PngStream(
                          CsvProcess.BuildChart(CsvProcess.Aggregate(cleaned, g, v), g, v,
                                                Some(FormField(title, DefaultTitle)), None, None,
                                                CsvProcess.DefaultPalette),
                          CsvProcess.SaveDpi))
  {
    var g := FormField(groupField, DefaultGroupField);
    var v := FormField(valueField, DefaultValueField);
    var t := FormField(title, DefaultTitle);
    var df := new DataFrame.FromTable(table);
    var r := CsvProcess.GenerateChart(df, g, v, title := Some(t), save := false);
    match r
    case Err(e) =>
      resp := ErrorPayload(CsvProcess.ErrorMessage(e));
    case Ok(figure) =>
      resp := PngStream(figure.chart, CsvProcess.SaveDpi);
  }
}
