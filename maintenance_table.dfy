/** The maintenance table: the records of the chosen period, their total cost
    and the spreadsheet export. Rows are shown in the order they are given;
    the sort configuration only chooses the header icon. */
module MaintenanceTable {
  import opened Common
  import opened JsValues
  import opened Records
  import opened Filters

  function DateOf(r: MaintenanceRecord): string
  {
    r.date
  }

  function Cost(r: MaintenanceRecord): real
  {
    r.cost
  }

  /** `filteredData`: the records in the date range, in input order. */
  function FilteredData(data: seq<MaintenanceRecord>, startDate: string, endDate: string,
                        parse: string -> Option<TimeValue>): (r: seq<MaintenanceRecord>)
    ensures Subsequence(r, data)
    ensures forall i :: 0 <= i < |r| ==> r[i] in data && InDateRange(startDate, endDate, parse, r[i].date)
    ensures forall i :: 0 <= i < |data| && InDateRange(startDate, endDate, parse, data[i].date) ==> data[i] in r
  {
    FilterByDate(data, DateOf, startDate, endDate, parse)
  }

  /** `totalCost` */
  function TotalCost(shown: seq<MaintenanceRecord>): real
  {
    Sum(shown, Cost)
  }

  /** With both bounds empty the total covers every record; and the total of
      two lists together is the sum of the parts. */
  lemma TotalCostProperties(a: seq<MaintenanceRecord>, b: seq<MaintenanceRecord>, startDate: string, endDate: string,
                            parse: string -> Option<TimeValue>)
    ensures TotalCost(FilteredData(a, "", "", parse)) == TotalCost(a)
    ensures TotalCost(FilteredData(a + b, startDate, endDate, parse))
            == TotalCost(FilteredData(a, startDate, endDate, parse)) + TotalCost(FilteredData(b, startDate, endDate, parse))
  {
    NoBoundsKeepsAll(a, DateOf, parse);
    FilterByDateAppend(a, b, DateOf, startDate, endDate, parse);
    SumAppend(FilteredData(a, startDate, endDate, parse), FilteredData(b, startDate, endDate, parse), Cost);
  }

  /** One spreadsheet row: `Date`, `Description`, `Cost` only. */
  datatype ExportRow = ExportRow(date: string, description: string, cost: real)

  function ToExportRow(r: MaintenanceRecord): ExportRow
  {
    ExportRow(r.date, r.description, r.cost)
  }

  /** The export: one row per shown record, in the shown order, with no totals
      row. */
  function ExportRows(shown: seq<MaintenanceRecord>): (rows: seq<ExportRow>)
    ensures |rows| == |shown|
    ensures forall i :: 0 <= i < |shown| ==> rows[i] == ToExportRow(shown[i])
  {
    Map(shown, ToExportRow)
  }

  function RowCost(row: ExportRow): real
  {
    row.cost
  }

  /** The Cost column of the export adds up to the footer. */
  lemma ExportCostsSumToTotal(shown: seq<MaintenanceRecord>)
    ensures Sum(ExportRows(shown), RowCost) == TotalCost(shown)
  {
    SumMap(shown, ToExportRow, RowCost, Cost);
  }
}
