/** The advance table: the advances of the chosen period searched by driver,
    their total, and the spreadsheet export. Rows are shown in the order they
    are given. */
module AdvanceTable {
  import opened Common
  import opened JsValues
  import opened Records
  import opened Filters

  function DateOf(r: AdvanceRecord): string
  {
    r.date
  }

  function NameOf(r: AdvanceRecord): string
  {
    r.driverName
  }

  function Amount(r: AdvanceRecord): real
  {
    r.amount
  }

  /** `filteredData`: the date filter, then the driver search, keeping the
      input order; an advance is shown exactly when it is in the range and its
      driver matches. */
  function FilteredData(data: seq<AdvanceRecord>, startDate: string, endDate: string, search: string,
                        parse: string -> Option<TimeValue>): (r: seq<AdvanceRecord>)
    ensures Subsequence(r, data)
    ensures forall i :: 0 <= i < |r| ==>
              r[i] in data && InDateRange(startDate, endDate, parse, r[i].date) && DriverMatches(r[i].driverName, search)
    ensures forall i :: (0 <= i < |data| && InDateRange(startDate, endDate, parse, data[i].date)
                         && DriverMatches(data[i].driverName, search)) ==> data[i] in r
  {
    var byDate := FilterByDate(data, DateOf, startDate, endDate, parse);
    var r := SearchByDriver(byDate, NameOf, search);
    SubsequenceTransitive(r, byDate, data);
    r
  }

  /** `totalAmount` */
  function TotalAmount(shown: seq<AdvanceRecord>): real
  {
    Sum(shown, Amount)
  }

  /** An empty search leaves the date filter's result as it is, and with no
      bounds either every advance is shown and totalled. */
  lemma EmptySearchShowsDateRange(data: seq<AdvanceRecord>, startDate: string, endDate: string,
                                  parse: string -> Option<TimeValue>)
    ensures FilteredData(data, startDate, endDate, "", parse) == FilterByDate(data, DateOf, startDate, endDate, parse)
    ensures TotalAmount(FilteredData(data, "", "", "", parse)) == TotalAmount(data)
  {
    EmptySearchKeepsAll(FilterByDate(data, DateOf, startDate, endDate, parse), NameOf);
    NoBoundsKeepsAll(data, DateOf, parse);
    EmptySearchKeepsAll(data, NameOf);
  }

  /** The total of two lists of advances together is the sum of the parts. */
  lemma TotalAdditive(a: seq<AdvanceRecord>, b: seq<AdvanceRecord>, startDate: string, endDate: string,
                      search: string, parse: string -> Option<TimeValue>)
    ensures TotalAmount(FilteredData(a + b, startDate, endDate, search, parse))
            == TotalAmount(FilteredData(a, startDate, endDate, search, parse))
               + TotalAmount(FilteredData(b, startDate, endDate, search, parse))
  {
    FilterByDateAppend(a, b, DateOf, startDate, endDate, parse);
    SearchByDriverAppend(FilterByDate(a, DateOf, startDate, endDate, parse),
                         FilterByDate(b, DateOf, startDate, endDate, parse), NameOf, search);
    SumAppend(FilteredData(a, startDate, endDate, search, parse), FilteredData(b, startDate, endDate, search, parse), Amount);
  }

  /** One spreadsheet row: `Date`, `Driver Name`, `Amount`. */
  datatype ExportRow = ExportRow(date: string, driverName: string, amount: real)

  function ToExportRow(r: AdvanceRecord): ExportRow
  {
    ExportRow(r.date, r.driverName, r.amount)
  }

  /** The export: one row per shown advance, in the shown order, with no
      totals row. */
  function ExportRows(shown: seq<AdvanceRecord>): (rows: seq<ExportRow>)
    ensures |rows| == |shown|
    ensures forall i :: 0 <= i < |shown| ==> rows[i] == ToExportRow(shown[i])
  {
    Map(shown, ToExportRow)
  }

  function RowAmount(row: ExportRow): real
  {
    row.amount
  }

  /** The Amount column of the export adds up to the footer. */
  lemma ExportAmountsSumToTotal(shown: seq<AdvanceRecord>)
    ensures Sum(ExportRows(shown), RowAmount) == TotalAmount(shown)
  {
    SumMap(shown, ToExportRow, RowAmount, Amount);
  }
}
