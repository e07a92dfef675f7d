/** The driver payment table: the deliveries of the chosen period searched by
    driver, the salary they earn, the advances paid in the same period, and the
    spreadsheet export. Rows are shown in the order they are given. */
module DriverPaymentTable {
  import opened Common
  import opened JsValues
  import opened Records
  import opened Filters

  function DateOf(r: DriverPaymentRecord): string
  {
    r.date
  }

  function NameOf(r: DriverPaymentRecord): string
  {
    r.driverName
  }

  function DriverRent(r: DriverPaymentRecord): real
  {
    r.driverRent
  }

  function AdvanceDate(a: AdvanceRecord): string
  {
    a.date
  }

  function AdvanceAmount(a: AdvanceRecord): real
  {
    a.amount
  }

  /** `filteredData`: the date filter, then the driver search. The rows keep
      their input order, and a row is shown exactly when it is in the range
      and its driver matches the search. */
  function FilteredData(data: seq<DriverPaymentRecord>, startDate: string, endDate: string, search: string,
                        parse: string -> Option<TimeValue>): (r: seq<DriverPaymentRecord>)
    ensures Subsequence(r, data)
    ensures forall i :: 0 <= i < |r| ==>
              r[i] in data && InDateRange(startDate, endDate, parse, r[i].date) && DriverMatches(r[i].driverName, search)
    ensures forall i :: (0 <= i < |data| && InDateRange(startDate, endDate, parse, data[i].date)
                         && DriverMatches(data[i].driverName, search)) ==> data[i] in r
  {
    var byDate := FilterByDate(data, DateOf, startDate, endDate, parse);
    var r := SearchByDriver(byDate, NameOf, search);
    SubsequenceTransitive(r, byDate, data);
    r
  }

  /** `totalSalary` */
  function TotalSalary(shown: seq<DriverPaymentRecord>): real
  {
    Sum(shown, DriverRent)
  }

  /** `totalAdvance`: the advances dated in the range. The driver search does
      not enter into it (there is no search parameter). */
  function TotalAdvance(advanceData: seq<AdvanceRecord>, startDate: string, endDate: string,
                        parse: string -> Option<TimeValue>): real
  {
    Sum(FilterByDate(advanceData, AdvanceDate, startDate, endDate, parse), AdvanceAmount)
  }

  /** The "Net Salary" footer. */
  function NetSalary(data: seq<DriverPaymentRecord>, advanceData: seq<AdvanceRecord>, startDate: string,
                     endDate: string, search: string, parse: string -> Option<TimeValue>): real
  {
    TotalSalary(FilteredData(data, startDate, endDate, search, parse)) - TotalAdvance(advanceData, startDate, endDate, parse)
  }

  /** One spreadsheet row: `Date`, `From`, `To`, `Number of Bags`,
      `Driver Name`, `Driver Rent`. */
  datatype ExportRow = ExportRow(date: string, from: string, to: string, numberOfBags: real,
                                 driverName: string, driverRent: real)

  function ToExportRow(r: DriverPaymentRecord): ExportRow
  {
    ExportRow(r.date, r.from, r.to, r.numberOfBags, r.driverName, r.driverRent)
  }

  /** The export: one row per shown record, in the shown order, with no totals
      row. */
  function ExportRows(shown: seq<DriverPaymentRecord>): (rows: seq<ExportRow>)
    ensures |rows| == |shown|
    ensures forall i :: 0 <= i < |shown| ==> rows[i] == ToExportRow(shown[i])
  {
    Map(shown, ToExportRow)
  }

  function RowDriverRent(row: ExportRow): real
  {
    row.driverRent
  }

  /** The Driver Rent column of the export adds up to the salary footer. */
  lemma ExportRentSumsToSalary(shown: seq<DriverPaymentRecord>)
    ensures Sum(ExportRows(shown), RowDriverRent) == TotalSalary(shown)
  {
    SumMap(shown, ToExportRow, RowDriverRent, DriverRent);
  }

  /** The salary, the advances and hence the net figure of two lists of
      deliveries and two lists of advances together are the sums of the
      parts. */
  lemma TotalsAdditive(a: seq<DriverPaymentRecord>, b: seq<DriverPaymentRecord>,
                       advA: seq<AdvanceRecord>, advB: seq<AdvanceRecord>, startDate: string, endDate: string,
                       search: string, parse: string -> Option<TimeValue>)
    ensures FilteredData(a + b, startDate, endDate, search, parse)
            == FilteredData(a, startDate, endDate, search, parse) + FilteredData(b, startDate, endDate, search, parse)
    ensures TotalSalary(FilteredData(a + b, startDate, endDate, search, parse))
            == TotalSalary(FilteredData(a, startDate, endDate, search, parse))
               + TotalSalary(FilteredData(b, startDate, endDate, search, parse))
    ensures TotalAdvance(advA + advB, startDate, endDate, parse)
            == TotalAdvance(advA, startDate, endDate, parse) + TotalAdvance(advB, startDate, endDate, parse)
    ensures NetSalary(a + b, advA + advB, startDate, endDate, search, parse)
            == NetSalary(a, advA, startDate, endDate, search, parse) + NetSalary(b, advB, startDate, endDate, search, parse)
  {
    FilterByDateAppend(a, b, DateOf, startDate, endDate, parse);
    SearchByDriverAppend(FilterByDate(a, DateOf, startDate, endDate, parse),
                         FilterByDate(b, DateOf, startDate, endDate, parse), NameOf, search);
    SumAppend(FilteredData(a, startDate, endDate, search, parse), FilteredData(b, startDate, endDate, search, parse), DriverRent);
    FilterByDateAppend(advA, advB, AdvanceDate, startDate, endDate, parse);
    SumAppend(FilterByDate(advA, AdvanceDate, startDate, endDate, parse),
              FilterByDate(advB, AdvanceDate, startDate, endDate, parse), AdvanceAmount);
  }

  /** With no bounds and an empty search the table shows every delivery. */
  lemma NoFiltersShowAll(data: seq<DriverPaymentRecord>, parse: string -> Option<TimeValue>)
    ensures FilteredData(data, "", "", "", parse) == data
  {
    NoBoundsKeepsAll(data, DateOf, parse);
    EmptySearchKeepsAll(data, NameOf);
  }

  /** The net salary goes negative when the advances paid exceed the rent
      earned: no deliveries and one advance of 500 leave -500. */
  lemma NetSalaryCanBeNegative(parse: string -> Option<TimeValue>)
    ensures NetSalary([], [AdvanceRecord("1", "2024-03-01", "Ravi", 500.0)], "", "", "", parse) == -500.0
  {
    var advances := [AdvanceRecord("1", "2024-03-01", "Ravi", 500.0)];
    NoBoundsKeepsAll(advances, AdvanceDate, parse);
    assert advances[..0] == [];
  }
}
