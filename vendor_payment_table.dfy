/** The vendor payment table: the deliveries of the chosen period, what the
    vendor owes for them, and the spreadsheet export. Rows are shown in the
    order they are given. */
module VendorPaymentTable {
  import opened Common
  import opened JsValues
  import opened Records
  import opened Filters

  function DateOf(r: VendorPaymentRecord): string
  {
    r.date
  }

  function Rent(r: VendorPaymentRecord): real
  {
    r.rent
  }

  function MiscSpends(r: VendorPaymentRecord): real
  {
    r.miscSpends
  }

  function Advance(r: VendorPaymentRecord): real
  {
    r.advance
  }

  /** `filteredData`: the records in the date range, in input order. */
  function FilteredData(data: seq<VendorPaymentRecord>, startDate: string, endDate: string,
                        parse: string -> Option<TimeValue>): (r: seq<VendorPaymentRecord>)
    ensures Subsequence(r, data)
    ensures forall i :: 0 <= i < |r| ==> r[i] in data && InDateRange(startDate, endDate, parse, r[i].date)
    ensures forall i :: 0 <= i < |data| && InDateRange(startDate, endDate, parse, data[i].date) ==> data[i] in r
  {
    FilterByDate(data, DateOf, startDate, endDate, parse)
  }

  /** The three footer sums. */
  datatype Totals = Totals(rent: real, miscSpends: real, advance: real)

  function ComputeTotals(shown: seq<VendorPaymentRecord>): Totals
  {
    Totals(Sum(shown, Rent), Sum(shown, MiscSpends), Sum(shown, Advance))
  }

  /** "Net Payment (Total Rent + Misc Spends - Advance)" */
  function NetPayment(t: Totals): real
  {
    t.rent + t.miscSpends - t.advance
  }

  function Plus(t: Totals, u: Totals): Totals
  {
    Totals(t.rent + u.rent, t.miscSpends + u.miscSpends, t.advance + u.advance)
  }

  /** The totals, and so the net payment, of two lists together are the sums
      of the parts, also after the date filter. */
  lemma TotalsAdditive(a: seq<VendorPaymentRecord>, b: seq<VendorPaymentRecord>, startDate: string, endDate: string,
                       parse: string -> Option<TimeValue>)
    ensures ComputeTotals(a + b) == Plus(ComputeTotals(a), ComputeTotals(b))
    ensures NetPayment(ComputeTotals(a + b)) == NetPayment(ComputeTotals(a)) + NetPayment(ComputeTotals(b))
    ensures ComputeTotals(FilteredData(a + b, startDate, endDate, parse))
            == Plus(ComputeTotals(FilteredData(a, startDate, endDate, parse)),
                    ComputeTotals(FilteredData(b, startDate, endDate, parse)))
  {
    TotalsAppend(a, b);
    FilterByDateAppend(a, b, DateOf, startDate, endDate, parse);
    TotalsAppend(FilteredData(a, startDate, endDate, parse), FilteredData(b, startDate, endDate, parse));
  }

  lemma TotalsAppend(a: seq<VendorPaymentRecord>, b: seq<VendorPaymentRecord>)
    ensures ComputeTotals(a + b) == Plus(ComputeTotals(a), ComputeTotals(b))
  {
    SumAppend(a, b, Rent);
    SumAppend(a, b, MiscSpends);
    SumAppend(a, b, Advance);
  }

  /** The rent is the stored `rent` of each record and is never recomputed:
      lists that agree on rent, misc spends and advance have the same totals,
      whatever their bags, wayment or route. */
  lemma RentIsReadNotRecomputed(a: seq<VendorPaymentRecord>, b: seq<VendorPaymentRecord>)
    requires |a| == |b|
    requires forall i :: 0 <= i < |a| ==>
               a[i].rent == b[i].rent && a[i].miscSpends == b[i].miscSpends && a[i].advance == b[i].advance
    ensures ComputeTotals(a) == ComputeTotals(b)
  {
    SumCongruent(a, b, Rent);
    SumCongruent(a, b, MiscSpends);
    SumCongruent(a, b, Advance);
  }

  /** One spreadsheet row: `Date`, `From`, `To`, `Number of Bags`, `Wayment`,
      `Rent`, `Misc Spends`, `Advance`. */
  datatype ExportRow = ExportRow(date: string, from: string, to: string, numberOfBags: real, wayment: real,
                                 rent: real, miscSpends: real, advance: real)

  function ToExportRow(r: VendorPaymentRecord): ExportRow
  {
    ExportRow(r.date, r.from, r.to, r.numberOfBags, r.wayment, r.rent, r.miscSpends, r.advance)
  }

  /** The export: one row per shown record, in the shown order, with no totals
      row. */
  function ExportRows(shown: seq<VendorPaymentRecord>): (rows: seq<ExportRow>)
    ensures |rows| == |shown|
    ensures forall i :: 0 <= i < |shown| ==> rows[i] == ToExportRow(shown[i])
  {
    Map(shown, ToExportRow)
  }

  function RowRent(row: ExportRow): real
  {
    row.rent
  }

  function RowMiscSpends(row: ExportRow): real
  {
    row.miscSpends
  }

  function RowAdvance(row: ExportRow): real
  {
    row.advance
  }

  /** The Rent, Misc Spends and Advance columns of the export add up to the
      footer's totals. */
  lemma ExportColumnsSumToTotals(shown: seq<VendorPaymentRecord>)
    ensures ComputeTotals(shown)
            == Totals(Sum(ExportRows(shown), RowRent), Sum(ExportRows(shown), RowMiscSpends),
                      Sum(ExportRows(shown), RowAdvance))
  {
    SumMap(shown, ToExportRow, RowRent, Rent);
    SumMap(shown, ToExportRow, RowMiscSpends, MiscSpends);
    SumMap(shown, ToExportRow, RowAdvance, Advance);
  }
}
