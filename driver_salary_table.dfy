/** The driver salary table: one row per delivery, in the given order, with
    what the driver is owed for it, and the footer totals. */
module DriverSalaryTable {
  import opened Common
  import opened Records

  /** `record.advance || 0`: an absent advance counts as nothing. */
  function AdvanceOrZero(r: DeliveryRecord): real
  {
    match r.advance
    case Some(v) => v
    case None => 0.0
  }

  function DriverRent(r: DeliveryRecord): real
  {
    r.driverRent
  }

  function MiscSpends(r: DeliveryRecord): real
  {
    r.miscSpends
  }

  /** `rowTotal` */
  function RowTotal(r: DeliveryRecord): (total: real)
    ensures r.advance.None? ==> total == r.driverRent + r.miscSpends
    ensures r.advance.Some? ==> total == r.driverRent + r.miscSpends - r.advance.value
  {
    DriverRent(r) + MiscSpends(r) - AdvanceOrZero(r)
  }

  /** The footer. */
  datatype Totals = Totals(driverRent: real, miscSpends: real, advance: real, grandTotal: real)

  function ComputeTotals(data: seq<DeliveryRecord>): Totals
  {
    var rent, misc, advance := Sum(data, DriverRent), Sum(data, MiscSpends), Sum(data, AdvanceOrZero);
    Totals(rent, misc, advance, rent + misc - advance)
  }

  function RentPlusMisc(r: DeliveryRecord): real
  {
    DriverRent(r) + MiscSpends(r)
  }

  /** The grand total is the sum of the row totals, and an empty table totals
      nothing. */
  lemma GrandTotalIsSumOfRows(data: seq<DeliveryRecord>)
    ensures ComputeTotals(data).grandTotal == Sum(data, RowTotal)
    ensures data == [] ==> ComputeTotals(data) == Totals(0.0, 0.0, 0.0, 0.0)
  {
    SumAdd(data, DriverRent, MiscSpends, RentPlusMisc);
    SumSub(data, RentPlusMisc, AdvanceOrZero, RowTotal);
  }

  /** One displayed row: date, route, driver, rent, misc spends, the advance
      with absence shown as 0, and the row total. */
  datatype Row = Row(deliveryDate: string, from: string, to: string, driverName: string,
                     driverRent: real, miscSpends: real, advance: real, total: real)

  function ToRow(r: DeliveryRecord): Row
  {
    Row(r.deliveryDate, r.from, r.to, r.driverName, r.driverRent, r.miscSpends, AdvanceOrZero(r), RowTotal(r))
  }

  /** `data.map(...)`: the rows in the given order, neither filtered nor
      sorted. */
  function Rows(data: seq<DeliveryRecord>): (rows: seq<Row>)
    ensures |rows| == |data|
    ensures forall i :: 0 <= i < |data| ==> rows[i] == ToRow(data[i])
  {
    Map(data, ToRow)
  }

  function ShownTotal(row: Row): real
  {
    row.total
  }

  function ShownAdvance(row: Row): real
  {
    row.advance
  }

  /** The Total column adds up to the grand total, and the Advance column to
      the advance total. */
  lemma RowsSumToFooter(data: seq<DeliveryRecord>)
    ensures Sum(Rows(data), ShownTotal) == ComputeTotals(data).grandTotal
    ensures Sum(Rows(data), ShownAdvance) == ComputeTotals(data).advance
  {
    SumMap(data, ToRow, ShownTotal, RowTotal);
    SumMap(data, ToRow, ShownAdvance, AdvanceOrZero);
    GrandTotalIsSumOfRows(data);
  }

  /** A delivery without an advance and one with an advance of 0 weigh the
      same in every total. */
  lemma AbsentAdvanceIsZero(data: seq<DeliveryRecord>, i: nat)
    requires i < |data| && data[i].advance.None?
    ensures ComputeTotals(data[i := data[i].(advance := Some(0.0))]) == ComputeTotals(data)
  {
    var changed := data[i := data[i].(advance := Some(0.0))];
    SumCongruent(changed, data, DriverRent);
    SumCongruent(changed, data, MiscSpends);
    SumCongruent(changed, data, AdvanceOrZero);
  }
}
