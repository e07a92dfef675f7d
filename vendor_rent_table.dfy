/** The vendor rent table: one row per delivery, in the given order, with the
    rent the bags earn and the misc spends, and the footer totals. */
module VendorRentTable {
  import opened Common
  import opened Records

  /** `rowTotalRent`: bags times rent per bag. */
  function RowRent(r: DeliveryRecord): real
  {
    r.numberOfBags * r.rentPerBag
  }

  function MiscSpends(r: DeliveryRecord): real
  {
    r.miscSpends
  }

  /** `rowTotal`: the rent plus the misc spends; the advance is not
      subtracted. */
  function RowTotal(r: DeliveryRecord): real
  {
    RowRent(r) + MiscSpends(r)
  }

  /** The footer. */
  datatype Totals = Totals(rent: real, miscSpends: real, grandTotal: real)

  function ComputeTotals(data: seq<DeliveryRecord>): Totals
  {
    var rent, misc := Sum(data, RowRent), Sum(data, MiscSpends);
    Totals(rent, misc, rent + misc)
  }

  /** The grand total is the sum of the row totals. */
  lemma GrandTotalIsSumOfRows(data: seq<DeliveryRecord>)
    ensures ComputeTotals(data).grandTotal == Sum(data, RowTotal)
  {
    SumAdd(data, RowRent, MiscSpends, RowTotal);
  }

  /** The totals depend on bags, rent per bag and misc spends only: the stored
      `totalRent` and the advance are ignored. */
  lemma IgnoresStoredTotalAndAdvance(a: seq<DeliveryRecord>, b: seq<DeliveryRecord>)
    requires |a| == |b|
    requires forall i :: 0 <= i < |a| ==>
               a[i].numberOfBags == b[i].numberOfBags && a[i].rentPerBag == b[i].rentPerBag
               && a[i].miscSpends == b[i].miscSpends
    ensures ComputeTotals(a) == ComputeTotals(b)
  {
    SumCongruent(a, b, RowRent);
    SumCongruent(a, b, MiscSpends);
  }

  function Delivery(id: string, bags: real, rentPerBag: real, storedTotal: real): DeliveryRecord
  {
    DeliveryRecord(id, "Mill", "Market", "2024-03-01", bags * 78.0, bags, rentPerBag, "Ravi", 0.0, 0.0, None, storedTotal)
  }

  /** Ten bags at 500 and twenty at 450 earn 14000, whatever totals the
      records store. */
  lemma ExampleTotalRent()
    ensures ComputeTotals([Delivery("1", 10.0, 500.0, 0.0), Delivery("2", 20.0, 450.0, 1.0)]).rent == 14000.0
  {
    var s := [Delivery("1", 10.0, 500.0, 0.0), Delivery("2", 20.0, 450.0, 1.0)];
    assert s[..1] == [s[0]] && s[..1][..0] == [];
    assert Sum(s[..1], RowRent) == 5000.0;
    assert Sum(s, RowRent) == Sum(s[..1], RowRent) + RowRent(s[1]);
  }

  /** One displayed row: date, route, bags, rent per bag, rent, misc spends
      and the row total. */
  datatype Row = Row(deliveryDate: string, from: string, to: string, numberOfBags: real, rentPerBag: real,
                     rent: real, miscSpends: real, total: real)

  function ToRow(r: DeliveryRecord): Row
  {
    Row(r.deliveryDate, r.from, r.to, r.numberOfBags, r.rentPerBag, RowRent(r), r.miscSpends, RowTotal(r))
  }

  /** `data.map(...)`: the rows in the given order. */
  function Rows(data: seq<DeliveryRecord>): (rows: seq<Row>)
    ensures |rows| == |data|
    ensures forall i :: 0 <= i < |data| ==> rows[i] == ToRow(data[i])
  {
    Map(data, ToRow)
  }

  function ShownTotal(row: Row): real
  {
    row.total
  }

  function ShownRent(row: Row): real
  {
    row.rent
  }

  /** The Total Rent and Grand Total columns add up to the footer. */
  lemma RowsSumToFooter(data: seq<DeliveryRecord>)
    ensures Sum(Rows(data), ShownRent) == ComputeTotals(data).rent
    ensures Sum(Rows(data), ShownTotal) == ComputeTotals(data).grandTotal
  {
    SumMap(data, ToRow, ShownRent, RowRent);
    SumMap(data, ToRow, ShownTotal, RowTotal);
    GrandTotalIsSumOfRows(data);
  }
}
