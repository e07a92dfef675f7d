/** The fuel table: the records it holds, their date filter and sort, the total
    and export derived from them, and the handlers that load, delete and
    re-sort. The derived views are functions of the table's state; the
    handlers are methods that update it. */
module FuelTable {
  import opened Common
  import opened JsValues
  import opened Records
  import opened Filters
  import opened Sorting
  import FuelService

  /** `keyof FuelRecord`: the fields a sort can be keyed on. */
  datatype FuelField = Id | Date | Description | Cost | DriverName | PaidByDriver

  /** `record[field]`: an absent optional field reads as `undefined`. */
  function Key(r: FuelRecord, field: FuelField): (k: Key)
    ensures k.Undefined? <==> (field == DriverName && r.driverName.None?)
                              || (field == PaidByDriver && r.paidByDriver.None?)
  {
    match field
    case Id => Text(r.id)
    case Date => Text(r.date)
    case Description => Text(r.description)
    case Cost => Number(r.cost)
    case DriverName => if r.driverName.Some? then Text(r.driverName.value) else Undefined
    case PaidByDriver => if r.paidByDriver.Some? then Flag(r.paidByDriver.value) else Undefined
  }

  /** The comparator handed to `sort`: `order` when `a[field] > b[field]`, and
      `-order` otherwise, where `order` is 1 ascending and -1 descending. It
      never answers 0. */
  function Comparator(a: FuelRecord, b: FuelRecord, config: SortConfig<FuelField>): int
  {
    var order := if config.order == Asc then 1 else -1;
    if Greater(Key(a, config.field), Key(b, config.field)) then order else -order
  }

  /** Inserts `x` before the first element the comparator does not place
      ahead of it. */
  function Insert(x: FuelRecord, s: seq<FuelRecord>, config: SortConfig<FuelField>): (r: seq<FuelRecord>)
    ensures multiset(r) == multiset(s) + multiset{x}
  {
    if |s| == 0 then [x]
    else if Comparator(x, s[0], config) < 0 then [x] + s
    else
      assert s == [s[0]] + s[1..];
      [s[0]] + Insert(x, s[1..], config)
  }

  /** `[...filteredData].sort(comparator)`, as an insertion sort driven by the
      same comparator. */
  function SortRecords(s: seq<FuelRecord>, config: SortConfig<FuelField>): (r: seq<FuelRecord>)
    ensures multiset(r) == multiset(s)
  {
    if |s| == 0 then []
    else
      assert s == [s[0]] + s[1..];
      Insert(s[0], SortRecords(s[1..], config), config)
  }

  /** Where `a` may stand before `b` in a table sorted by `order`. */
  predicate InOrder(a: Key, b: Key, order: Order)
  {
    match order
    case Asc => !Greater(a, b)
    case Desc => !Greater(b, a)
  }

  /** Every earlier record may stand before every later one. */
  predicate Ordered(s: seq<FuelRecord>, config: SortConfig<FuelField>)
  {
    forall i, j :: 0 <= i < j < |s| ==> InOrder(Key(s[i], config.field), Key(s[j], config.field), config.order)
  }

  /** No record holds `undefined` in `field`. */
  predicate KeysDefined(s: seq<FuelRecord>, field: FuelField)
  {
    forall i :: 0 <= i < |s| ==> !Key(s[i], field).Undefined?
  }

  lemma KeysSameKind(a: FuelRecord, b: FuelRecord, field: FuelField)
    requires !Key(a, field).Undefined? && !Key(b, field).Undefined?
    ensures SameKind(Key(a, field), Key(b, field))
  {
  }

  lemma InOrderTransitive(a: Key, b: Key, c: Key, order: Order)
    requires SameKind(a, b) && SameKind(b, c)
    requires InOrder(a, b, order) && InOrder(b, c, order)
    ensures InOrder(a, c, order)
  {
    if order == Asc {
      NotGreaterTransitive(a, b, c);
    } else {
      NotGreaterTransitive(c, b, a);
    }
  }

  /** The comparator decides the relative order of two records in agreement
      with `InOrder`: `x` goes first exactly when it is allowed to. */
  lemma ComparatorAgrees(x: FuelRecord, y: FuelRecord, config: SortConfig<FuelField>)
    ensures Comparator(x, y, config) < 0 ==> InOrder(Key(x, config.field), Key(y, config.field), config.order)
    ensures Comparator(x, y, config) >= 0 ==> InOrder(Key(y, config.field), Key(x, config.field), config.order)
  {
    GreaterAsymmetric(Key(x, config.field), Key(y, config.field));
  }

  lemma {:induction false} InsertOrdered(x: FuelRecord, s: seq<FuelRecord>, config: SortConfig<FuelField>)
    requires Ordered(s, config) && KeysDefined(s, config.field) && !Key(x, config.field).Undefined?
    ensures Ordered(Insert(x, s, config), config)
    decreases |s|
  {
    var f, o := config.field, config.order;
    if |s| > 0 {
      ComparatorAgrees(x, s[0], config);
      if Comparator(x, s[0], config) < 0 {
        var r := [x] + s;
        forall i, j | 0 <= i < j < |r|
          ensures InOrder(Key(r[i], f), Key(r[j], f), o)
        {
          if i == 0 && j > 1 {
            KeysSameKind(x, s[0], f);
            KeysSameKind(s[0], s[j - 1], f);
            InOrderTransitive(Key(x, f), Key(s[0], f), Key(s[j - 1], f), o);
          }
        }
      } else {
        var t := Insert(x, s[1..], config);
        InsertOrdered(x, s[1..], config);
        var r := [s[0]] + t;
        forall i, j | 0 <= i < j < |r|
          ensures InOrder(Key(r[i], f), Key(r[j], f), o)
        {
          if i == 0 {
            var y := t[j - 1];
            assert y in multiset(t);
            if y != x {
              assert y in multiset(s[1..]);
              var k :| 0 <= k < |s[1..]| && s[1..][k] == y;
              assert s[k + 1] == y;
            }
          } else {
            assert r[i] == t[i - 1] && r[j] == t[j - 1];
          }
        }
      }
    }
  }

  /** When every record holds a value in the sort field, the sort puts the
      table in order (and, whatever the keys, it only permutes the records). */
  lemma {:induction false} SortRecordsOrdered(s: seq<FuelRecord>, config: SortConfig<FuelField>)
    requires KeysDefined(s, config.field)
    ensures Ordered(SortRecords(s, config), config)
    ensures multiset(SortRecords(s, config)) == multiset(s)
    decreases |s|
  {
    if |s| > 0 {
      SortRecordsOrdered(s[1..], config);
      var t := SortRecords(s[1..], config);
      forall i | 0 <= i < |t|
        ensures !Key(t[i], config.field).Undefined?
      {
        assert t[i] in multiset(s[1..]);
        var k :| 0 <= k < |s[1..]| && s[1..][k] == t[i];
        assert s[k + 1] == t[i];
      }
      InsertOrdered(s[0], t, config);
    }
  }

  /** The fields `id`, `date`, `description` and `cost` are always present, so
      a sort on any of them always orders the table. */
  lemma RequiredFieldsAlwaysOrder(s: seq<FuelRecord>, field: FuelField, order: Order)
    requires field != DriverName && field != PaidByDriver
    ensures Ordered(SortRecords(s, SortConfig(field, order)), SortConfig(field, order))
  {
    SortRecordsOrdered(s, SortConfig(field, order));
  }

  /** `filteredData`, then `sortedData`. */
  function SortedData(data: seq<FuelRecord>, config: SortConfig<FuelField>, startDate: string, endDate: string,
                      parse: string -> Option<TimeValue>): seq<FuelRecord>
  {
    SortRecords(FilterByDate(data, (r: FuelRecord) => r.date, startDate, endDate, parse), config)
  }

  function RecordCost(r: FuelRecord): real
  {
    r.cost
  }

  /** The footer: the costs of the shown records add up to the costs of the
      records in the date range, whatever the sort. */
  lemma TotalCostIgnoresSort(data: seq<FuelRecord>, config: SortConfig<FuelField>, startDate: string, endDate: string,
                             parse: string -> Option<TimeValue>)
    ensures Sum(SortedData(data, config, startDate, endDate, parse), RecordCost)
            == Sum(FilterByDate(data, (r: FuelRecord) => r.date, startDate, endDate, parse), RecordCost)
  {
    var filtered := FilterByDate(data, (r: FuelRecord) => r.date, startDate, endDate, parse);
    SumPermutation(SortRecords(filtered, config), filtered, RecordCost);
  }

  /** One spreadsheet row: `Date`, `Driver Name`, `Description`, `Cost`. An
      absent driver name stays absent. */
  datatype ExportRow = ExportRow(date: string, driverName: Option<string>, description: string, cost: real)

  function ToExportRow(r: FuelRecord): ExportRow
  {
    ExportRow(r.date, r.driverName, r.description, r.cost)
  }

  /** `sortedData.map(...)` for the export: one row per shown record, in the
      shown order, and no totals row. */
  function ExportRows(shown: seq<FuelRecord>): (rows: seq<ExportRow>)
    ensures |rows| == |shown|
    ensures forall i :: 0 <= i < |shown| ==> rows[i] == ToExportRow(shown[i])
  {
    Map(shown, ToExportRow)
  }

  function RowCost(row: ExportRow): real
  {
    row.cost
  }

  /** The Cost column of the export adds up to the footer's total. */
  lemma ExportCostsSumToTotal(shown: seq<FuelRecord>)
    ensures Sum(ExportRows(shown), RowCost) == Sum(shown, RecordCost)
  {
    SumMap(shown, ToExportRow, RowCost, RecordCost);
  }

  /** What a handler asks of the outside world, in the order it asks. */
  datatype Effect = DeleteRequest(id: string) | FetchRequest | Refresh

  const LoadFallback: string := "Failed to load fuel records"
  const DeleteFallback: string := "Failed to delete record"

  class Table {
    var data: seq<FuelRecord>
    var isLoading: bool
    var error: Option<string>
    var sortConfig: SortConfig<FuelField>
    var startDate: string
    var endDate: string

    /** The first render: no records, loading, sorted by date, newest first,
        and no date bounds. */
    constructor()
      ensures data == [] && isLoading && error == None
      ensures sortConfig == SortConfig(Date, Desc)
      ensures startDate == "" && endDate == ""
    {
      data := [];
      isLoading := true;
      error := None;
      sortConfig := SortConfig(Date, Desc);
      startDate := "";
      endDate := "";
    }

    /** The rows the table shows. */
    function Shown(parse: string -> Option<TimeValue>): seq<FuelRecord>
      reads this
    {
      SortedData(data, sortConfig, startDate, endDate, parse)
    }

    /** `totalCost` */
    function TotalCost(parse: string -> Option<TimeValue>): real
      reads this
    {
      Sum(Shown(parse), RecordCost)
    }

    /** `loadFuelRecords`, given the answer to its fetch: on success the
        records replace the table's and the error is cleared; on failure the
        records stay and the service's message is shown. Loading ends either
        way. */
    method LoadFuelRecords(response: Response<seq<FuelService.WireItem>>)
      modifies this
      ensures response.Ok? ==> data == FuelService.ToRecords(response.body) && error == None
      ensures !response.Ok? ==> data == old(data) && error == Some("Failed to fetch fuel records")
      ensures !isLoading
      ensures sortConfig == old(sortConfig) && startDate == old(startDate) && endDate == old(endDate)
    {
      isLoading := true;
      var fetched := FuelService.FetchFuel(response);
      match fetched {
        case Success(records) =>
          data := records;
          error := None;
        case Failure(thrown) =>
          error := Some(MessageOr(thrown, LoadFallback));
      }
      isLoading := false;
    }

    /** `handleDelete(id)`, given the answer to the confirmation dialog and to
        the delete and fetch requests. Declining changes nothing. A failed
        delete shows the service's message and keeps the records; a
        successful one reloads the table and then notifies the parent. */
    method HandleDelete(id: string, confirmed: bool, deleteResponse: Response<()>,
                        fetchResponse: Response<seq<FuelService.WireItem>>)
      returns (effects: seq<Effect>)
      modifies this
      ensures !confirmed ==> effects == [] && data == old(data) && error == old(error) && isLoading == old(isLoading)
      ensures confirmed && !deleteResponse.Ok? ==>
                effects == [DeleteRequest(id)] && data == old(data)
                && error == Some("Failed to delete fuel record") && !isLoading
      ensures confirmed && deleteResponse.Ok? ==> effects == [DeleteRequest(id), FetchRequest, Refresh] && !isLoading
      ensures confirmed && deleteResponse.Ok? && fetchResponse.Ok? ==>
                data == FuelService.ToRecords(fetchResponse.body) && error == None
      ensures confirmed && deleteResponse.Ok? && !fetchResponse.Ok? ==>
                data == old(data) && error == Some("Failed to fetch fuel records")
      ensures sortConfig == old(sortConfig) && startDate == old(startDate) && endDate == old(endDate)
    {
      if !confirmed {
        return [];
      }
      isLoading := true;
      effects := [DeleteRequest(id)];
      var deleted := FuelService.DeleteFuel(id, _ => deleteResponse);
      match deleted {
        case Success(_) =>
          effects := effects + [FetchRequest];
          LoadFuelRecords(fetchResponse);
          effects := effects + [Refresh];
        case Failure(thrown) =>
          error := Some(MessageOr(thrown, DeleteFallback));
      }
      isLoading := false;
    }

    /** A click on the header of `field`. */
    method HandleSort(field: FuelField)
      modifies this
      ensures sortConfig == Sorting.HandleSort(field, old(sortConfig))
      ensures data == old(data) && isLoading == old(isLoading) && error == old(error)
      ensures startDate == old(startDate) && endDate == old(endDate)
    {
      sortConfig := Sorting.HandleSort(field, sortConfig);
    }

    /** The date range inputs. */
    method SetStartDate(value: string)
      modifies this
      ensures startDate == value
      ensures data == old(data) && isLoading == old(isLoading) && error == old(error)
      ensures sortConfig == old(sortConfig) && endDate == old(endDate)
    {
      startDate := value;
    }

    method SetEndDate(value: string)
      modifies this
      ensures endDate == value
      ensures data == old(data) && isLoading == old(isLoading) && error == old(error)
      ensures sortConfig == old(sortConfig) && startDate == old(startDate)
    {
      endDate := value;
    }
  }

  /** The table as first loaded (sorted by date, newest first, no bounds)
      shows every fetched record, each once, and in date order. */
  lemma FirstLoadShowsAllByDate(records: seq<FuelRecord>, parse: string -> Option<TimeValue>)
    ensures multiset(SortedData(records, SortConfig(Date, Desc), "", "", parse)) == multiset(records)
    ensures Ordered(SortedData(records, SortConfig(Date, Desc), "", "", parse), SortConfig(Date, Desc))
  {
    NoBoundsKeepsAll(records, (r: FuelRecord) => r.date, parse);
    SortRecordsOrdered(records, SortConfig(Date, Desc));
  }
}
