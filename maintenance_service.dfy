/** The maintenance service: request bodies, the mapping of the server's JSON
    to `MaintenanceRecord`s, and its error policy. The HTTP exchange is a
    parameter. */
module MaintenanceService {
  import opened Common
  import opened Records

  /** The JSON body of a create or update request. */
  datatype RequestBody = RequestBody(vanNo: string, amount: real, description: string, date: string, driverName: string)

  /** One maintenance record as the server returns it. */
  datatype WireItem = WireItem(id: string, date: string, description: string, amount: real, vanNo: string, driverName: string)

  /** The body: `cost` is sent as `amount`; `paidByDriver` is not sent. */
  function ToRequestBody(data: MaintenanceData): (b: RequestBody)
    ensures b.amount == data.cost && b.vanNo == data.vanNo && b.driverName == data.driverName
    ensures b.description == data.description && b.date == data.date
  {
    RequestBody(data.vanNo, data.cost, data.description, data.date, data.driverName)
  }

  /** `amount` becomes `cost`; no `paidByDriver` is set. */
  function ToRecord(item: WireItem): MaintenanceRecord
  {
    MaintenanceRecord(item.id, item.date, item.description, item.amount, item.vanNo, item.driverName, None)
  }

  /** `data.map(item => ...)`: one record per item, in order. */
  function ToRecords(items: seq<WireItem>): (r: seq<MaintenanceRecord>)
    ensures |r| == |items|
    ensures forall i :: 0 <= i < |items| ==> r[i] == ToRecord(items[i])
  {
    Map(items, ToRecord)
  }

  /** A non-ok response fails with the server's text, or `fallback` when the
      text is empty; an `Error` thrown on the way is passed on unchanged, and
      any other thrown value becomes `fallback`. */
  function Settle<T, U>(response: Response<T>, convert: T -> U, fallback: string): (r: Outcome<U>)
    ensures r.Success? <==> response.Ok?
    ensures response.Ok? ==> r.value == convert(response.body)
    ensures response.NotOk? ==> r.thrown == ErrorObject(if response.text != "" then response.text else fallback)
    ensures response.Threw? && response.thrown.ErrorObject? ==> r.thrown == response.thrown
    ensures response.Threw? && response.thrown.OtherValue? ==> r.thrown == ErrorObject(fallback)
  {
    match response
    case Ok(body) => Success(convert(body))
    case NotOk(text) => Failure(ErrorObject(if text != "" then text else fallback))
    case Threw(t) => Failure(ErrorObject(MessageOr(t, fallback)))
  }

  function CreateMaintenance(data: MaintenanceData, server: RequestBody -> Response<WireItem>): Outcome<MaintenanceRecord>
  {
    Settle(server(ToRequestBody(data)), ToRecord, "Failed to create maintenance record")
  }

  function UpdateMaintenance(id: string, data: MaintenanceData,
                             server: (string, RequestBody) -> Response<WireItem>): Outcome<MaintenanceRecord>
  {
    Settle(server(id, ToRequestBody(data)), ToRecord, "Failed to update maintenance record")
  }

  function DeleteMaintenance(id: string, server: string -> Response<()>): Outcome<()>
  {
    Settle(server(id), (u: ()) => u, "Failed to delete maintenance record")
  }

  function FetchMaintenance(response: Response<seq<WireItem>>): Outcome<seq<MaintenanceRecord>>
  {
    Settle(response, ToRecords, "Failed to fetch maintenance records")
  }

  /** A server that stores the body it is sent under `id` and answers with it. */
  function Echo(id: string, b: RequestBody): WireItem
  {
    WireItem(id, b.date, b.description, b.amount, b.vanNo, b.driverName)
  }

  /** The response mapping undoes the request renaming: everything but
      `paidByDriver` comes back as it was sent. */
  lemma RequestThenRecordRoundTrip(id: string, data: MaintenanceData)
    ensures ToRecord(Echo(id, ToRequestBody(data)))
            == MaintenanceRecord(id, data.date, data.description, data.cost, data.vanNo, data.driverName, None)
    ensures CreateMaintenance(data, b => Ok(Echo(id, b))).Success?
    ensures UpdateMaintenance(id, data, (i, b) => Ok(Echo(i, b))).value.cost == data.cost
  {
  }

  /** `paidByDriver` never reaches the server. */
  lemma PaidByDriverNotSent(data: MaintenanceData, paid: bool)
    ensures ToRequestBody(data.(paidByDriver := paid)) == ToRequestBody(data)
  {
  }
}
