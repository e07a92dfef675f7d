/** The advance service: request bodies and the mapping of the server's JSON to
    `AdvanceRecord`s. The HTTP exchange is a parameter. */
module AdvanceService {
  import opened Common
  import opened Records

  /** The van number every advance request carries. */
  const DefaultVanNo: string := "12345"

  /** The JSON body of a create or update request. */
  datatype RequestBody = RequestBody(driverName: string, date: string, amount: real, vanNo: string)

  /** One advance as the server returns it. */
  datatype WireItem = WireItem(id: string, date: string, driverName: string, amount: real)

  function ToRequestBody(data: AdvanceData): (b: RequestBody)
    ensures b.vanNo == DefaultVanNo
    ensures b.driverName == data.driverName && b.date == data.date && b.amount == data.amount
  {
    RequestBody(data.driverName, data.date, data.amount, DefaultVanNo)
  }

  function ToRecord(item: WireItem): AdvanceRecord
  {
    AdvanceRecord(item.id, item.date, item.driverName, item.amount)
  }

  /** `data.map(item => ...)`: one record per item, in order. */
  function ToRecords(items: seq<WireItem>): (r: seq<AdvanceRecord>)
    ensures |r| == |items|
    ensures forall i :: 0 <= i < |items| ==> r[i] == ToRecord(items[i])
  {
    Map(items, ToRecord)
  }

  /** Every failure, whatever its cause, is replaced by one fixed message. */
  function Settle<T, U>(response: Response<T>, convert: T -> U, message: string): (r: Outcome<U>)
    ensures r.Success? <==> response.Ok?
    ensures response.Ok? ==> r.value == convert(response.body)
    ensures !response.Ok? ==> r.thrown == ErrorObject(message)
  {
    match response
    case Ok(body) => Success(convert(body))
    case _ => Failure(ErrorObject(message))
  }

  function CreateAdvance(data: AdvanceData, server: RequestBody -> Response<WireItem>): Outcome<AdvanceRecord>
  {
    Settle(server(ToRequestBody(data)), ToRecord, "Failed to create advance record")
  }

  function UpdateAdvance(id: string, data: AdvanceData, server: (string, RequestBody) -> Response<WireItem>): Outcome<AdvanceRecord>
  {
    Settle(server(id, ToRequestBody(data)), ToRecord, "Failed to update advance record")
  }

  function DeleteAdvance(id: string, server: string -> Response<()>): Outcome<()>
  {
    Settle(server(id), (u: ()) => u, "Failed to delete advance record")
  }

  function FetchAdvance(response: Response<seq<WireItem>>): Outcome<seq<AdvanceRecord>>
  {
    Settle(response, ToRecords, "Failed to fetch advance records")
  }

  /** A server that stores the body it is sent under `id` and answers with it. */
  function Echo(id: string, b: RequestBody): WireItem
  {
    WireItem(id, b.date, b.driverName, b.amount)
  }

  /** Sending and reading back is the identity on date, driver and amount; the
      van number is dropped on the way back. */
  lemma RequestThenRecordRoundTrip(id: string, data: AdvanceData)
    ensures ToRecord(Echo(id, ToRequestBody(data))) == AdvanceRecord(id, data.date, data.driverName, data.amount)
    ensures CreateAdvance(data, b => Ok(Echo(id, b))) == Success(AdvanceRecord(id, data.date, data.driverName, data.amount))
  {
  }

  /** Each operation fails exactly when its exchange fails, with a fixed
      message naming the operation. */
  lemma FailuresAreFixed(id: string, data: AdvanceData, update: (string, RequestBody) -> Response<WireItem>,
                         delete: string -> Response<()>, response: Response<seq<WireItem>>)
    ensures UpdateAdvance(id, data, update).Failure? <==> !update(id, ToRequestBody(data)).Ok?
    ensures UpdateAdvance(id, data, update).Failure? ==> UpdateAdvance(id, data, update).thrown == ErrorObject("Failed to update advance record")
    ensures DeleteAdvance(id, delete).Failure? ==> DeleteAdvance(id, delete).thrown == ErrorObject("Failed to delete advance record")
    ensures FetchAdvance(response).Failure? ==> FetchAdvance(response).thrown == ErrorObject("Failed to fetch advance records")
    ensures FetchAdvance(response).Success? ==> |FetchAdvance(response).value| == |response.body|
  {
  }
}
