/** The fuel ("diesel") service: the request bodies it sends and the way it
    turns the server's JSON into `FuelRecord`s. The HTTP exchange itself is a
    parameter: `server` answers a request body with a `Response`. */
module FuelService {
  import opened Common
  import opened Records

  /** The van number every fuel request carries. */
  const DefaultVanNo: string := "VAN001"

  /** What is sent when the record names no driver. */
  const DefaultDriver: string := "Default Driver"

  /** The JSON body of a create or update request. */
  datatype RequestBody = RequestBody(vanNo: string, amount: real, description: string, date: string, driverName: string)

  /** One fuel record as the server returns it. */
  datatype WireItem = WireItem(id: string, date: string, description: string, amount: real, driverName: Option<string>)

  /** `data.driverName || 'Default Driver'` */
  function DriverOrDefault(driverName: Option<string>): string
  {
    match driverName
    case Some(n) => if n == "" then DefaultDriver else n
    case None => DefaultDriver
  }

  function ToRequestBody(data: FuelData): (b: RequestBody)
    ensures b.vanNo == DefaultVanNo && b.amount == data.cost
    ensures b.description == data.description && b.date == data.date
    ensures b.driverName != ""
  {
    RequestBody(DefaultVanNo, data.cost, data.description, data.date, DriverOrDefault(data.driverName))
  }

  /** The local record for a wire item: `amount` becomes `cost`, and no
      `paidByDriver` is set. */
  function ToRecord(item: WireItem): FuelRecord
  {
    FuelRecord(item.id, item.date, item.description, item.amount, item.driverName, None)
  }

  /** `data.map(item => ...)`: one record per item, in order. */
  function ToRecords(items: seq<WireItem>): (r: seq<FuelRecord>)
    ensures |r| == |items|
    ensures forall i :: 0 <= i < |items| ==> r[i] == ToRecord(items[i])
  {
    Map(items, ToRecord)
  }

  /** Every failure, whatever its cause, is replaced by one fixed message. */
  function Settle<T, U>(response: Response<T>, convert: T -> U, message: string): (r: Outcome<U>)
    ensures r.Success? <==> response.Ok?
    ensures response.Ok? ==> r.value == convert(response.body)
    ensures !response.Ok? ==> r.thrown == ErrorObject(message)
  {
    match response
    case Ok(body) => Success(convert(body))
    case _ => Failure(ErrorObject(message))
  }

  function CreateFuel(data: FuelData, server: RequestBody -> Response<WireItem>): Outcome<FuelRecord>
  {
    Settle(server(ToRequestBody(data)), ToRecord, "Failed to create fuel record")
  }

  function UpdateFuel(id: string, data: FuelData, server: (string, RequestBody) -> Response<WireItem>): Outcome<FuelRecord>
  {
    Settle(server(id, ToRequestBody(data)), ToRecord, "Failed to update fuel record")
  }

  function DeleteFuel(id: string, server: string -> Response<()>): Outcome<()>
  {
    Settle(server(id), (u: ()) => u, "Failed to delete fuel record")
  }

  function FetchFuel(response: Response<seq<WireItem>>): Outcome<seq<FuelRecord>>
  {
    Settle(response, ToRecords, "Failed to fetch fuel records")
  }

  /** A server that stores the body it is sent under `id` and answers with it. */
  function Echo(id: string, b: RequestBody): WireItem
  {
    WireItem(id, b.date, b.description, b.amount, Some(b.driverName))
  }

  /** Creating through a storing server gives back the cost, date and
      description sent; the driver comes back defaulted and `paidByDriver` is
      lost. */
  lemma CreateRoundTrip(id: string, data: FuelData)
    ensures CreateFuel(data, b => Ok(Echo(id, b)))
            == Success(FuelRecord(id, data.date, data.description, data.cost,
                                  Some(DriverOrDefault(data.driverName)), None))
    ensures data.driverName.Some? && data.driverName.value != "" ==>
              CreateFuel(data, b => Ok(Echo(id, b))).value.driverName == data.driverName
  {
  }

  /** The body never depends on `paidByDriver`, and a missing or empty driver
      name are sent alike. */
  lemma PaidByDriverNotSent(data: FuelData, paid: Option<bool>)
    ensures ToRequestBody(data.(paidByDriver := paid)) == ToRequestBody(data)
    ensures ToRequestBody(data.(driverName := None)) == ToRequestBody(data.(driverName := Some("")))
  {
  }

  /** Each operation fails exactly when its exchange fails, always with the
      same fixed message. */
  lemma FailuresAreFixed(id: string, data: FuelData, create: RequestBody -> Response<WireItem>,
                         delete: string -> Response<()>, response: Response<seq<WireItem>>)
    ensures CreateFuel(data, create).Failure? <==> !create(ToRequestBody(data)).Ok?
    ensures CreateFuel(data, create).Failure? ==> CreateFuel(data, create).thrown == ErrorObject("Failed to create fuel record")
    ensures DeleteFuel(id, delete).Failure? ==> DeleteFuel(id, delete).thrown == ErrorObject("Failed to delete fuel record")
    ensures FetchFuel(response).Failure? <==> !response.Ok?
    ensures FetchFuel(response).Failure? ==> FetchFuel(response).thrown == ErrorObject("Failed to fetch fuel records")
    ensures FetchFuel(response).Success? ==> |FetchFuel(response).value| == |response.body|
  {
  }
}
