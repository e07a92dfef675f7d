/** The fuel entry form: its initial state, the change handler, and the
    submit handler that routes to the fuel service's create or update. The
    service exchange is a parameter of the submit handler. */
module FuelForm {
  import opened Common
  import opened Records
  import FuelService

  /** The form `useState` starts from: the record being edited, or an empty
      entry that names an empty driver and is not paid by the driver. */
  function InitialData(initialData: Option<FuelRecord>): (d: FuelData)
    ensures initialData.None? ==> d == FuelData("", "", 0.0, Some(""), Some(false))
    ensures initialData.Some? ==> d.date == initialData.value.date && d.cost == initialData.value.cost
                                  && d.description == initialData.value.description
                                  && d.driverName == initialData.value.driverName
                                  && d.paidByDriver == initialData.value.paidByDriver
  {
    match initialData
    case None => FuelData("", "", 0.0, Some(""), Some(false))
    case Some(r) => FuelData(r.date, r.description, r.cost, r.driverName, r.paidByDriver)
  }

  /** The inputs: the date and the two text inputs, the number input for the
      cost, and the checkbox. */
  datatype TextField = Date | DriverName | Description
  datatype ChangeEvent = TextChange(field: TextField, value: string) | CostChange(parsed: Option<real>) | PaidChange(checked: bool)

  /** The `setFormData` update of `handleChange`: a checkbox stores `checked`,
      the number input its parsed value or 0, the others their raw value. */
  function ApplyChange(prev: FuelData, e: ChangeEvent): FuelData
  {
    match e
    case TextChange(Date, v) => prev.(date := v)
    case TextChange(DriverName, v) => prev.(driverName := Some(v))
    case TextChange(Description, v) => prev.(description := v)
    case CostChange(parsed) => prev.(cost := NumberOrZero(parsed))
    case PaidChange(checked) => prev.(paidByDriver := Some(checked))
  }

  /** Each change sets its own field and no other. */
  lemma ChangeTouchesOneField(prev: FuelData, e: ChangeEvent)
    ensures var next := ApplyChange(prev, e);
            (next.date == prev.date <== !(e.TextChange? && e.field == Date))
            && (next.driverName == prev.driverName <== !(e.TextChange? && e.field == DriverName))
            && (next.description == prev.description <== !(e.TextChange? && e.field == Description))
            && (next.cost == prev.cost <== !e.CostChange?)
            && (next.paidByDriver == prev.paidByDriver <== !e.PaidChange?)
    ensures e.CostChange? ==> ApplyChange(prev, e).cost == NumberOrZero(e.parsed)
    ensures e.PaidChange? ==> ApplyChange(prev, e).paidByDriver == Some(e.checked)
    ensures e.TextChange? && e.field == Date ==> ApplyChange(prev, e).date == e.value
    ensures e.TextChange? && e.field == DriverName ==> ApplyChange(prev, e).driverName == Some(e.value)
    ensures e.TextChange? && e.field == Description ==> ApplyChange(prev, e).description == e.value
  {
  }

  /** The service call a submit makes. */
  datatype Effect = CreateRequest(data: FuelData) | UpdateRequest(id: string, data: FuelData) | Submitted

  /** `isEdit && initialData ? updateFuel(initialData.id, formData) : createFuel(formData)` */
  function Route(initialData: Option<FuelRecord>, isEdit: bool, data: FuelData): (call: Effect)
    ensures call.UpdateRequest? <==> isEdit && initialData.Some?
    ensures call.UpdateRequest? ==> call.id == initialData.value.id
    ensures call.CreateRequest? <==> !(isEdit && initialData.Some?)
    ensures call.data == data
  {
    if isEdit && initialData.Some? then UpdateRequest(initialData.value.id, data) else CreateRequest(data)
  }

  /** An update is sent exactly when the form is in edit mode and has a
      record, and it names that record; every call carries the form as it
      is. */
  lemma RouteIsUpdateIffEditing(initialData: Option<FuelRecord>, isEdit: bool, data: FuelData)
    ensures Route(initialData, isEdit, data).UpdateRequest? <==> isEdit && initialData.Some?
    ensures Route(initialData, isEdit, data).UpdateRequest? ==> Route(initialData, isEdit, data).id == initialData.value.id
    ensures Route(initialData, isEdit, data).data == data
  {
  }

  const SubmitFallback: string := "An error occurred"

  class Form {
    const initialData: Option<FuelRecord>
    const isEdit: bool
    var formData: FuelData
    var isLoading: bool
    var error: Option<string>

    constructor(initialData: Option<FuelRecord>, isEdit: bool)
      ensures this.initialData == initialData && this.isEdit == isEdit
      ensures formData == InitialData(initialData) && !isLoading && error == None
    {
      this.initialData := initialData;
      this.isEdit := isEdit;
      formData := InitialData(initialData);
      isLoading := false;
      error := None;
    }

    method HandleChange(e: ChangeEvent)
      modifies this
      ensures formData == ApplyChange(old(formData), e)
      ensures isLoading == old(isLoading) && error == old(error)
    {
      formData := ApplyChange(formData, e);
    }

    /** `handleSubmit`, given the server's answer to the request. The routed
        call is made with the form as it is; the parent is notified only after
        it succeeds; a failure shows the service's fixed message. The previous
        error is cleared first, and loading ends either way. The form itself
        is never reset. */
    method HandleSubmit(response: Response<FuelService.WireItem>) returns (effects: seq<Effect>)
      modifies this
      ensures |effects| >= 1 && effects[0] == Route(initialData, isEdit, old(formData))
      ensures response.Ok? ==> effects == [Route(initialData, isEdit, old(formData)), Submitted] && error == None
      ensures !response.Ok? ==> effects == [Route(initialData, isEdit, old(formData))]
      ensures !response.Ok? && effects[0].CreateRequest? ==> error == Some("Failed to create fuel record")
      ensures !response.Ok? && effects[0].UpdateRequest? ==> error == Some("Failed to update fuel record")
      ensures formData == old(formData) && !isLoading
    {
      isLoading := true;
      error := None;
      var call := Route(initialData, isEdit, formData);
      effects := [call];
      var outcome: Outcome<FuelRecord>;
      if call.UpdateRequest? {
        outcome := FuelService.UpdateFuel(call.id, formData, (_, _) => response);
      } else {
        outcome := FuelService.CreateFuel(formData, _ => response);
      }
      match outcome {
        case Success(_) =>
          effects := effects + [Submitted];
        case Failure(thrown) =>
          error := Some(MessageOr(thrown, SubmitFallback));
      }
      isLoading := false;
    }
  }
}
