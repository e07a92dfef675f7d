/** The advance entry form: three fields, the change handler, and the submit
    that hands the advance to the parent with a fresh id and starts over. */
module AdvanceForm {
  import opened Common
  import opened Records

  const EmptyAdvance: AdvanceData := AdvanceData("", "", 0.0)

  datatype TextField = Date | DriverName
  datatype ChangeEvent = TextChange(field: TextField, value: string) | AmountChange(parsed: Option<real>)

  /** The `setFormData` update of `handleChange`. */
  function ApplyChange(prev: AdvanceData, e: ChangeEvent): AdvanceData
  {
    match e
    case TextChange(Date, v) => prev.(date := v)
    case TextChange(DriverName, v) => prev.(driverName := v)
    case AmountChange(parsed) => prev.(amount := NumberOrZero(parsed))
  }

  /** Each change sets its own field, to the raw text or the parsed number (0
      for NaN), and no other. */
  lemma ChangeTouchesOneField(prev: AdvanceData, e: ChangeEvent)
    ensures var next := ApplyChange(prev, e);
            (next.date == prev.date <== !(e.TextChange? && e.field == Date))
            && (next.driverName == prev.driverName <== !(e.TextChange? && e.field == DriverName))
            && (next.amount == prev.amount <== !e.AmountChange?)
    ensures e.TextChange? && e.field == Date ==> ApplyChange(prev, e).date == e.value
    ensures e.TextChange? && e.field == DriverName ==> ApplyChange(prev, e).driverName == e.value
    ensures e.AmountChange? ==> ApplyChange(prev, e).amount == NumberOrZero(e.parsed)
  {
  }

  /** `{ ...formData, id }` */
  function WithId(data: AdvanceData, id: string): AdvanceRecord
  {
    AdvanceRecord(id, data.date, data.driverName, data.amount)
  }

  function WithoutId(r: AdvanceRecord): AdvanceData
  {
    AdvanceData(r.date, r.driverName, r.amount)
  }

  /** The record carries the form unchanged: removing the id gives it back,
      and the id is the one supplied. */
  lemma SubmissionKeepsData(data: AdvanceData, id: string, r: AdvanceRecord)
    ensures WithoutId(WithId(data, id)) == data && WithId(data, id).id == id
    ensures WithId(WithoutId(r), r.id) == r
  {
  }

  class Form {
    var formData: AdvanceData

    constructor()
      ensures formData == EmptyAdvance
    {
      formData := EmptyAdvance;
    }

    method HandleChange(e: ChangeEvent)
      modifies this
      ensures formData == ApplyChange(old(formData), e)
    {
      formData := ApplyChange(formData, e);
    }

    /** `handleSubmit`; `now` is `Date.now().toString()`. The parent receives
        the advance with that id, and the form is emptied. */
    method HandleSubmit(now: string) returns (submitted: AdvanceRecord)
      modifies this
      ensures submitted == WithId(old(formData), now)
      ensures formData == EmptyAdvance
    {
      submitted := WithId(formData, now);
      formData := EmptyAdvance;
    }
  }
}
