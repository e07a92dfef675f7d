/** The maintenance entry form: three fields, the change handler, and the
    submit that hands the entry to the parent with a fresh id and starts
    over. */
module MaintenanceForm {
  import opened Common

  /** What the form holds: the date, the description and the cost. */
  datatype Entry = Entry(date: string, description: string, cost: real)

  /** What `onSubmit` receives: the entry and its id. The object has no van
      number, driver or `paidByDriver`, though its declared type does. */
  datatype Submission = Submission(id: string, date: string, description: string, cost: real)

  const EmptyEntry: Entry := Entry("", "", 0.0)

  datatype TextField = Date | Description
  datatype ChangeEvent = TextChange(field: TextField, value: string) | CostChange(parsed: Option<real>)

  /** The `setFormData` update of `handleChange`. */
  function ApplyChange(prev: Entry, e: ChangeEvent): Entry
  {
    match e
    case TextChange(Date, v) => prev.(date := v)
    case TextChange(Description, v) => prev.(description := v)
    case CostChange(parsed) => prev.(cost := NumberOrZero(parsed))
  }

  /** Each change sets its own field, to the raw text or the parsed number (0
      for NaN), and no other. */
  lemma ChangeTouchesOneField(prev: Entry, e: ChangeEvent)
    ensures var next := ApplyChange(prev, e);
            (next.date == prev.date <== !(e.TextChange? && e.field == Date))
            && (next.description == prev.description <== !(e.TextChange? && e.field == Description))
            && (next.cost == prev.cost <== !e.CostChange?)
    ensures e.TextChange? && e.field == Date ==> ApplyChange(prev, e).date == e.value
    ensures e.TextChange? && e.field == Description ==> ApplyChange(prev, e).description == e.value
    ensures e.CostChange? ==> ApplyChange(prev, e).cost == NumberOrZero(e.parsed)
  {
  }

  /** `{ ...formData, id }` */
  function WithId(entry: Entry, id: string): Submission
  {
    Submission(id, entry.date, entry.description, entry.cost)
  }

  function WithoutId(s: Submission): Entry
  {
    Entry(s.date, s.description, s.cost)
  }

  /** The submission carries the entry unchanged: removing the id gives it
      back, and the id is the one supplied. */
  lemma SubmissionKeepsEntry(entry: Entry, id: string, s: Submission)
    ensures WithoutId(WithId(entry, id)) == entry && WithId(entry, id).id == id
    ensures WithId(WithoutId(s), s.id) == s
  {
  }

  class Form {
    var formData: Entry

    constructor()
      ensures formData == EmptyEntry
    {
      formData := EmptyEntry;
    }

    method HandleChange(e: ChangeEvent)
      modifies this
      ensures formData == ApplyChange(old(formData), e)
    {
      formData := ApplyChange(formData, e);
    }

    /** `handleSubmit`; `now` is `Date.now().toString()`. The parent receives
        the entry with that id, and the form is emptied. */
    method HandleSubmit(now: string) returns (submitted: Submission)
      modifies this
      ensures submitted == WithId(old(formData), now)
      ensures formData == EmptyEntry
    {
      submitted := WithId(formData, now);
      formData := EmptyEntry;
    }
  }
}
