/** The delivery entry form: its fields, the bag count derived from the
    wayment, the change handler, field validation, the trip payload it sends
    and the submit sequence (save the trip, upload its image, notify the
    parent). The trip service is not part of this model: its answers are
    parameters of the submit handler. */
module DeliveryForm {
  import opened Common

  /** Weight of one bag: the wayment divided by it, rounded up, is the bag
      count. */
  const BagWeight: real := 78.0

  /** `Math.ceil` */
  function Ceil(x: real): (c: int)
    ensures (c - 1) as real < x <= c as real
  {
    if x.Floor as real == x then x.Floor else x.Floor + 1
  }

  /** `calculateBags`: the fewest bags that hold the wayment. */
  function CalculateBags(wayment: real): (bags: int)
    ensures (bags - 1) as real * BagWeight < wayment <= bags as real * BagWeight
  {
    Ceil(wayment / BagWeight)
  }

  lemma CalculateBagsExamples()
    ensures CalculateBags(0.0) == 0
    ensures CalculateBags(780.0) == 10
    ensures CalculateBags(781.0) == 11
  {
    CalculateBagsExact(0.0, 0);
    CalculateBagsExact(780.0, 10);
    CalculateBagsExact(781.0, 11);
  }

  /** The bag count is the only integer meeting the bounds of its contract. */
  lemma CalculateBagsExact(wayment: real, bags: int)
    requires (bags - 1) as real * BagWeight < wayment <= bags as real * BagWeight
    ensures CalculateBags(wayment) == bags
  {
  }

  /** A file chosen in the image picker. */
  datatype ImageFile = ImageFile(name: string)

  /** `DeliveryFormData` */
  datatype FormData = FormData(
    from: string,
    to: string,
    deliveryDate: string,
    wayment: real,
    numberOfBags: real,
    rentPerBag: real,
    driverName: string,
    driverRent: real,
    miscSpends: real,
    image: Option<ImageFile>,
    advance: real)

  /** `initialFormData` */
  const InitialFormData: FormData := FormData("", "", "", 0.0, 0.0, 0.0, "", 0.0, 0.0, None, 0.0)

  /** The inputs of type text or date, and those of type number. The bag
      count input is disabled in the form, so a `NumberOfBags` change is one
      the handler accepts but the page never sends; the count is set by a
      wayment change. */
  datatype TextField = From | To | DeliveryDate | DriverName
  datatype NumberField = Wayment | NumberOfBags | RentPerBag | DriverRent | MiscSpends | Advance

  /** A change event: the input's name, and its value (for a number input,
      what `parseFloat` made of it, `None` for NaN). */
  datatype ChangeEvent = TextChange(text: TextField, value: string) | NumberChange(number: NumberField, parsed: Option<real>)

  function SetText(d: FormData, field: TextField, value: string): FormData
  {
    match field
    case From => d.(from := value)
    case To => d.(to := value)
    case DeliveryDate => d.(deliveryDate := value)
    case DriverName => d.(driverName := value)
  }

  function SetNumber(d: FormData, field: NumberField, value: real): FormData
  {
    match field
    case Wayment => d.(wayment := value)
    case NumberOfBags => d.(numberOfBags := value)
    case RentPerBag => d.(rentPerBag := value)
    case DriverRent => d.(driverRent := value)
    case MiscSpends => d.(miscSpends := value)
    case Advance => d.(advance := value)
  }

  function GetNumber(d: FormData, field: NumberField): real
  {
    match field
    case Wayment => d.wayment
    case NumberOfBags => d.numberOfBags
    case RentPerBag => d.rentPerBag
    case DriverRent => d.driverRent
    case MiscSpends => d.miscSpends
    case Advance => d.advance
  }

  function GetText(d: FormData, field: TextField): string
  {
    match field
    case From => d.from
    case To => d.to
    case DeliveryDate => d.deliveryDate
    case DriverName => d.driverName
  }

  /** The `setFormData` update of `handleChange`: a number is stored parsed,
      with NaN and 0 stored as 0, and a new wayment also recomputes the bag
      count; text is stored verbatim. */
  function ApplyChange(prev: FormData, e: ChangeEvent): FormData
  {
    match e
    case TextChange(f, v) => SetText(prev, f, v)
    case NumberChange(f, parsed) =>
      var next := SetNumber(prev, f, NumberOrZero(parsed));
      if f == Wayment then next.(numberOfBags := CalculateBags(NumberOrZero(parsed)) as real) else next
  }

  /** A text change stores the value in its field and touches no other. */
  lemma TextChangeTouchesOneField(prev: FormData, f: TextField, value: string)
    ensures GetText(ApplyChange(prev, TextChange(f, value)), f) == value
    ensures forall g :: g != f ==> GetText(ApplyChange(prev, TextChange(f, value)), g) == GetText(prev, g)
    ensures forall g :: GetNumber(ApplyChange(prev, TextChange(f, value)), g) == GetNumber(prev, g)
    ensures ApplyChange(prev, TextChange(f, value)).image == prev.image
  {
  }

  /** A number change stores the parsed value or 0 in its field; only a
      wayment change also sets the bag count, to the bags that wayment needs;
      nothing else changes. */
  lemma NumberChangeTouchesOneField(prev: FormData, f: NumberField, parsed: Option<real>)
    ensures GetNumber(ApplyChange(prev, NumberChange(f, parsed)), f) == NumberOrZero(parsed)
    ensures f == Wayment ==>
              ApplyChange(prev, NumberChange(f, parsed)).numberOfBags == CalculateBags(NumberOrZero(parsed)) as real
    ensures forall g :: g != f && (f != Wayment || g != NumberOfBags) ==>
              GetNumber(ApplyChange(prev, NumberChange(f, parsed)), g) == GetNumber(prev, g)
    ensures forall g :: GetText(ApplyChange(prev, NumberChange(f, parsed)), g) == GetText(prev, g)
    ensures ApplyChange(prev, NumberChange(f, parsed)).image == prev.image
    ensures parsed.None? ==> GetNumber(ApplyChange(prev, NumberChange(f, parsed)), f) == 0.0
  {
  }

  /** `FormErrors` */
  type Errors = map<string, string>

  /** One check of `validateForm`: the error key, whether the check fails,
      and the message recorded when it does. */
  datatype Check = Check(key: string, fails: bool, message: string)

  /** The checks in the order `validateForm` makes them. The advance, the bag
      count and the image are never checked. */
  function Checks(d: FormData): seq<Check>
  {
    [Check("from", d.from == "", "From location is required"),
     Check("to", d.to == "", "To location is required"),
     Check("deliveryDate", d.deliveryDate == "", "Delivery date is required"),
     Check("wayment", d.wayment <= 0.0, "Wayment must be greater than 0"),
     Check("rentPerBag", d.rentPerBag <= 0.0, "Rent per bag must be greater than 0"),
     Check("driverName", d.driverName == "", "Driver name is required"),
     Check("driverRent", d.driverRent <= 0.0, "Driver rent must be greater than 0"),
     Check("miscSpends", d.miscSpends < 0.0, "Misc spends cannot be negative")]
  }

  /** Records, one check after the other, the message of every failing check
      under its key. */
  function Collect(cs: seq<Check>, e: Errors): Errors
  {
    if |cs| == 0 then e else Collect(cs[1..], if cs[0].fails then e[cs[0].key := cs[0].message] else e)
  }

  /** The errors `validateForm` collects into `newErrors`. */
  function Validate(d: FormData): Errors
  {
    Collect(Checks(d), map[])
  }

  /** Some check with key `k` fails. */
  predicate Fails(cs: seq<Check>, k: string)
  {
    exists i :: 0 <= i < |cs| && cs[i].fails && cs[i].key == k
  }

  /** A key ends up recorded exactly when it was already or some check with
      that key fails. */
  lemma {:induction false} CollectKeys(cs: seq<Check>, e: Errors, k: string)
    ensures k in Collect(cs, e) <==> k in e || Fails(cs, k)
    decreases |cs|
  {
    if |cs| > 0 {
      var e' := if cs[0].fails then e[cs[0].key := cs[0].message] else e;
      CollectKeys(cs[1..], e', k);
      if Fails(cs, k) {
        var i :| 0 <= i < |cs| && cs[i].fails && cs[i].key == k;
        if i > 0 {
          assert cs[1..][i - 1] == cs[i];
        }
      }
      if Fails(cs[1..], k) {
        var i :| 0 <= i < |cs[1..]| && cs[1..][i].fails && cs[1..][i].key == k;
        assert cs[i + 1] == cs[1..][i];
      }
    }
  }

  /** Checks with other keys leave a recorded message alone. */
  lemma {:induction false} CollectKeeps(cs: seq<Check>, e: Errors, k: string)
    requires k in e
    requires forall i :: 0 <= i < |cs| ==> cs[i].key != k
    ensures k in Collect(cs, e) && Collect(cs, e)[k] == e[k]
    decreases |cs|
  {
    if |cs| > 0 {
      var e' := if cs[0].fails then e[cs[0].key := cs[0].message] else e;
      CollectKeeps(cs[1..], e', k);
    }
  }

  /** A failing check whose key no other check uses leaves its message. */
  lemma {:induction false} CollectMessage(cs: seq<Check>, e: Errors, j: int)
    requires 0 <= j < |cs| && cs[j].fails
    requires forall i :: 0 <= i < |cs| && i != j ==> cs[i].key != cs[j].key
    ensures cs[j].key in Collect(cs, e) && Collect(cs, e)[cs[j].key] == cs[j].message
    decreases |cs|
  {
    var e' := if cs[0].fails then e[cs[0].key := cs[0].message] else e;
    if j == 0 {
      CollectKeeps(cs[1..], e', cs[0].key);
    } else {
      CollectMessage(cs[1..], e', j - 1);
    }
  }

  lemma FailsAt(cs: seq<Check>, k: string, j: int)
    requires 0 <= j < |cs| && cs[j].key == k
    requires forall i :: 0 <= i < |cs| && i != j ==> cs[i].key != k
    ensures Fails(cs, k) == cs[j].fails
  {
    if cs[j].fails {
      assert cs[j].fails && cs[j].key == k;
    }
  }

  /** The form passes every field check. */
  predicate Acceptable(d: FormData)
  {
    d.from != "" && d.to != "" && d.deliveryDate != "" && d.wayment > 0.0 && d.rentPerBag > 0.0
    && d.driverName != "" && d.driverRent > 0.0 && d.miscSpends >= 0.0
  }

  /** Each field's key is recorded exactly when its check fails, and then
      with that check's message. */
  lemma ValidateKeys(d: FormData)
    ensures ("from" in Validate(d)) == (d.from == "")
    ensures ("to" in Validate(d)) == (d.to == "")
    ensures ("deliveryDate" in Validate(d)) == (d.deliveryDate == "")
    ensures ("wayment" in Validate(d)) == (d.wayment <= 0.0)
    ensures ("rentPerBag" in Validate(d)) == (d.rentPerBag <= 0.0)
    ensures ("driverName" in Validate(d)) == (d.driverName == "")
    ensures ("driverRent" in Validate(d)) == (d.driverRent <= 0.0)
    ensures ("miscSpends" in Validate(d)) == (d.miscSpends < 0.0)
    ensures forall j :: 0 <= j < |Checks(d)| && Checks(d)[j].fails ==>
              Validate(d)[Checks(d)[j].key] == Checks(d)[j].message
  {
    var cs := Checks(d);
    var keys := ["from", "to", "deliveryDate", "wayment", "rentPerBag", "driverName", "driverRent", "miscSpends"];
    assert forall i :: 0 <= i < |cs| ==> cs[i].key == keys[i];
    forall j | 0 <= j < |keys|
      ensures keys[j] in Validate(d) <==> cs[j].fails
      ensures cs[j].fails ==> Validate(d)[cs[j].key] == cs[j].message
    {
      CollectKeys(cs, map[], keys[j]);
      FailsAt(cs, keys[j], j);
      if cs[j].fails {
        CollectMessage(cs, map[], j);
      }
    }
    assert keys[0] in Validate(d) <==> cs[0].fails;
    assert keys[1] in Validate(d) <==> cs[1].fails;
    assert keys[2] in Validate(d) <==> cs[2].fails;
    assert keys[3] in Validate(d) <==> cs[3].fails;
    assert keys[4] in Validate(d) <==> cs[4].fails;
    assert keys[5] in Validate(d) <==> cs[5].fails;
    assert keys[6] in Validate(d) <==> cs[6].fails;
    assert keys[7] in Validate(d) <==> cs[7].fails;
  }

  /** No error is recorded exactly when every check passes, and only the
      eight checked fields can carry an error. */
  lemma ValidateExact(d: FormData)
    ensures Validate(d) == map[] <==> Acceptable(d)
    ensures forall k :: k in Validate(d) ==> exists j :: 0 <= j < |Checks(d)| && Checks(d)[j].key == k
  {
    ValidateKeys(d);
    forall k | k in Validate(d)
      ensures exists j :: 0 <= j < |Checks(d)| && Checks(d)[j].key == k
    {
      CollectKeys(Checks(d), map[], k);
    }
    if Acceptable(d) {
      forall k | k in Validate(d)
        ensures false
      {
        CollectKeys(Checks(d), map[], k);
      }
    }
  }

  /** Neither the advance, the image nor the bag count affects validation. */
  lemma ValidateIgnoresUncheckedFields(d: FormData, advance: real, image: Option<ImageFile>, bags: real)
    ensures Validate(d.(advance := advance, image := image, numberOfBags := bags)) == Validate(d)
  {
  }

  /** The empty form fails every check except the misc spends one. */
  lemma InitialFormIsRejected()
    ensures !("miscSpends" in Validate(InitialFormData))
    ensures "from" in Validate(InitialFormData) && "wayment" in Validate(InitialFormData)
    ensures "rentPerBag" in Validate(InitialFormData) && "driverRent" in Validate(InitialFormData)
  {
    ValidateKeys(InitialFormData);
  }

  /** The trip service's `TripData`, without the server-assigned parts. */
  datatype TripPayload = TripPayload(
    fromLocation: string,
    toLocation: string,
    dateOfDelivery: string,
    wayment: real,
    numberOfBags: real,
    rentPerBag: real,
    driverName: string,
    driverRent: real,
    miscSpends: real,
    vanNo: string,
    advance: real)

  /** The van number every trip is sent with. */
  const DefaultVanNo: string := "default"

  /** `tripData`: the route and date renamed, the figures and the advance
      copied, the image left out. */
  function ToPayload(d: FormData): (t: TripPayload)
    ensures t.vanNo == DefaultVanNo
    ensures t.fromLocation == d.from && t.toLocation == d.to && t.dateOfDelivery == d.deliveryDate
    ensures t.driverName == d.driverName && t.advance == d.advance
    ensures t.wayment == d.wayment && t.numberOfBags == d.numberOfBags && t.rentPerBag == d.rentPerBag
    ensures t.driverRent == d.driverRent && t.miscSpends == d.miscSpends
  {
    TripPayload(d.from, d.to, d.deliveryDate, d.wayment, d.numberOfBags, d.rentPerBag, d.driverName,
                d.driverRent, d.miscSpends, DefaultVanNo, d.advance)
  }

  /** The form a payload was built from, given the image it left out. */
  function FromPayload(t: TripPayload, image: Option<ImageFile>): FormData
  {
    FormData(t.fromLocation, t.toLocation, t.dateOfDelivery, t.wayment, t.numberOfBags, t.rentPerBag,
             t.driverName, t.driverRent, t.miscSpends, image, t.advance)
  }

  /** The payload loses nothing of the form but its image, and every payload
      with the default van number comes from some form. */
  lemma PayloadRoundTrip(d: FormData, t: TripPayload)
    ensures FromPayload(ToPayload(d), d.image) == d
    ensures t.vanNo == DefaultVanNo ==> ToPayload(FromPayload(t, None)) == t
  {
  }

  /** The saved trip as the server returns it; only its id matters here. */
  datatype SavedTrip = SavedTrip(id: Option<int>)

  /** What `handleSubmit` asks of the outside world, in order. */
  datatype Effect = CreateTrip(payload: TripPayload) | UploadImage(file: ImageFile, tripId: int) | Submitted(data: FormData)

  const SubmitFallback: string := "An error occurred"

  class Form {
    var formData: FormData
    var errors: Errors
    var isLoading: bool
    var submitError: Option<string>
    var submitSuccess: bool

    constructor()
      ensures formData == InitialFormData && errors == map[] && !isLoading
      ensures submitError == None && !submitSuccess
    {
      formData := InitialFormData;
      errors := map[];
      isLoading := false;
      submitError := None;
      submitSuccess := false;
    }

    /** Every change clears the submit message and flag, then applies the
        change to the form. */
    method HandleChange(e: ChangeEvent)
      modifies this
      ensures formData == ApplyChange(old(formData), e)
      ensures submitError == None && !submitSuccess
      ensures errors == old(errors) && isLoading == old(isLoading)
    {
      submitError := None;
      submitSuccess := false;
      formData := ApplyChange(formData, e);
    }

    method HandleImageUpload(file: Option<ImageFile>)
      modifies this
      ensures formData == old(formData).(image := file)
      ensures errors == old(errors) && isLoading == old(isLoading)
      ensures submitError == old(submitError) && submitSuccess == old(submitSuccess)
    {
      formData := formData.(image := file);
    }

    /** Records the errors of the current form and reports whether there are
        none. */
    method ValidateForm() returns (valid: bool)
      modifies this
      ensures errors == Validate(formData)
      ensures valid <==> Acceptable(formData)
      ensures formData == old(formData) && isLoading == old(isLoading)
      ensures submitError == old(submitError) && submitSuccess == old(submitSuccess)
    {
      errors := Validate(formData);
      ValidateExact(formData);
      valid := |errors| == 0;
      assert valid <==> errors == map[];
    }

    /** `handleSubmit`, given the service's answers to the trip creation and
        to the image upload. A form that fails validation sends nothing and
        never starts loading. Otherwise the trip is created; an image is
        uploaded only when one is chosen and the saved trip has a non-zero id;
        on success the parent receives the form, which is then reset, and on
        failure the form is kept and the error shown. Loading ends either
        way. */
    method HandleSubmit(created: Outcome<SavedTrip>, uploaded: Outcome<()>) returns (effects: seq<Effect>)
      modifies this
      ensures errors == Validate(old(formData))
      ensures !Acceptable(old(formData)) ==>
                effects == [] && formData == old(formData) && isLoading == old(isLoading)
                && submitError == old(submitError) && submitSuccess == old(submitSuccess)
      ensures Acceptable(old(formData)) ==> !isLoading && |effects| >= 1 && effects[0] == CreateTrip(ToPayload(old(formData)))
      ensures Acceptable(old(formData)) && created.Failure? ==>
                effects == [CreateTrip(ToPayload(old(formData)))] && formData == old(formData)
                && submitError == Some(MessageOr(created.thrown, SubmitFallback)) && !submitSuccess
      ensures var uploads := Acceptable(old(formData)) && created.Success? && old(formData).image.Some?
                             && created.value.id.Some? && created.value.id.value != 0;
              (uploads && uploaded.Failure? ==>
                 effects == [CreateTrip(ToPayload(old(formData))), UploadImage(old(formData).image.value, created.value.id.value)]
                 && formData == old(formData) && submitError == Some(MessageOr(uploaded.thrown, SubmitFallback))
                 && !submitSuccess)
              && (uploads && uploaded.Success? ==>
                    effects == [CreateTrip(ToPayload(old(formData))), UploadImage(old(formData).image.value, created.value.id.value),
                                Submitted(old(formData))]
                    && formData == InitialFormData && submitError == None && submitSuccess)
              && (Acceptable(old(formData)) && created.Success? && !uploads ==>
                    effects == [CreateTrip(ToPayload(old(formData))), Submitted(old(formData))]
                    && formData == InitialFormData && submitError == None && submitSuccess)
    {
      var valid := ValidateForm();
      if !valid {
        return [];
      }
      isLoading := true;
      submitError := None;
      submitSuccess := false;
      var data := formData;
      effects := [CreateTrip(ToPayload(data))];
      match created {
        case Failure(thrown) =>
          submitError := Some(MessageOr(thrown, SubmitFallback));
        case Success(savedTrip) =>
          var failed := false;
          if data.image.Some? && savedTrip.id.Some? && savedTrip.id.value != 0 {
            effects := effects + [UploadImage(data.image.value, savedTrip.id.value)];
            if uploaded.Failure? {
              submitError := Some(MessageOr(uploaded.thrown, SubmitFallback));
              failed := true;
            }
          }
          if !failed {
            submitSuccess := true;
            effects := effects + [Submitted(data)];
            formData := InitialFormData;
          }
      }
      isLoading := false;
    }
  }
}
