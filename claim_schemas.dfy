/** The request body of a claim report (`ClaimCreate`): its field bounds and the incident-date
    validator. `today` stands for `date.today()`. */
module ClaimSchemas {
  import opened Wrappers
  import opened Seqs
  import opened Text
  import opened Records

  datatype ClaimCreate = ClaimCreate(
    category: string, subcategory: Option<string>, incidentDate: Date, incidentSummary: string,
    claimData: Json, appointmentRequested: Option<Date>, contactPreference: string,
    preferredContactTime: Option<string>, additionalNotes: Option<string>)

  /** The `ValueError` that `date(y, m, d)` raises on arguments it does not accept. */
  function DateConstructionError(y: int, m: int, d: int): Exc
  {
    if !(1 <= y <= 9999) then ValueError("year " + IntToString(y) + " is out of range")
    else if !(1 <= m <= 12) then ValueError("month must be in 1..12")
    else ValueError("day is out of range for month")
  }

  /** `validate_incident_date`: not after today, and not before the same calendar day two years
      earlier. That earlier day is built with `date(...)`, which raises when it does not exist. */
  function ValidateIncidentDate(v: Date, today: Date): (r: Outcome<Date>)
    ensures r.Ok? ==> r.value == v && DateLe(v, today)
    ensures r.Raise? ==> r.exc.typeName == "ValueError"
  {
    if DateLt(today, v) then Raise(ValueError("Incident date cannot be in the future"))
    else if !IsValidDate(today.year - 2, today.month, today.day) then
      Raise(DateConstructionError(today.year - 2, today.month, today.day))
    else if DateLt(v, Date(today.year - 2, today.month, today.day)) then
      Raise(ValueError("Incident date cannot be older than 2 years"))
    else Ok(v)
  }

  /** A date after today is refused with the "future" message. */
  lemma FutureIncidentRejected(v: Date, today: Date)
    requires DateLt(today, v)
    ensures ValidateIncidentDate(v, today) == Raise(ValueError("Incident date cannot be in the future"))
  {
  }

  /** On a day whose two-years-earlier twin exists, exactly the dates from that twin to today
      (both included) are accepted, and they come back unchanged. */
  lemma IncidentWindow(v: Date, today: Date)
    requires IsValidDate(today.year - 2, today.month, today.day)
    ensures ValidateIncidentDate(v, today).Ok?
        <==> DateLe(Date(today.year - 2, today.month, today.day), v) && DateLe(v, today)
    ensures ValidateIncidentDate(v, today).Ok? ==> ValidateIncidentDate(v, today).value == v
    ensures DateLt(v, Date(today.year - 2, today.month, today.day)) ==>
      ValidateIncidentDate(v, today) == Raise(ValueError("Incident date cannot be older than 2 years"))
  {
    var t := Date(today.year - 2, today.month, today.day);
    assert DateLt(t, today) by { assert t.year < today.year; }
    if DateLe(t, v) && DateLe(v, today) {
      assert !DateLt(today, v);
      assert !DateLt(v, t);
    }
  }

  /** The boundary: the same calendar day two years back is accepted. */
  lemma TwoYearBoundaryAccepted(today: Date)
    requires IsValidDate(today.year, today.month, today.day)
    requires IsValidDate(today.year - 2, today.month, today.day)
    ensures ValidateIncidentDate(Date(today.year - 2, today.month, today.day), today)
      == Ok(Date(today.year - 2, today.month, today.day))
  {
    IncidentWindow(Date(today.year - 2, today.month, today.day), today);
  }

  /** On 29 February the twin day two years back does not exist, so every date is refused. */
  lemma LeapDayRejectsEverything(v: Date, today: Date)
    requires today.month == 2 && today.day == 29 && IsLeapYear(today.year)
    ensures ValidateIncidentDate(v, today).Raise?
  {
    assert !IsLeapYear(today.year - 2) by {
      assert today.year % 4 == 0;
      assert (today.year - 2) % 4 == 2;
    }
  }

  /** The fields of `ClaimCreate`, in declaration order. */
  const ClaimFields: seq<string> := [
    "category", "subcategory", "incident_date", "incident_summary", "claim_data",
    "appointment_requested", "contact_preference", "preferred_contact_time", "additional_notes"]

  /** Whether pydantic refuses the named field of `c`: a bound of `Field(...)`, the date
      validator, or `claim_data` not being a dictionary. */
  predicate Refused(c: ClaimCreate, today: Date, field: string)
  {
    match field
    case "category" => |c.category| > 30
    case "subcategory" => c.subcategory.Some? && |c.subcategory.value| > 30
    case "incident_date" => ValidateIncidentDate(c.incidentDate, today).Raise?
    case "incident_summary" => |c.incidentSummary| < 10 || |c.incidentSummary| > 500
    case "claim_data" => !c.claimData.JObject?
    case "preferred_contact_time" => c.preferredContactTime.Some? && |c.preferredContactTime.value| > 20
    case "additional_notes" => c.additionalNotes.Some? && |c.additionalNotes.value| > 500
    case _ => false
  }

  function RefusedField(c: ClaimCreate, today: Date): string -> bool
  {
    (field: string) => Refused(c, today, field)
  }

  /** The fields pydantic refuses, in declaration order; the request is answered with a
      validation error unless the list is empty. */
  function FieldErrors(c: ClaimCreate, today: Date): (r: seq<string>)
    ensures forall f :: f in r ==> f in ClaimFields && Refused(c, today, f)
  {
    Filter(ClaimFields, RefusedField(c, today))
  }

  /** The bounds of the schema, stated field by field. */
  predicate WithinBounds(c: ClaimCreate, today: Date)
  {
    |c.category| <= 30
    && (c.subcategory.Some? ==> |c.subcategory.value| <= 30)
    && ValidateIncidentDate(c.incidentDate, today).Ok?
    && 10 <= |c.incidentSummary| <= 500
    && c.claimData.JObject?
    && (c.preferredContactTime.Some? ==> |c.preferredContactTime.value| <= 20)
    && (c.additionalNotes.Some? ==> |c.additionalNotes.value| <= 500)
  }

  /** Every field whose bound fails is reported, and the body is accepted exactly when all the
      bounds hold. */
  lemma FieldErrorsSpec(c: ClaimCreate, today: Date)
    ensures forall f :: f in ClaimFields ==> (f in FieldErrors(c, today) <==> Refused(c, today, f))
    ensures FieldErrors(c, today) == [] <==> WithinBounds(c, today)
  {
    forall f | f in ClaimFields
      ensures f in FieldErrors(c, today) <==> Refused(c, today, f)
    {
      FilterIn(ClaimFields, RefusedField(c, today), f);
    }
    if !WithinBounds(c, today) {
      var f :=
        if |c.category| > 30 then "category"
        else if c.subcategory.Some? && |c.subcategory.value| > 30 then "subcategory"
        else if ValidateIncidentDate(c.incidentDate, today).Raise? then "incident_date"
        else if !(10 <= |c.incidentSummary| <= 500) then "incident_summary"
        else if !c.claimData.JObject? then "claim_data"
        else if c.preferredContactTime.Some? && |c.preferredContactTime.value| > 20
        then "preferred_contact_time"
        else "additional_notes";
      assert f in ClaimFields && Refused(c, today, f);
      assert f in FieldErrors(c, today);
    }
    if WithinBounds(c, today) {
      FilterNone(ClaimFields, RefusedField(c, today));
    }
  }

  /** Parsing the request body: the validated model, or a `ValidationError` naming every refused
      field. The model is the body itself, as no validator here rewrites its value. */
  function ValidateClaim(raw: ClaimCreate, today: Date): (r: Outcome<ClaimCreate>)
    ensures r.Ok? <==> WithinBounds(raw, today)
    ensures r.Ok? ==> r.value == raw
    ensures r.Raise? ==> r.exc.IsInstance("ValueError")
  {
    FieldErrorsSpec(raw, today);
    var refused := FieldErrors(raw, today);
    if refused == [] then Ok(raw) else Raise(ValidationError(Join(refused, ", ")))
  }
}
