/**
 * The create-voyage form (`AddVoyageForm` in src/components/CreateVoyageForm.tsx):
 * the zod `FormSchema` that checks the five fields on submit, the effect that copies
 * the two composed timestamps into the form and flags an arrival earlier than the
 * departure, and the outcome of a submit: no request, a failed request, or a created
 * voyage after which the `voyages` query is invalidated.
 */
module VoyageForm {
  import opened Wrappers
  import opened Timestamps

  /** The form's values as react-hook-form holds them; every field may still be unset. */
  datatype FormValues = FormValues(
    departure: Option<Timestamp>,
    arrival: Option<Timestamp>,
    portOfLoading: Option<string>,
    portOfDischarge: Option<string>,
    vessel: Option<string>)

  /** The fields of `FormSchema`, in the order the schema declares them. */
  datatype Field = Departure | Arrival | PortOfLoading | PortOfDischarge | Vessel

  datatype FieldError = FieldError(field: Field, message: string)

  /** The values `FormSchema` accepts, passed on to the create mutation. */
  datatype Voyage = Voyage(
    departure: Timestamp,
    arrival: Timestamp,
    portOfLoading: string,
    portOfDischarge: string,
    vessel: string)

  /** The outcome of the `fetch` to `/api/voyage/create`. */
  datatype Response =
    | Rejected(reason: string)  // the request itself failed; fetch rejects with this message
    | Http(status: int)         // a response arrived with this status code

  /** A react-query key, such as `["voyages"]`. */
  type QueryKey = seq<string>

  datatype MutationResult =
    | MutationError(message: string)
    | MutationSuccess(invalidated: seq<QueryKey>)

  /** What pressing Submit leads to. */
  datatype SubmitOutcome =
    | NotSubmitted(errors: seq<FieldError>)
    | Submitted(payload: Voyage, result: MutationResult)

  const ArrivalBeforeDeparture: string := "Arrival date cannot be before departure date."
  const FailedToAdd: string := "Failed to add the voyage"
  /** zod's message for a `z.date()` given a date whose time is `NaN`. */
  const InvalidDateMessage: string := "Invalid date"
  /** zod's message for a string that fails `.nonempty()`. */
  const EmptyStringMessage: string := "String must contain at least 1 character(s)"
  const VoyagesKey: QueryKey := ["voyages"]

  const AllFields: set<Field> := {Departure, Arrival, PortOfLoading, PortOfDischarge, Vessel}

  /** The `required_error` each field declares. */
  function RequiredMessage(f: Field): string {
    match f
    case Departure => "A departure date is required."
    case Arrival => "An arrival date is required."
    case PortOfLoading => "A port of loading is required."
    case PortOfDischarge => "A port of discharge is required."
    case Vessel => "A vessel is required."
  }

  // ---------------------------------------------------------------- FormSchema

  /** `z.date({ required_error })`: the issue for one date field, if any. */
  function DateIssue(f: Field, v: Option<Timestamp>): Option<FieldError> {
    match v
    case None => Some(FieldError(f, RequiredMessage(f)))
    case Some(Invalid) => Some(FieldError(f, InvalidDateMessage))
    case Some(At(_, _, _, _, _)) => None
  }

  /** `z.string({ required_error }).nonempty()`: the issue for one text field, if any. */
  function TextIssue(f: Field, v: Option<string>): Option<FieldError> {
    match v
    case None => Some(FieldError(f, RequiredMessage(f)))
    case Some(s) => if s == "" then Some(FieldError(f, EmptyStringMessage)) else None
  }

  /** The issue zod reports for field `f` of `v`, if any. */
  function IssueOf(v: FormValues, f: Field): Option<FieldError> {
    match f
    case Departure => DateIssue(f, v.departure)
    case Arrival => DateIssue(f, v.arrival)
    case PortOfLoading => TextIssue(f, v.portOfLoading)
    case PortOfDischarge => TextIssue(f, v.portOfDischarge)
    case Vessel => TextIssue(f, v.vessel)
  }

  function IssueList(issue: Option<FieldError>): seq<FieldError> {
    if issue.Some? then [issue.value] else []
  }

  /** Every field's issue, in schema order: zod checks all fields and reports each failure. */
  function Issues(v: FormValues): seq<FieldError> {
    IssueList(IssueOf(v, Departure))
    + IssueList(IssueOf(v, Arrival))
    + IssueList(IssueOf(v, PortOfLoading))
    + IssueList(IssueOf(v, PortOfDischarge))
    + IssueList(IssueOf(v, Vessel))
  }

  /** Parsing the values with `FormSchema`. */
  function Validate(v: FormValues): Result<Voyage, seq<FieldError>> {
    if Issues(v) != [] then Err(Issues(v))
    else Ok(Voyage(v.departure.value, v.arrival.value, v.portOfLoading.value,
                   v.portOfDischarge.value, v.vessel.value))
  }

  /** Reference reading of the schema, field by field: is the field acceptable? */
  predicate FieldValid(v: FormValues, f: Field) {
    match f
    case Departure => v.departure.Some? && v.departure.value.At?
    case Arrival => v.arrival.Some? && v.arrival.value.At?
    case PortOfLoading => v.portOfLoading.Some? && v.portOfLoading.value != ""
    case PortOfDischarge => v.portOfDischarge.Some? && v.portOfDischarge.value != ""
    case Vessel => v.vessel.Some? && v.vessel.value != ""
  }

  /** Whether a field is set at all (to anything, even an empty or invalid value). */
  predicate FieldPresent(v: FormValues, f: Field) {
    match f
    case Departure => v.departure.Some?
    case Arrival => v.arrival.Some?
    case PortOfLoading => v.portOfLoading.Some?
    case PortOfDischarge => v.portOfDischarge.Some?
    case Vessel => v.vessel.Some?
  }

  /** The message zod gives for an unacceptable field: its own required message when unset. */
  function ExpectedMessage(v: FormValues, f: Field): string {
    if !FieldPresent(v, f) then RequiredMessage(f)
    else if f == Departure || f == Arrival then InvalidDateMessage
    else EmptyStringMessage
  }

  predicate AllValid(v: FormValues) {
    forall f :: FieldValid(v, f)
  }

  /** The errors react-hook-form records after a submit: one message per failing field. */
  function SubmitErrors(v: FormValues): map<Field, string> {
    map f | f in AllFields && !FieldValid(v, f) :: ExpectedMessage(v, f)
  }

  // ---------------------------------------------------------------- ordering effect

  /** `departureDT && arrivalDT && departureDT.getTime() > arrivalDT.getTime()`. */
  predicate OrderingViolated(departure: Option<Timestamp>, arrival: Option<Timestamp>) {
    departure.Some? && arrival.Some? && Before(arrival.value, departure.value)
  }

  /** `if (dt) form.setValue(...)` for both fields: only a present timestamp is copied. */
  function SyncValues(values: FormValues, departure: Option<Timestamp>, arrival: Option<Timestamp>): FormValues {
    values.(departure := if departure.Some? then departure else values.departure,
            arrival := if arrival.Some? then arrival else values.arrival)
  }

  /** `form.setError('arrival', ...)` when the order is violated, `form.clearErrors('arrival')` otherwise. */
  function SyncErrors(errors: map<Field, string>, departure: Option<Timestamp>, arrival: Option<Timestamp>): map<Field, string> {
    if OrderingViolated(departure, arrival) then errors[Arrival := ArrivalBeforeDeparture]
    else errors - {Arrival}
  }

  // ---------------------------------------------------------------- submit

  /** A `Response` with `response.ok`: a status in the 200 to 299 range. */
  predicate ResponseOk(status: int) {
    200 <= status <= 299
  }

  /** The create mutation: a failed response throws "Failed to add the voyage"; success invalidates `["voyages"]`. */
  function Mutate(payload: Voyage, response: Response): MutationResult {
    match response
    case Rejected(reason) => MutationError(reason)
    case Http(status) =>
      if !ResponseOk(status) then MutationError(FailedToAdd)
      else MutationSuccess([VoyagesKey])
  }

  /**
   * `form.handleSubmit(handleSubmit)`: the schema decides alone; if it accepts, the
   * parsed values are handed to `mutation.mutate`.
   */
  function Submit(v: FormValues, response: Response): SubmitOutcome {
    match Validate(v)
    case Err(errors) => NotSubmitted(errors)
    case Ok(voyage) => Submitted(voyage, Mutate(voyage, response))
  }

  // ---------------------------------------------------------------- schema properties

  lemma AllFieldsComplete(f: Field)
    ensures f in AllFields
  {
    match f
    case Departure =>
    case Arrival =>
    case PortOfLoading =>
    case PortOfDischarge =>
    case Vessel =>
  }

  /** The issue for a field exists exactly when the field is unacceptable, and carries zod's message. */
  lemma IssueOfField(v: FormValues, f: Field)
    ensures IssueOf(v, f).Some? <==> !FieldValid(v, f)
    ensures IssueOf(v, f).Some? ==> IssueOf(v, f).value == FieldError(f, ExpectedMessage(v, f))
  {
  }

  /** An error is reported exactly when it is the issue of its own field. */
  lemma InIssues(v: FormValues, e: FieldError)
    ensures e in Issues(v) <==> IssueOf(v, e.field) == Some(e)
  {
    var f := e.field;
    IssueOfField(v, Departure);
    IssueOfField(v, Arrival);
    IssueOfField(v, PortOfLoading);
    IssueOfField(v, PortOfDischarge);
    IssueOfField(v, Vessel);
    assert e in IssueList(IssueOf(v, f)) <==> IssueOf(v, f) == Some(e);
  }

  lemma IssueForField(v: FormValues, f: Field)
    ensures !FieldValid(v, f) <==> FieldError(f, ExpectedMessage(v, f)) in Issues(v)
    ensures forall e :: e in Issues(v) && e.field == f ==> !FieldValid(v, f) && e.message == ExpectedMessage(v, f)
  {
    IssueOfField(v, f);
    InIssues(v, FieldError(f, ExpectedMessage(v, f)));
    forall e | e in Issues(v) && e.field == f ensures !FieldValid(v, f) && e.message == ExpectedMessage(v, f) {
      InIssues(v, e);
    }
  }

  /**
   * Validation reports every failing field, and only failing fields, each with zod's
   * message for it: the field's own required message when it is unset, zod's
   * "Invalid date" for an invalid date and its minimum-length message for `""`.
   */
  lemma ValidateReportsEachField(v: FormValues)
    ensures forall f :: !FieldValid(v, f) <==> Validate(v).Err? && FieldError(f, ExpectedMessage(v, f)) in Validate(v).error
    ensures Validate(v).Err? ==> forall e :: e in Validate(v).error ==> !FieldValid(v, e.field) && e.message == ExpectedMessage(v, e.field)
  {
    forall f ensures !FieldValid(v, f) <==> Validate(v).Err? && FieldError(f, ExpectedMessage(v, f)) in Validate(v).error {
      IssueForField(v, f);
    }
    forall e | e in Issues(v) ensures !FieldValid(v, e.field) && e.message == ExpectedMessage(v, e.field) {
      IssueForField(v, e.field);
    }
  }

  /** A missing departure or arrival fails with that field's own required message. */
  lemma MissingDateIsRequired(v: FormValues)
    requires v.departure.None? || v.arrival.None?
    ensures Validate(v).Err?
    ensures v.departure.None? ==> FieldError(Departure, "A departure date is required.") in Validate(v).error
    ensures v.arrival.None? ==> FieldError(Arrival, "An arrival date is required.") in Validate(v).error
  {
    IssueForField(v, Departure);
    IssueForField(v, Arrival);
  }

  /** The schema accepts exactly when all five fields are acceptable, and then passes them on unchanged. */
  lemma ValidateOkIff(v: FormValues)
    ensures Validate(v).Ok? <==> AllValid(v)
    ensures Validate(v).Ok? ==>
      && Some(Validate(v).value.departure) == v.departure
      && Some(Validate(v).value.arrival) == v.arrival
      && Some(Validate(v).value.portOfLoading) == v.portOfLoading
      && Some(Validate(v).value.portOfDischarge) == v.portOfDischarge
      && Some(Validate(v).value.vessel) == v.vessel
  {
    ValidateReportsEachField(v);
    if !AllValid(v) {
      var f :| !FieldValid(v, f);
      assert FieldError(f, ExpectedMessage(v, f)) in Validate(v).error;
    }
  }

  /** An empty port or vessel is rejected with zod's minimum-length message. */
  lemma EmptyTextRejected(v: FormValues)
    requires v.portOfLoading == Some("") || v.portOfDischarge == Some("") || v.vessel == Some("")
    ensures Validate(v).Err?
    ensures v.portOfLoading == Some("") ==> FieldError(PortOfLoading, EmptyStringMessage) in Validate(v).error
    ensures v.portOfDischarge == Some("") ==> FieldError(PortOfDischarge, EmptyStringMessage) in Validate(v).error
    ensures v.vessel == Some("") ==> FieldError(Vessel, EmptyStringMessage) in Validate(v).error
  {
    IssueForField(v, PortOfLoading);
    IssueForField(v, PortOfDischarge);
    IssueForField(v, Vessel);
  }

  /** The errors recorded on submit are exactly the failing fields with their messages. */
  lemma SubmitErrorsMatchValidation(v: FormValues)
    ensures SubmitErrors(v) == map[] <==> Validate(v).Ok?
    ensures forall f :: f in SubmitErrors(v) <==> !FieldValid(v, f)
  {
    ValidateOkIff(v);
    forall f ensures f in SubmitErrors(v) <==> !FieldValid(v, f) {
      AllFieldsComplete(f);
    }
    if SubmitErrors(v) == map[] {
      forall f ensures FieldValid(v, f) {
        assert f !in SubmitErrors(v);
      }
    } else {
      var f :| f in SubmitErrors(v);
    }
  }

  // ---------------------------------------------------------------- effect properties

  /**
   * With both timestamps set, the arrival error is present exactly when departure is
   * strictly later than arrival, and then it carries the ordering message.
   */
  lemma OrderingErrorIff(errors: map<Field, string>, departure: Timestamp, arrival: Timestamp)
    ensures var r := SyncErrors(errors, Some(departure), Some(arrival));
      && (Arrival in r <==> Before(arrival, departure))
      && (Arrival in r ==> r[Arrival] == ArrivalBeforeDeparture)
      && (forall f :: f != Arrival ==> (f in r <==> f in errors) && (f in r ==> r[f] == errors[f]))
  {
  }

  /** An arrival at or after the departure clears the arrival error, including equal timestamps. */
  lemma OrderingClearedWhenNotEarlier(errors: map<Field, string>, departure: Timestamp, arrival: Timestamp)
    requires AtOrBefore(departure, arrival)
    ensures Arrival !in SyncErrors(errors, Some(departure), Some(arrival))
  {
    AtOrBeforeIffNotAfter(departure, arrival);
  }

  /** With either timestamp unset, or either one an invalid date, the arrival error is cleared. */
  lemma OrderingClearedWhenIncomplete(errors: map<Field, string>, departure: Option<Timestamp>, arrival: Option<Timestamp>)
    requires departure.None? || arrival.None? || departure == Some(Invalid) || arrival == Some(Invalid)
    ensures Arrival !in SyncErrors(errors, departure, arrival)
  {
  }

  /** An unset composed timestamp never overwrites the form field; a set one always does. */
  lemma SyncCopiesOnlyPresent(values: FormValues, departure: Option<Timestamp>, arrival: Option<Timestamp>)
    ensures var r := SyncValues(values, departure, arrival);
      && (departure.None? ==> r.departure == values.departure)
      && (departure.Some? ==> r.departure == departure)
      && (arrival.None? ==> r.arrival == values.arrival)
      && (arrival.Some? ==> r.arrival == arrival)
      && r.portOfLoading == values.portOfLoading && r.portOfDischarge == values.portOfDischarge
      && r.vessel == values.vessel
  {
  }

  // ---------------------------------------------------------------- submit properties

  /**
   * Submit sends a request exactly when the schema accepts, with the parsed values as
   * payload; a non-ok response yields "Failed to add the voyage"; success invalidates
   * exactly the `voyages` query.
   */
  lemma SubmitOutcomes(v: FormValues, response: Response)
    ensures Submit(v, response).NotSubmitted? <==> !AllValid(v)
    ensures Submit(v, response).NotSubmitted? ==> Submit(v, response).errors == Issues(v) != []
    ensures Submit(v, response).Submitted? ==> Submit(v, response).payload == Validate(v).value
    ensures Submit(v, response).Submitted? && response.Http? && !ResponseOk(response.status)
      ==> Submit(v, response).result == MutationError("Failed to add the voyage")
    ensures Submit(v, response).Submitted? && response.Http? && ResponseOk(response.status)
      ==> Submit(v, response).result == MutationSuccess([["voyages"]])
    ensures Submit(v, response).Submitted? && response.Rejected?
      ==> Submit(v, response).result == MutationError(response.reason)
  {
    ValidateOkIff(v);
  }

  /**
   * The ordering rule is not part of the schema: whenever all five fields are
   * acceptable, values whose departure is later than their arrival are flagged by the
   * live check and are still accepted and sent, arrival unchanged, whatever the response.
   */
  lemma OrderingDoesNotBlockSubmit(v: FormValues, errors: map<Field, string>, response: Response)
    requires AllValid(v)
    requires v.departure.Some? && v.arrival.Some? && Before(v.arrival.value, v.departure.value)
    ensures Arrival in SyncErrors(errors, v.departure, v.arrival)
    ensures Submit(v, response).Submitted?
    ensures Submit(v, response).payload.arrival == v.arrival.value
    ensures Submit(v, response).payload.departure == v.departure.value
  {
    assert FieldValid(v, Departure) && FieldValid(v, Arrival);
    ValidateOkIff(v);
  }

  /** For instance, a 10:00 departure and a 09:00 arrival on the same day are sent. */
  lemma OrderingViolationExample(errors: map<Field, string>)
    ensures var v := FormValues(Some(At(2024, 4, 1, 10, 0)), Some(At(2024, 4, 1, 9, 0)),
                                Some("GBFXT"), Some("NLRTM"), Some("v1"));
      && Arrival in SyncErrors(errors, v.departure, v.arrival)
      && Submit(v, Http(201)) == Submitted(Voyage(At(2024, 4, 1, 10, 0), At(2024, 4, 1, 9, 0),
                                                  "GBFXT", "NLRTM", "v1"), MutationSuccess([["voyages"]]))
  {
    var v := FormValues(Some(At(2024, 4, 1, 10, 0)), Some(At(2024, 4, 1, 9, 0)),
                        Some("GBFXT"), Some("NLRTM"), Some("v1"));
    assert LexLess(Components(At(2024, 4, 1, 9, 0)), Components(At(2024, 4, 1, 10, 0)));
    assert forall f :: FieldValid(v, f);
    OrderingDoesNotBlockSubmit(v, errors, Http(201));
    SubmitOutcomes(v, Http(201));
    ValidateOkIff(v);
  }

  // ---------------------------------------------------------------- the component

  /** The form component's state: the two composed timestamps, the form values and the field errors. */
  class AddVoyageForm {
    var departureDT: Option<Timestamp>
    var arrivalDT: Option<Timestamp>
    var values: FormValues
    var errors: map<Field, string>

    /** Mounting: every cell empty, no values, no errors. */
    constructor ()
      ensures departureDT == None && arrivalDT == None
      ensures values == FormValues(None, None, None, None, None)
      ensures errors == map[]
    {
      departureDT, arrivalDT := None, None;
      values := FormValues(None, None, None, None, None);
      errors := map[];
    }

    /** The effect on `[departureDT, arrivalDT]`. */
    method SyncEffect()
      modifies this`values, this`errors
      ensures values == SyncValues(old(values), departureDT, arrivalDT)
      ensures errors == SyncErrors(old(errors), departureDT, arrivalDT)
    {
      if departureDT.Some? {
        values := values.(departure := departureDT);
      }
      if arrivalDT.Some? {
        values := values.(arrival := arrivalDT);
      }
      if departureDT.Some? && arrivalDT.Some? && Before(arrivalDT.value, departureDT.value) {
        errors := errors[Arrival := ArrivalBeforeDeparture];
      } else {
        errors := errors - {Arrival};
      }
    }

    /** `setDepartureDT`, called by the departure picker's effect; the change re-runs the effect. */
    method SetDepartureDT(t: Timestamp)
      modifies this
      ensures departureDT == Some(t) && arrivalDT == old(arrivalDT)
      ensures values == SyncValues(old(values), Some(t), arrivalDT)
      ensures errors == SyncErrors(old(errors), Some(t), arrivalDT)
    {
      departureDT := Some(t);
      SyncEffect();
    }

    /** `setArrivalDT`, called by the arrival picker's effect; the change re-runs the effect. */
    method SetArrivalDT(t: Timestamp)
      modifies this
      ensures arrivalDT == Some(t) && departureDT == old(departureDT)
      ensures values == SyncValues(old(values), departureDT, Some(t))
      ensures errors == SyncErrors(old(errors), departureDT, Some(t))
    {
      arrivalDT := Some(t);
      SyncEffect();
    }

    /** A select's `field.onChange` for one of the three text fields. */
    method Choose(f: Field, choice: string)
      requires f == PortOfLoading || f == PortOfDischarge || f == Vessel
      modifies this`values
      ensures values.departure == old(values.departure) && values.arrival == old(values.arrival)
      ensures values.portOfLoading == if f == PortOfLoading then Some(choice) else old(values.portOfLoading)
      ensures values.portOfDischarge == if f == PortOfDischarge then Some(choice) else old(values.portOfDischarge)
      ensures values.vessel == if f == Vessel then Some(choice) else old(values.vessel)
    {
      match f
      case PortOfLoading => values := values.(portOfLoading := Some(choice));
      case PortOfDischarge => values := values.(portOfDischarge := Some(choice));
      case Vessel => values := values.(vessel := Some(choice));
    }

    /**
     * Pressing Submit: the errors become the schema's (dropping a live ordering error),
     * and the outcome is that of `Submit` on the current values.
     */
    method HandleSubmit(response: Response) returns (outcome: SubmitOutcome)
      modifies this`errors
      ensures errors == SubmitErrors(values)
      ensures outcome == Submit(values, response)
    {
      errors := SubmitErrors(values);
      var parsed := Validate(values);
      if parsed.Err? {
        return NotSubmitted(parsed.error);
      }
      outcome := Submitted(parsed.value, Mutate(parsed.value, response));
    }
  }
}
