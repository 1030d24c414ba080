/** The maintenance report form (components/modals/ReportModal.js): clearing
    field errors as the user types, the report payload, and how an API failure
    becomes per-field errors. */
module ReportForm {
  import opened Js
  import Session
  import Lists

  const Endpoint := "/maintenance-reports/"
  const GenericFailure := "Failed to create maintenance report. Please try again."

  /** The seven field-error slots, all cleared. */
  function ClearedErrors(): map<string, Value> {
    map["equipment" := Null, "date_time" := Null, "technician" := Null, "activity_type" := Null,
        "pre_status" := Null, "post_status" := Null, "notes" := Null]
  }

  /** The empty form; `date` and `time` are today's, formatted by the caller. */
  function InitialForm(date: string, time: string): map<string, Value> {
    map["equipment" := Str(""), "activity_type" := Str(""), "date" := Str(date), "time" := Str(time),
        "technician" := Str(""), "pre_status" := Str(""), "post_status" := Str(""), "notes" := Str("")]
  }

  // ---------------------------------------------------------------------------
  // Typing into the form

  /** The field errors after typing into `name`. Both updates spread the same
      earlier errors, so for 'date' and 'time' the second one (clearing
      date_time) is the one that lands. */
  function ErrorsAfterInput(errors: map<string, Value>, name: string): (r: map<string, Value>)
    ensures name == "date" || name == "time" ==> r == errors["date_time" := Null]
    ensures name != "date" && name != "time" && Truthy(Get(Obj(errors), name)) ==> r == errors[name := Null]
    ensures name != "date" && name != "time" && !Truthy(Get(Obj(errors), name)) ==> r == errors
  {
    if name == "date" || name == "time" then errors["date_time" := Null]
    else if Truthy(Get(Obj(errors), name)) then errors[name := Null]
    else errors
  }

  /** Typing never adds an error: every error left afterwards was there before. */
  lemma InputNeverAddsErrors(errors: map<string, Value>, name: string, k: string)
    requires k in ErrorsAfterInput(errors, name) && Truthy(ErrorsAfterInput(errors, name)[k])
    ensures k in errors && ErrorsAfterInput(errors, name)[k] == errors[k]
  {
  }

  // ---------------------------------------------------------------------------
  // The payload

  /** `v ? parseInt(v) : ''`; a NaN is sent as null, as JSON serialisation writes it. */
  function IdOf(v: Value): (r: Value)
    ensures !Truthy(v) ==> r == Str("")
    ensures Truthy(v) && v.Str? && ParseInt(v.s).Some? ==> r == Num(ParseInt(v.s).value)
    ensures Truthy(v) && v.Str? && ParseInt(v.s).None? ==> r == Null
  {
    if !Truthy(v) then Str("")
    else if v.Str? then (match ParseInt(v.s) case Some(n) => Num(n) case None => Null)
    else if v.Num? then v
    else Null
  }

  /** `reportData`, the body of the POST. */
  datatype ReportData = ReportData(
    equipment: Value, activityType: Value, dateTime: Value, technician: Value,
    preStatus: Value, postStatus: Value, notes: Value)

  /** The body as the JSON object sent. */
  function ToJson(d: ReportData): Value {
    Obj(map["equipment" := d.equipment, "activity_type" := d.activityType, "date_time" := d.dateTime,
            "technician" := d.technician, "pre_status" := d.preStatus, "post_status" := d.postStatus,
            "notes" := d.notes])
  }

  /** The payload built from the form, given the ISO form of its date and time:
      the selections as numbers, an empty post status as null, the texts as typed. */
  function Payload(form: map<string, Value>, isoDateTime: string): (d: ReportData)
    ensures d.equipment == IdOf(Get(Obj(form), "equipment"))
    ensures d.technician == IdOf(Get(Obj(form), "technician"))
    ensures d.dateTime == Str(isoDateTime)
    ensures d.postStatus == Or(Get(Obj(form), "post_status"), Null)
    ensures d.activityType == Get(Obj(form), "activity_type")
    ensures d.preStatus == Get(Obj(form), "pre_status") && d.notes == Get(Obj(form), "notes")
  {
    ReportData(
      IdOf(Get(Obj(form), "equipment")), Get(Obj(form), "activity_type"), Str(isoDateTime),
      IdOf(Get(Obj(form), "technician")), Get(Obj(form), "pre_status"),
      Or(Get(Obj(form), "post_status"), Null), Get(Obj(form), "notes"))
  }

  /** An empty selection is sent as '', an empty post status as null. */
  lemma EmptySelectionsInPayload(form: map<string, Value>, iso: string)
    requires Get(Obj(form), "equipment") == Str("") && Get(Obj(form), "post_status") == Str("")
    ensures Payload(form, iso).equipment == Str("")
    ensures Payload(form, iso).postStatus == Null
  {
  }

  // ---------------------------------------------------------------------------
  // API field errors

  /** An array error shows its first message; anything else is shown as is. */
  function FirstMessage(v: Value): (r: Value)
    ensures v.Arr? && |v.items| > 0 ==> r == v.items[0]
    ensures !v.Arr? ==> r == v
  {
    if v.Arr? then (if |v.items| > 0 then v.items[0] else Undefined) else v
  }

  /** The field errors after a rejected submit: those from the response
      replace the earlier ones key by key, the rest stay. */
  function ApiFieldErrors(before: map<string, Value>, apiErrors: map<string, Value>): (r: map<string, Value>)
    ensures r.Keys == before.Keys + apiErrors.Keys
    ensures forall k :: k in apiErrors ==> r[k] == FirstMessage(apiErrors[k])
    ensures forall k :: k in before && k !in apiErrors ==> r[k] == before[k]
  {
    map k | k in before.Keys + apiErrors.Keys :: if k in apiErrors then FirstMessage(apiErrors[k]) else before[k]
  }

  /** The errors once the keys in `done` have been copied over. */
  function MappedAmong(before: map<string, Value>, apiErrors: map<string, Value>, done: set<string>): map<string, Value> {
    map k | k in before.Keys + (apiErrors.Keys * done) ::
      if k in apiErrors && k in done then FirstMessage(apiErrors[k]) else before[k]
  }

  lemma MapStep(before: map<string, Value>, apiErrors: map<string, Value>, done: set<string>, key: string)
    requires key in apiErrors
    ensures MappedAmong(before, apiErrors, done + {key})
         == MappedAmong(before, apiErrors, done)[key := FirstMessage(apiErrors[key])]
  {
  }

  /** The forEach over the response's fields. */
  method MapApiErrors(before: map<string, Value>, apiErrors: map<string, Value>) returns (errors: map<string, Value>)
    ensures errors == ApiFieldErrors(before, apiErrors)
  {
    errors := before;
    var done: set<string> := {};
    var remaining := apiErrors.Keys;
    assert errors == MappedAmong(before, apiErrors, done);
    while remaining != {}
      invariant remaining <= apiErrors.Keys
      invariant done == apiErrors.Keys - remaining
      invariant errors == MappedAmong(before, apiErrors, done)
      decreases remaining
    {
      var field :| field in remaining;
      MapStep(before, apiErrors, done, field);
      if apiErrors[field].Arr? {
        errors := errors[field := if |apiErrors[field].items| > 0 then apiErrors[field].items[0] else Undefined];
      } else {
        errors := errors[field := apiErrors[field]];
      }
      done := done + {field};
      remaining := remaining - {field};
    }
    assert MappedAmong(before, apiErrors, done) == ApiFieldErrors(before, apiErrors);
  }

  /** The fields of the failure body: an object's own properties; the index
      keys of an array or a string are not modelled. */
  function ErrorFields(data: Value): map<string, Value> {
    if data.Obj? then data.fields else map[]
  }

  /** `err.response && err.response.data`: only a rejection with a truthy body
      is mapped to field errors. */
  predicate HasErrorBody(r: Session.RequestResult) {
    r.Rejected? && r.error.HttpError? && Truthy(r.error.data)
  }

  /** `user.user_role === 'Technician'`. */
  predicate IsTechnician(user: Value) {
    Get(user, "user_role") == Str("Technician")
  }

  /** Reading `user.user_role` throws on a null or undefined element. */
  predicate RolesReadable(users: seq<Value>) {
    forall i :: 0 <= i < |users| ==> !users[i].Null? && !users[i].Undefined?
  }

  /** Only a 201 answer counts as created. */
  predicate Created(r: Session.RequestResult) {
    r.Resolved? && r.status == 201
  }

  /** The field errors and the general error after the answer to a submit.
      The handler copies the field errors it saw when the submit began (the
      clearing it did itself is not visible to it), so response errors land on
      top of `before`, and an earlier error the response does not name returns. */
  function ErrorsAfter(before: map<string, Value>, r: Session.RequestResult): (e: (map<string, Value>, Value))
    ensures HasErrorBody(r) ==> e == (ApiFieldErrors(before, ErrorFields(r.error.data)), Null)
    ensures r.Rejected? && !HasErrorBody(r) ==> e == (ClearedErrors(), Str(GenericFailure))
    ensures !r.Rejected? ==> e == (ClearedErrors(), Null)
  {
    if HasErrorBody(r) then (ApiFieldErrors(before, ErrorFields(r.error.data)), Null)
    else if r.Rejected? then (ClearedErrors(), Str(GenericFailure))
    else (ClearedErrors(), Null)
  }

  /** A created report leaves no error; an answer other than 201 that is not
      a rejection (a 200, say) neither closes the modal nor shows an error. */
  lemma CreatedLeavesNoError(before: map<string, Value>, r: Session.RequestResult)
    ensures Created(r) ==> ErrorsAfter(before, r) == (ClearedErrors(), Null)
    ensures r.Resolved? && !Created(r) ==> ErrorsAfter(before, r) == (ClearedErrors(), Null)
  {
  }

  /** A field error shown before the submit that the rejection's body does
      not name comes back unchanged. */
  lemma EarlierErrorReturns(before: map<string, Value>, r: Session.RequestResult, k: string)
    requires HasErrorBody(r) && k in before && k !in ErrorFields(r.error.data)
    ensures k in ErrorsAfter(before, r).0 && ErrorsAfter(before, r).0[k] == before[k]
  {
  }

  // ---------------------------------------------------------------------------
  // The modal

  class ReportModal {
    var equipmentList: Value
    var technicianList: Value
    var isSubmitting: bool
    var error: Value
    var fieldErrors: map<string, Value>
    var formFields: map<string, Value>
    /** The requests sent, and how often onSuccess and closeModal were called. */
    var calls: seq<Session.Call>
    var successes: nat
    var closes: nat

    constructor (date: string, time: string)
      ensures equipmentList == Arr([]) && technicianList == Arr([])
      ensures !isSubmitting && error == Null
      ensures fieldErrors == ClearedErrors() && formFields == InitialForm(date, time)
      ensures calls == [] && successes == 0 && closes == 0
    {
      equipmentList, technicianList := Arr([]), Arr([]);
      isSubmitting, error := false, Null;
      fieldErrors, formFields := ClearedErrors(), InitialForm(date, time);
      calls, successes, closes := [], 0, 0;
    }

    /** The effect when the modal is shown: errors are cleared (the two list
        fetches follow, as ReceiveEquipment and ReceiveTechnicians). */
    method Show()
      modifies this`fieldErrors, this`error
      ensures fieldErrors == ClearedErrors() && error == Null
    {
      fieldErrors := ClearedErrors();
      error := Null;
    }

    /** The answer to GET /equipment/: a truthy body replaces the list. */
    method ReceiveEquipment(r: Session.RequestResult)
      modifies this`equipmentList, this`error
      ensures r.Resolved? && Truthy(r.data) ==> equipmentList == r.data && error == old(error)
      ensures r.Rejected? ==> equipmentList == old(equipmentList) && error == Str("Failed to load equipment data")
      ensures !(r.Resolved? && Truthy(r.data)) && !r.Rejected? ==>
        equipmentList == old(equipmentList) && error == old(error)
    {
      if r.Rejected? {
        error := Str("Failed to load equipment data");
      } else if r.Resolved? && Truthy(r.data) {
        equipmentList := r.data;
      }
    }

    /** The answer to GET /users/: the technicians among a truthy array body.
        A body `filter` cannot be called on, or an array holding a null or
        undefined user, throws and is reported like a failure. */
    method ReceiveTechnicians(r: Session.RequestResult)
      modifies this`technicianList, this`error
      ensures r.Resolved? && r.data.Arr? && RolesReadable(r.data.items) ==>
        technicianList == Arr(Lists.Filter(r.data.items, IsTechnician)) && error == old(error)
      ensures r.Rejected? || (r.Resolved? && Truthy(r.data) && !(r.data.Arr? && RolesReadable(r.data.items))) ==>
        technicianList == old(technicianList) && error == Str("Failed to load technician data")
      ensures !r.Rejected? && !(r.Resolved? && Truthy(r.data)) ==>
        technicianList == old(technicianList) && error == old(error)
    {
      if r.Rejected? {
        error := Str("Failed to load technician data");
      } else if r.Resolved? && Truthy(r.data) {
        if r.data.Arr? && RolesReadable(r.data.items) {
          technicianList := Arr(Lists.Filter(r.data.items, IsTechnician));
        } else {
          error := Str("Failed to load technician data");
        }
      }
    }

    method HandleInputChange(name: string, value: string)
      modifies this`formFields, this`fieldErrors
      ensures formFields == old(formFields)[name := Str(value)]
      ensures fieldErrors == ErrorsAfterInput(old(fieldErrors), name)
    {
      var before := fieldErrors;
      formFields := formFields[name := Str(value)];
      if Truthy(Get(Obj(before), name)) {
        fieldErrors := before[name := Null];
      }
      if name == "date" || name == "time" {
        fieldErrors := before["date_time" := Null];
      }
    }

    /** What the submit does with the answer to its POST. */
    method Settle(before: map<string, Value>, r: Session.RequestResult, hasOnSuccess: bool)
      modifies this`fieldErrors, this`error, this`successes, this`closes
      requires fieldErrors == ClearedErrors() && error == Null
      ensures (fieldErrors, error) == ErrorsAfter(before, r)
      ensures closes == old(closes) + (if Created(r) then 1 else 0)
      ensures successes == old(successes) + (if Created(r) && hasOnSuccess then 1 else 0)
    {
      if Created(r) {
        if hasOnSuccess {
          successes := successes + 1;
        }
        closes := closes + 1;
      } else if HasErrorBody(r) {
        fieldErrors := MapApiErrors(before, ErrorFields(r.error.data));
      } else if r.Rejected? {
        error := Str(GenericFailure);
      }
    }

    /** The POST of a well-formed submit and what its answer does. */
    method Post(call: Session.Call, before: map<string, Value>, api: Session.Call -> Session.RequestResult,
                hasOnSuccess: bool)
      modifies this`fieldErrors, this`error, this`calls, this`successes, this`closes
      requires fieldErrors == ClearedErrors() && error == Null
      ensures calls == old(calls) + [call]
      ensures (fieldErrors, error) == ErrorsAfter(before, api(call))
      ensures closes == old(closes) + (if Created(api(call)) then 1 else 0)
      ensures successes == old(successes) + (if Created(api(call)) && hasOnSuccess then 1 else 0)
    {
      calls := calls + [call];
      Settle(before, api(call), hasOnSuccess);
    }

    /** handleSubmit: every error is cleared first; `isoDateTime` is the
        toISOString of the chosen date and time, `None` when that date is
        invalid (toISOString throws before any request). */
    method HandleSubmit(isoDateTime: Option<string>, api: Session.Call -> Session.RequestResult, hasOnSuccess: bool)
      returns (sent: Option<Session.Call>)
      modifies this`isSubmitting, this`error, this`fieldErrors, this`calls, this`successes, this`closes
      ensures !isSubmitting
      ensures isoDateTime.None? ==>
        sent.None? && calls == old(calls) && (fieldErrors, error) == (ClearedErrors(), Str(GenericFailure))
        && successes == old(successes) && closes == old(closes)
      ensures isoDateTime.Some? ==>
        && sent == Some(Session.Call("post", Endpoint, ToJson(Payload(old(formFields), isoDateTime.value))))
        && calls == old(calls) + [sent.value]
        && (fieldErrors, error) == ErrorsAfter(old(fieldErrors), api(sent.value))
        && closes == old(closes) + (if Created(api(sent.value)) then 1 else 0)
        && successes == old(successes) + (if Created(api(sent.value)) && hasOnSuccess then 1 else 0)
    {
      sent := if isoDateTime.None? then None
              else Some(Session.Call("post", Endpoint, ToJson(Payload(formFields, isoDateTime.value))));
      var before := fieldErrors;
      isSubmitting := true;
      error := Null;
      fieldErrors := ClearedErrors();
      if sent.None? {
        error := Str(GenericFailure);
      } else {
        Post(sent.value, before, api, hasOnSuccess);
      }
      isSubmitting := false;
    }
  }
}
