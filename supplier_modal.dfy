/** The supplier form (components/modals/SupplierModal.js): prefilling from the
    supplier being edited with the website's scheme stripped, putting the scheme
    back on submit, the diff of changed fields an update sends, and the error
    handling of the create and update wrappers. */
module SupplierForm {
  import opened Js
  import Session

  // ---------------------------------------------------------------------------
  // The website scheme

  /** Prefill: drop a leading 'https://' (8 characters), or else 'http://' (7). */
  function StripScheme(website: string): (r: string)
    ensures StartsWith(website, "https://") ==> r == website[8..]
    ensures !StartsWith(website, "https://") && StartsWith(website, "http://") ==> r == website[7..]
    ensures !StartsWith(website, "https://") && !StartsWith(website, "http://") ==> r == website
  {
    if StartsWith(website, "https://") then website[8..]
    else if StartsWith(website, "http://") then website[7..]
    else website
  }

  /** Submit: prepend 'https://' to a non-empty website that does not start with 'http'. */
  function AddScheme(website: string): (r: string)
    ensures website != "" && !StartsWith(website, "http") ==> r == "https://" + website
    ensures website == "" || StartsWith(website, "http") ==> r == website
  {
    if website != "" && !StartsWith(website, "http") then "https://" + website else website
  }

  lemma PrefixOfAppend(p: string, x: string)
    ensures StartsWith(p + x, p)
  {
    assert (p + x)[..|p|] == p;
  }

  /** Prefilling 'https://x' or 'http://x' and submitting unchanged sends
      'https://x' whenever x is not empty and does not itself start with 'http'. */
  lemma SchemeRoundTrip(x: string)
    requires x != "" && !StartsWith(x, "http")
    ensures AddScheme(StripScheme("https://" + x)) == "https://" + x
    ensures AddScheme(StripScheme("http://" + x)) == "https://" + x
  {
    PrefixOfAppend("https://", x);
    PrefixOfAppend("http://", x);
    assert ("https://" + x)[8..] == x;
    assert ("http://" + x)[7..] == x;
    assert !StartsWith("http://" + x, "https://") by {
      assert ("http://" + x)[4] == ':';
    }
  }

  /** Adding the scheme twice is adding it once. */
  lemma AddSchemeIdempotent(website: string)
    ensures AddScheme(AddScheme(website)) == AddScheme(website)
  {
    if website != "" && !StartsWith(website, "http") {
      PrefixOfAppend("http", "s://" + website);
      assert "https://" + website == "http" + ("s://" + website);
    }
  }

  // ---------------------------------------------------------------------------
  // The form

  const FormKeys := {"company_name", "company_email", "contact", "website"}

  function EmptyForm(): map<string, Value> {
    map["company_name" := Str(""), "company_email" := Str(""), "contact" := Str(""), "website" := Str("")]
  }

  /** The form filled from the supplier being edited; missing fields become ''. */
  function Prefill(supplier: Value): (form: map<string, Value>)
    ensures form.Keys == FormKeys
    ensures forall k :: k in FormKeys && k != "website" ==> form[k] == Or(Get(supplier, k), Str(""))
    ensures var w := Or(Get(supplier, "website"), Str(""));
      form["website"] == if w.Str? then Str(StripScheme(w.s)) else w
  {
    var w := Or(Get(supplier, "website"), Str(""));
    map["company_name" := Or(Get(supplier, "company_name"), Str("")),
        "company_email" := Or(Get(supplier, "company_email"), Str("")),
        "contact" := Or(Get(supplier, "contact"), Str("")),
        "website" := if w.Str? then Str(StripScheme(w.s)) else w]
  }

  /** `formData.website && !formData.website.startsWith('http')` gets the scheme. */
  function WithScheme(v: Value): (r: Value)
    ensures v.Str? ==> r == Str(AddScheme(v.s))
    ensures !v.Str? ==> r == v
  {
    if Truthy(v) && v.Str? && !StartsWith(v.s, "http") then Str("https://" + v.s) else v
  }

  /** The original value a field is compared with; the website without its scheme. */
  function WithoutScheme(v: Value): (r: Value)
    ensures v.Str? ==> r == Str(StripScheme(v.s))
    ensures !v.Str? ==> r == v
  {
    if Truthy(v) && v.Str? && StartsWith(v.s, "https://") then Str(v.s[8..])
    else if Truthy(v) && v.Str? && StartsWith(v.s, "http://") then Str(v.s[7..])
    else v
  }

  /** `formattedData`: the form with the scheme put back on the website. */
  function Formatted(form: map<string, Value>): (r: map<string, Value>)
    ensures r.Keys == form.Keys
    ensures forall k :: k in form && k != "website" ==> r[k] == form[k]
    ensures "website" in form ==> r["website"] == WithScheme(form["website"])
  {
    if "website" in form then form["website" := WithScheme(form["website"])] else form
  }

  function OriginalValue(supplier: Value, key: string): Value {
    if key == "website" then WithoutScheme(Get(supplier, key)) else Get(supplier, key)
  }

  function NewValue(formatted: map<string, Value>, key: string): Value
    requires key in formatted
  {
    if key == "website" then WithScheme(formatted[key]) else formatted[key]
  }

  predicate Differs(formatted: map<string, Value>, supplier: Value, key: string)
    requires key in formatted
  {
    NewValue(formatted, key) != OriginalValue(supplier, key)
  }

  /** The fields an update sends: those whose new value differs from the original. */
  function Changed(formatted: map<string, Value>, supplier: Value): map<string, Value> {
    map k | k in formatted && Differs(formatted, supplier, k) :: formatted[k]
  }

  /** The changed fields among the keys already visited. */
  function ChangedAmong(formatted: map<string, Value>, supplier: Value, visited: set<string>): map<string, Value> {
    map k | k in formatted && k in visited && Differs(formatted, supplier, k) :: formatted[k]
  }

  lemma VisitKey(formatted: map<string, Value>, supplier: Value, visited: set<string>, key: string)
    requires key in formatted
    ensures Differs(formatted, supplier, key) ==>
      ChangedAmong(formatted, supplier, visited + {key}) == ChangedAmong(formatted, supplier, visited)[key := formatted[key]]
    ensures !Differs(formatted, supplier, key) ==>
      ChangedAmong(formatted, supplier, visited + {key}) == ChangedAmong(formatted, supplier, visited)
  {
  }

  /** The forEach that fills `changedData`, one key at a time. */
  method ChangedFields(formatted: map<string, Value>, supplier: Value) returns (changed: map<string, Value>)
    ensures changed == Changed(formatted, supplier)
  {
    changed := map[];
    var visited: set<string> := {};
    var remaining := formatted.Keys;
    while remaining != {}
      invariant remaining <= formatted.Keys
      invariant visited == formatted.Keys - remaining
      invariant changed == ChangedAmong(formatted, supplier, visited)
      decreases remaining
    {
      var key :| key in remaining;
      VisitKey(formatted, supplier, visited, key);
      var originalValue := OriginalValue(supplier, key);
      var newValue := NewValue(formatted, key);
      if newValue != originalValue {
        changed := changed[key := formatted[key]];
      }
      visited := visited + {key};
      remaining := remaining - {key};
    }
    assert ChangedAmong(formatted, supplier, visited) == Changed(formatted, supplier);
  }

  /** What a submit sends: nothing when an update changes no field; otherwise
      the changed fields plus the id to the supplier's endpoint, or the whole
      formatted form for a new supplier. */
  function SubmitCall(form: map<string, Value>, isEditing: bool, editing: Value): Option<Session.ApiCall> {
    if isEditing && Truthy(editing) then
      var changed := Changed(Formatted(form), editing);
      if |changed| == 0 then None
      else Some(Session.UpdateSupplierCall(Get(editing, "id"), Obj(changed["id" := Get(editing, "id")])))
    else Some(Session.CreateSupplierCall(Obj(Formatted(form))))
  }

  /** An update with no changed field sends nothing; any other update is a PUT
      whose body is the changed fields plus the supplier's id, so it holds no
      field the form lacks; a new supplier is posted whole, scheme put back. */
  lemma SubmitCallSpec(form: map<string, Value>, isEditing: bool, editing: Value)
    ensures SubmitCall(form, isEditing, editing).None? <==>
      isEditing && Truthy(editing) && |Changed(Formatted(form), editing)| == 0
    ensures isEditing && Truthy(editing) && SubmitCall(form, isEditing, editing).Some? ==>
      var call := SubmitCall(form, isEditing, editing).value;
      && call.verb == "put" && call.body.Obj?
      && call.body.fields.Keys == Changed(Formatted(form), editing).Keys + {"id"}
      && call.body.fields["id"] == Get(editing, "id")
      && (forall k :: k in call.body.fields && k != "id" ==> k in form && call.body.fields[k] == Formatted(form)[k])
    ensures !(isEditing && Truthy(editing)) ==>
      SubmitCall(form, isEditing, editing) == Some(Session.CreateSupplierCall(Obj(Formatted(form))))
  {
  }

  method PrepareSubmit(form: map<string, Value>, isEditing: bool, editing: Value)
    returns (call: Option<Session.ApiCall>)
    ensures call == SubmitCall(form, isEditing, editing)
  {
    var formatted := Formatted(form);
    if isEditing && Truthy(editing) {
      var changed := ChangedFields(formatted, editing);
      if |changed| == 0 {
        return None;
      }
      changed := changed["id" := Get(editing, "id")];
      call := Some(Session.UpdateSupplierCall(Get(editing, "id"), Obj(changed)));
    } else {
      call := Some(Session.CreateSupplierCall(Obj(formatted)));
    }
  }

  /** A non-website field is sent iff it differs from the supplier's; a website
      that the user left as prefilled is always sent when it is not empty and does
      not start with 'http' (the comparison puts the scheme on one side only). */
  lemma ChangedSpec(supplier: Value, form: map<string, Value>, key: string)
    requires key in form && key != "website"
    ensures key in Changed(Formatted(form), supplier) <==> form[key] != Get(supplier, key)
    ensures key in Changed(Formatted(form), supplier) ==> Changed(Formatted(form), supplier)[key] == form[key]
  {
  }

  /** Submitting the prefilled form unchanged sends none of the other fields
      that the supplier holds as strings. */
  lemma UntouchedFieldsAreNotSent(supplier: Value, key: string)
    requires key in FormKeys && key != "website" && Get(supplier, key).Str?
    ensures key !in Changed(Formatted(Prefill(supplier)), supplier)
  {
    ChangedSpec(supplier, Prefill(supplier), key);
  }

  lemma UntouchedWebsiteIsSent(supplier: Value)
    requires Get(supplier, "website").Str?
    requires var p := StripScheme(Get(supplier, "website").s); p != "" && !StartsWith(p, "http")
    ensures "website" in Changed(Formatted(Prefill(supplier)), supplier)
  {
    var w := Get(supplier, "website");
    var p := StripScheme(w.s);
    assert Prefill(supplier)["website"] == Str(p);
    assert Formatted(Prefill(supplier))["website"] == Str("https://" + p);
    PrefixOfAppend("http", "s://" + p);
    assert "https://" + p == "http" + ("s://" + p);
    assert NewValue(Formatted(Prefill(supplier)), "website") == Str("https://" + p);
  }

  // ---------------------------------------------------------------------------
  // The modal

  function FailureMessage(editing: bool): string {
    "Failed to " + (if editing then "update" else "create") + " supplier. Please try again."
  }

  class SupplierModal {
    var formData: map<string, Value>
    var errors: Value
    var loading: bool
    var isEditing: bool
    var editingSupplier: Value
    var closed: bool
    /** The wrapper calls made, in order, and how many times the table was refreshed. */
    var calls: seq<Session.ApiCall>
    var refreshes: nat

    constructor (editing: Value)
      ensures editingSupplier == editing && formData == EmptyForm() && errors == Obj(map[])
      ensures !isEditing && !closed && calls == [] && refreshes == 0
    {
      formData, errors := EmptyForm(), Obj(map[]);
      loading, isEditing := false, false;
      editingSupplier, closed := editing, false;
      calls, refreshes := [], 0;
    }

    /** The effect run when the modal opens or the supplier changes. */
    method Populate()
      modifies this`isEditing, this`formData, this`errors
      ensures isEditing == Truthy(editingSupplier)
      ensures formData == if Truthy(editingSupplier) then Prefill(editingSupplier) else EmptyForm()
      ensures errors == Obj(map[])
    {
      if Truthy(editingSupplier) {
        isEditing := true;
        var website := Or(Get(editingSupplier, "website"), Str(""));
        if website.Str? && StartsWith(website.s, "https://") {
          website := Str(website.s[8..]);
        } else if website.Str? && StartsWith(website.s, "http://") {
          website := Str(website.s[7..]);
        }
        formData := map["company_name" := Or(Get(editingSupplier, "company_name"), Str("")),
                        "company_email" := Or(Get(editingSupplier, "company_email"), Str("")),
                        "contact" := Or(Get(editingSupplier, "contact"), Str("")),
                        "website" := website];
      } else {
        isEditing := false;
        formData := EmptyForm();
      }
      errors := Obj(map[]);
    }

    /** handleChange: store the value; clear that field's error only if it is set. */
    method HandleChange(name: string, value: string)
      modifies this`formData, this`errors
      ensures formData == old(formData)[name := Str(value)]
      ensures Truthy(Get(old(errors), name)) ==> errors == Obj(Spread(old(errors))[name := Null])
      ensures !Truthy(Get(old(errors), name)) ==> errors == old(errors)
    {
      formData := formData[name := Str(value)];
      if Truthy(Get(errors, name)) {
        errors := Obj(Spread(errors)[name := Null]);
      }
    }

    /** What the submit does with the wrapper's answer. */
    method Settle(response: Session.Mutation)
      modifies this`errors, this`formData, this`closed, this`refreshes
      requires errors == Obj(map[])
      ensures response.success ==>
        formData == EmptyForm() && closed && refreshes == old(refreshes) + 1 && errors == Obj(map[])
      ensures !response.success ==>
        formData == old(formData) && refreshes == old(refreshes) && closed == old(closed)
        && errors == if response.status == Num(400) then response.error
                     else Obj(map["general" := Str(FailureMessage(isEditing))])
    {
      if response.success {
        formData := EmptyForm();
        closed := true;
        refreshes := refreshes + 1;
      } else if response.status == Num(400) {
        errors := response.error;
      } else {
        errors := Obj(map["general" := Str(FailureMessage(isEditing))]);
      }
    }

    /** handleSubmit: an update sends only the changed fields plus the id, and
        nothing at all (just closing) when none changed; a create sends the whole
        formatted form. */
    method HandleSubmit(respond: Session.ApiCall -> Session.Mutation) returns (sent: Option<Session.ApiCall>)
      modifies this`errors, this`loading, this`formData, this`closed, this`calls, this`refreshes
      ensures sent == SubmitCall(old(formData), old(isEditing), old(editingSupplier))
      ensures !loading
      ensures sent.None? ==>
        closed && calls == old(calls) && refreshes == old(refreshes) && errors == Obj(map[])
        && formData == old(formData)
      ensures sent.Some? ==>
        && calls == old(calls) + [sent.value]
        && (respond(sent.value).success ==>
              formData == EmptyForm() && closed && refreshes == old(refreshes) + 1 && errors == Obj(map[]))
        && (!respond(sent.value).success ==>
              formData == old(formData) && refreshes == old(refreshes) && closed == old(closed)
              && errors == if respond(sent.value).status == Num(400) then respond(sent.value).error
                           else Obj(map["general" := Str(FailureMessage(isEditing))]))
    {
      var call := PrepareSubmit(formData, isEditing, editingSupplier);
      loading := true;
      errors := Obj(map[]);
      sent := call;
      if call.None? {
        closed := true;
        loading := false;
        return;
      }
      calls := calls + [call.value];
      Settle(respond(call.value));
      loading := false;
    }
  }
}
