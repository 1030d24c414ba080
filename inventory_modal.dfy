/** The inventory item form (components/modals/InventoryModal.js): prefill,
    the quantity parse, required-field validation, and how the outcome of the
    create or update request becomes the form's errors. */
module InventoryForm {
  import opened Js
  import Session
  import Formatters

  /** The two requests the modal makes; the wrappers behind them are imported
      from utils/api.js but not defined there, so their outcome is a parameter
      (`None` when the call throws). */
  datatype SaveRequest = CreateItem(body: Value) | UpdateItem(id: Value, body: Value)

  function EmptyForm(): map<string, Value> {
    map["name" := Str(""), "item_code" := Str(""), "category" := Str(""),
        "quantity" := Num(0), "location" := Str(""), "description" := Str("")]
  }

  /** `!!item?.id`. */
  predicate IsEditing(item: Value) {
    Truthy(Get(item, "id"))
  }

  /** The form for an item: each field the item lacks (or holds falsy) falls back
      to '' (quantity to 0); without an item, all defaults. */
  function Prefill(item: Value): (form: map<string, Value>)
    ensures form.Keys == EmptyForm().Keys
    ensures forall k :: k in form && !Truthy(item) ==> form[k] == EmptyForm()[k]
    ensures forall k :: k in form && Truthy(item) && Truthy(Get(item, k)) ==> form[k] == Get(item, k)
    ensures forall k :: k in form && !Truthy(Get(item, k)) ==> form[k] == EmptyForm()[k]
  {
    map k | k in EmptyForm() :: if Truthy(item) then Or(Get(item, k), EmptyForm()[k]) else EmptyForm()[k]
  }

  /** `parseInt(value) || 0`: text without a leading number, and 0 itself, give 0. */
  function QuantityOf(value: string): (v: Value)
    ensures v.Num?
    ensures ParseInt(value).None? ==> v == Num(0)
    ensures ParseInt(value).Some? ==> v == Num(ParseInt(value).value)
  {
    match ParseInt(value)
    case None => Num(0)
    case Some(n) => if n != 0 then Num(n) else Num(0)
  }

  /** The value handleChange stores for an input. */
  function Entered(name: string, value: string): (v: Value)
    ensures name == "quantity" ==> v == QuantityOf(value)
    ensures name != "quantity" ==> v == Str(value)
  {
    if name == "quantity" then QuantityOf(value) else Str(value)
  }

  lemma NonNumericQuantityIsZero(value: string)
    requires forall k :: 0 <= k < |value| ==> !IsDigit(value[k])
    ensures Entered("quantity", value) == Num(0)
  {
    ParseIntWithoutDigits(value);
  }

  // ---------------------------------------------------------------------------
  // Validation

  predicate IsRequired(key: string) {
    key == "name" || key == "item_code" || key == "category" || key == "location"
  }

  function Message(key: string): string {
    if key == "name" then "Name is required"
    else if key == "item_code" then "Item code is required"
    else if key == "category" then "Category is required"
    else "Location is required"
  }

  /** `.trim()` throws unless each checked field holds a string. */
  predicate Checkable(form: map<string, Value>) {
    && Get(Obj(form), "name").Str? && Get(Obj(form), "item_code").Str?
    && Get(Obj(form), "category").Str? && Get(Obj(form), "location").Str?
  }

  /** A checked field is missing when its text trims to nothing, that is, when
      it is whitespace only. */
  predicate Missing(form: map<string, Value>, key: string) {
    Get(Obj(form), key).Str? && Blank(Get(Obj(form), key).s)
  }

  /** `!text.trim()` holds exactly for the whitespace-only texts. */
  lemma MissingIsTrimmedAway(form: map<string, Value>, key: string)
    requires Get(Obj(form), key).Str?
    ensures Missing(form, key) <==> Trim(Get(Obj(form), key).s) == ""
  {
    TrimEmptyIffBlank(Get(Obj(form), key).s);
  }

  /** One `if (!formData[key].trim()) newErrors[key] = message` applied to the
      errors so far; `None` once a trim has thrown. */
  function CheckField(form: map<string, Value>, key: string, errors: Option<map<string, Value>>)
    : (r: Option<map<string, Value>>)
    ensures r.Some? <==> errors.Some? && Get(Obj(form), key).Str?
    ensures r.Some? ==> forall k :: k in r.value <==> k in errors.value || (k == key && Missing(form, key))
    ensures r.Some? ==> forall k :: k in r.value ==> r.value[k] == if k == key && Missing(form, key) then Str(Message(key)) else errors.value[k]
  {
    if errors.None? || !Get(Obj(form), key).Str? then None
    else if Missing(form, key) then Some(errors.value[key := Str(Message(key))])
    else errors
  }

  /** validateForm: the four checks in order; a trim that throws ends it. */
  function Validate(form: map<string, Value>): Option<map<string, Value>> {
    var afterName := CheckField(form, "name", Some(map[]));
    var afterCode := CheckField(form, "item_code", afterName);
    var afterCategory := CheckField(form, "category", afterCode);
    CheckField(form, "location", afterCategory)
  }

  /** Each of name, item_code, category and location is flagged iff its trimmed
      text is empty, with its own message; quantity and description never are. */
  lemma ValidateSpec(form: map<string, Value>, key: string)
    ensures Validate(form).Some? <==> Checkable(form)
    ensures Checkable(form) ==> (key in Validate(form).value <==> IsRequired(key) && Missing(form, key))
    ensures Checkable(form) && key in Validate(form).value ==> Validate(form).value[key] == Str(Message(key))
  {
    var afterName := CheckField(form, "name", Some(map[]));
    var afterCode := CheckField(form, "item_code", afterName);
    var afterCategory := CheckField(form, "category", afterCode);
    var afterLocation := CheckField(form, "location", afterCategory);
    assert Validate(form) == afterLocation;
  }

  // ---------------------------------------------------------------------------
  // The category options

  const Categories := ["replacement", "maintenance", "critical", "surgical_equipment", "miscellaneous"]

  /** Each option shows its value in Title Case: '_' becomes a space and every
      word starts upper-case. */
  lemma CategoryLabels(i: nat)
    requires i < |Categories|
    ensures Formatters.FormatEquipmentTypeName(Categories[i]) == Formatters.TitleCaseReference(Categories[i])
  {
    Formatters.TypeNameIsTitleCase(Categories[i]);
  }

  // ---------------------------------------------------------------------------
  // The modal

  /** What the form's errors become after a failed save: an object error
      replaces them, anything else is shown as the general message. */
  function SaveErrors(error: Value): (r: Value)
    ensures Truthy(error) && (error.Obj? || error.Arr?) ==> r == error
    ensures !(Truthy(error) && (error.Obj? || error.Arr?)) ==>
      r == Obj(map["general" := Or(error, Str("An error occurred while saving"))])
  {
    if Truthy(error) && (error.Obj? || error.Arr?) then error
    else Obj(map["general" := Or(error, Str("An error occurred while saving"))])
  }

  function SaveFor(item: Value, form: map<string, Value>): (r: SaveRequest)
    ensures IsEditing(item) <==> r.UpdateItem?
    ensures r.body == Obj(form)
  {
    if IsEditing(item) then UpdateItem(Get(item, "id"), Obj(form)) else CreateItem(Obj(form))
  }

  class InventoryModal {
    const item: Value
    var formData: map<string, Value>
    var errors: Value
    var isSubmitting: bool
    /** The requests sent, and how often onSave and onClose were called. */
    var requests: seq<SaveRequest>
    var saves: nat
    var closes: nat

    constructor (item: Value)
      ensures this.item == item && formData == EmptyForm() && errors == Obj(map[])
      ensures !isSubmitting && requests == [] && saves == 0 && closes == 0
    {
      this.item := item;
      formData, errors, isSubmitting := EmptyForm(), Obj(map[]), false;
      requests, saves, closes := [], 0, 0;
    }

    /** The effect run when the modal opens or the item changes. */
    method Populate()
      modifies this`formData, this`errors
      ensures formData == Prefill(item) && errors == Obj(map[])
    {
      formData := Prefill(item);
      errors := Obj(map[]);
    }

    method HandleChange(name: string, value: string)
      modifies this`formData, this`errors
      ensures formData == old(formData)[name := Entered(name, value)]
      ensures Truthy(Get(old(errors), name)) ==> errors == Obj(Spread(old(errors))[name := Null])
      ensures !Truthy(Get(old(errors), name)) ==> errors == old(errors)
    {
      formData := formData[name := if name == "quantity" then QuantityOf(value) else Str(value)];
      if Truthy(Get(errors, name)) {
        errors := Obj(Spread(errors)[name := Null]);
      }
    }

    /** The request a valid form sends and what its outcome does. */
    method Send(save: SaveRequest -> Option<Session.Mutation>)
      modifies this`errors, this`isSubmitting, this`requests, this`saves, this`closes
      requires errors == Obj(map[])
      ensures !isSubmitting
      ensures var request := SaveFor(item, formData);
        && requests == old(requests) + [request]
        && (save(request).None? ==>
              errors == Obj(map["general" := Str("An unexpected error occurred")])
              && saves == old(saves) && closes == old(closes))
        && (save(request).Some? && save(request).value.success ==>
              errors == Obj(map[]) && saves == old(saves) + 1 && closes == old(closes) + 1)
        && (save(request).Some? && !save(request).value.success ==>
              errors == SaveErrors(save(request).value.error)
              && saves == old(saves) && closes == old(closes))
    {
      isSubmitting := true;
      var request := SaveFor(item, formData);
      requests := requests + [request];
      var response := save(request);
      if response.None? {
        errors := Obj(map["general" := Str("An unexpected error occurred")]);
      } else if response.value.success {
        saves := saves + 1;
        closes := closes + 1;
      } else {
        errors := SaveErrors(response.value.error);
      }
      isSubmitting := false;
    }

    /** handleSubmit: nothing is sent unless validation passes (a trim that
        throws ends the submit with nothing changed); then update when the item
        has an id, create otherwise. */
    method HandleSubmit(save: SaveRequest -> Option<Session.Mutation>)
      modifies this`errors, this`isSubmitting, this`requests, this`saves, this`closes
      ensures Validate(formData).None? ==>
        errors == old(errors) && isSubmitting == old(isSubmitting)
        && requests == old(requests) && saves == old(saves) && closes == old(closes)
      ensures Validate(formData).Some? && |Validate(formData).value| > 0 ==>
        errors == Obj(Validate(formData).value) && isSubmitting == old(isSubmitting)
        && requests == old(requests) && saves == old(saves) && closes == old(closes)
      ensures Validate(formData).Some? && |Validate(formData).value| == 0 ==>
        var request := SaveFor(item, formData);
        && !isSubmitting
        && requests == old(requests) + [request]
        && (save(request).None? ==>
              errors == Obj(map["general" := Str("An unexpected error occurred")])
              && saves == old(saves) && closes == old(closes))
        && (save(request).Some? && save(request).value.success ==>
              errors == Obj(map[]) && saves == old(saves) + 1 && closes == old(closes) + 1)
        && (save(request).Some? && !save(request).value.success ==>
              errors == SaveErrors(save(request).value.error)
              && saves == old(saves) && closes == old(closes))
    {
      var checked := Validate(formData);
      if checked.None? {
        return;
      }
      errors := Obj(checked.value);
      if |checked.value| > 0 {
        return;
      }
      assert checked.value == map[];
      Send(save);
    }
  }
}
