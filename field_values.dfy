/**
  The value each form field holds and the form's value store. A field holds
  the empty string (or nothing yet), some typed text, or the `false`
  sentinel that the "does not apply" checkbox stores.
 */
module FieldValues {
  import opened FormSchema

  /** Tri-state field value: `""`/undefined, non-empty text, or the `false` sentinel. */
  datatype FieldValue = Unset | Text(s: string) | NotApplicable

  /** The empty string is always stored as Unset, never as Text(""). */
  predicate WellFormed(v: FieldValue)
  {
    v.Text? ==> v.s != ""
  }

  /** The value stored when the user types `s` into the input. */
  function FromInput(s: string): (v: FieldValue)
    ensures WellFormed(v)
    ensures v != NotApplicable
    ensures v == Unset <==> s == ""
  {
    if s == "" then Unset else Text(s)
  }

  /** The text the input shows, `value || ''`: the sentinel and the empty value both show as "". */
  function Display(v: FieldValue): (r: string)
    ensures v.Text? ==> r == v.s
    ensures !v.Text? ==> r == ""
  {
    match v
    case Text(s) => s
    case _ => ""
  }

  /**
    The value is a boolean: this one test gives both the checkbox's checked
    state and the input's disabled state.
   */
  predicate IsNA(v: FieldValue)
  {
    v.NotApplicable?
  }

  /** What the user types is what the input shows. */
  lemma DisplayFromInput(s: string)
    ensures Display(FromInput(s)) == s
    ensures !IsNA(FromInput(s))
  {
  }

  /** Re-entering the shown text of an enabled input stores the same value again. */
  lemma FromInputDisplay(v: FieldValue)
    requires WellFormed(v) && !IsNA(v)
    ensures FromInput(Display(v)) == v
  {
  }

  /** The value of `name` in a value map; a field with no entry reads as Unset. */
  function ValueOf(values: map<string, FieldValue>, name: string): FieldValue
  {
    if name in values then values[name] else Unset
  }

  /** The `defaultValues` the form starts from: the six validated fields hold "". */
  function DefaultValues(): (m: map<string, FieldValue>)
    ensures m.Keys == {"itemName", "productType", "recommendedBrowserNode", "brandName", "externalProductId", "shortDescription"}
    ensures forall n :: n in m ==> m[n] == Unset
  {
    map[
      "itemName" := Unset,
      "productType" := Unset,
      "recommendedBrowserNode" := Unset,
      "brandName" := Unset,
      "externalProductId" := Unset,
      "shortDescription" := Unset]
  }

  /**
    The form's value store. Text changes come from the inputs' change
    handlers; checkbox toggles come from the "does not apply" checkboxes,
    which the registry renders only for fields with a checkbox label.
   */
  class FormValues {
    const registry: Registry
    var values: map<string, FieldValue>

    /** Stored text is never empty, and only checkbox fields can hold the sentinel. */
    ghost predicate Valid()
      reads this
    {
      && (forall n :: n in values ==> WellFormed(values[n]))
      && (forall n :: n in values && values[n] == NotApplicable ==> HasCheckbox(registry, n))
    }

    constructor (registry: Registry)
      ensures Valid()
      ensures this.registry == registry
      ensures values == DefaultValues()
    {
      this.registry := registry;
      values := DefaultValues();
    }

    /** The current value of `name`. */
    function Get(name: string): FieldValue
      reads this
    {
      ValueOf(values, name)
    }

    /**
      The input's change handler. A not-applicable field's input is
      disabled, so the change is ignored and `accepted` is false; otherwise
      the field holds what was typed and shows it.
     */
    method SetText(name: string, text: string) returns (accepted: bool)
      requires Valid()
      modifies this
      ensures Valid()
      ensures accepted <==> !IsNA(old(Get(name)))
      ensures accepted ==> values == old(values)[name := FromInput(text)]
      ensures accepted ==> Display(Get(name)) == text
      ensures !accepted ==> values == old(values)
    {
      accepted := !IsNA(Get(name));
      if accepted {
        values := values[name := FromInput(text)];
      }
    }

    /**
      The checkbox handler: checking stores the sentinel whatever text was
      there, unchecking always stores "" (earlier text is not restored).
      A field without a checkbox label has no checkbox, so the toggle is
      ignored and `accepted` is false.
     */
    method SetNotApplicable(name: string, checked: bool) returns (accepted: bool)
      requires Valid()
      modifies this
      ensures Valid()
      ensures accepted <==> HasCheckbox(registry, name)
      ensures accepted ==> values == old(values)[name := if checked then NotApplicable else Unset]
      ensures accepted ==> (IsNA(Get(name)) <==> checked) && Display(Get(name)) == ""
      ensures !accepted ==> values == old(values)
    {
      accepted := CheckboxFor(registry, name);
      if accepted {
        values := values[name := if checked then NotApplicable else Unset];
      }
    }
  }
}
