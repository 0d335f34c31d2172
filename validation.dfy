/**
  The form's validation schema. Each rule is written as the list of issues
  its checks raise, in the order the checks run; the form keeps the first
  issue of a field as that field's error.
 */
module Validation {
  import opened Wrappers
  import opened FormSchema
  import opened FieldValues

  /** The kinds of error a field can show. */
  datatype ValidationError =
    | Required              // a `min(1)` check, or "... is required"
    | TooShort(min: nat)    // "... must be at least `min` characters"
    | WrongLength(len: nat) // "... must be exactly `len` characters"
    | InvalidType           // a `false` where only a string is accepted

  /** The six fields the schema has rules for. */
  const RuledFields: set<string> :=
    {"itemName", "productType", "recommendedBrowserNode", "brandName", "externalProductId", "shortDescription"}

  /** `name` is one of the six ruled fields. */
  predicate IsRuled(name: string)
    ensures IsRuled(name) <==> name in RuledFields
  {
    name == "itemName" || name == "productType" || name == "recommendedBrowserNode" ||
    name == "brandName" || name == "externalProductId" || name == "shortDescription"
  }

  /** The fields whose rule is `min(1)` followed by "empty or at least 4 characters". */
  const MinLengthFields: set<string> := {"itemName", "productType", "recommendedBrowserNode"}

  /** `z.string().min(n)`: one issue when the text is shorter than `n`. */
  function MinCheck(s: string, n: nat, issue: ValidationError): seq<ValidationError>
  {
    if |s| < n then [issue] else []
  }

  /** The refinement `val.length === 0 || val.length >= n`. */
  function EmptyOrAtLeast(s: string, n: nat): seq<ValidationError>
  {
    if |s| == 0 || |s| >= n then [] else [TooShort(n)]
  }

  /** The refinement `!val || val.length === n`. */
  function EmptyOrExactly(s: string, n: nat): seq<ValidationError>
  {
    if |s| == 0 || |s| == n then [] else [WrongLength(n)]
  }

  /** itemName, productType, recommendedBrowserNode: `z.string().min(1).refine(empty or at least 4)`. */
  function MinLengthIssues(v: FieldValue): seq<ValidationError>
  {
    if v == NotApplicable then [InvalidType]
    else MinCheck(Display(v), 1, Required) + EmptyOrAtLeast(Display(v), 4)
  }

  /**
    brandName: the union of the string rule above with `literal(false)`,
    refined by "false, or at least one character".
   */
  function BrandNameIssues(v: FieldValue): seq<ValidationError>
  {
    if v == NotApplicable then []
    else MinCheck(Display(v), 1, Required) + EmptyOrAtLeast(Display(v), 4) + MinCheck(Display(v), 1, Required)
  }

  /** externalProductId: the union of `z.string().refine(empty or exactly 8)` with `literal(false)`. */
  function ExternalProductIdIssues(v: FieldValue): seq<ValidationError>
  {
    if v == NotApplicable then [] else EmptyOrExactly(Display(v), 8)
  }

  /** shortDescription: `z.string().min(1)`. */
  function ShortDescriptionIssues(v: FieldValue): seq<ValidationError>
  {
    if v == NotApplicable then [InvalidType] else MinCheck(Display(v), 1, Required)
  }

  /** The issues the rule of field `name` raises on `v`; fields without a rule raise none. */
  function FieldIssues(name: string, v: FieldValue): seq<ValidationError>
  {
    if name in MinLengthFields then MinLengthIssues(v)
    else if name == "brandName" then BrandNameIssues(v)
    else if name == "externalProductId" then ExternalProductIdIssues(v)
    else if name == "shortDescription" then ShortDescriptionIssues(v)
    else []
  }

  /** The error a field shows: the first issue its rule raises, if any. */
  function FieldError(name: string, v: FieldValue): (r: Option<ValidationError>)
    ensures r.None? <==> FieldIssues(name, v) == []
    ensures r.Some? ==> r.value in FieldIssues(name, v)
    ensures name !in RuledFields ==> r.None?
  {
    var issues := FieldIssues(name, v);
    if issues == [] then None else Some(issues[0])
  }

  /**
    The error map of the whole form: one entry per field whose rule fails.
    Only the six ruled fields can ever appear in it.
   */
  function Validate(values: map<string, FieldValue>): (errors: map<string, ValidationError>)
    ensures errors.Keys <= RuledFields
  {
    map n | n in RuledFields && FieldError(n, ValueOf(values, n)).Some? ::
      FieldError(n, ValueOf(values, n)).value
  }

  // ---------------------------------------------------------------------------
  // The rules' observable outcomes, field by field.

  /**
    itemName, productType and recommendedBrowserNode: "" is Required,
    1 to 3 characters is TooShort(4), 4 or more characters is valid.
   */
  lemma MinLengthRule(values: map<string, FieldValue>, name: string)
    requires name in MinLengthFields
    requires ValueOf(values, name) != NotApplicable
    ensures var s := Display(ValueOf(values, name));
      && (s == "" ==> name in Validate(values) && Validate(values)[name] == Required)
      && (0 < |s| < 4 ==> name in Validate(values) && Validate(values)[name] == TooShort(4))
      && (|s| >= 4 <==> name !in Validate(values))
  {
  }

  /**
    brandName: the sentinel always validates; otherwise "" is Required,
    1 to 3 characters is TooShort(4), 4 or more characters is valid.
   */
  lemma BrandNameRule(values: map<string, FieldValue>)
    ensures ValueOf(values, "brandName") == NotApplicable ==> "brandName" !in Validate(values)
    ensures ValueOf(values, "brandName") != NotApplicable ==>
      var s := Display(ValueOf(values, "brandName"));
      && (s == "" ==> "brandName" in Validate(values) && Validate(values)["brandName"] == Required)
      && (0 < |s| < 4 ==> "brandName" in Validate(values) && Validate(values)["brandName"] == TooShort(4))
      && (|s| >= 4 <==> "brandName" !in Validate(values))
  {
  }

  /** externalProductId is optional: "" and the sentinel both validate. */
  lemma ExternalProductIdOptional(values: map<string, FieldValue>)
    requires ValueOf(values, "externalProductId") == NotApplicable ||
             Display(ValueOf(values, "externalProductId")) == ""
    ensures "externalProductId" !in Validate(values)
  {
  }

  /** Non-empty externalProductId text validates exactly when it has 8 characters, else WrongLength(8). */
  lemma ExternalProductIdLength(values: map<string, FieldValue>)
    requires ValueOf(values, "externalProductId").Text?
    requires Display(ValueOf(values, "externalProductId")) != ""
    ensures |Display(ValueOf(values, "externalProductId"))| == 8 <==> "externalProductId" !in Validate(values)
    ensures "externalProductId" in Validate(values) ==> Validate(values)["externalProductId"] == WrongLength(8)
  {
  }

  /** shortDescription: the only error is Required, and only on "" (no length bound beyond that). */
  lemma ShortDescriptionRule(values: map<string, FieldValue>)
    requires ValueOf(values, "shortDescription") != NotApplicable
    ensures Display(ValueOf(values, "shortDescription")) == "" <==> "shortDescription" in Validate(values)
    ensures "shortDescription" in Validate(values) ==> Validate(values)["shortDescription"] == Required
  {
  }

  /** A `false` in a field that accepts only strings is an InvalidType error. */
  lemma SentinelInStringField(values: map<string, FieldValue>, name: string)
    requires name in MinLengthFields || name == "shortDescription"
    requires ValueOf(values, name) == NotApplicable
    ensures name in Validate(values) && Validate(values)[name] == InvalidType
  {
  }

  /** A field's error depends only on that field's value. */
  lemma ErrorIsLocal(values: map<string, FieldValue>, name: string, other: string, v: FieldValue)
    requires other != name
    ensures (name in Validate(values)) == (name in Validate(values[other := v]))
    ensures name in Validate(values) ==> Validate(values)[name] == Validate(values[other := v])[name]
  {
  }

  /**
    The page never shows an InvalidType error: only fields with a checkbox
    can hold the sentinel, and the rules of those fields accept it.
   */
  lemma NoInvalidType(store: FormValues, name: string)
    requires store.Valid() && store.registry == CatalogueForm()
    ensures FieldError(name, store.Get(name)) != Some(InvalidType)
    ensures name in Validate(store.values) ==> Validate(store.values)[name] != InvalidType
  {
    CatalogueCheckboxFields(name);
  }

  /** The form's starting values fail exactly the required rules. */
  lemma DefaultErrors()
    ensures Validate(DefaultValues()) == map[
      "itemName" := Required,
      "productType" := Required,
      "recommendedBrowserNode" := Required,
      "brandName" := Required,
      "shortDescription" := Required]
  {
  }
}
