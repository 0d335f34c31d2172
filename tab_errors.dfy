/**
  The warning indicator on each tab trigger: a tab has errors when some
  field of some of its groups has an entry in the form's error map.
 */
module TabErrors {
  import opened Wrappers
  import opened FormSchema
  import opened FieldValues
  import opened Validation

  /** The nested `some` over the tab's groups and their fields. */
  function TabHasErrors(tab: Tab, errors: map<string, ValidationError>): (r: bool)
    ensures r <==> exists name :: InTab(tab, name) && name in errors
  {
    var r := SomeField(tab.groups, (f: Field) => f.name in errors);
    assert r ==> exists name :: InTab(tab, name) && name in errors by {
      if r {
        var j, k :| 0 <= j < |tab.groups| && 0 <= k < |tab.groups[j].fields| &&
                    tab.groups[j].fields[k].name in errors;
        assert InTab(tab, tab.groups[j].fields[k].name);
      }
    }
    r
  }

  /**
    `hasTabErrors(tabKey)`: looks the tab up by key and aggregates its
    fields' errors. A key that names no tab makes the lookup fail (None):
    for an ordinary key the page would throw on `undefined.groups`. The page
    only passes the registry's own keys.
   */
  function HasTabErrors(reg: Registry, key: string, errors: map<string, ValidationError>): (r: Option<bool>)
    ensures r.None? <==> forall t :: t in reg ==> t.key != key
    ensures r.Some? ==> exists t :: t in reg && t.key == key && (r.value <==> TabHasErrors(t, errors))
  {
    match GetTab(reg, key)
    case None => None
    case Some(tab) => Some(TabHasErrors(tab, errors))
  }

  /** A tab with no groups, or whose groups have no fields, never shows the indicator. */
  lemma NoFieldsNoErrors(tab: Tab, errors: map<string, ValidationError>)
    requires forall j :: 0 <= j < |tab.groups| ==> tab.groups[j].fields == []
    ensures !TabHasErrors(tab, errors)
  {
  }

  /** Error keys that name no field of the tab are ignored, whether added or removed. */
  lemma ForeignKeysIgnored(tab: Tab, errors: map<string, ValidationError>, name: string, e: ValidationError)
    requires !InTab(tab, name)
    ensures TabHasErrors(tab, errors[name := e]) == TabHasErrors(tab, errors)
    ensures TabHasErrors(tab, errors - {name}) == TabHasErrors(tab, errors)
  {
  }

  /** The indicator only depends on the errors of the tab's own fields. */
  lemma OnlyOwnFieldsMatter(tab: Tab, e1: map<string, ValidationError>, e2: map<string, ValidationError>)
    requires forall n :: InTab(tab, n) ==> (n in e1 <==> n in e2)
    ensures TabHasErrors(tab, e1) == TabHasErrors(tab, e2)
  {
  }

  // ---------------------------------------------------------------------------
  // The catalogue page's tabs.

  /** No field of `tab` has a validation rule. */
  ghost predicate NoRuledFields(tab: Tab)
  {
    forall j, k :: 0 <= j < |tab.groups| && 0 <= k < |tab.groups[j].fields| ==>
      !IsRuled(tab.groups[j].fields[k].name)
  }

  lemma ProductDetailsHasNoRules()
    ensures NoRuledFields(ProductDetailsTab())
  {
  }

  lemma OfferHasNoRules()
    ensures NoRuledFields(OfferTab())
  {
  }

  lemma SafetyAndComplianceHasNoRules()
    ensures NoRuledFields(SafetyAndComplianceTab())
  {
  }

  /** A tab without ruled fields never shows the indicator for any form values. */
  lemma UnruledTabNeverHasErrors(tab: Tab, values: map<string, FieldValue>)
    requires NoRuledFields(tab)
    ensures !TabHasErrors(tab, Validate(values))
  {
  }

  /**
    Since rules exist only for fields of the "productIdentity" and
    "description" tabs, the other three tabs of the catalogue page never
    show the error indicator, whatever the form holds.
   */
  lemma OnlyIdentityAndDescriptionShowErrors(values: map<string, FieldValue>, key: string)
    requires key in {"productDetails", "offer", "safetyAndCompliance"}
    ensures HasTabErrors(CatalogueForm(), key, Validate(values)) == Some(false)
  {
    var reg := CatalogueForm();
    if key == "productDetails" {
      GetTabFirst(reg, 2);
      ProductDetailsHasNoRules();
      UnruledTabNeverHasErrors(reg[2], values);
    } else if key == "offer" {
      GetTabFirst(reg, 3);
      OfferHasNoRules();
      UnruledTabNeverHasErrors(reg[3], values);
    } else {
      GetTabFirst(reg, 4);
      SafetyAndComplianceHasNoRules();
      UnruledTabNeverHasErrors(reg[4], values);
    }
  }

  /** Of the ruled fields, the "description" tab holds only shortDescription. */
  lemma DescriptionTabIndicator(errors: map<string, ValidationError>)
    requires errors.Keys <= RuledFields
    ensures TabHasErrors(DescriptionTab(), errors) == ("shortDescription" in errors)
  {
  }

  /** Of the ruled fields, the "productIdentity" tab holds all but shortDescription. */
  lemma ProductIdentityTabIndicator(errors: map<string, ValidationError>)
    requires errors.Keys <= RuledFields
    ensures TabHasErrors(ProductIdentityTab(), errors) <==> exists n :: n in errors && n != "shortDescription"
  {
  }

  /** The "description" tab shows the indicator exactly when shortDescription has an error. */
  lemma DescriptionIndicator(values: map<string, FieldValue>)
    ensures HasTabErrors(CatalogueForm(), "description", Validate(values)) ==
      Some("shortDescription" in Validate(values))
  {
    GetTabFirst(CatalogueForm(), 1);
    DescriptionTabIndicator(Validate(values));
  }

  /** The "productIdentity" tab shows the indicator exactly when one of its five fields has an error. */
  lemma ProductIdentityIndicator(values: map<string, FieldValue>)
    ensures HasTabErrors(CatalogueForm(), "productIdentity", Validate(values)) ==
      Some(exists n :: n in Validate(values) && n != "shortDescription")
  {
    GetTabFirst(CatalogueForm(), 0);
    ProductIdentityTabIndicator(Validate(values));
  }
}
