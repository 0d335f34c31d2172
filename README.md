# Catalogue "add product" form — a Dafny model

This project models the logic of the catalogue page that creates a marketplace
product listing (`app/catalogue/add/page.tsx`, with the registry types of
`types/Catalogue/add/index.ts`). The page is a multi-tab form driven by a
registry of tabs, groups and fields. The model covers four pieces of it:

- **Form schema registry** (`form_schema.dfy`, module `FormSchema`): the
  `IFormFields` / `IFormGroup` / `IFormField` shapes as datatypes, and the
  page's `formFields` literal with all five tabs and all 61 fields, in
  declaration order. A field keeps its `name`, its `required` flag and whether
  it has a `checkboxLabel`. It also holds the lookup of a tab by key, the
  ordered list of tab triggers, and the nested `some` over groups and fields.
- **Tri-state field value and the value store** (`field_values.dfy`, module
  `FieldValues`): a field holds `Unset` (`""` or nothing yet), `Text(s)`, or
  `NotApplicable` (the `false` sentinel the "does not apply" checkbox stores).
  The class `FormValues` holds the value map and the registry. Its `SetText`
  is the input's change handler and its `SetNotApplicable` is the checkbox
  handler. `Display` is the input's `value || ''`, and `IsNA` is the
  "value is a boolean" test that gives both the checkbox's checked state and
  the input's disabled state.
- **Validator** (`validation.dfy`, module `Validation`): the zod object
  schema, rule by rule. Each rule is the list of issues its checks raise, in
  order. A field's error is its first issue, as the form's resolver keeps
  only the first issue per field. `Validate` maps the value map to the error
  map.
- **Tab error indicator** (`tab_errors.dfy`, module `TabErrors`):
  `hasTabErrors`, the nested `some` asking whether a field of the tab has an
  entry in the error map.

`scenarios.dfy` holds client methods that drive a `FormValues` store through
the page's interactions and check the resulting errors.
`wrappers.dfy` defines `Option`.

A few facts about the code shape the model:

- Typing into a not-applicable field never reaches the store, because the
  input is disabled. `SetText` reports such a change as not accepted and
  changes nothing.
- No checkbox is rendered for a field without a `checkboxLabel`.
  `SetNotApplicable` reports a toggle of such a field as not accepted and
  changes nothing.
- Only six fields have validation rules, all in the first two tabs.
  `OnlyIdentityAndDescriptionShowErrors` proves that the other three tabs
  never show the indicator.
- A `false` in a field that only accepts strings is an `InvalidType` error
  (zod's type check). `NoInvalidType` proves that a store reached through the
  page's handlers never produces it, because those fields have no checkbox.

## Model

| member | source | states |
|---|---|---|
| FormSchema.GetTab | app/catalogue/add/page.tsx:596 | the tab found has the key and is in the registry, and no earlier tab has that key; None exactly when no tab has the key |
| FormSchema.GetTabFirst | app/catalogue/add/page.tsx:596 | a tab whose key no earlier tab has is the tab the lookup finds |
| FormSchema.ListTabs | app/catalogue/add/page.tsx:613-620 | one (key, label) pair per tab, at the same position as the tab in the registry |
| FormSchema.CatalogueForm | app/catalogue/add/page.tsx:18-540 | the page's registry literal: five tabs, no two with the same key |
| FormSchema.CatalogueTabOrder | app/catalogue/add/page.tsx:18-540 | the page's tab triggers come in declaration order: Product Identity, Description, Product Details, Offer, Safety and Compliance |
| FormSchema.SomeFieldIn | app/catalogue/add/page.tsx:600-602 | true exactly when some field of the sequence satisfies the predicate |
| FormSchema.SomeField | app/catalogue/add/page.tsx:599-603 | true exactly when some field of some group satisfies the predicate |
| FormSchema.CheckboxFor | app/catalogue/add/page.tsx:679 | a checkbox is rendered for a name exactly when some field of the registry has that name and a checkbox label |
| FormSchema.NoCheckboxesInDescriptionOrDetails | app/catalogue/add/page.tsx:65-293 | no field of the Description or Product Details tab has a checkbox label |
| FormSchema.NoCheckboxesInOfferOrSafety | app/catalogue/add/page.tsx:295-538 | no field of the Offer or Safety and Compliance tab has a checkbox label |
| FormSchema.CatalogueCheckboxFields | app/catalogue/add/page.tsx:46-60 | exactly brandName and externalProductId have a checkbox, so only they can become not applicable |
| FieldValues.FromInput | app/catalogue/add/page.tsx:674 | typed text is stored as Unset exactly when it is empty, and never as the sentinel |
| FieldValues.Display | app/catalogue/add/page.tsx:675 | the input shows the stored text, and "" for an empty or not-applicable field |
| FieldValues.IsNA | app/catalogue/add/page.tsx:676-682 | the one test `typeof value === 'boolean'` that both disables the input and checks the box |
| FieldValues.DisplayFromInput | app/catalogue/add/page.tsx:674-675 | what the user types is what the input shows, and typing never makes the field not applicable |
| FieldValues.FromInputDisplay | app/catalogue/add/page.tsx:674-675 | storing the shown text of an enabled input gives back the same value |
| FieldValues.DefaultValues | app/catalogue/add/page.tsx:584-591 | the form starts with exactly the six ruled fields given a value, and each of them empty |
| FieldValues.FormValues.constructor | app/catalogue/add/page.tsx:582-593 | the store starts from the default values and satisfies its invariant |
| FieldValues.FormValues.SetText | app/catalogue/add/page.tsx:672-677 | a change is accepted exactly when the field is not the sentinel (the input is disabled otherwise); an accepted change stores the text and shows it; nothing else changes; the invariant is kept |
| FieldValues.FormValues.SetNotApplicable | app/catalogue/add/page.tsx:679-689 | a toggle is accepted exactly when the field has a checkbox; checking stores the sentinel whatever was there, unchecking stores "" and never restores text; checked equals not applicable; nothing else changes |
| Validation.FieldError | app/catalogue/add/page.tsx:542-580 | a field has an error exactly when its rule raises an issue, the error is one of those issues, and a field without a rule never has one |
| Validation.Validate | app/catalogue/add/page.tsx:542-580 | only the six ruled fields can ever appear in the error map |
| Validation.MinLengthRule | app/catalogue/add/page.tsx:543-557 | itemName, productType, recommendedBrowserNode: "" is Required, 1 to 3 characters is TooShort(4), valid exactly from 4 characters |
| Validation.BrandNameRule | app/catalogue/add/page.tsx:558-571 | brandName: the sentinel always validates; otherwise "" is Required (once), 1 to 3 characters is TooShort(4), valid exactly from 4 characters |
| Validation.ExternalProductIdOptional | app/catalogue/add/page.tsx:572-578 | externalProductId: "" and the sentinel both validate |
| Validation.ExternalProductIdLength | app/catalogue/add/page.tsx:572-578 | externalProductId: non-empty text validates exactly when it has 8 characters, and otherwise the error is WrongLength(8) |
| Validation.ShortDescriptionRule | app/catalogue/add/page.tsx:579 | shortDescription: the only error is Required, exactly on "", with no length bound beyond that |
| Validation.SentinelInStringField | app/catalogue/add/page.tsx:543-579 | a `false` in a string-only ruled field is an InvalidType error |
| Validation.ErrorIsLocal | app/catalogue/add/page.tsx:542-580 | changing one field never changes another field's error |
| Validation.NoInvalidType | app/catalogue/add/page.tsx:542-580 | for a store whose invariant holds over the page's registry, no field ever has an InvalidType error, in `FieldError` or in the error map |
| Validation.DefaultErrors | app/catalogue/add/page.tsx:582-593 | the starting values fail exactly the five required ruled fields, each with Required |
| TabErrors.TabHasErrors | app/catalogue/add/page.tsx:599-603 | a tab has errors exactly when some field name of the tab is a key of the error map |
| TabErrors.HasTabErrors | app/catalogue/add/page.tsx:595-604 | the lookup fails exactly for a key no tab has; otherwise the answer is the aggregate of that tab |
| TabErrors.NoFieldsNoErrors | app/catalogue/add/page.tsx:597-603 | a tab with no groups, or only empty groups, never has errors |
| TabErrors.ForeignKeysIgnored | app/catalogue/add/page.tsx:599-603 | adding or removing an error key that names no field of the tab leaves the answer unchanged |
| TabErrors.OnlyOwnFieldsMatter | app/catalogue/add/page.tsx:599-603 | two error maps that agree on the tab's own fields give the same answer |
| TabErrors.ProductDetailsHasNoRules | app/catalogue/add/page.tsx:95-293 | no field of the Product Details tab has a validation rule |
| TabErrors.OfferHasNoRules | app/catalogue/add/page.tsx:295-489 | no field of the Offer tab has a validation rule |
| TabErrors.SafetyAndComplianceHasNoRules | app/catalogue/add/page.tsx:491-538 | no field of the Safety and Compliance tab has a validation rule |
| TabErrors.UnruledTabNeverHasErrors | app/catalogue/add/page.tsx:595-604 | a tab without ruled fields never has errors, whatever the form holds |
| TabErrors.OnlyIdentityAndDescriptionShowErrors | app/catalogue/add/page.tsx:613-617 | the Product Details, Offer and Safety and Compliance triggers never show the indicator, whatever the form holds |
| TabErrors.DescriptionTabIndicator | app/catalogue/add/page.tsx:65-93 | of the ruled fields, the Description tab holds only shortDescription |
| TabErrors.ProductIdentityTabIndicator | app/catalogue/add/page.tsx:19-63 | of the ruled fields, the Product Identity tab holds every one except shortDescription |
| TabErrors.DescriptionIndicator | app/catalogue/add/page.tsx:613-617 | the Description trigger shows the indicator exactly when shortDescription has an error |
| TabErrors.ProductIdentityIndicator | app/catalogue/add/page.tsx:613-617 | the Product Identity trigger shows the indicator exactly when a ruled field other than shortDescription has an error |

## Left out

- The rendering (tabs, hover cards, inputs, checkboxes, labels, buttons) is presentation only. So are the "All Attributes / Required" radio group and the Cancel and Save as Draft buttons, which have no handlers (app/catalogue/add/page.tsx:610-716).
- `onSubmit` only logs the values (app/catalogue/add/page.tsx:606-608), so there is nothing to model. Blocking submission on errors belongs to the form library.
- Labels, placeholders and tooltips of fields, and the text of checkbox labels, are display strings. A field keeps only whether it has a checkbox label, and a group keeps only whether it has a tooltip (no group of the page has one).
- The navigation sidebar (`components/sidebar/app-sidebar.tsx`) is static navigation data composed from library components. It is not part of this model.
- Validation.Validate: the page validates in "onChange" mode (app/catalogue/add/page.tsx:592). Its error map starts empty, and a field gets an entry only once it changes (app/catalogue/add/page.tsx:674, 684-688) or a submit is attempted. So the page's map is `Validate(values)` restricted to the fields changed so far; this restriction is exact because each entry depends only on its own field (`Validation.ErrorIsLocal`). After a submit attempt it is all of `Validate(values)`. `DefaultErrors` and the indicator lemmas describe that full map, so a freshly opened page shows no indicator even though `DefaultErrors` lists five errors.
- Validation.BrandNameRule: for "", zod raises "Brand name is required" twice, once from the string rule and once from the outer refinement. Only the first issue is shown, so the model has a single Required error.
- FieldValues.ValueOf: a missing entry reads as `Unset`, as `""` would. The six ruled fields always have an entry, because they are given defaults. A truly undefined value would make zod report a type or union error instead.
- Validation.MinLengthRule: lengths are counted in characters of the Dafny string. JavaScript's `.length` counts UTF-16 code units, so the two differ for characters outside the Basic Multilingual Plane.
- FieldValues.FormValues.SetNotApplicable: the checkbox library may also pass "indeterminate", which is truthy and would store the sentinel. The model takes a boolean, since the page never renders an indeterminate box.
- FormSchema.CatalogueForm: the registry invariant that field names are unique across all tabs holds of the literal but is not proved. The model does not rely on it: values and errors are keyed by name, as in the page.
- TabErrors.HasTabErrors: for a key that names an inherited property of a JavaScript object (`"constructor"`, `"toString"`, `"__proto__"`), `formFields[tabKey]` is defined but has no `groups`, so the guard at app/catalogue/add/page.tsx:597 returns false where the model returns None. The page never passes such a key: the triggers at app/catalogue/add/page.tsx:613-615 take their keys from `Object.entries`. For a registry tab, `groups` is a mandatory array, and the empty-array case is covered by `TabErrors.NoFieldsNoErrors`.
