/**
  Client code of the form store: the interactions a user has with the
  catalogue page, checked against the validator and the tab indicator.
 */
module Scenarios {
  import opened FormSchema
  import opened FieldValues
  import opened Validation
  import opened TabErrors

  /** Typing a too-short and then a long enough item name. */
  method ItemNameScenario()
  {
    var form := new FormValues(CatalogueForm());
    var ok := form.SetText("itemName", "Ad");
    assert ok;
    MinLengthRule(form.values, "itemName");
    assert Validate(form.values)["itemName"] == TooShort(4);
    ok := form.SetText("itemName", "Adidas");
    MinLengthRule(form.values, "itemName");
    assert "itemName" !in Validate(form.values);
  }

  /** The external product ID: optional, exactly 8 characters, and waived by its checkbox. */
  method ExternalProductIdScenario()
  {
    var form := new FormValues(CatalogueForm());
    ExternalProductIdOptional(form.values);
    assert "externalProductId" !in Validate(form.values);
    var ok := form.SetText("externalProductId", "1234567");
    ExternalProductIdLength(form.values);
    assert Validate(form.values)["externalProductId"] == WrongLength(8);
    ok := form.SetText("externalProductId", "12345678");
    ExternalProductIdLength(form.values);
    assert "externalProductId" !in Validate(form.values);
    CatalogueCheckboxFields("externalProductId");
    ok := form.SetNotApplicable("externalProductId", true);
    assert ok && IsNA(form.Get("externalProductId"));
    ExternalProductIdOptional(form.values);
    assert "externalProductId" !in Validate(form.values);
    // The input is disabled now: typing is ignored.
    ok := form.SetText("externalProductId", "123");
    assert !ok && IsNA(form.Get("externalProductId"));
  }

  /** Checking "does not have a brand name" clears the error; unchecking brings Required back. */
  method BrandNameScenario()
  {
    var form := new FormValues(CatalogueForm());
    var ok := form.SetText("brandName", "Adidas");
    CatalogueCheckboxFields("brandName");
    ok := form.SetNotApplicable("brandName", true);
    assert ok && Display(form.Get("brandName")) == "";
    BrandNameRule(form.values);
    assert "brandName" !in Validate(form.values);
    ok := form.SetNotApplicable("brandName", false);
    assert form.Get("brandName") == Unset;
    BrandNameRule(form.values);
    assert Validate(form.values)["brandName"] == Required;
  }

  /** A field without a checkbox label cannot be marked not applicable. */
  method NoCheckboxScenario()
  {
    var form := new FormValues(CatalogueForm());
    CatalogueCheckboxFields("itemName");
    var ok := form.SetNotApplicable("itemName", true);
    assert !ok && form.Get("itemName") == Unset;
  }
}
