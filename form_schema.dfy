/**
  The form schema registry of the "add product" catalogue page: tabs hold
  ordered groups and groups hold ordered field descriptors. Labels,
  placeholders and tooltips of fields are display text and are not kept;
  a field keeps its name, its required flag and whether it carries a
  "does not apply" checkbox label.
 */
module FormSchema {
  import opened Wrappers

  /** A field descriptor: `name`, `required`, and whether `checkboxLabel` is present. */
  datatype Field = Field(name: string, required: bool, hasCheckbox: bool)

  /** A group of fields with an optional heading and an optional tooltip. */
  datatype Group = Group(heading: Option<string>, hasTooltip: bool, fields: seq<Field>)

  /** One entry of the registry: the tab's key, its label (`title`, since `label` is a Dafny keyword) and its ordered groups. */
  datatype Tab = Tab(key: string, title: string, groups: seq<Group>)

  /** The registry, in insertion order (the order `Object.entries` yields string keys in). */
  type Registry = seq<Tab>

  /** `name` is the name of some field of some group of `tab`. */
  ghost predicate InTab(tab: Tab, name: string)
  {
    exists j, k :: 0 <= j < |tab.groups| && 0 <= k < |tab.groups[j].fields| &&
      tab.groups[j].fields[k].name == name
  }

  /** `name` is the name of a field of `tab` that renders a "does not apply" checkbox. */
  ghost predicate HasCheckboxIn(tab: Tab, name: string)
  {
    exists j, k :: 0 <= j < |tab.groups| && 0 <= k < |tab.groups[j].fields| &&
      tab.groups[j].fields[k].name == name && tab.groups[j].fields[k].hasCheckbox
  }

  /** `name` is the name of a field of the registry that renders a "does not apply" checkbox. */
  ghost predicate HasCheckbox(reg: Registry, name: string)
  {
    exists i :: 0 <= i < |reg| && HasCheckboxIn(reg[i], name)
  }

  /** The tab stored under `key`, or None when the registry has no such key. */
  function GetTab(reg: Registry, key: string): (r: Option<Tab>)
    ensures r.Some? ==> r.value in reg && r.value.key == key
    ensures r.None? <==> forall t :: t in reg ==> t.key != key
    ensures r.Some? ==> exists i :: 0 <= i < |reg| && reg[i] == r.value &&
                          forall j :: 0 <= j < i ==> reg[j].key != key
  {
    if reg == [] then None
    else if reg[0].key == key then Some(reg[0])
    else
      var r := GetTab(reg[1..], key);
      assert r.Some? ==> exists i :: 1 <= i < |reg| && reg[i] == r.value &&
                          forall j :: 0 <= j < i ==> reg[j].key != key by {
        if r.Some? {
          var i :| 0 <= i < |reg[1..]| && reg[1..][i] == r.value &&
                   forall j :: 0 <= j < i ==> reg[1..][j].key != key;
          assert reg[i + 1] == r.value;
          forall j | 0 <= j < i + 1 ensures reg[j].key != key {
            if j > 0 { assert reg[j] == reg[1..][j - 1]; }
          }
        }
      }
      r
  }

  /** A tab whose key no earlier tab has is the one the lookup finds. */
  lemma GetTabFirst(reg: Registry, i: nat)
    requires i < |reg|
    requires forall j :: 0 <= j < i ==> reg[j].key != reg[i].key
    ensures GetTab(reg, reg[i].key) == Some(reg[i])
  {
  }

  /** Whether some field of `fields` satisfies `p` (the inner `some`). */
  function SomeFieldIn(fields: seq<Field>, p: Field -> bool): (r: bool)
    ensures r <==> exists k :: 0 <= k < |fields| && p(fields[k])
  {
    if fields == [] then false
    else if p(fields[0]) then true
    else
      var r := SomeFieldIn(fields[1..], p);
      assert r ==> exists k :: 1 <= k < |fields| && p(fields[k]) by {
        if r {
          var k :| 0 <= k < |fields[1..]| && p(fields[1..][k]);
          assert fields[k + 1] == fields[1..][k];
        }
      }
      assert (exists k :: 1 <= k < |fields| && p(fields[k])) ==> r by {
        if k :| 1 <= k < |fields| && p(fields[k]) {
          assert fields[1..][k - 1] == fields[k];
        }
      }
      r
  }

  /**
    Whether some field of some group satisfies `p`, groups and fields taken
    in order (the nested `some` over a tab's groups).
   */
  function SomeField(groups: seq<Group>, p: Field -> bool): (r: bool)
    ensures r <==> exists j, k :: 0 <= j < |groups| && 0 <= k < |groups[j].fields| &&
                                  p(groups[j].fields[k])
  {
    if groups == [] then false
    else if SomeFieldIn(groups[0].fields, p) then true
    else
      var r := SomeField(groups[1..], p);
      assert r ==> exists j, k :: 1 <= j < |groups| && 0 <= k < |groups[j].fields| &&
                                  p(groups[j].fields[k]) by {
        if r {
          var j, k :| 0 <= j < |groups[1..]| && 0 <= k < |groups[1..][j].fields| &&
                      p(groups[1..][j].fields[k]);
          assert groups[j + 1] == groups[1..][j];
        }
      }
      assert (exists j, k :: 1 <= j < |groups| && 0 <= k < |groups[j].fields| &&
                             p(groups[j].fields[k])) ==> r by {
        if j, k :| 1 <= j < |groups| && 0 <= k < |groups[j].fields| && p(groups[j].fields[k]) {
          assert groups[1..][j - 1] == groups[j];
        }
      }
      r
  }

  /** Whether the registry renders a "does not apply" checkbox for the field `name`. */
  function CheckboxFor(reg: Registry, name: string): (r: bool)
    ensures r <==> HasCheckbox(reg, name)
  {
    if reg == [] then false
    else if SomeField(reg[0].groups, (f: Field) => f.name == name && f.hasCheckbox) then true
    else
      var r := CheckboxFor(reg[1..], name);
      assert r ==> HasCheckbox(reg, name) by {
        if r {
          var i :| 0 <= i < |reg[1..]| && HasCheckboxIn(reg[1..][i], name);
          assert reg[i + 1] == reg[1..][i];
        }
      }
      assert HasCheckbox(reg, name) ==> r by {
        if HasCheckbox(reg, name) {
          var i :| 0 <= i < |reg| && HasCheckboxIn(reg[i], name);
          assert i != 0;
          assert reg[1..][i - 1] == reg[i];
        }
      }
      r
  }

  /** The (key, label) pairs rendered as tab triggers, in registry order. */
  function ListTabs(reg: Registry): (r: seq<(string, string)>)
    ensures |r| == |reg|
    ensures forall i :: 0 <= i < |reg| ==> r[i] == (reg[i].key, reg[i].title)
  {
    if reg == [] then [] else [(reg[0].key, reg[0].title)] + ListTabs(reg[1..])
  }

  // ---------------------------------------------------------------------------
  // The registry literal of the catalogue page.

  function ProductIdentityTab(): Tab
  {
    Tab("productIdentity", "Product Identity", [
      Group(None, false, [
        Field("itemName", true, false),
        Field("productType", true, false),
        Field("recommendedBrowserNode", true, false),
        Field("brandName", true, true),
        Field("externalProductId", false, true)
      ])
    ])
  }

  function DescriptionTab(): Tab
  {
    Tab("description", "Description", [
      Group(None, false, [
        Field("shortDescription", true, false),
        Field("bulletPoints", true, false),
        Field("images", true, false)
      ])
    ])
  }

  function ProductDetailsTab(): Tab
  {
    Tab("productDetails", "Product Details", [
      Group(None, false, [
        Field("manufacturer", true, false),
        Field("genericKeywords", false, false),
        Field("style", false, false),
        Field("departnemntName", true, false),
        Field("targetGender", false, false),
        Field("ageRangeDescription", false, false),
        Field("material", true, false),
        Field("numberOfItems", false, false),
        Field("itemTypeName", true, false),
        Field("subjectCharacter", false, false),
        Field("color", true, false),
        Field("size", true, false),
        Field("metalType", false, false)
      ]),
      Group(Some("Stones"), false, [
        Field("stoneId", true, false),
        Field("stoneType", true, false),
        Field("numberOfStones", true, false),
        Field("stoneCreationMethod", true, false),
        Field("stoneTreatmentMethod", true, false)
      ]),
      Group(None, false, [
        Field("manufacturerContactInformation", true, false)
      ]),
      Group(Some("Unit Count"), false, [
        Field("unitCount", true, false)
      ]),
      Group(Some("External Product Information"), false, [
        Field("externalProductInformationEntity", true, false),
        Field("externalProductInformation", true, false)
      ]),
      Group(None, false, [
        Field("importerContactInformation", true, false),
        Field("packerContactInformation", true, false)
      ])
    ])
  }

  function OfferTab(): Tab
  {
    Tab("offer", "Offer", [
      Group(None, false, [
        Field("sellerSKU", false, false),
        Field("quantity", true, false),
        Field("handlingTime", false, false),
        Field("restockDate", false, false),
        Field("minimumAdvertisedPrice", false, false),
        Field("yourPrice", true, false),
        Field("maximumRetailPrice", true, false),
        Field("salePrice", false, false),
        Field("offeringConditionType", false, false)
      ]),
      Group(None, false, [
        Field("fullfimentChannel", true, false)
      ]),
      Group(Some("Item Dimensions"), false, [
        Field("itemLength", true, false),
        Field("itemLengthUnit", true, false),
        Field("itemWidth", true, false),
        Field("itemWidthUnit", true, false),
        Field("itemHeight", true, false),
        Field("itemHeightUnit", true, false)
      ]),
      Group(Some("Item Package Dimensions"), false, [
        Field("itemPackageLength", true, false),
        Field("itemPackageLengthUnit", true, false),
        Field("itemPackageWidth", true, false),
        Field("itemPackageWidthUnit", true, false),
        Field("itemPackageHeight", true, false),
        Field("itemPackageHeightUnit", true, false)
      ]),
      Group(Some("Item Package Weight"), false, [
        Field("itemPackageWeight", true, false),
        Field("itemPackageWeightUnit", true, false)
      ])
    ])
  }

  function SafetyAndComplianceTab(): Tab
  {
    Tab("safetyAndCompliance", "Safety and Compliance", [
      Group(None, false, [
        Field("countryOfOrigin", true, false),
        Field("areBatteriesRequired", true, false),
        Field("dangerousGoodsRegulation", true, false)
      ]),
      Group(Some("Item Weight"), false, [
        Field("itemWeight", true, false),
        Field("itemWeightUnit", true, false)
      ])
    ])
  }

  /** The catalogue page's registry, tabs in declaration order. */
  function CatalogueForm(): (r: Registry)
    ensures |r| == 5
    ensures forall i, j :: 0 <= i < j < |r| ==> r[i].key != r[j].key
  {
    [ProductIdentityTab(), DescriptionTab(), ProductDetailsTab(), OfferTab(), SafetyAndComplianceTab()]
  }

  /** The tab triggers of the catalogue page appear in declaration order. */
  lemma CatalogueTabOrder()
    ensures ListTabs(CatalogueForm()) == [
      ("productIdentity", "Product Identity"),
      ("description", "Description"),
      ("productDetails", "Product Details"),
      ("offer", "Offer"),
      ("safetyAndCompliance", "Safety and Compliance")]
  {
  }

  /** No field of `tab` carries a "does not apply" checkbox. */
  ghost predicate NoCheckboxes(tab: Tab)
  {
    forall j, k :: 0 <= j < |tab.groups| && 0 <= k < |tab.groups[j].fields| ==>
      !tab.groups[j].fields[k].hasCheckbox
  }

  lemma NoCheckboxesInDescriptionOrDetails()
    ensures NoCheckboxes(DescriptionTab())
    ensures NoCheckboxes(ProductDetailsTab())
  {
  }

  lemma NoCheckboxesInOfferOrSafety()
    ensures NoCheckboxes(OfferTab())
    ensures NoCheckboxes(SafetyAndComplianceTab())
  {
  }

  /**
    Exactly two fields of the catalogue page carry a "does not apply"
    checkbox, so only these two can ever hold the not-applicable value.
   */
  lemma CatalogueCheckboxFields(name: string)
    ensures HasCheckbox(CatalogueForm(), name) <==> name == "brandName" || name == "externalProductId"
  {
    NoCheckboxesInDescriptionOrDetails();
    NoCheckboxesInOfferOrSafety();
    var reg := CatalogueForm();
    if HasCheckbox(reg, name) {
      var i :| 0 <= i < |reg| && HasCheckboxIn(reg[i], name);
      assert i == 0;
    }
    if name == "brandName" {
      assert reg[0].groups[0].fields[3].name == name;
    } else if name == "externalProductId" {
      assert reg[0].groups[0].fields[4].name == name;
    }
  }
}
