/** One exported row: the dictionary that the handler builds for a
    (product, variant, image) triple, kept as an ordered list of cells so that
    its column order is part of the model. */
module Rows {
  import opened Wrappers
  import opened Strings
  import opened Catalog

  datatype Cell = Cell(column: string, value: Value)

  type Row = seq<Cell>

  /** The export columns, in the order the row dictionary lists them. */
  const COLUMNS: seq<string> :=
    PRODUCT_COLUMNS + OPTION_COLUMNS + VARIANT_COLUMNS + IMAGE_COLUMNS
    + SEO_COLUMNS + GOOGLE_COLUMNS + VARIANT_EXTRA_COLUMNS + REGION_COLUMNS + ["Status"]

  const PRODUCT_COLUMNS: seq<string> := [
    "Handle", "Title", "Body (HTML)", "Vendor", "Product Category", "Type", "Tags", "Published"]
  const OPTION_COLUMNS: seq<string> := [
    "Option1 Name", "Option1 Value", "Option2 Name", "Option2 Value", "Option3 Name", "Option3 Value"]
  const VARIANT_COLUMNS: seq<string> := [
    "Variant SKU", "Variant Grams", "Variant Inventory Tracker", "Variant Inventory Policy",
    "Variant Fulfillment Service", "Variant Price", "Variant Compare At Price",
    "Variant Requires Shipping", "Variant Taxable", "Variant Barcode"]
  const IMAGE_COLUMNS: seq<string> := ["Image Src", "Image Position", "Image Alt Text"]
  const SEO_COLUMNS: seq<string> := ["Gift Card", "SEO Title", "SEO Description"]
  const GOOGLE_COLUMNS: seq<string> := [
    "Google Shopping / Google Product Category", "Google Shopping / Gender",
    "Google Shopping / Age Group", "Google Shopping / MPN", "Google Shopping / Condition",
    "Google Shopping / Custom Product", "Google Shopping / Custom Label 0",
    "Google Shopping / Custom Label 1", "Google Shopping / Custom Label 2",
    "Google Shopping / Custom Label 3", "Google Shopping / Custom Label 4"]
  const VARIANT_EXTRA_COLUMNS: seq<string> := [
    "Variant Image", "Variant Weight Unit", "Variant Tax Code", "Cost per item"]
  const REGION_COLUMNS: seq<string> := [
    "Included / Canada", "Price / Canada", "Compare At Price / Canada",
    "Included / International", "Price / International", "Compare At Price / International",
    "Included / United States", "Price / United States", "Compare At Price / United States"]

  // Positions of the columns the properties below talk about.
  const HANDLE := 0
  const TITLE := 1
  const BODY_HTML := 2
  const VENDOR := 3
  const TYPE := 5
  const TAGS := 6
  const PUBLISHED := 7
  const OPTION1_NAME := 8
  const OPTION1_VALUE := 9
  const OPTION2_NAME := 10
  const OPTION2_VALUE := 11
  const OPTION3_NAME := 12
  const OPTION3_VALUE := 13
  const VARIANT_SKU := 14
  const VARIANT_GRAMS := 15
  const VARIANT_INVENTORY_TRACKER := 16
  const VARIANT_INVENTORY_POLICY := 17
  const VARIANT_FULFILLMENT_SERVICE := 18
  const VARIANT_PRICE := 19
  const VARIANT_COMPARE_AT_PRICE := 20
  const VARIANT_REQUIRES_SHIPPING := 21
  const VARIANT_TAXABLE := 22
  const VARIANT_BARCODE := 23
  const IMAGE_SRC := 24
  const IMAGE_POSITION := 25
  const IMAGE_ALT_TEXT := 26
  const GIFT_CARD := 27
  const VARIANT_IMAGE := 41
  const VARIANT_WEIGHT_UNIT := 42
  const STATUS := 54

  /** The columns for which the product JSON has no source: always empty. */
  predicate IsUnavailableColumn(k: int) {
    k == 4 || 28 <= k <= 40 || 43 <= k <= 53
  }

  /** The column names of a row, in order. */
  function Columns(r: Row): seq<string>
  {
    seq(|r|, i requires 0 <= i < |r| => r[i].column)
  }

  /** The empty string cell value used for every missing optional field. */
  const EMPTY: Value := JString("")

  /** The `Tags` cell: `", ".join(tags)`. Joining a JSON string joins its characters. */
  function TagsText(tags: Tags): (r: string)
    ensures tags.TagList? && tags.items != [] ==> |r| == TotalLength(tags.items) + 2 * (|tags.items| - 1)
    ensures tags.TagText? ==> |r| == if tags.text == [] then 0 else 3 * |tags.text| - 2
  {
    match tags
    case TagList(items) =>
      if items == [] then "" else JoinLength(", ", items); Join(", ", items)
    case TagText(text) =>
      var chars := Characters(text);
      CharactersLength(text);
      if chars == [] then "" else JoinLength(", ", chars); Join(", ", chars)
  }

  /** The one-character strings of a text hold as many characters as the text. */
  lemma {:induction false} CharactersLength(text: string)
    ensures |Characters(text)| == |text|
    ensures TotalLength(Characters(text)) == |text|
    decreases |text|
  {
    if text != [] {
      CharactersLength(text[1..]);
      assert Characters(text)[1..] == Characters(text[1..]);
    }
  }

  /** A Python string iterated as a sequence: its one-character strings. */
  function Characters(text: string): seq<string>
  {
    seq(|text|, i requires 0 <= i < |text| => [text[i]])
  }

  /** `Option<k+1> Name` for a product whose option names can be read: the
      name of option `k` when the product has more than `k` options, the empty
      string otherwise. */
  function OptionName(options: seq<ProductOption>, k: nat): Value
    requires k < |options| ==> options[k].name.Some?
  {
    if |options| > k then options[k].name.value else EMPTY
  }

  /** The product has every key the row dictionary reads with `product[key]`,
      including the `name` of each of its first three options. */
  predicate ProductFieldsPresent(p: Product) {
    && p.handle.Some? && p.title.Some? && p.bodyHtml.Some? && p.vendor.Some?
    && p.productType.Some? && p.tags.Some? && p.publishedAt.Some? && p.options.Some?
    && (forall k :: 0 <= k < 3 && k < |p.options.value| ==> p.options.value[k].name.Some?)
  }

  /** The variant has `sku`, `grams`, `price`, `requires_shipping` and `taxable`. */
  predicate VariantFieldsPresent(v: Variant) {
    v.sku.Some? && v.grams.Some? && v.price.Some? && v.requiresShipping.Some? && v.taxable.Some?
  }

  /** The image has `src` and `position`. */
  predicate ImageFieldsPresent(img: Image) {
    img.src.Some? && img.position.Some?
  }

  /** Every key the row dictionary reads with `d[key]` is present. */
  predicate RequiredFieldsPresent(p: Product, v: Variant, img: Image) {
    ProductFieldsPresent(p) && VariantFieldsPresent(v) && ImageFieldsPresent(img)
  }

  /** The value the row dictionary stores under column `k`, for a triple whose
      required keys are all present. */
  function CellValue(p: Product, v: Variant, img: Image, k: nat): Value
    requires RequiredFieldsPresent(p, v, img)
  {
    var options := p.options.value;
    if k == HANDLE then p.handle.value
    else if k == TITLE then p.title.value
    else if k == BODY_HTML then p.bodyHtml.value
    else if k == VENDOR then p.vendor.value
    else if k == TYPE then p.productType.value
    else if k == TAGS then JString(TagsText(p.tags.value))
    else if k == PUBLISHED then p.publishedAt.value
    else if k == OPTION1_NAME then OptionName(options, 0)
    else if k == OPTION1_VALUE then v.option1.GetOr(EMPTY)
    else if k == OPTION2_NAME then OptionName(options, 1)
    else if k == OPTION2_VALUE then v.option2.GetOr(EMPTY)
    else if k == OPTION3_NAME then OptionName(options, 2)
    else if k == OPTION3_VALUE then v.option3.GetOr(EMPTY)
    else if k == VARIANT_SKU then v.sku.value
    else if k == VARIANT_GRAMS then v.grams.value
    else if k == VARIANT_INVENTORY_TRACKER then v.inventoryManagement.GetOr(EMPTY)
    else if k == VARIANT_INVENTORY_POLICY then v.inventoryPolicy.GetOr(JString("continue"))
    else if k == VARIANT_FULFILLMENT_SERVICE then v.fulfillmentService.GetOr(EMPTY)
    else if k == VARIANT_PRICE then v.price.value
    else if k == VARIANT_COMPARE_AT_PRICE then v.compareAtPrice.GetOr(EMPTY)
    else if k == VARIANT_REQUIRES_SHIPPING then v.requiresShipping.value
    else if k == VARIANT_TAXABLE then v.taxable.value
    else if k == VARIANT_BARCODE then v.barcode.GetOr(EMPTY)
    else if k == IMAGE_SRC then img.src.value
    else if k == IMAGE_POSITION then img.position.value
    else if k == IMAGE_ALT_TEXT then img.alt.GetOr(EMPTY)
    else if k == GIFT_CARD then JString("FALSE")
    else if k == VARIANT_IMAGE then v.imageId.GetOr(EMPTY)
    else if k == VARIANT_WEIGHT_UNIT then v.weightUnit.GetOr(EMPTY)
    else if k == STATUS then JString("active")
    else EMPTY  // the columns without a JSON source
  }

  /** The row dictionary for one (product, variant, image) triple whose required
      keys are all present: every column of `COLUMNS`, in order, with its value. */
  function Layout(p: Product, v: Variant, img: Image): Row
    requires RequiredFieldsPresent(p, v, img)
  {
    seq(|COLUMNS|, k requires 0 <= k < |COLUMNS| => Cell(COLUMNS[k], CellValue(p, v, img, k)))
  }

  /** The named positions above point at the columns they are named after. */
  lemma ColumnPositions()
    ensures |COLUMNS| == 55
    ensures COLUMNS[HANDLE] == "Handle" && COLUMNS[TITLE] == "Title"
    ensures COLUMNS[BODY_HTML] == "Body (HTML)" && COLUMNS[VENDOR] == "Vendor"
    ensures COLUMNS[TYPE] == "Type" && COLUMNS[TAGS] == "Tags" && COLUMNS[PUBLISHED] == "Published"
    ensures COLUMNS[OPTION1_NAME] == "Option1 Name" && COLUMNS[OPTION1_VALUE] == "Option1 Value"
    ensures COLUMNS[OPTION2_NAME] == "Option2 Name" && COLUMNS[OPTION2_VALUE] == "Option2 Value"
    ensures COLUMNS[OPTION3_NAME] == "Option3 Name" && COLUMNS[OPTION3_VALUE] == "Option3 Value"
    ensures COLUMNS[VARIANT_SKU] == "Variant SKU" && COLUMNS[VARIANT_GRAMS] == "Variant Grams"
    ensures COLUMNS[VARIANT_INVENTORY_TRACKER] == "Variant Inventory Tracker"
    ensures COLUMNS[VARIANT_INVENTORY_POLICY] == "Variant Inventory Policy"
    ensures COLUMNS[VARIANT_FULFILLMENT_SERVICE] == "Variant Fulfillment Service"
    ensures COLUMNS[VARIANT_PRICE] == "Variant Price"
    ensures COLUMNS[VARIANT_COMPARE_AT_PRICE] == "Variant Compare At Price"
    ensures COLUMNS[VARIANT_REQUIRES_SHIPPING] == "Variant Requires Shipping"
    ensures COLUMNS[VARIANT_TAXABLE] == "Variant Taxable" && COLUMNS[VARIANT_BARCODE] == "Variant Barcode"
    ensures COLUMNS[IMAGE_SRC] == "Image Src" && COLUMNS[IMAGE_POSITION] == "Image Position"
    ensures COLUMNS[IMAGE_ALT_TEXT] == "Image Alt Text" && COLUMNS[GIFT_CARD] == "Gift Card"
    ensures COLUMNS[VARIANT_IMAGE] == "Variant Image" && COLUMNS[VARIANT_WEIGHT_UNIT] == "Variant Weight Unit"
    ensures COLUMNS[STATUS] == "Status"
  {
  }

  /** Building the row for one (product, variant, image) triple; `None` is the
      KeyError raised when a key read with `d[key]` is missing. */
  function BuildRow(p: Product, v: Variant, img: Image): (r: Option<Row>)
    ensures r.Some? <==> RequiredFieldsPresent(p, v, img)
    ensures r.Some? ==> Columns(r.value) == COLUMNS
  {
    if RequiredFieldsPresent(p, v, img) then Some(Layout(p, v, img)) else None
  }

  /** Every row has the same columns in the same order, whatever optional keys
      the product, variant and image carry. */
  lemma RowSchema(p: Product, v: Variant, img: Image)
    requires BuildRow(p, v, img).Some?
    ensures Columns(BuildRow(p, v, img).value) == COLUMNS
  {
  }

  /** The product-level fields pass through unchanged. */
  lemma RowCarriesProduct(p: Product, v: Variant, img: Image)
    requires BuildRow(p, v, img).Some?
    ensures var r := BuildRow(p, v, img).value;
      && r[HANDLE].value == p.handle.value
      && r[TITLE].value == p.title.value
      && r[BODY_HTML].value == p.bodyHtml.value
      && r[VENDOR].value == p.vendor.value
      && r[TYPE].value == p.productType.value
      && r[PUBLISHED].value == p.publishedAt.value
  {
  }

  /** The variant's and the image's required fields pass through unchanged. */
  lemma RowCarriesVariantAndImage(p: Product, v: Variant, img: Image)
    requires BuildRow(p, v, img).Some?
    ensures var r := BuildRow(p, v, img).value;
      && r[VARIANT_SKU].value == v.sku.value
      && r[VARIANT_GRAMS].value == v.grams.value
      && r[VARIANT_PRICE].value == v.price.value
      && r[VARIANT_REQUIRES_SHIPPING].value == v.requiresShipping.value
      && r[VARIANT_TAXABLE].value == v.taxable.value
      && r[IMAGE_SRC].value == img.src.value
      && r[IMAGE_POSITION].value == img.position.value
  {
  }

  /** `Option<k> Name` is the k-th option's name when there are at least k
      options and empty otherwise, for 0, 1, 2, 3 or more options. */
  lemma RowOptionNames(p: Product, v: Variant, img: Image, k: nat)
    requires BuildRow(p, v, img).Some?
    requires 1 <= k <= 3
    ensures p.options.Some?
    ensures var r := BuildRow(p, v, img).value;
            var options := p.options.value;
            r[OPTION1_NAME + 2 * (k - 1)].value
              == if |options| >= k then options[k - 1].name.value else JString("")
  {
  }

  /** `Option<k> Value` is the variant's `option<k>`, empty when absent. */
  lemma RowOptionValues(p: Product, v: Variant, img: Image)
    requires BuildRow(p, v, img).Some?
    ensures var r := BuildRow(p, v, img).value;
      && r[OPTION1_VALUE].value == (if v.option1.Some? then v.option1.value else JString(""))
      && r[OPTION2_VALUE].value == (if v.option2.Some? then v.option2.value else JString(""))
      && r[OPTION3_VALUE].value == (if v.option3.Some? then v.option3.value else JString(""))
  {
  }

  /** `Tags` is the tag list joined with ", "; no tags give the empty string. */
  lemma RowTags(p: Product, v: Variant, img: Image)
    requires BuildRow(p, v, img).Some?
    ensures var r := BuildRow(p, v, img).value;
      && (p.tags.value.TagList? ==> r[TAGS].value == JString(Join(", ", p.tags.value.items)))
      && (p.tags.value == TagList([]) ==> r[TAGS].value == JString(""))
  {
  }

  /** The tag list ["a", "b", "c"] becomes "a, b, c"; a JSON string of tags
      is joined character by character. */
  lemma TagsExample()
    ensures TagsText(TagList(["a", "b", "c"])) == "a, b, c"
    ensures TagsText(TagList([])) == ""
    ensures TagsText(TagText("ab")) == "a, b"
  {
    assert ["a", "b", "c"][1..] == ["b", "c"];
    assert ["b", "c"][1..] == ["c"];
    assert Join(", ", ["c"]) == "c";
    assert Join(", ", ["b", "c"]) == "b, c";
    assert Join(", ", ["a", "b", "c"]) == "a, b, c";
    var chars := Characters("ab");
    assert |chars| == 2;
    assert chars[0] == "a" && chars[1] == "b";
    assert chars == ["a", "b"];
    assert ["a", "b"][1..] == ["b"];
    assert Join(", ", ["b"]) == "b";
    assert "a" + ", " + "b" == "a, b";
  }

  /** `Gift Card` is always "FALSE", `Status` always "active", and every column
      without a JSON source is always empty. */
  lemma RowConstants(p: Product, v: Variant, img: Image)
    requires BuildRow(p, v, img).Some?
    ensures var r := BuildRow(p, v, img).value;
      && r[GIFT_CARD].value == JString("FALSE")
      && r[STATUS].value == JString("active")
      && forall k :: 0 <= k < |r| && IsUnavailableColumn(k) ==> r[k].value == JString("")
  {
  }

  /** The inventory columns take the variant's value when present and their
      default otherwise: "continue" for the policy, "" for tracker and service. */
  lemma RowInventoryDefaults(p: Product, v: Variant, img: Image)
    requires BuildRow(p, v, img).Some?
    ensures var r := BuildRow(p, v, img).value;
      && r[VARIANT_INVENTORY_POLICY].value
           == (if v.inventoryPolicy.Some? then v.inventoryPolicy.value else JString("continue"))
      && r[VARIANT_INVENTORY_TRACKER].value
           == (if v.inventoryManagement.Some? then v.inventoryManagement.value else JString(""))
      && r[VARIANT_FULFILLMENT_SERVICE].value
           == (if v.fulfillmentService.Some? then v.fulfillmentService.value else JString(""))
  {
  }

  /** The other optional variant and image fields take their value when
      present and the empty string otherwise. */
  lemma RowOptionalDefaults(p: Product, v: Variant, img: Image)
    requires BuildRow(p, v, img).Some?
    ensures var r := BuildRow(p, v, img).value;
      && r[VARIANT_COMPARE_AT_PRICE].value
           == (if v.compareAtPrice.Some? then v.compareAtPrice.value else JString(""))
      && r[VARIANT_BARCODE].value == (if v.barcode.Some? then v.barcode.value else JString(""))
      && r[VARIANT_IMAGE].value == (if v.imageId.Some? then v.imageId.value else JString(""))
      && r[VARIANT_WEIGHT_UNIT].value == (if v.weightUnit.Some? then v.weightUnit.value else JString(""))
      && r[IMAGE_ALT_TEXT].value == (if img.alt.Some? then img.alt.value else JString(""))
  {
  }
}
