/** The product record that `fetch_product_data` returns, and that function
    itself. A JSON object is modelled as a record with one `Option` per key the
    exporter reads (`None` when the key is absent); JSON scalars stay opaque. */
module Catalog {
  import opened Wrappers
  import opened Http

  /** A JSON scalar, kept opaque: the exporter copies scalars, it never computes with them. */
  datatype Value = JNull | JBool(b: bool) | JNumber(lexeme: string) | JString(text: string)

  /** The product's `tags`: a JSON list of strings, or a single JSON string. */
  datatype Tags = TagList(items: seq<string>) | TagText(text: string)

  /** One entry of the product's `options` list. */
  datatype ProductOption = ProductOption(name: Option<Value>)

  /** One entry of the product's `variants` list. */
  datatype Variant = Variant(
    sku: Option<Value>,
    grams: Option<Value>,
    price: Option<Value>,
    requiresShipping: Option<Value>,
    taxable: Option<Value>,
    option1: Option<Value>,
    option2: Option<Value>,
    option3: Option<Value>,
    inventoryManagement: Option<Value>,
    inventoryPolicy: Option<Value>,
    fulfillmentService: Option<Value>,
    compareAtPrice: Option<Value>,
    barcode: Option<Value>,
    imageId: Option<Value>,
    weightUnit: Option<Value>)

  /** One entry of the product's `images` list. */
  datatype Image = Image(src: Option<Value>, position: Option<Value>, alt: Option<Value>)

  /** The `product` object of a product's JSON document. `otherKeys` names the
      keys present in the object that the exporter never reads. */
  datatype Product = Product(
    handle: Option<Value>,
    title: Option<Value>,
    bodyHtml: Option<Value>,
    vendor: Option<Value>,
    productType: Option<Value>,
    tags: Option<Tags>,
    publishedAt: Option<Value>,
    options: Option<seq<ProductOption>>,
    variants: Option<seq<Variant>>,
    images: Option<seq<Image>>,
    otherKeys: set<string>)

  /** The product dict `{}`: no key at all. */
  const NO_KEYS: Product := Product(None, None, None, None, None, None, None, None, None, None, {})

  /** Python truthiness of the product dict: it is truthy unless it has no keys at all. */
  predicate IsTruthy(p: Product)
    ensures IsTruthy(p) <==> p != NO_KEYS
  {
    || p.handle.Some? || p.title.Some? || p.bodyHtml.Some? || p.vendor.Some?
    || p.productType.Some? || p.tags.Some? || p.publishedAt.Some? || p.options.Some?
    || p.variants.Some? || p.images.Some? || p.otherKeys != {}
  }

  /** The body of a product JSON response: not valid JSON, or a document whose
      `product` key holds a product (`None` when the key is absent or null). */
  datatype Body = Malformed | Document(product: Option<Product>)

  /** What one GET of a product JSON endpoint yields. */
  datatype JsonResponse = JsonResponse(status: int, body: Body)

  /** The JSON endpoint of a product page: the page URL with ".json" appended. */
  function JsonUrl(productUrl: string): (endpoint: string)
    ensures |endpoint| == |productUrl| + 5
    ensures endpoint[..|productUrl|] == productUrl && endpoint[|productUrl|..] == ".json"
  {
    productUrl + ".json"
  }

  /** Distinct product pages have distinct JSON endpoints, and the page URL is
      recovered by dropping the last five characters. */
  lemma JsonUrlRecoversPage(a: string, b: string)
    ensures JsonUrl(a)[..|JsonUrl(a)| - 5] == a
    ensures JsonUrl(a) == JsonUrl(b) ==> a == b
  {
    assert JsonUrl(a)[..|a|] == a;
    assert JsonUrl(b)[..|b|] == b;
  }

  /** `fetch_product_data(url)`: the product of the JSON endpoint, or nothing
      when the fetch does not return 200 or the body is not valid JSON. */
  function FetchProductData(fetch: string -> JsonResponse, productUrl: string): (r: Option<Product>)
    ensures r.Some? <==> var response := fetch(JsonUrl(productUrl));
                         response.status == OK && response.body.Document? && response.body.product.Some?
    ensures r.Some? ==> fetch(JsonUrl(productUrl)).body == Document(r)
  {
    var response := fetch(JsonUrl(productUrl));
    if response.status != OK then None
    else match response.body
      case Malformed => None
      case Document(product) => product
  }
}
