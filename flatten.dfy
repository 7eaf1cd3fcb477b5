/** The row flattener of the scrape handler: one row per (variant, image) pair
    of every product, product-major, then variant, then image. A KeyError while
    building any row aborts the whole pass (`None`). */
module Flattener {
  import opened Wrappers
  import opened Sequences
  import opened Catalog
  import opened Rows

  /** A built row as a one-row list, so that rows concatenate. */
  function AsRows(row: Option<Row>): Option<seq<Row>>
  {
    if row.Some? then Some([row.value]) else None
  }

  /** The step of the innermost loop: the row of one image. */
  function ImageStep(p: Product, v: Variant): Image -> Option<seq<Row>>
  {
    img => AsRows(BuildRow(p, v, img))
  }

  /** The rows of one variant: `product['images']` is read, then one row per image. */
  function RowsForVariant(p: Product, v: Variant): Option<seq<Row>>
  {
    var images :- p.images;
    ConcatAll(ImageStep(p, v), images)
  }

  /** The step of the middle loop: the rows of one variant. */
  function VariantStep(p: Product): Variant -> Option<seq<Row>>
  {
    v => RowsForVariant(p, v)
  }

  /** The rows of one product: `product['variants']` is read, then the rows of
      each variant in turn. With no variants, `images` is never read. */
  function ProductRows(p: Product): (r: Option<seq<Row>>)
    ensures r.Some? ==> p.variants.Some?
    ensures p.variants == Some([]) ==> r == Some([])
  {
    var variants :- p.variants;
    ConcatAll(VariantStep(p), variants)
  }

  /** The rows of all products, in order. */
  function FlattenRows(products: seq<Product>): (r: Option<seq<Row>>)
    ensures products == [] ==> r == Some([])
    ensures |products| == 1 ==> r == ProductRows(products[0])
  {
    assert |products| == 1 ==> ConcatAll(ProductRows, products) == ProductRows(products[0]) by {
      if |products| == 1 {
        assert products[..0] == [];
        var only := ProductRows(products[0]);
        if only.Some? {
          assert [] + only.value == only.value;
        }
      }
    }
    ConcatAll(ProductRows, products)
  }

  /** The number of (variant, image) pairs of a product, absent lists counting as empty. */
  function PairCount(p: Product): nat
  {
    (if p.variants.Some? then |p.variants.value| else 0) * (if p.images.Some? then |p.images.value| else 0)
  }

  /** The number of (variant, image) pairs over all products. */
  function TotalPairs(products: seq<Product>): nat
    decreases |products|
  {
    if products == [] then 0
    else TotalPairs(products[..|products| - 1]) + PairCount(products[|products| - 1])
  }

  /** The nested loops of the handler, appending each row as it is built. */
  method Flatten(products: seq<Product>) returns (result: Option<seq<Row>>)
    ensures result == FlattenRows(products)
  {
    var data: seq<Row> := [];
    for k := 0 to |products|
      invariant ConcatAll(ProductRows, products[..k]) == Some(data)
    {
      var product := products[k];
      assert products[..k + 1][..k] == products[..k];
      if product.variants.None? {
        FailingProductAborts(products, k);
        return None;
      }
      var variants := product.variants.value;
      ghost var productStart := data;
      for i := 0 to |variants|
        invariant ConcatAll(VariantStep(product), variants[..i]).Some?
        invariant data == productStart + ConcatAll(VariantStep(product), variants[..i]).value
      {
        var variant := variants[i];
        assert variants[..i + 1][..i] == variants[..i];
        if product.images.None? {
          ConcatAllSomeIff(VariantStep(product), variants);
          FailingProductAborts(products, k);
          return None;
        }
        var images := product.images.value;
        ghost var variantStart := data;
        for j := 0 to |images|
          invariant ConcatAll(ImageStep(product, variant), images[..j]).Some?
          invariant data == variantStart + ConcatAll(ImageStep(product, variant), images[..j]).value
        {
          assert images[..j + 1][..j] == images[..j];
          var row := BuildRow(product, variant, images[j]);
          if row.None? {
            ConcatAllSomeIff(ImageStep(product, variant), images);
            ConcatAllSomeIff(VariantStep(product), variants);
            FailingProductAborts(products, k);
            return None;
          }
          data := data + [row.value];
        }
        assert images[..|images|] == images;
      }
      assert variants[..|variants|] == variants;
    }
    assert products[..|products|] == products;
    return Some(data);
  }

  /** One product whose rows cannot be built makes the whole pass fail. */
  lemma FailingProductAborts(products: seq<Product>, k: nat)
    requires k < |products| && ProductRows(products[k]).None?
    ensures FlattenRows(products).None?
  {
    ConcatAllSomeIff(ProductRows, products);
  }

  /** The pass succeeds exactly when every product's rows can be built. */
  lemma FlattenSucceedsIff(products: seq<Product>)
    ensures FlattenRows(products).Some? <==>
            forall k :: 0 <= k < |products| ==> ProductRows(products[k]).Some?
  {
    ConcatAllSomeIff(ProductRows, products);
  }

  /** A product's rows can be built exactly when it has `variants`, it has
      `images` unless it has no variants, and every (variant, image) pair has
      all its required keys. */
  lemma ProductRowsSucceedIff(p: Product)
    ensures ProductRows(p).Some? <==>
      && p.variants.Some?
      && (p.variants.value != [] ==> p.images.Some?)
      && (forall i, j :: 0 <= i < |p.variants.value| && p.images.Some? && 0 <= j < |p.images.value| ==>
            RequiredFieldsPresent(p, p.variants.value[i], p.images.value[j]))
  {
    if p.variants.Some? {
      var variants := p.variants.value;
      ConcatAllSomeIff(VariantStep(p), variants);
      if p.images.Some? {
        var images := p.images.value;
        forall i | 0 <= i < |variants|
          ensures RowsForVariant(p, variants[i]).Some? <==>
                  forall j :: 0 <= j < |images| ==> RequiredFieldsPresent(p, variants[i], images[j])
        {
          ConcatAllSomeIff(ImageStep(p, variants[i]), images);
        }
      } else if variants != [] {
        assert RowsForVariant(p, variants[0]).None?;
      }
    }
  }

  /** A variant lacking `sku`, `grams`, `price`, `requires_shipping` or
      `taxable` fails the whole export as soon as its product has an image;
      it is never skipped. */
  lemma MissingVariantFieldAborts(products: seq<Product>, k: nat, i: nat)
    requires k < |products|
    requires products[k].variants.Some? && i < |products[k].variants.value|
    requires !VariantFieldsPresent(products[k].variants.value[i])
    requires products[k].images.Some? && products[k].images.value != []
    ensures FlattenRows(products).None?
  {
    ProductRowsSucceedIff(products[k]);
    FailingProductAborts(products, k);
  }

  /** An image lacking `src` or `position` fails the whole export as soon as
      its product has a variant. */
  lemma MissingImageFieldAborts(products: seq<Product>, k: nat, j: nat)
    requires k < |products|
    requires products[k].images.Some? && j < |products[k].images.value|
    requires !ImageFieldsPresent(products[k].images.value[j])
    requires products[k].variants.Some? && products[k].variants.value != []
    ensures FlattenRows(products).None?
  {
    ProductRowsSucceedIff(products[k]);
    FailingProductAborts(products, k);
  }

  /** A product with no variants yields no rows and cannot fail, whatever else it lacks. */
  lemma NoVariantsNoRows(p: Product)
    requires p.variants == Some([])
    ensures ProductRows(p) == Some([])
  {
  }

  /** A product whose image list is empty yields no rows and cannot fail,
      whatever its variants lack. */
  lemma {:induction false} NoImagesNoRows(p: Product)
    requires p.variants.Some? && p.images == Some([])
    ensures ProductRows(p) == Some([])
  {
    var variants := p.variants.value;
    forall k | 0 <= k < |variants|
      ensures VariantStep(p)(variants[k]) == Some([])
    {
    }
    ConcatAllSomeIff(VariantStep(p), variants);
    ConcatAllUniformLength(VariantStep(p), variants, 0);
  }

  /** The rows of one variant: one per image, the row of image `j` at position `j`. */
  lemma VariantRowsLayout(p: Product, v: Variant)
    requires RowsForVariant(p, v).Some?
    ensures p.images.Some?
    ensures |RowsForVariant(p, v).value| == |p.images.value|
    ensures forall j :: 0 <= j < |p.images.value| ==>
              BuildRow(p, v, p.images.value[j]).Some? &&
              RowsForVariant(p, v).value[j] == BuildRow(p, v, p.images.value[j]).value
  {
    var images := p.images.value;
    ConcatAllSomeIff(ImageStep(p, v), images);
    ConcatAllUniformLength(ImageStep(p, v), images, 1);
    forall j | 0 <= j < |images|
      ensures BuildRow(p, v, images[j]).Some?
      ensures RowsForVariant(p, v).value[j] == BuildRow(p, v, images[j]).value
    {
      assert ImageStep(p, v)(images[j]).Some?;
      ConcatAllUniformAt(ImageStep(p, v), images, 1, j, 0);
    }
  }

  /** The rows of a product: |variants| * |images| of them, the row of variant
      `i` and image `j` at position `i * |images| + j`. */
  lemma ProductRowsLayout(p: Product)
    requires ProductRows(p).Some? && p.variants.value != []
    ensures p.images.Some?
    ensures |ProductRows(p).value| == |p.variants.value| * |p.images.value|
    ensures forall i, j :: 0 <= i < |p.variants.value| && 0 <= j < |p.images.value| ==>
              BuildRow(p, p.variants.value[i], p.images.value[j]).Some? &&
              i * |p.images.value| + j < |ProductRows(p).value| &&
              ProductRows(p).value[i * |p.images.value| + j]
                == BuildRow(p, p.variants.value[i], p.images.value[j]).value
  {
    var variants := p.variants.value;
    ConcatAllSomeIff(VariantStep(p), variants);
    VariantRowsLayout(p, variants[0]);
    var images := p.images.value;
    var n := |images|;
    forall i | 0 <= i < |variants|
      ensures VariantStep(p)(variants[i]).Some? && |VariantStep(p)(variants[i]).value| == n
    {
      VariantRowsLayout(p, variants[i]);
    }
    ConcatAllUniformLength(VariantStep(p), variants, n);
    forall i, j | 0 <= i < |variants| && 0 <= j < n
      ensures BuildRow(p, variants[i], images[j]).Some?
      ensures i * n + j < |ProductRows(p).value|
      ensures ProductRows(p).value[i * n + j] == BuildRow(p, variants[i], images[j]).value
    {
      ProductRowAt(p, i, j);
    }
  }

  /** The row of variant `i` and image `j` of a product sits at `i * |images| + j`. */
  lemma ProductRowAt(p: Product, i: nat, j: nat)
    requires ProductRows(p).Some? && i < |p.variants.value|
    requires p.images.Some? && j < |p.images.value|
    ensures BuildRow(p, p.variants.value[i], p.images.value[j]).Some?
    ensures i * |p.images.value| + j < |ProductRows(p).value|
    ensures ProductRows(p).value[i * |p.images.value| + j]
              == BuildRow(p, p.variants.value[i], p.images.value[j]).value
  {
    var variants := p.variants.value;
    var n := |p.images.value|;
    ConcatAllSomeIff(VariantStep(p), variants);
    forall k | 0 <= k < |variants|
      ensures VariantStep(p)(variants[k]).Some? && |VariantStep(p)(variants[k]).value| == n
    {
      VariantRowsLayout(p, variants[k]);
    }
    ConcatAllUniformAt(VariantStep(p), variants, n, i, j);
    VariantRowsLayout(p, variants[i]);
  }

  /** The pass yields one row per (variant, image) pair of every product. */
  lemma {:induction false} RowCount(products: seq<Product>)
    requires FlattenRows(products).Some?
    ensures |FlattenRows(products).value| == TotalPairs(products)
    decreases |products|
  {
    if products != [] {
      var m := |products| - 1;
      var init := products[..m];
      var p := products[m];
      assert ConcatAll(ProductRows, products).Some?;
      RowCount(init);
      if p.variants.value != [] {
        ProductRowsLayout(p);
      }
    }
  }

  /** Rows come product by product: the rows of a list of products followed by
      another are the rows of the first followed by the rows of the second. */
  lemma ProductMajor(a: seq<Product>, b: seq<Product>)
    ensures FlattenRows(a + b).Some? <==> FlattenRows(a).Some? && FlattenRows(b).Some?
    ensures FlattenRows(a + b).Some? ==> FlattenRows(a + b).value == FlattenRows(a).value + FlattenRows(b).value
  {
    ConcatAllAppend(ProductRows, a, b);
  }

  /** A single product's rows each carry that product's handle, title, body,
      vendor, type and published date, and all have the export columns. */
  lemma ProductRowsCarryProduct(p: Product, k: nat)
    requires ProductRows(p).Some? && k < |ProductRows(p).value|
    ensures ProductFieldsPresent(p)
    ensures Columns(ProductRows(p).value[k]) == COLUMNS
    ensures var r := ProductRows(p).value[k];
      && r[HANDLE].value == p.handle.value
      && r[TITLE].value == p.title.value
      && r[BODY_HTML].value == p.bodyHtml.value
      && r[VENDOR].value == p.vendor.value
      && r[TYPE].value == p.productType.value
      && r[PUBLISHED].value == p.publishedAt.value
  {
    var variants := p.variants.value;
    if variants != [] {
      ProductRowsLayout(p);
      var n := |p.images.value|;
      QuotientBound(k, n, |variants|);
      var i := k / n;
      var j := k % n;
      var img := p.images.value[j];
      assert BuildRow(p, variants[i], img).Some?;
      assert ProductRows(p).value[k] == BuildRow(p, variants[i], img).value;
      RowSchema(p, variants[i], img);
      RowCarriesProduct(p, variants[i], img);
    }
  }

  /** An offset below `m * n` lies in one of the first `m` blocks of `n`. */
  lemma QuotientBound(k: nat, n: nat, m: nat)
    requires k < m * n
    ensures n > 0 && 0 <= k / n < m && 0 <= k % n < n
    ensures k == (k / n) * n + k % n
  {
  }
}
