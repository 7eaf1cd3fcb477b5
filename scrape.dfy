/** The `/scrape` handler: resolve the product URLs from the store's sitemap,
    fetch each product's JSON, flatten the products into rows, and answer with
    the CSV attachment or one of the handler's error replies. */
module Scrape {
  import opened Wrappers
  import opened Http
  import opened Sequences
  import opened Strings
  import opened Sitemap
  import opened Catalog
  import opened Rows
  import opened Flattener

  /** The handler's answer. `Attachment` is the CSV file of `rows`;
      `InternalServerError` is the framework's answer to the uncaught KeyError
      of the flattener. */
  datatype Reply =
    | Attachment(rows: seq<Row>)
    | ErrorPage(message: string, status: int)
    | InternalServerError

  const NO_URLS_MESSAGE := "Failed to fetch sitemap or no product URLs found"
  const NO_PRODUCTS_MESSAGE := "No product data fetched"
  const NO_ROWS_MESSAGE := "No data to write to CSV"

  /** The sitemap index of a store. */
  function SitemapUrl(shopUrl: string): string
  {
    shopUrl + "/sitemap.xml"
  }

  /** What the product loop keeps of one URL: its product when the URL passes
      the product-URL test, the fetch yields a product and that product is truthy. */
  function KeptProduct(fetch: string -> JsonResponse, url: string): (kept: seq<Product>)
    ensures |kept| <= 1
    ensures kept != [] ==> IsProductUrl(url) && FetchProductData(fetch, url) == Some(kept[0]) && IsTruthy(kept[0])
    ensures IsProductUrl(url) && FetchProductData(fetch, url).Some? && IsTruthy(FetchProductData(fetch, url).value)
            ==> kept == [FetchProductData(fetch, url).value]
  {
    if !IsProductUrl(url) then []
    else match FetchProductData(fetch, url)
      case None => []
      case Some(product) => if IsTruthy(product) then [product] else []
  }

  /** The products the handler collects from `urls`, in order. */
  function FetchedProducts(fetch: string -> JsonResponse, urls: seq<string>): (products: seq<Product>)
    ensures |products| <= |urls|
    ensures forall i :: 0 <= i < |products| ==> IsTruthy(products[i])
    decreases |urls|
  {
    if urls == [] then []
    else FetchedProducts(fetch, urls[..|urls| - 1]) + KeptProduct(fetch, urls[|urls| - 1])
  }

  /** The product loop of the handler. */
  method CollectProducts(fetch: string -> JsonResponse, productUrls: seq<string>)
    returns (products: seq<Product>)
    ensures products == FetchedProducts(fetch, productUrls)
  {
    products := [];
    for i := 0 to |productUrls|
      invariant products == FetchedProducts(fetch, productUrls[..i])
    {
      var url := productUrls[i];
      assert productUrls[..i + 1][..i] == productUrls[..i];
      if Contains(url, "/products/") && !Contains(url, "cdn") {
        var productData := FetchProductData(fetch, url);
        if productData.Some? && IsTruthy(productData.value) {
          products := products + [productData.value];
        }
      }
    }
    assert productUrls[..|productUrls|] == productUrls;
  }

  /** Every collected product was fetched from the JSON endpoint of one of the URLs. */
  lemma {:induction false} FetchedProductHasSource(fetch: string -> JsonResponse, urls: seq<string>, p: Product)
    requires p in FetchedProducts(fetch, urls)
    ensures exists k :: 0 <= k < |urls| && IsProductUrl(urls[k]) && FetchProductData(fetch, urls[k]) == Some(p)
    decreases |urls|
  {
    var m := |urls| - 1;
    var init := urls[..m];
    if p in FetchedProducts(fetch, init) {
      FetchedProductHasSource(fetch, init, p);
      var k :| 0 <= k < |init| && IsProductUrl(init[k]) && FetchProductData(fetch, init[k]) == Some(p);
      assert init[k] == urls[k];
    } else {
      assert IsProductUrl(urls[m]) && FetchProductData(fetch, urls[m]) == Some(p);
    }
  }

  /** The products collected from two runs of URLs are those of the first run
      followed by those of the second: collection keeps URL order. */
  lemma {:induction false} FetchedProductsAppend(fetch: string -> JsonResponse, a: seq<string>, b: seq<string>)
    ensures FetchedProducts(fetch, a + b) == FetchedProducts(fetch, a) + FetchedProducts(fetch, b)
    decreases |b|
  {
    if b == [] {
      assert a + b == a;
    } else {
      var bInit := b[..|b| - 1];
      assert (a + b)[..|a + b| - 1] == a + bInit;
      assert (a + b)[|a + b| - 1] == b[|b| - 1];
      FetchedProductsAppend(fetch, a, bInit);
    }
  }

  /** A product URL whose fetch yields a non-empty product has that product collected. */
  lemma {:induction false} ProductIsCollected(fetch: string -> JsonResponse, urls: seq<string>, k: nat, p: Product)
    requires k < |urls| && IsProductUrl(urls[k])
    requires FetchProductData(fetch, urls[k]) == Some(p) && IsTruthy(p)
    ensures p in FetchedProducts(fetch, urls)
  {
    assert urls == urls[..k] + [urls[k]] + urls[k + 1..];
    FetchedProductsAppend(fetch, urls[..k] + [urls[k]], urls[k + 1..]);
    FetchedProductsAppend(fetch, urls[..k], [urls[k]]);
    assert [urls[k]][..0] == [];
    assert FetchedProducts(fetch, [urls[k]]) == [p];
  }

  /** A product fetch that does not return 200, or returns a body that is not
      JSON, skips that product; it does not abort the handler. */
  lemma FailedProductFetchSkips(fetch: string -> JsonResponse, urls: seq<string>, url: string)
    requires fetch(JsonUrl(url)).status != OK || fetch(JsonUrl(url)).body.Malformed?
    ensures FetchedProducts(fetch, urls + [url]) == FetchedProducts(fetch, urls)
  {
    assert (urls + [url])[..|urls|] == urls;
  }

  /** What the handler answers. */
  function ScrapeReply(shopUrl: string, fetchXml: string -> Listing, fetchJson: string -> JsonResponse): (reply: Reply)
    ensures reply.ErrorPage? ==> reply.status == 500
    ensures reply.Attachment? ==> reply.rows != []
  {
    var productUrls := ResolvedProductUrls(fetchXml, SitemapUrl(shopUrl));
    if productUrls == [] then ErrorPage(NO_URLS_MESSAGE, 500)
    else
      var products := FetchedProducts(fetchJson, productUrls);
      if products == [] then ErrorPage(NO_PRODUCTS_MESSAGE, 500)
      else match FlattenRows(products)
        case None => InternalServerError
        case Some(data) => if data == [] then ErrorPage(NO_ROWS_MESSAGE, 500) else Attachment(data)
  }

  /** The handler: each stage runs to completion before the next; every early
      exit returns its error reply. */
  method HandleScrape(shopUrl: string, fetchXml: string -> Listing, fetchJson: string -> JsonResponse)
    returns (reply: Reply)
    ensures reply == ScrapeReply(shopUrl, fetchXml, fetchJson)
  {
    var productUrls := FetchSitemap(fetchXml, SitemapUrl(shopUrl));
    if productUrls == [] {
      return ErrorPage(NO_URLS_MESSAGE, 500);
    }
    var products := CollectProducts(fetchJson, productUrls);
    if products == [] {
      return ErrorPage(NO_PRODUCTS_MESSAGE, 500);
    }
    var data := Flatten(products);
    if data.None? {
      return InternalServerError;
    }
    if data.value == [] {
      return ErrorPage(NO_ROWS_MESSAGE, 500);
    }
    return Attachment(data.value);
  }

  /** A sitemap index that does not come back with 200 gives the
      "no product URLs" error reply, not a crash. */
  lemma FailedSitemapReply(shopUrl: string, fetchXml: string -> Listing, fetchJson: string -> JsonResponse)
    requires fetchXml(SitemapUrl(shopUrl)).status != OK
    ensures ScrapeReply(shopUrl, fetchXml, fetchJson) == ErrorPage(NO_URLS_MESSAGE, 500)
  {
  }

  /** The product-URL test that the product loop repeats holds of every
      resolved URL, so that second test never drops one. */
  lemma ProductLoopSeesEveryUrl(fetchXml: string -> Listing, url: string, k: nat)
    requires k < |ResolvedProductUrls(fetchXml, url)|
    ensures IsProductUrl(ResolvedProductUrls(fetchXml, url)[k])
  {
    ResolvedAreProductUrls(fetchXml, url);
  }

  /** The "no product URLs" reply is given exactly when the sitemap yields no product URL. */
  lemma NoUrlsReplyIff(shopUrl: string, fetchXml: string -> Listing, fetchJson: string -> JsonResponse)
    ensures ScrapeReply(shopUrl, fetchXml, fetchJson) == ErrorPage(NO_URLS_MESSAGE, 500) <==>
            ResolvedProductUrls(fetchXml, SitemapUrl(shopUrl)) == []
  {
    assert NO_URLS_MESSAGE != NO_PRODUCTS_MESSAGE && NO_URLS_MESSAGE != NO_ROWS_MESSAGE by {
      assert |NO_URLS_MESSAGE| != |NO_PRODUCTS_MESSAGE| && |NO_URLS_MESSAGE| != |NO_ROWS_MESSAGE|;
    }
  }

  /** The "no product data" reply is given exactly when there are product URLs
      but none of them yields a non-empty product. */
  lemma NoProductsReplyIff(shopUrl: string, fetchXml: string -> Listing, fetchJson: string -> JsonResponse)
    ensures ScrapeReply(shopUrl, fetchXml, fetchJson) == ErrorPage(NO_PRODUCTS_MESSAGE, 500) <==>
            var urls := ResolvedProductUrls(fetchXml, SitemapUrl(shopUrl));
            urls != [] && FetchedProducts(fetchJson, urls) == []
  {
    assert NO_PRODUCTS_MESSAGE != NO_URLS_MESSAGE && NO_PRODUCTS_MESSAGE != NO_ROWS_MESSAGE by {
      assert |NO_PRODUCTS_MESSAGE| != |NO_URLS_MESSAGE|;
      assert NO_PRODUCTS_MESSAGE[3] != NO_ROWS_MESSAGE[3];
    }
  }

  /** The "no data" reply is given exactly when there are product URLs and
      products, and the flatten pass succeeds with no row at all. */
  lemma NoRowsReply(shopUrl: string, fetchXml: string -> Listing, fetchJson: string -> JsonResponse)
    ensures ScrapeReply(shopUrl, fetchXml, fetchJson) == ErrorPage(NO_ROWS_MESSAGE, 500) <==>
            var urls := ResolvedProductUrls(fetchXml, SitemapUrl(shopUrl));
            var products := FetchedProducts(fetchJson, urls);
            urls != [] && products != [] && FlattenRows(products) == Some([])
  {
    assert NO_ROWS_MESSAGE != NO_URLS_MESSAGE && NO_ROWS_MESSAGE != NO_PRODUCTS_MESSAGE by {
      assert |NO_ROWS_MESSAGE| != |NO_URLS_MESSAGE|;
      assert NO_ROWS_MESSAGE[3] != NO_PRODUCTS_MESSAGE[3];
    }
  }

  /** A successful pass yields no row exactly when no product has both a
      variant and an image, whether it lacks variants or images. */
  lemma NoRowsIffNoPairs(products: seq<Product>)
    requires FlattenRows(products).Some?
    ensures FlattenRows(products).value == [] <==> TotalPairs(products) == 0
  {
    RowCount(products);
  }

  /** A CSV reply holds at least one row, one per (variant, image) pair of the
      collected products, and every row has the export columns in order. */
  lemma AttachmentShape(shopUrl: string, fetchXml: string -> Listing, fetchJson: string -> JsonResponse)
    requires ScrapeReply(shopUrl, fetchXml, fetchJson).Attachment?
    ensures var rows := ScrapeReply(shopUrl, fetchXml, fetchJson).rows;
            var products := FetchedProducts(fetchJson, ResolvedProductUrls(fetchXml, SitemapUrl(shopUrl)));
      && rows != []
      && FlattenRows(products) == Some(rows)
      && |rows| == TotalPairs(products)
      && forall k :: 0 <= k < |rows| ==> Columns(rows[k]) == COLUMNS
  {
    var products := FetchedProducts(fetchJson, ResolvedProductUrls(fetchXml, SitemapUrl(shopUrl)));
    RowCount(products);
    AllRowsHaveSchema(products);
  }

  /** Every row of a successful pass has the export columns in order. */
  lemma {:induction false} AllRowsHaveSchema(products: seq<Product>)
    requires FlattenRows(products).Some?
    ensures forall k :: 0 <= k < |FlattenRows(products).value| ==> Columns(FlattenRows(products).value[k]) == COLUMNS
    decreases |products|
  {
    if products != [] {
      var m := |products| - 1;
      var init := products[..m];
      var p := products[m];
      AllRowsHaveSchema(init);
      var before := FlattenRows(init).value;
      var own := ProductRows(p).value;
      assert FlattenRows(products).value == before + own;
      forall k | 0 <= k < |before + own| ensures Columns((before + own)[k]) == COLUMNS {
        if k >= |before| {
          ProductRowsCarryProduct(p, k - |before|);
        }
      }
    }
  }

  /** The handler answers with the framework's internal error exactly when it
      got product URLs and products but some row could not be built. */
  lemma InternalErrorIff(shopUrl: string, fetchXml: string -> Listing, fetchJson: string -> JsonResponse)
    ensures ScrapeReply(shopUrl, fetchXml, fetchJson).InternalServerError? <==>
            var urls := ResolvedProductUrls(fetchXml, SitemapUrl(shopUrl));
            var products := FetchedProducts(fetchJson, urls);
            urls != [] && products != [] && FlattenRows(products).None?
  {
  }
}
