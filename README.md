# shopexport: a Dafny model of the product export pipeline

The exporter is a small web application. Given a store's base URL, it reads
the store's sitemap index and expands every sub-sitemap whose URL mentions
"products". It keeps the product page URLs of those sub-sitemaps, fetches
each product's JSON document (the page URL with `.json` appended), and
flattens every product into one CSV row per (variant, image) pair. It answers
with the CSV file or with an error message.

This project models the decision logic of that pipeline in `app.py`:

- the URL selection rules;
- the status gating of every fetch;
- the product loop;
- the row flattener with its 55 fixed columns, defaults and constants;
- the handler's four failure outcomes.

Fetches are parameters. A sitemap fetch is a function from URL to
`Listing(status, locs)`, where `locs` are the texts of the `<loc>` elements.
A product fetch is a function from URL to `JsonResponse(status, body)`. JSON
objects are records with one `Option` per key the exporter reads. An absent
key is `None`. A direct `d[key]` on an absent key raises KeyError, and the
model reports that as a failed pass. JSON scalars are opaque `Value`s.

Modules, leaf first:

- `Wrappers` holds `Option`.
- `Http` holds the accepted status, 200.
- `Strings` holds Python's substring test and `", ".join`.
- `Sequences` holds the list-comprehension filter and the "append every
  result, abort on the first failure" loop shape.
- `Sitemap` covers `fetch_sitemap` and `fetch_product_sitemap`.
- `Catalog` covers the product record and `fetch_product_data`.
- `Rows` covers the row dictionary.
- `Flattener` covers the nested row loops.
- `Scrape` covers the handler.

The three loops of the source are methods proved equal to functional
specifications, and the properties are proved about those specifications:

- the sub-sitemap loop in `fetch_sitemap` is `Sitemap.FetchSitemap`;
- the product loop is `Scrape.CollectProducts`;
- the row loops are `Flattener.Flatten`.

The handler itself is `Scrape.HandleScrape`.

## Behaviour worth noting

- Product URLs are not deduplicated: a sub-sitemap listed twice, or a URL
  listed twice, contributes twice (app.py:20-23, 33).
- A missing product-level key (app.py:79-85) or image key (app.py:102-103)
  aborts the whole export, just as a missing variant key does (app.py:92-100).
- A product may have any number of options; only the first three are read
  (app.py:86-91).
- The handler fetches products one after another (app.py:61-67).

## Model

| member | source | states |
|---|---|---|
| Sitemap.FetchProductSitemap | app.py:27-33 | a non-200 sub-sitemap yields nothing; every URL it yields contains "/products/" and not "cdn" |
| Sitemap.ProductSitemapKeepsProductUrls | app.py:33 | a sub-sitemap yields each product-page `<loc>` as many times as it is listed and nothing else: duplicates are kept, CDN URLs dropped even when they contain "/products/" |
| Sitemap.ResolvedProductUrls | app.py:13-25 | a non-200 index resolves to nothing, and every resolved URL contains "/products/" and not "cdn" |
| Sitemap.ExpandedAreProductUrls | app.py:20-33 | everything found through an index contains "/products/" and not "cdn" |
| Sitemap.FetchSitemap | app.py:13-25 | the loop over the index entries returns exactly the concatenation, in index order, of the sub-sitemap results of the entries that mention "products", and nothing on a non-200 index |
| Sitemap.ExpandAppend | app.py:20-23 | consecutive index segments contribute consecutive runs of URLs (discovery order) |
| Sitemap.OnlyProductSitemapsExpanded | app.py:21-23 | removing the index entries that do not mention "products" changes nothing: only those entries are expanded |
| Sitemap.ExpandedUrlHasSource | app.py:21-23 | every URL found is listed by an index entry that mentions "products" |
| Sitemap.ListedUrlIsExpanded | app.py:21-23 | every URL listed by such an entry is found |
| Sitemap.ExpandMembership | app.py:21-23 | a URL is found if and only if some "products" index entry lists it |
| Sitemap.RepeatedEntryRepeatsUrls | app.py:20-23 | a sub-sitemap listed twice contributes its URLs twice (no deduplication) |
| Sitemap.FailedIndexYieldsNothing | app.py:15-17 | a non-200 sitemap index yields the empty list |
| Sitemap.ResolvedAreProductUrls | app.py:13-33 | every resolved URL contains "/products/" and not "cdn" |
| Sitemap.HandlerRefilterIsIdentity | app.py:62-63 | the handler's repeated product-URL filter leaves the resolved list unchanged |
| Strings.ContainsIffOccurs | app.py:22 | Python's `pat in s` holds exactly when `pat` occurs at some offset of `s` |
| Strings.JoinLength | app.py:84 | a join of n parts has the parts' total length plus n - 1 separators |
| Strings.JoinAppend | app.py:84 | joining two non-empty lists is joining each and gluing them with the separator |
| Strings.Contains | app.py:22 | the empty pattern is contained in every string, a prefix is contained, and a contained pattern is no longer than the string |
| Strings.Join | app.py:84 | joining no parts gives "", and a join starts with its first part |
| Sequences.Filter | app.py:33 | the comprehension's result is no longer than its input and every element passes the test |
| Sequences.FilterAppend | app.py:33 | the comprehension keeps input order |
| Sequences.FilterKeepsAll | app.py:33 | filtering changes nothing if and only if every element passes |
| Sequences.FilterIdempotent | app.py:62-63 | applying the same filter twice equals applying it once |
| Sequences.FilterCount | app.py:33 | each passing value keeps its multiplicity; failing values vanish |
| Sequences.ConcatAllSomeIff | app.py:73-77 | an append-every-result loop completes if and only if no step raises |
| Sequences.ConcatAllAppend | app.py:73-77 | the loop's output over consecutive inputs is the concatenation of the outputs |
| Sequences.ConcatAllUniformLength | app.py:75-77 | when every step yields n items, the loop yields count times n items |
| Sequences.ConcatAllUniformAt | app.py:75-77 | when every step yields n items, item j of step i is at i * n + j of the loop's output |
| Sequences.ConcatMapAppend | app.py:20-23 | an extend-with-each-result loop over consecutive inputs yields the concatenation of the two outputs |
| Sequences.ConcatMapItemHasSource | app.py:20-23 | every item such a loop yields comes from the result of some input |
| Sequences.ConcatMapHasItem | app.py:20-23 | every item of every input's result is yielded |
| Catalog.JsonUrl | app.py:37 | the endpoint is the page URL followed by ".json", five characters longer |
| Catalog.IsTruthy | app.py:66 | a product is truthy exactly when it is not the empty dict |
| Catalog.JsonUrlRecoversPage | app.py:37 | dropping the last five characters of an endpoint gives back the page URL; distinct pages have distinct endpoints |
| Catalog.FetchProductData | app.py:35-46 | a product is returned exactly when the fetch is 200, the body is JSON and it has a `product`; that product is the body's |
| Rows.ColumnPositions | app.py:77-132 | the row has 55 columns and the named positions hold the named columns |
| Rows.BuildRow | app.py:77-132 | a row is built exactly when every key read with `d[key]` is present, and it then has the export columns in order |
| Rows.TagsText | app.py:84 | a tag list joins to its characters plus two per separator; a JSON string of n characters joins to 3n - 2 characters |
| Rows.RowSchema | app.py:77-132 | every row has exactly the export columns in the same order, whatever optional keys are present |
| Rows.RowCarriesProduct | app.py:78-85 | Handle, Title, Body (HTML), Vendor, Type and Published are the product's values unchanged |
| Rows.RowCarriesVariantAndImage | app.py:92-103 | SKU, grams, price, requires-shipping, taxable, image src and position are copied unchanged |
| Rows.RowOptionNames | app.py:86-90 | `Option k Name` is `options[k-1].name` when there are at least k options, "" otherwise, for any option count |
| Rows.RowOptionValues | app.py:87-91 | `Option k Value` is the variant's `option k`, "" when absent |
| Rows.RowTags | app.py:84 | Tags is the tag list joined with ", ", and "" for no tags |
| Rows.TagsExample | app.py:84 | ["a","b","c"] gives "a, b, c"; [] gives ""; a JSON string "ab" gives "a, b" |
| Rows.RowConstants | app.py:82-132 | Gift Card is "FALSE", Status is "active", every column without a JSON source is "" |
| Rows.RowInventoryDefaults | app.py:94-96 | the inventory policy defaults to "continue"; tracker and fulfillment service default to "" |
| Rows.RowOptionalDefaults | app.py:98-120 | compare-at price, barcode, variant image, weight unit and image alt default to "" |
| Flattener.Flatten | app.py:73-133 | the nested loops return exactly the specified rows, or fail exactly when the specification fails |
| Flattener.FailingProductAborts | app.py:73-133 | one product whose rows cannot be built fails the whole pass |
| Flattener.FlattenSucceedsIff | app.py:73-133 | the pass succeeds if and only if every product's rows can be built |
| Flattener.ProductRowsSucceedIff | app.py:75-103 | a product's rows can be built exactly when it has `variants`, has `images` unless it has no variants, and every pair has all required keys |
| Flattener.MissingVariantFieldAborts | app.py:92-100 | a variant lacking sku, grams, price, requires_shipping or taxable fails the whole export once its product has an image |
| Flattener.MissingImageFieldAborts | app.py:102-103 | an image lacking src or position fails the whole export once its product has a variant |
| Flattener.ProductRows | app.py:75-103 | a product without `variants` fails; a product with an empty variant list yields no rows |
| Flattener.FlattenRows | app.py:73-133 | no products give no rows; one product gives exactly that product's rows |
| Flattener.NoImagesNoRows | app.py:77 | a product with variants and an empty image list yields no rows and cannot fail |
| Flattener.NoVariantsNoRows | app.py:75-76 | a product without variants yields no rows and cannot fail |
| Flattener.VariantRowsLayout | app.py:77-103 | a variant yields one row per image, the row of image j at position j |
| Flattener.ProductRowAt | app.py:75-103 | the row of variant i and image j is at i * images + j, and it is that pair's built row |
| Flattener.ProductRowsLayout | app.py:75-77 | a product yields variants times images rows; the row of variant i and image j is at i * images + j |
| Flattener.RowCount | app.py:73-77 | the pass yields, over all products, the sum of variants times images rows |
| Flattener.ProductMajor | app.py:74 | the rows of consecutive product lists are consecutive (product-major order) |
| Flattener.ProductRowsCarryProduct | app.py:74-85 | every row of a product carries that product's passthrough fields and the export columns |
| Scrape.FetchedProducts | app.py:61-67 | at most one product per URL is collected, and every collected product is a non-empty object |
| Scrape.CollectProducts | app.py:61-67 | the product loop returns exactly the specified products, in URL order |
| Scrape.FetchedProductHasSource | app.py:61-67 | every collected product is the fetched product of some product URL of the list |
| Scrape.FetchedProductsAppend | app.py:61-67 | products are collected in URL order: two runs of URLs give the first run's products followed by the second's |
| Scrape.ProductIsCollected | app.py:61-67 | a product URL whose fetch yields a non-empty product has that product collected |
| Scrape.KeptProduct | app.py:62-67 | one URL contributes at most one product; it contributes one exactly when it passes the product-URL test and its fetch yields a non-empty product, and then it is that product |
| Scrape.ScrapeReply | app.py:57-144 | every error reply carries status 500 and a CSV reply is never empty |
| Scrape.FailedProductFetchSkips | app.py:39-46 | a non-200 or non-JSON product response skips that product instead of aborting |
| Scrape.HandleScrape | app.py:53-144 | the handler's reply is exactly the specified reply |
| Scrape.FailedSitemapReply | app.py:57-59 | a non-200 sitemap index gives the "Failed to fetch sitemap or no product URLs found" reply with status 500 |
| Scrape.ProductLoopSeesEveryUrl | app.py:62-63 | every resolved URL passes the product loop's repeated test |
| Scrape.NoUrlsReplyIff | app.py:57-59 | the "Failed to fetch sitemap or no product URLs found" reply is given exactly when no product URL is resolved |
| Scrape.NoProductsReplyIff | app.py:70-71 | the "No product data fetched" reply is given exactly when there are product URLs but none yields a non-empty product |
| Scrape.NoRowsReply | app.py:135-137 | the "No data to write to CSV" reply is given exactly when there are URLs and products and the pass succeeds with no row |
| Scrape.NoRowsIffNoPairs | app.py:73-77 | a successful pass yields no row exactly when no product has both a variant and an image |
| Scrape.AttachmentShape | app.py:135-144 | a CSV reply holds at least one row, one per (variant, image) pair of the collected products, each with the export columns |
| Scrape.AllRowsHaveSchema | app.py:73-133 | every row of a successful pass has the export columns in order |
| Scrape.InternalErrorIff | app.py:58-133 | the framework's internal error happens exactly when URLs and products were found but a row could not be built |

## Left out

- HTTP fetching (`requests.get`, app.py:14, 28, 38) is left out: each fetch is a function parameter. A transport exception, such as a refused connection, is not modelled. In the source it escapes to the framework.
- Each fetch is a fixed function of its URL, so a URL fetched twice in one request is assumed to get the same answer both times (a repeated sub-sitemap or product URL).
- XML parsing (app.py:18-19, 32-33) is left out: the `<loc>` texts are given.
- JSON decoding (app.py:42-46) is left out: a body is either `Malformed` or a document with an optional product.
- A top-level JSON value that is not an object is not modelled. So is a JSON value of the wrong type where a list, object or string is expected (a null tag list, non-string tags, a non-list `variants`, a non-object variant). Each would raise a different Python exception.
- pandas `DataFrame`/`to_csv`, the fixed file `shopify_products.csv` and `send_file` (app.py:139-144) are left out: the reply carries the rows themselves.
- Flask routing, `index`, `render_template` and `request.form` (app.py:48-55) are left out. This includes the 400 reply for a missing form field.
- All logging calls are left out.
- `product_handle` (app.py:36) is computed and never used, so it is left out.
- Scrape.FetchedProducts: its own contract states only bounds and truthiness. Its full meaning is the definition, tied to the loop by `Scrape.CollectProducts`.
- Which missing key raises first is not modelled: every KeyError leads to the same internal-error reply.
