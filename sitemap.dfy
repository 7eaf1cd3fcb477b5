/** Product URL discovery: `fetch_sitemap` and `fetch_product_sitemap`.
    A fetch is a parameter that maps a URL to the HTTP status and the text of
    every `<loc>` element of the returned XML document; fetching and XML
    parsing themselves are not modelled. */
module Sitemap {
  import opened Http
  import opened Strings
  import opened Sequences

  /** What one GET of a sitemap document yields: its status and its `<loc>` texts. */
  datatype Listing = Listing(status: int, locs: seq<string>)

  /** An index entry that `fetch_sitemap` expands: its URL mentions "products". */
  predicate IsProductSitemap(entry: string) {
    Contains(entry, "products")
  }

  /** A product page URL: it mentions "/products/" and does not mention "cdn". */
  predicate IsProductUrl(url: string) {
    Contains(url, "/products/") && !Contains(url, "cdn")
  }

  /** `fetch_product_sitemap(url)`: the product page URLs listed in one product
      sub-sitemap, or nothing when its fetch does not return 200. */
  function FetchProductSitemap(fetch: string -> Listing, url: string): (urls: seq<string>)
    ensures fetch(url).status != OK ==> urls == []
    ensures forall i :: 0 <= i < |urls| ==> IsProductUrl(urls[i])
  {
    var listing := fetch(url);
    if listing.status != OK then [] else Filter(IsProductUrl, listing.locs)
  }

  /** What one index entry contributes to the result of `fetch_sitemap`. */
  function Expansion(fetch: string -> Listing, entry: string): seq<string>
  {
    if IsProductSitemap(entry) then FetchProductSitemap(fetch, entry) else []
  }

  /** `Expansion` with the fetch fixed, as a step of the walk over the index. */
  function ExpansionStep(fetch: string -> Listing): string -> seq<string>
  {
    entry => Expansion(fetch, entry)
  }

  /** The product URLs found through the index entries `entries`, in order of
      discovery and without deduplication. */
  function ExpandIndex(fetch: string -> Listing, entries: seq<string>): seq<string>
  {
    ConcatMap(ExpansionStep(fetch), entries)
  }

  /** What `fetch_sitemap(url)` returns. */
  function ResolvedProductUrls(fetch: string -> Listing, url: string): (urls: seq<string>)
    ensures fetch(url).status != OK ==> urls == []
    ensures forall i :: 0 <= i < |urls| ==> IsProductUrl(urls[i])
  {
    var index := fetch(url);
    if index.status != OK then []
    else
      ExpandedAreProductUrls(fetch, index.locs);
      ExpandIndex(fetch, index.locs)
  }

  /** `fetch_sitemap`: walks the index entries and extends the result with each
      product sub-sitemap's URLs. */
  method FetchSitemap(fetch: string -> Listing, url: string) returns (productUrls: seq<string>)
    ensures productUrls == ResolvedProductUrls(fetch, url)
  {
    var index := fetch(url);
    if index.status != OK {
      return [];
    }
    var sitemapUrls := index.locs;
    productUrls := [];
    for i := 0 to |sitemapUrls|
      invariant productUrls == ExpandIndex(fetch, sitemapUrls[..i])
    {
      var sitemapUrl := sitemapUrls[i];
      assert sitemapUrls[..i + 1][..i] == sitemapUrls[..i];
      if Contains(sitemapUrl, "products") {
        var found := FetchProductSitemap(fetch, sitemapUrl);
        productUrls := productUrls + found;
      }
    }
    assert sitemapUrls[..|sitemapUrls|] == sitemapUrls;
  }

  /** A product sub-sitemap yields exactly the `<loc>` texts that are product
      URLs, each as many times as it is listed, and nothing else. */
  lemma ProductSitemapKeepsProductUrls(fetch: string -> Listing, url: string, u: string)
    requires fetch(url).status == OK
    ensures multiset(FetchProductSitemap(fetch, url))[u]
            == if IsProductUrl(u) then multiset(fetch(url).locs)[u] else 0
  {
    FilterCount(IsProductUrl, fetch(url).locs, u);
  }

  /** The expansion of consecutive index segments is the concatenation of their expansions. */
  lemma ExpandAppend(fetch: string -> Listing, a: seq<string>, b: seq<string>)
    ensures ExpandIndex(fetch, a + b) == ExpandIndex(fetch, a) + ExpandIndex(fetch, b)
  {
    ConcatMapAppend(ExpansionStep(fetch), a, b);
  }

  /** Only entries mentioning "products" are expanded: dropping all other
      entries beforehand changes nothing. */
  lemma {:induction false} OnlyProductSitemapsExpanded(fetch: string -> Listing, entries: seq<string>)
    ensures ExpandIndex(fetch, entries) == ExpandIndex(fetch, Filter(IsProductSitemap, entries))
    decreases |entries|
  {
    if entries != [] {
      var init := entries[..|entries| - 1];
      var last := entries[|entries| - 1];
      assert entries == init + [last];
      OnlyProductSitemapsExpanded(fetch, init);
      FilterAppend(IsProductSitemap, init, [last]);
      ExpandAppend(fetch, Filter(IsProductSitemap, init), Filter(IsProductSitemap, [last]));
      if IsProductSitemap(last) {
        assert Filter(IsProductSitemap, [last]) == [last];
        assert [last][..0] == [];
      } else {
        assert Filter(IsProductSitemap, [last]) == [];
      }
    }
  }

  /** `u` is one of the product URLs that index entry `entry` leads to. */
  predicate ListedVia(fetch: string -> Listing, entry: string, u: string) {
    IsProductSitemap(entry) && u in FetchProductSitemap(fetch, entry)
  }

  /** Every URL found is listed by some index entry mentioning "products". */
  lemma ExpandedUrlHasSource(fetch: string -> Listing, entries: seq<string>, u: string)
    requires u in ExpandIndex(fetch, entries)
    ensures exists k :: 0 <= k < |entries| && ListedVia(fetch, entries[k], u)
  {
    ConcatMapItemHasSource(ExpansionStep(fetch), entries, u);
    var k :| 0 <= k < |entries| && u in ExpansionStep(fetch)(entries[k]);
    assert ListedVia(fetch, entries[k], u);
  }

  /** Every URL listed by an index entry mentioning "products" is found. */
  lemma ListedUrlIsExpanded(fetch: string -> Listing, entries: seq<string>, k: nat, u: string)
    requires k < |entries| && ListedVia(fetch, entries[k], u)
    ensures u in ExpandIndex(fetch, entries)
  {
    assert u in ExpansionStep(fetch)(entries[k]);
    ConcatMapHasItem(ExpansionStep(fetch), entries, k, u);
  }

  /** A URL is found exactly when some index entry mentioning "products" lists it
      in its sub-sitemap. */
  lemma ExpandMembership(fetch: string -> Listing, entries: seq<string>, u: string)
    ensures u in ExpandIndex(fetch, entries) <==>
            exists k :: 0 <= k < |entries| && ListedVia(fetch, entries[k], u)
  {
    if u in ExpandIndex(fetch, entries) {
      ExpandedUrlHasSource(fetch, entries, u);
    }
    if exists k :: 0 <= k < |entries| && ListedVia(fetch, entries[k], u) {
      var k :| 0 <= k < |entries| && ListedVia(fetch, entries[k], u);
      ListedUrlIsExpanded(fetch, entries, k, u);
    }
  }

  /** The same sub-sitemap listed twice contributes its URLs twice: there is no deduplication. */
  lemma RepeatedEntryRepeatsUrls(fetch: string -> Listing, entries: seq<string>, e: string)
    requires IsProductSitemap(e)
    ensures ExpandIndex(fetch, entries + [e, e])
            == ExpandIndex(fetch, entries) + FetchProductSitemap(fetch, e) + FetchProductSitemap(fetch, e)
  {
    ExpandAppend(fetch, entries, [e, e]);
    assert [e, e][..1] == [e];
    assert [e][..0] == [];
    assert ConcatMap(ExpansionStep(fetch), [e]) == ConcatMap(ExpansionStep(fetch), []) + ExpansionStep(fetch)(e);
    assert ExpandIndex(fetch, [e, e]) == ExpandIndex(fetch, [e]) + Expansion(fetch, e);
  }

  /** A sitemap index that does not come back with 200 yields no URLs. */
  lemma FailedIndexYieldsNothing(fetch: string -> Listing, url: string)
    requires fetch(url).status != OK
    ensures ResolvedProductUrls(fetch, url) == []
  {
  }

  /** Everything `fetch_sitemap` returns is a product URL. */
  lemma ResolvedAreProductUrls(fetch: string -> Listing, url: string)
    ensures forall i :: 0 <= i < |ResolvedProductUrls(fetch, url)| ==> IsProductUrl(ResolvedProductUrls(fetch, url)[i])
  {
  }

  /** Everything found through an index is a product URL. */
  lemma {:induction false} ExpandedAreProductUrls(fetch: string -> Listing, entries: seq<string>)
    ensures forall i :: 0 <= i < |ExpandIndex(fetch, entries)| ==> IsProductUrl(ExpandIndex(fetch, entries)[i])
  {
    var urls := ExpandIndex(fetch, entries);
    forall i | 0 <= i < |urls| ensures IsProductUrl(urls[i]) {
      assert urls[i] in urls;
      ExpandMembership(fetch, entries, urls[i]);
      var k :| 0 <= k < |entries| && ListedVia(fetch, entries[k], urls[i]);
    }
  }

  /** The handler filters the resolved URLs again with the same test; that second
      filter never drops anything. */
  lemma HandlerRefilterIsIdentity(fetch: string -> Listing, url: string)
    ensures Filter(IsProductUrl, ResolvedProductUrls(fetch, url)) == ResolvedProductUrls(fetch, url)
  {
    ResolvedAreProductUrls(fetch, url);
    FilterKeepsAll(IsProductUrl, ResolvedProductUrls(fetch, url));
  }
}
