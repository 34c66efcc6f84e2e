/**
 * The request-independent part of the `/search` and `/ai-recommend`
 * routes: the query guard and the assembly of the result list.  The
 * store's answer, whether the store is connected and the three random
 * draws are inputs; rendering the list as HTML is not modelled.
 */
module Routes {
  import opened Wrappers
  import opened Text
  import opened Currency
  import opened Semantic
  import opened Composer

  /** A product document: from the store, or from the fallback catalogue. */
  datatype Product = Product(name: string, description: string, price: Amount)

  /** One dictionary of the `results` list. */
  datatype Listing = Listing(name: string, desc: string, price: string, source: string, url: string, isDb: bool)

  /** What `/search` answers: the prompt for an empty query, or the list
      the page is rendered from. */
  datatype SearchResponse = Prompt(message: string) | Listings(results: seq<Listing>)

  const EmptySearchMessage := "<div>Please enter a search term</div>"
  const EmptyRecommendMessage := "Please enter your search query"

  const StoreSource := "MongoDB Atlas"
  const LocalSource := "Local Database"
  const SearchUrl := "https://www.google.com/search?q="
  const ShoppingUrl := "https://www.google.com/search?tbm=shop&q="
  const AmazonUrl := "https://www.amazon.com/s?k="
  const BingUrl := "https://www.bing.com/search?q="

  /** The fallback catalogue used while the store is unavailable. */
  const MockProducts: seq<Product> := [
    Product("iPhone 15 Pro Max", "Latest Apple smartphone", IntAmount(1199)),
    Product("MacBook Pro M3", "Professional laptop", IntAmount(1999)),
    Product("Sony WH-1000XM5", "Noise canceling headphones", IntAmount(399))
  ]

  /** `s.replace(' ', '+')`: every space becomes a plus sign and every
      other character stays. */
  function Plus(s: string): (r: string)
    ensures |r| == |s| && ' ' !in r
    ensures forall i | 0 <= i < |s| :: r[i] == if s[i] == ' ' then '+' else s[i]
  {
    ReplaceCharSpec(s, ' ', '+');
    ReplaceAll(s, [' '], ['+'])
  }

  /** The fallback filter: `query.lower() in product['name'].lower()`. */
  predicate NameMatches(query: string, name: string)
  {
    IsSubstring(Lower(query), Lower(name))
  }

  /** The entry for a product the store returned. */
  function StoreListing(query: string, currency: string, p: Product): Listing
  {
    Listing(p.name, p.description, ConvertPrice(p.price, currency), StoreSource,
      SearchUrl + Plus(query) + "+" + Plus(p.name), true)
  }

  /** The entry for a matching fallback product. */
  function LocalListing(query: string, currency: string, p: Product): Listing
  {
    Listing(p.name, p.description, ConvertPrice(p.price, currency), LocalSource,
      SearchUrl + Plus(query), true)
  }

  /** The entries for the store's products, in the order returned. */
  function StoreListings(query: string, currency: string, products: seq<Product>): seq<Listing>
  {
    if products == [] then []
    else
      StoreListings(query, currency, products[..|products| - 1])
      + [StoreListing(query, currency, products[|products| - 1])]
  }

  /** The entries for the fallback products whose name contains the query,
      in catalogue order. */
  function FallbackListings(query: string, currency: string, products: seq<Product>): seq<Listing>
  {
    if products == [] then []
    else
      var last := products[|products| - 1];
      FallbackListings(query, currency, products[..|products| - 1])
      + if NameMatches(query, last.name) then [LocalListing(query, currency, last)] else []
  }

  /** The `external_sources` list: a name and a URL per source. */
  function ExternalSources(query: string): seq<(string, string)>
  {
    [("Google", ShoppingUrl + Plus(query)),
     ("Amazon", AmazonUrl + Plus(query)),
     ("Bing", BingUrl + Plus(query) + "+buy")]
  }

  /** `price_ranges.get(quality, (100, 500))`. */
  function PriceRange(quality: string): (range: (nat, nat))
    ensures range.0 <= range.1
  {
    if quality == "premium_quality" then (600, 1500)
    else if quality == "mid_range" then (200, 600)
    else if quality == "budget_friendly" then (50, 200)
    else (100, 500)
  }

  /** `random.randint(lo, hi)` driven by an injected draw: the draw taken
      modulo the size of the range, counted from `lo`. */
  function RandInt(lo: nat, hi: nat, draw: nat): (r: nat)
    requires lo <= hi
    ensures lo <= r <= hi
  {
    lo + draw % (hi - lo + 1)
  }

  /** The entry for one external source. */
  function SyntheticListing(query: string, currency: string, quality: string, source: (string, string), draw: nat): Listing
  {
    var range := PriceRange(quality);
    var r := RandInt(range.0, range.1, draw);
    Listing(query + " - " + source.0 + " Result", "External result from " + source.0,
      ConvertPrice(FloatAmount(100 * r + 99), currency), source.0, source.1, false)
  }

  /** One external entry per source, in source order, the `k`-th priced
      with the `k`-th draw. */
  function SyntheticFor(query: string, currency: string, quality: string,
                        sources: seq<(string, string)>, draws: seq<nat>): (ls: seq<Listing>)
    requires |draws| == |sources|
    ensures |ls| == |sources|
  {
    seq(|sources|, k requires 0 <= k < |sources| => SyntheticListing(query, currency, quality, sources[k], draws[k]))
  }

  /** The entries for the first `k + 1` sources extend those for the
      first `k` by the entry for source `k`. */
  lemma SyntheticForSnoc(query: string, currency: string, quality: string,
                         sources: seq<(string, string)>, draws: seq<nat>, k: nat)
    requires |draws| == |sources| && k < |sources|
    ensures SyntheticFor(query, currency, quality, sources[..k + 1], draws[..k + 1])
      == SyntheticFor(query, currency, quality, sources[..k], draws[..k])
         + [SyntheticListing(query, currency, quality, sources[k], draws[k])]
  {
    var sk := SyntheticFor(query, currency, quality, sources[..k], draws[..k]);
    var sk1 := SyntheticFor(query, currency, quality, sources[..k + 1], draws[..k + 1]);
    var x := SyntheticListing(query, currency, quality, sources[k], draws[k]);
    forall i | 0 <= i < k + 1
      ensures sk1[i] == (sk + [x])[i]
    {
      assert sources[..k + 1][i] == sources[i] && draws[..k + 1][i] == draws[i];
      if i < k {
        assert sources[..k][i] == sources[i] && draws[..k][i] == draws[i];
      }
    }
    assert sk1 == sk + [x];
  }

  /** The three external entries. */
  function SyntheticListings(query: string, currency: string, quality: string, draws: seq<nat>): (ls: seq<Listing>)
    requires |draws| == 3
  {
    SyntheticFor(query, currency, quality, ExternalSources(query), draws)
  }

  /** The authoritative entries: the store's when it is connected,
      otherwise the matching fallback products. */
  function Authoritative(query: string, currency: string, connected: bool, storeResults: seq<Product>): seq<Listing>
  {
    if connected then StoreListings(query, currency, storeResults)
    else FallbackListings(query, currency, MockProducts)
  }

  /** The `results` list for a non-empty stripped query. */
  function Results(query: string, currency: string, connected: bool, storeResults: seq<Product>, draws: seq<nat>): seq<Listing>
    requires |draws| == 3
  {
    Authoritative(query, currency, connected, storeResults)
      + SyntheticListings(query, currency, Extract(query).quality, draws)
  }

  /** What `/search` answers for the raw `q` parameter. */
  function SearchAnswer(rawQuery: string, currency: string, connected: bool, storeResults: seq<Product>, draws: seq<nat>): SearchResponse
    requires |draws| == 3
  {
    var query := Strip(rawQuery);
    if query == [] then Prompt(EmptySearchMessage)
    else Listings(Results(query, currency, connected, storeResults, draws))
  }

  /** `search()`: strips the query, rejects an empty one, extracts the
      quality, appends the store or fallback entries, then one entry per
      external source. */
  method Search(rawQuery: string, currency: string, connected: bool, storeResults: seq<Product>, draws: seq<nat>)
    returns (response: SearchResponse)
    requires |draws| == 3
    ensures response == SearchAnswer(rawQuery, currency, connected, storeResults, draws)
  {
    var query := Strip(rawQuery);
    if query == [] {
      return Prompt(EmptySearchMessage);
    }
    var semanticData := ExtractSemanticMeaning(query);
    var quality := semanticData.quality;

    var results: seq<Listing>;
    if connected {
      results := AppendStoreListings(query, currency, storeResults);
    } else {
      results := AppendFallbackListings(query, currency, MockProducts);
    }
    var externalSources := ExternalSources(query);
    results := AppendExternalListings(results, query, currency, quality, externalSources, draws);
    response := Listings(results);
  }

  /** The loop over the store's products. */
  method AppendStoreListings(query: string, currency: string, products: seq<Product>) returns (results: seq<Listing>)
    ensures results == StoreListings(query, currency, products)
  {
    results := [];
    var i := 0;
    while i < |products|
      invariant 0 <= i <= |products|
      invariant results == StoreListings(query, currency, products[..i])
    {
      assert products[..i + 1][..i] == products[..i];
      results := results + [StoreListing(query, currency, products[i])];
      i := i + 1;
    }
    assert products[..|products|] == products;
  }

  /** The loop over the fallback catalogue with its name filter. */
  method AppendFallbackListings(query: string, currency: string, products: seq<Product>) returns (results: seq<Listing>)
    ensures results == FallbackListings(query, currency, products)
  {
    results := [];
    var i := 0;
    while i < |products|
      invariant 0 <= i <= |products|
      invariant results == FallbackListings(query, currency, products[..i])
    {
      assert products[..i + 1][..i] == products[..i];
      if NameMatches(query, products[i].name) {
        results := results + [LocalListing(query, currency, products[i])];
      }
      i := i + 1;
    }
    assert products[..|products|] == products;
  }

  /** The loop over `external_sources`, appending to `results`. */
  method AppendExternalListings(results0: seq<Listing>, query: string, currency: string, quality: string,
                                sources: seq<(string, string)>, draws: seq<nat>)
    returns (results: seq<Listing>)
    requires |draws| == |sources|
    ensures results == results0 + SyntheticFor(query, currency, quality, sources, draws)
  {
    results := results0;
    var k := 0;
    while k < |sources|
      invariant 0 <= k <= |sources|
      invariant results == results0 + SyntheticFor(query, currency, quality, sources[..k], draws[..k])
    {
      SyntheticForSnoc(query, currency, quality, sources, draws, k);
      results := results + [SyntheticListing(query, currency, quality, sources[k], draws[k])];
      k := k + 1;
    }
    assert sources[..k] == sources && draws[..k] == draws;
  }

  /** What `/ai-recommend` answers for the raw `q` parameter. */
  function RecommendAnswer(rawQuery: string): string
  {
    var query := Strip(rawQuery);
    if query == [] then EmptyRecommendMessage else Response(Extract(query))
  }

  /** `ai_recommend()`: the empty-query guard, then the facets of the
      stripped query rendered by the composer. */
  method AiRecommend(rawQuery: string) returns (answer: string)
    ensures answer == RecommendAnswer(rawQuery)
  {
    var query := Strip(rawQuery);
    if query == [] {
      return EmptyRecommendMessage;
    }
    var semanticData := ExtractSemanticMeaning(query);
    answer := GenerateSemanticResponse(semanticData);
  }

  // ------------------------------------------------------------ properties

  /** An empty or all-white-space query gets the prompt and nothing else;
      any other query gets a list. */
  lemma EmptyQueryPrompts(rawQuery: string, currency: string, connected: bool, storeResults: seq<Product>, draws: seq<nat>)
    requires |draws| == 3
    ensures var answer := SearchAnswer(rawQuery, currency, connected, storeResults, draws);
      (answer.Prompt? <==> forall k | 0 <= k < |rawQuery| :: IsSpace(rawQuery[k]))
      && (answer.Prompt? ==> answer.message == EmptySearchMessage)
    ensures (forall k | 0 <= k < |rawQuery| :: IsSpace(rawQuery[k])) ==>
      RecommendAnswer(rawQuery) == EmptyRecommendMessage
  {
  }

  /** The store's entries: one per product, in the returned order. */
  lemma {:induction false} StoreListingsSpec(query: string, currency: string, products: seq<Product>)
    ensures |StoreListings(query, currency, products)| == |products|
    ensures forall i | 0 <= i < |products| ::
      StoreListings(query, currency, products)[i] == StoreListing(query, currency, products[i])
    decreases |products|
  {
    if products != [] {
      var n := |products| - 1;
      var init := products[..n];
      StoreListingsSpec(query, currency, init);
      var prev := StoreListings(query, currency, init);
      var ls := StoreListings(query, currency, products);
      assert ls == prev + [StoreListing(query, currency, products[n])];
      forall i | 0 <= i < |products|
        ensures ls[i] == StoreListing(query, currency, products[i])
      {
        if i < n {
          assert ls[i] == prev[i];
          assert init[i] == products[i];
        }
      }
    }
  }

  /** Filtering a catalogue in two parts gives the two parts' entries in
      order: the fallback keeps catalogue order. */
  lemma {:induction false} FallbackAppend(query: string, currency: string, ps: seq<Product>, qs: seq<Product>)
    ensures FallbackListings(query, currency, ps + qs)
      == FallbackListings(query, currency, ps) + FallbackListings(query, currency, qs)
    decreases |qs|
  {
    if qs == [] {
      assert ps + qs == ps;
    } else {
      var n := |qs| - 1;
      assert (ps + qs)[..|ps + qs| - 1] == ps + qs[..n];
      assert (ps + qs)[|ps + qs| - 1] == qs[n];
      FallbackAppend(query, currency, ps, qs[..n]);
    }
  }

  /** Every fallback entry is the entry of a catalogue product whose name
      contains the query, and every such product has its entry. */
  lemma {:induction false} FallbackSpec(query: string, currency: string, products: seq<Product>)
    ensures |FallbackListings(query, currency, products)| <= |products|
    ensures forall l | l in FallbackListings(query, currency, products) ::
      exists p | p in products :: NameMatches(query, p.name) && l == LocalListing(query, currency, p)
    ensures forall p | p in products && NameMatches(query, p.name) ::
      LocalListing(query, currency, p) in FallbackListings(query, currency, products)
    decreases |products|
  {
    if products != [] {
      var init := products[..|products| - 1];
      FallbackSpec(query, currency, init);
      assert products == init + [products[|products| - 1]];
      assert forall p | p in init :: p in products;
    }
  }

  /** Every authoritative entry is flagged as coming from a database. */
  lemma {:induction false} FallbackFlags(query: string, currency: string, products: seq<Product>)
    ensures forall l | l in FallbackListings(query, currency, products) ::
      l.isDb && l.source == LocalSource && l.url == SearchUrl + Plus(query)
    decreases |products|
  {
    if products != [] {
      FallbackFlags(query, currency, products[..|products| - 1]);
    }
  }

  /** Three sources give three entries, one per source in order. */
  lemma SyntheticThree(query: string, currency: string, quality: string,
                       sources: seq<(string, string)>, draws: seq<nat>)
    requires |sources| == 3 && |draws| == 3
    ensures SyntheticFor(query, currency, quality, sources, draws) ==
      [SyntheticListing(query, currency, quality, sources[0], draws[0]),
       SyntheticListing(query, currency, quality, sources[1], draws[1]),
       SyntheticListing(query, currency, quality, sources[2], draws[2])]
  {
    var ls := SyntheticFor(query, currency, quality, sources, draws);
    assert ls[0] == SyntheticListing(query, currency, quality, sources[0], draws[0]);
    assert ls[1] == SyntheticListing(query, currency, quality, sources[1], draws[1]);
    assert ls[2] == SyntheticListing(query, currency, quality, sources[2], draws[2]);
  }

  /** The list is the authoritative entries, all flagged `is_db`, followed
      by exactly three external entries from Google, Amazon and Bing, in
      that order, none flagged. */
  lemma ResultLayout(query: string, currency: string, connected: bool, storeResults: seq<Product>, draws: seq<nat>)
    requires |draws| == 3
    ensures var rs := Results(query, currency, connected, storeResults, draws);
      var a := Authoritative(query, currency, connected, storeResults);
      && |rs| == |a| + 3
      && rs[..|a|] == a
      && (forall i | 0 <= i < |a| :: rs[i].isDb)
      && rs[|a|].source == "Google" && rs[|a| + 1].source == "Amazon" && rs[|a| + 2].source == "Bing"
      && !rs[|a|].isDb && !rs[|a| + 1].isDb && !rs[|a| + 2].isDb
  {
    var a := Authoritative(query, currency, connected, storeResults);
    AuthoritativeFlags(query, currency, connected, storeResults);
    LayoutWith(query, currency, Extract(query).quality, a, draws);
  }

  /** The store's entries, when it is connected: one per product, in order. */
  lemma StoreEntries(query: string, currency: string, storeResults: seq<Product>)
    ensures var a := Authoritative(query, currency, true, storeResults);
      |a| == |storeResults| &&
      forall i | 0 <= i < |a| :: a[i] == StoreListing(query, currency, storeResults[i]) && a[i].source == StoreSource
  {
    StoreListingsSpec(query, currency, storeResults);
  }

  /** Every authoritative entry is flagged as a database entry. */
  lemma AuthoritativeFlags(query: string, currency: string, connected: bool, storeResults: seq<Product>)
    ensures var a := Authoritative(query, currency, connected, storeResults);
      forall i | 0 <= i < |a| :: a[i].isDb
  {
    var a := Authoritative(query, currency, connected, storeResults);
    if connected {
      StoreListingsSpec(query, currency, storeResults);
    } else {
      FallbackFlags(query, currency, MockProducts);
      assert forall i | 0 <= i < |a| :: a[i] in a;
    }
  }

  /** Appending the external entries for any quality to flagged entries. */
  lemma LayoutWith(query: string, currency: string, quality: string, a: seq<Listing>, draws: seq<nat>)
    requires |draws| == 3
    requires forall i | 0 <= i < |a| :: a[i].isDb
    ensures var rs := a + SyntheticListings(query, currency, quality, draws);
      && |rs| == |a| + 3
      && rs[..|a|] == a
      && (forall i | 0 <= i < |a| :: rs[i].isDb)
      && rs[|a|].source == "Google" && rs[|a| + 1].source == "Amazon" && rs[|a| + 2].source == "Bing"
      && !rs[|a|].isDb && !rs[|a| + 1].isDb && !rs[|a| + 2].isDb
  {
    var ss := SyntheticListings(query, currency, quality, draws);
    var rs := a + ss;
    assert rs[..|a|] == a;
    assert forall i | 0 <= i < |a| :: rs[i] == a[i];
    assert rs[|a|] == ss[0] && rs[|a| + 1] == ss[1] && rs[|a| + 2] == ss[2];
  }

  /** `randint` is inclusive at both ends, and every value in the range
      is some draw's. */
  lemma RandIntCovers(lo: nat, hi: nat, r: nat)
    requires lo <= r <= hi
    ensures RandInt(lo, hi, r - lo) == r
  {
  }

  /** Each external entry is named after the query and its source, and its
      price is `r + 0.99` dollars converted, for an `r` inside the range of
      the query's quality tier. */
  lemma SyntheticEntries(query: string, currency: string, quality: string, draws: seq<nat>, k: nat)
    requires |draws| == 3 && k < 3
    ensures var l := SyntheticListings(query, currency, quality, draws)[k];
      var source := ExternalSources(query)[k];
      var range := PriceRange(quality);
      && l.name == query + " - " + source.0 + " Result"
      && l.desc == "External result from " + source.0
      && l.source == source.0 && l.url == source.1 && !l.isDb
      && exists r: nat | range.0 <= r <= range.1 :: l.price == ConvertPrice(FloatAmount(100 * r + 99), currency)
  {
    SyntheticThree(query, currency, quality, ExternalSources(query), draws);
    var range := PriceRange(quality);
    var r := RandInt(range.0, range.1, draws[k]);
    assert range.0 <= r <= range.1;
  }

  /** The tier a search uses: premium when the query names a premium
      keyword, otherwise mid-range.  The budget range and the default range
      are never chosen, because the quality is never `budget_friendly`. */
  lemma SearchTier(query: string)
    ensures PriceRange(Extract(query).quality) ==
      if Mentions(PremiumWords, Lower(query)) then (600, 1500) else (200, 600)
  {
    QualitySpec(query);
  }

  /** While the store is unavailable, a query that lower-cases to `iphone`
      finds the first fallback product only. */
  lemma IphoneFallback(query: string, currency: string)
    requires Lower(query) == "iphone"
    ensures FallbackListings(query, currency, MockProducts) == [LocalListing(query, currency, MockProducts[0])]
  {
    IphoneMatchesFirstOnly(query);
    OnlyFirstOfThree(query, currency, MockProducts);
  }

  /** Both the lower-case and the mixed-case spelling find the iPhone
      alone; the mixed-case one goes through `query.lower()`. */
  lemma IphoneSpellings(currency: string)
    ensures FallbackListings("iphone", currency, MockProducts) == [LocalListing("iphone", currency, MockProducts[0])]
    ensures FallbackListings("iPhone", currency, MockProducts) == [LocalListing("iPhone", currency, MockProducts[0])]
  {
    SpellingsLower();
    IphoneFallback("iphone", currency);
    IphoneFallback("iPhone", currency);
  }

  lemma SpellingsLower()
    ensures Lower("iphone") == "iphone" && Lower("iPhone") == "iphone"
  {
    assert Lower("iphone") == "iphone";
    assert Lower("iPhone") == "iphone";
  }

  /** Of three products, when only the first matches, it gives the only entry. */
  lemma OnlyFirstOfThree(query: string, currency: string, ps: seq<Product>)
    requires |ps| == 3 && NameMatches(query, ps[0].name)
    requires !NameMatches(query, ps[1].name) && !NameMatches(query, ps[2].name)
    ensures FallbackListings(query, currency, ps) == [LocalListing(query, currency, ps[0])]
  {
    var l0 := LocalListing(query, currency, ps[0]);
    assert ps[..1][..0] == [];
    assert FallbackListings(query, currency, ps[..1]) == [l0];
    assert ps[..2][..1] == ps[..1];
    assert FallbackListings(query, currency, ps[..2]) == [l0];
    assert ps[..3] == ps;
  }

  /** Of the fallback names only the first contains a query that
      lower-cases to `iphone`, ignoring case. */
  lemma IphoneMatchesFirstOnly(query: string)
    requires Lower(query) == "iphone"
    ensures NameMatches(query, MockProducts[0].name)
    ensures !NameMatches(query, MockProducts[1].name) && !NameMatches(query, MockProducts[2].name)
  {
    IphoneInIphone();
    OtherNamesLower();
    IphoneAbsent(query, "MacBook Pro M3");
    IphoneAbsent(query, "Sony WH-1000XM5");
  }

  lemma IphoneInIphone()
    ensures IsSubstring("iphone", Lower("iPhone 15 Pro Max"))
  {
    assert Lower("iPhone 15 Pro Max") == "iphone 15 pro max";
    assert OccursAt("iphone", "iphone 15 pro max", 0);
  }

  /** The other two fallback names have no `i` once lower-cased. */
  lemma OtherNamesLower()
    ensures 'i' !in Lower("MacBook Pro M3")
    ensures 'i' !in Lower("Sony WH-1000XM5")
  {
    assert Lower("MacBook Pro M3") == "macbook pro m3";
    assert Lower("Sony WH-1000XM5") == "sony wh-1000xm5";
  }

  /** `iphone` is not in a name whose lower-case form has no `i`. */
  lemma IphoneAbsent(query: string, name: string)
    requires Lower(query) == "iphone" && 'i' !in Lower(name)
    ensures !NameMatches(query, name)
  {
    MissingCharNotSubstring("iphone", Lower(name), 0);
  }

  /** No URL prefix contains a space. */
  lemma PrefixesHaveNoSpaces()
    ensures ' ' !in SearchUrl && ' ' !in ShoppingUrl && ' ' !in AmazonUrl && ' ' !in BingUrl
  {
    assert forall i | 0 <= i < |SearchUrl| :: SearchUrl[i] != ' ';
    assert forall i | 0 <= i < |ShoppingUrl| :: ShoppingUrl[i] != ' ';
    assert forall i | 0 <= i < |AmazonUrl| :: AmazonUrl[i] != ' ';
    assert forall i | 0 <= i < |BingUrl| :: BingUrl[i] != ' ';
  }

  /** Every URL in the list embeds the query with its spaces replaced,
      so no URL contains a space. */
  lemma UrlsHaveNoSpaces(query: string, currency: string, connected: bool, storeResults: seq<Product>, draws: seq<nat>)
    requires |draws| == 3
    ensures forall l | l in Results(query, currency, connected, storeResults, draws) :: ' ' !in l.url
  {
    PrefixesHaveNoSpaces();
    AuthoritativeUrls(query, currency, connected, storeResults);
    SyntheticUrls(query, currency, Extract(query).quality, draws);
  }

  lemma AuthoritativeUrls(query: string, currency: string, connected: bool, storeResults: seq<Product>)
    requires ' ' !in SearchUrl
    ensures forall l | l in Authoritative(query, currency, connected, storeResults) :: ' ' !in l.url
  {
    var a := Authoritative(query, currency, connected, storeResults);
    if connected {
      StoreListingsSpec(query, currency, storeResults);
      assert forall l | l in a :: exists i | 0 <= i < |a| :: l == a[i];
      assert forall i | 0 <= i < |storeResults| ::
        ' ' !in SearchUrl + Plus(query) + "+" + Plus(storeResults[i].name);
    } else {
      FallbackFlags(query, currency, MockProducts);
    }
  }

  lemma SyntheticUrls(query: string, currency: string, quality: string, draws: seq<nat>)
    requires |draws| == 3
    requires ' ' !in ShoppingUrl && ' ' !in AmazonUrl && ' ' !in BingUrl
    ensures forall l | l in SyntheticListings(query, currency, quality, draws) :: ' ' !in l.url
  {
    var src := ExternalSources(query);
    assert ' ' !in src[0].1 && ' ' !in src[1].1;
    assert ' ' !in src[2].1 by {
      assert src[2].1 == BingUrl + Plus(query) + "+buy";
    }
    SyntheticForUrls(query, currency, quality, src, draws);
  }

  /** External entries link only to their sources' addresses. */
  lemma SyntheticForUrls(query: string, currency: string, quality: string,
                         sources: seq<(string, string)>, draws: seq<nat>)
    requires |draws| == |sources|
    requires forall k | 0 <= k < |sources| :: ' ' !in sources[k].1
    ensures forall l | l in SyntheticFor(query, currency, quality, sources, draws) :: ' ' !in l.url
  {
    var ss := SyntheticFor(query, currency, quality, sources, draws);
    forall l | l in ss
      ensures ' ' !in l.url
    {
      var k :| 0 <= k < |ss| && ss[k] == l;
      assert l.url == sources[k].1;
    }
  }
}
