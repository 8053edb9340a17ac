/** The product catalog service: a response cache with a five-minute window,
    the storefront's own products merged with the first twelve products of an
    external store, category mapping, lookups, the filter pipeline and the
    sort options.  The network request and the clock are parameters: the
    fetched product list (or its failure) and the current time are passed in. */
module Catalog {
  import opened Common
  import Sorting

  datatype Product = Product(
    id: string,
    title: string,
    price: real,
    period: string,
    description: string,
    image: string,
    category: string,
    rating: Option<real>,   // the `rate` of the product's rating, when it has one
    featured: bool)

  // ---------------------------------------------------------------------------
  // Response cache

  /** Cached responses stay fresh for five minutes, in milliseconds. */
  const CacheDuration: int := 5 * 60 * 1000

  datatype CacheEntry<T> = CacheEntry(data: T, timestamp: int)

  type Cache<T> = map<string, CacheEntry<T>>

  /** The cached data for `key` when it was stored less than `CacheDuration` ago. */
  function GetCachedData<T>(cache: Cache<T>, key: string, now: int): (r: Option<T>)
    ensures r.Some? ==> key in cache && r.value == cache[key].data
    ensures r.Some? <==> key in cache && now < cache[key].timestamp + 300000
  {
    if key in cache && now - cache[key].timestamp < CacheDuration then Some(cache[key].data) else None
  }

  function SetCachedData<T>(cache: Cache<T>, key: string, data: T, now: int): (r: Cache<T>)
    ensures key in r && r[key] == CacheEntry(data, now)
    ensures forall k :: k != key ==> (k in r <==> k in cache)
    ensures forall k :: k != key && k in cache ==> r[k] == cache[k]
  {
    cache[key := CacheEntry(data, now)]
  }

  /** A read after a write sees the written data for exactly five minutes
      (the window is half-open), and other keys are not disturbed. */
  lemma CacheSetThenGet<T>(cache: Cache<T>, key: string, data: T, stored: int, now: int, other: string)
    requires other != key
    ensures GetCachedData(SetCachedData(cache, key, data, stored), key, now)
      == (if now - stored < 300000 then Some(data) else None)
    ensures GetCachedData(SetCachedData(cache, key, data, now), key, now) == Some(data)
    ensures GetCachedData(SetCachedData(cache, key, data, stored), other, now)
      == GetCachedData(cache, other, now)
  {
  }

  // ---------------------------------------------------------------------------
  // Categories

  datatype CategoryInfo = CategoryInfo(name: string, description: string)

  const PharmacyCategories: map<string, CategoryInfo> := map[
    "weight-loss" := CategoryInfo("Weight Loss", "Prescription treatments for weight management"),
    "sexual-health" := CategoryInfo("Sexual Health", "Treatments for sexual wellness and performance"),
    "brain-health" := CategoryInfo("Brain Health", "Cognitive enhancement and brain wellness"),
    "testosterone-hrt" := CategoryInfo("Testosterone/HRT", "Hormone replacement therapy solutions"),
    "athletic-performance" := CategoryInfo("Athletic Performance", "Performance enhancement supplements"),
    "beauty-hair" := CategoryInfo("Beauty and Hair Loss", "Beauty treatments and hair loss solutions")
  ]

  /** The external store's category names with an explicit mapping. */
  const FakeStoreCategoryMap: map<string, string> := map[
    "men's clothing" := "athletic-performance",
    "women's clothing" := "beauty-hair",
    "jewelery" := "beauty-hair",
    "electronics" := "brain-health"
  ]

  /** The category of an external product: its mapped name, else `weight-loss`.
      This is the own-property reading of the lookup (see the as-written model below). */
  function MapFakeStoreCategory(name: string): (r: string)
    ensures r in PharmacyCategories
    ensures name in FakeStoreCategoryMap ==> r == FakeStoreCategoryMap[name]
    ensures name !in FakeStoreCategoryMap ==> r == "weight-loss"
  {
    if name in FakeStoreCategoryMap then FakeStoreCategoryMap[name] else "weight-loss"
  }

  /** Property names every plain object literal inherits from `Object.prototype`;
      indexing such an object with one of them yields a (truthy) function or object. */
  const ObjectPrototypeNames: set<string> := {
    "constructor", "hasOwnProperty", "isPrototypeOf", "propertyIsEnumerable",
    "toLocaleString", "toString", "valueOf", "__proto__",
    "__defineGetter__", "__defineSetter__", "__lookupGetter__", "__lookupSetter__"
  }

  /** What `categoryMap[name] || 'weight-loss'` yields on a plain object. */
  datatype Lookup = CategoryKey(key: string) | InheritedMember(member: string)

  function MapFakeStoreCategoryAsWritten(name: string): (r: Lookup)
    ensures name !in ObjectPrototypeNames ==> r == CategoryKey(MapFakeStoreCategory(name))
    ensures name in ObjectPrototypeNames ==> r.InheritedMember?
  {
    if name in FakeStoreCategoryMap then CategoryKey(FakeStoreCategoryMap[name])
    else if name in ObjectPrototypeNames then InheritedMember(name)
    else CategoryKey("weight-loss")
  }

  /** The as-written lookup does not always produce a category: the name
      `constructor` reaches `Object.prototype.constructor`. */
  lemma MapFakeStoreCategoryAsWrittenLeaks()
    ensures MapFakeStoreCategoryAsWritten("constructor") == InheritedMember("constructor")
    ensures MapFakeStoreCategory("constructor") == "weight-loss"
  {
    assert "constructor" in ObjectPrototypeNames;
  }

  // ---------------------------------------------------------------------------
  // Product sources

  datatype FakeStoreProduct = FakeStoreProduct(
    id: string,   // decimal text of the external numeric id
    title: string,
    price: real,
    description: string,
    image: string,
    category: string,
    rating: Option<real>)

  /** How many external products are merged into the catalog. */
  const FakeStoreLimit: nat := 12

  function FromFakeStore(p: FakeStoreProduct): Product
  {
    Product("fs-" + p.id, p.title, p.price, "", p.description, p.image,
            MapFakeStoreCategory(p.category), p.rating, false)
  }

  /** The first twelve external products, converted to the catalog schema. */
  function TransformFakeStore(ps: seq<FakeStoreProduct>): (r: seq<Product>)
    ensures |r| == if |ps| < FakeStoreLimit then |ps| else FakeStoreLimit
    ensures forall i :: 0 <= i < |r| ==>
      && r[i].id == "fs-" + ps[i].id
      && r[i].title == ps[i].title && r[i].price == ps[i].price
      && r[i].period == ""
      && r[i].description == ps[i].description && r[i].image == ps[i].image
      && r[i].category == MapFakeStoreCategory(ps[i].category)
      && r[i].category in PharmacyCategories
      && r[i].rating == ps[i].rating
      && !r[i].featured
  {
    var n := if |ps| < FakeStoreLimit then |ps| else FakeStoreLimit;
    seq(n, i requires 0 <= i < n => FromFakeStore(ps[i]))
  }

  const PharmacyProducts: seq<Product> := [
    Product("ph-1", "Retarutide", 39.99, "/per month",
      "Advanced weight management peptide for research use",
      "/images/img_rizz_reta_glp3_24mg.png", "weight-loss", Some(4.8), true),
    Product("ph-2", "Lyopholized Glow (GHK-CU/ BPC-157/TB-500)", 39.99, "/per month",
      "Advanced peptide blend for skin health and recovery",
      "/images/img_rizz_glow_blend.png", "beauty-hair", Some(4.7), true),
    Product("ph-3", "Compounded Sermorelin 15mg", 179.0, "Monthly + $45 Physician consult",
      "Growth hormone releasing hormone for anti-aging",
      "/images/img_rizz_sermorelin_10mg.png", "athletic-performance", Some(4.9), false),
    Product("ph-4", "2X CJC / Ipamorelin", 149.0,
      "Monthly + $45 Physician consult + $100 Lab Charge",
      "Powerful peptide combination for growth hormone release",
      "/images/img_rizz_2x_blend_c.png", "athletic-performance", Some(4.6), false),
    Product("ph-5", "Lyopholized Oxytocin", 39.99, "/per month",
      "Social bonding and wellness peptide",
      "/images/img_rizz_oxytocin_10mg.png", "sexual-health", Some(4.5), false),
    Product("ph-6", "Lyopholized Finasteride 1mg", 39.99, "/per month",
      "Hair loss prevention and treatment",
      "/images/img_untitled_design.png", "beauty-hair", Some(4.4), true),
    Product("ph-7", "Compounded NAD+ 1000 mg", 179.0, "Monthly + $45 Physician consult",
      "Cellular energy and anti-aging support",
      "/images/img_rizz_nad_1000mg.png", "brain-health", Some(4.7), false),
    Product("ph-8", "Lyopholized PT-141 10mg", 149.0,
      "Monthly + $45 Physician consult + $100 Lab Charge",
      "Sexual wellness and libido enhancement",
      "/images/img_rizz_pt_141_10mg.png", "sexual-health", Some(4.8), true)
  ]

  /** Every product of the storefront's own list belongs to a known category. */
  lemma PharmacyProductsCategorised()
    ensures forall i :: 0 <= i < |PharmacyProducts| ==> PharmacyProducts[i].category in PharmacyCategories
  {
  }

  const AllProductsKey: string := "all-products"

  datatype Loaded = Loaded(products: seq<Product>, cache: Cache<seq<Product>>)

  /** The full catalog: a fresh cache entry if there is one; otherwise the
      storefront's products followed by the converted external products when
      the request succeeded (`fetched` holds its body), or the storefront's
      products alone when it failed; the result is cached at `now`. */
  function GetAllProducts(cache: Cache<seq<Product>>, now: int, fetched: Option<seq<FakeStoreProduct>>): (r: Loaded)
    ensures GetCachedData(r.cache, AllProductsKey, now) == Some(r.products)
    ensures GetCachedData(cache, AllProductsKey, now).Some? ==>
      r == Loaded(GetCachedData(cache, AllProductsKey, now).value, cache)
    ensures GetCachedData(cache, AllProductsKey, now).None? ==>
      && |r.products| >= |PharmacyProducts|
      && r.products[..|PharmacyProducts|] == PharmacyProducts
      && (fetched.None? ==> r.products == PharmacyProducts)
      && (fetched.Some? ==> r.products[|PharmacyProducts|..] == TransformFakeStore(fetched.value))
      && r.cache[AllProductsKey] == CacheEntry(r.products, now)
    ensures forall k :: k != AllProductsKey ==> (k in r.cache <==> k in cache)
  {
    match GetCachedData(cache, AllProductsKey, now)
    case Some(data) => Loaded(data, cache)
    case None =>
      var products := match fetched
        case Some(body) => PharmacyProducts + TransformFakeStore(body)
        case None => PharmacyProducts;
      Loaded(products, SetCachedData(cache, AllProductsKey, products, now))
  }

  // ---------------------------------------------------------------------------
  // Lookups over the loaded catalog

  /** The products of one category, in catalog order. */
  function GetProductsByCategory(all: seq<Product>, category: string): (r: seq<Product>)
    ensures forall i :: 0 <= i < |r| ==> r[i].category == category && r[i] in all
    ensures forall i :: 0 <= i < |all| && all[i].category == category ==> all[i] in r
    ensures Subsequence(r, all)
    ensures forall p :: multiset(r)[p] == if p.category == category then multiset(all)[p] else 0
  {
    var keep := (p: Product) => p.category == category;
    FilterMembers(keep, all);
    FilterSubsequence(keep, all);
    FilterCounts(keep, all);
    Filter(keep, all)
  }

  /** The featured products, in catalog order. */
  function GetFeaturedProducts(all: seq<Product>): (r: seq<Product>)
    ensures forall i :: 0 <= i < |r| ==> r[i].featured && r[i] in all
    ensures forall i :: 0 <= i < |all| && all[i].featured ==> all[i] in r
    ensures Subsequence(r, all)
    ensures forall p :: multiset(r)[p] == if p.featured then multiset(all)[p] else 0
  {
    var keep := (p: Product) => p.featured;
    FilterMembers(keep, all);
    FilterSubsequence(keep, all);
    FilterCounts(keep, all);
    Filter(keep, all)
  }

  /** `Array.prototype.find` by id: the first product with that id. */
  function GetProduct(all: seq<Product>, id: string): (r: Option<Product>)
    ensures r.None? <==> forall i :: 0 <= i < |all| ==> all[i].id != id
    ensures r.Some? ==> exists i :: (0 <= i < |all| && all[i] == r.value && r.value.id == id
                                     && forall j :: 0 <= j < i ==> all[j].id != id)
  {
    if all == [] then None
    else if all[0].id == id then Some(all[0])
    else
      var r := GetProduct(all[1..], id);
      assert forall i :: 0 < i < |all| ==> all[i] == all[1..][i - 1];
      r
  }

  /** The text a search query is matched against in the filter pipeline. */
  predicate TextMatches(p: Product, lowerQuery: string) {
    Includes(Lower(p.title), lowerQuery) || Includes(Lower(p.description), lowerQuery)
  }

  /** Case-insensitive search over title, description and category. */
  function SearchProducts(all: seq<Product>, query: string): (r: seq<Product>)
    ensures forall i :: 0 <= i < |r| ==>
              (r[i] in all && (TextMatches(r[i], Lower(query)) || Includes(Lower(r[i].category), Lower(query))))
    ensures forall i :: 0 <= i < |all| && (TextMatches(all[i], Lower(query)) || Includes(Lower(all[i].category), Lower(query)))
              ==> all[i] in r
    ensures Subsequence(r, all)
    ensures forall p :: multiset(r)[p] ==
              if TextMatches(p, Lower(query)) || Includes(Lower(p.category), Lower(query)) then multiset(all)[p] else 0
  {
    var q := Lower(query);
    var keep := (p: Product) => TextMatches(p, q) || Includes(Lower(p.category), q);
    FilterMembers(keep, all);
    FilterSubsequence(keep, all);
    FilterCounts(keep, all);
    Filter(keep, all)
  }

  /** An empty query finds every product. */
  lemma SearchEmptyQueryFindsAll(all: seq<Product>)
    ensures SearchProducts(all, "") == all
  {
    forall p: Product ensures TextMatches(p, "") {
      IncludesEmpty(Lower(p.title));
    }
    FilterAll((p: Product) => TextMatches(p, Lower("")) || Includes(Lower(p.category), Lower("")), all);
  }

  // ---------------------------------------------------------------------------
  // Sort options

  function PriceAscending(a: Product, b: Product): bool { a.price - b.price <= 0.0 }
  function PriceDescending(a: Product, b: Product): bool { b.price - a.price <= 0.0 }
  function RateOr0(p: Product): real { if p.rating.Some? then p.rating.value else 0.0 }
  function RatingDescending(a: Product, b: Product): bool { RateOr0(b) - RateOr0(a) <= 0.0 }
  function FeaturedFirst(a: Product, b: Product): bool {
    (if b.featured then 1 else 0) - (if a.featured then 1 else 0) <= 0
  }
  /** `a.title.localeCompare(b.title) <= 0`, for a collation `collate`. */
  function TitleOrder(collate: (string, string) -> bool): (Product, Product) -> bool {
    (a: Product, b: Product) => collate(a.title, b.title)
  }

  /** The sort keys the catalog understands. */
  const PriceLowKey := "price-low"
  const PriceHighKey := "price-high"
  const RatingKey := "rating"
  const NameKey := "name"
  const FeaturedKey := "featured"

  datatype SortOutcome = Sorted(products: seq<Product>) | TypeError

  /** The catalog's sort options.  `rating` reads `rating.rate` of every
      product it compares, which throws when a product has no rating; with
      fewer than two products no comparison happens. */
  function SortProducts(products: seq<Product>, sortBy: string, collate: (string, string) -> bool): (r: SortOutcome)
    ensures r.TypeError? <==>
      sortBy == RatingKey && |products| >= 2 && exists i :: 0 <= i < |products| && products[i].rating.None?
    ensures r.Sorted? ==> multiset(r.products) == multiset(products)
    ensures sortBy !in {PriceLowKey, PriceHighKey, RatingKey, NameKey, FeaturedKey} ==> r == Sorted(products)
  {
    if sortBy == PriceLowKey then Sorted(Sorting.InsertionSort(products, PriceAscending))
    else if sortBy == PriceHighKey then Sorted(Sorting.InsertionSort(products, PriceDescending))
    else if sortBy == RatingKey then
      if |products| >= 2 && exists i :: 0 <= i < |products| && products[i].rating.None? then TypeError
      else Sorted(Sorting.InsertionSort(products, RatingDescending))
    else if sortBy == NameKey then Sorted(Sorting.InsertionSort(products, TitleOrder(collate)))
    else if sortBy == FeaturedKey then Sorted(Sorting.InsertionSort(products, FeaturedFirst))
    else Sorted(products)
  }

  lemma PriceOrdersAreTotal()
    ensures Sorting.Total(PriceAscending) && Sorting.Transitive(PriceAscending)
    ensures Sorting.Total(PriceDescending) && Sorting.Transitive(PriceDescending)
    ensures Sorting.Total(RatingDescending) && Sorting.Transitive(RatingDescending)
    ensures Sorting.Total(FeaturedFirst)
  {
  }

  /** `price-low` orders by non-decreasing price, `price-high` by non-increasing price. */
  lemma SortProductsByPrice(products: seq<Product>, collate: (string, string) -> bool)
    ensures var r := SortProducts(products, PriceLowKey, collate);
      r.Sorted? && forall i, j :: 0 <= i < j < |r.products| ==> r.products[i].price <= r.products[j].price
    ensures var r := SortProducts(products, PriceHighKey, collate);
      r.Sorted? && forall i, j :: 0 <= i < j < |r.products| ==> r.products[i].price >= r.products[j].price
  {
    PriceOrdersAreTotal();
    var low := Sorting.InsertionSort(products, PriceAscending);
    Sorting.InsertionSortSorted(products, PriceAscending);
    Sorting.SortedByAllPairs(low, PriceAscending);
    var high := Sorting.InsertionSort(products, PriceDescending);
    Sorting.InsertionSortSorted(products, PriceDescending);
    Sorting.SortedByAllPairs(high, PriceDescending);
  }

  /** When every product is rated, `rating` orders by non-increasing rate. */
  lemma SortProductsByRating(products: seq<Product>, collate: (string, string) -> bool)
    requires forall i :: 0 <= i < |products| ==> products[i].rating.Some?
    ensures var r := SortProducts(products, RatingKey, collate);
      && r.Sorted?
      && (forall i :: 0 <= i < |r.products| ==> r.products[i].rating.Some?)
      && forall i, j :: 0 <= i < j < |r.products| ==> RateOr0(r.products[i]) >= RateOr0(r.products[j])
  {
    PriceOrdersAreTotal();
    var sorted := Sorting.InsertionSort(products, RatingDescending);
    Sorting.InsertionSortSorted(products, RatingDescending);
    Sorting.SortedByAllPairs(sorted, RatingDescending);
    forall i | 0 <= i < |sorted| ensures sorted[i].rating.Some? {
      assert sorted[i] in multiset(products);
    }
  }

  /** `name` orders titles by the collation, when it is a total preorder. */
  lemma SortProductsByName(products: seq<Product>, collate: (string, string) -> bool)
    requires Sorting.Total(collate) && Sorting.Transitive(collate)
    ensures var r := SortProducts(products, NameKey, collate);
      r.Sorted? && forall i, j :: 0 <= i < j < |r.products| ==>
        collate(r.products[i].title, r.products[j].title)
  {
    var le := TitleOrder(collate);
    assert Sorting.Total(le) by {
      forall a: Product, b: Product ensures le(a, b) || le(b, a) {
        assert collate(a.title, b.title) || collate(b.title, a.title);
      }
    }
    assert Sorting.Transitive(le) by {
      forall a: Product, b: Product, c: Product | le(a, b) && le(b, c) ensures le(a, c) {
        assert collate(a.title, b.title) && collate(b.title, c.title);
      }
    }
    var sorted := Sorting.InsertionSort(products, le);
    Sorting.InsertionSortSorted(products, le);
    Sorting.SortedByAllPairs(sorted, le);
  }

  predicate IsFeatured(p: Product) { p.featured }
  predicate NotFeatured(p: Product) { !p.featured }

  /** No product that is not featured comes before a featured one. */
  predicate FeaturedBeforeOthers(r: seq<Product>) {
    forall i, j :: 0 <= i < |r| && 0 <= j < |r| && r[j].featured && !r[i].featured ==> j < i
  }

  lemma {:induction false} InsertNotFeatured(x: Product, front: seq<Product>, back: seq<Product>)
    requires !x.featured
    requires forall i :: 0 <= i < |front| ==> front[i].featured
    requires back == [] || !back[0].featured
    ensures Sorting.Insert(x, front + back, FeaturedFirst) == front + ([x] + back)
    decreases |front|
  {
    if front == [] {
      assert front + back == back;
      InsertBeforeOther(x, back);
    } else {
      var h, t := front[0], front[1..];
      InsertNotFeatured(x, t, back);
      ConsSplit(front, back, [x] + back);
      InsertPastHead(x, h, t + back);
    }
  }

  /** Splitting off the head of `front` commutes with appending either tail. */
  lemma ConsSplit<T>(front: seq<T>, back: seq<T>, back': seq<T>)
    requires front != []
    ensures front + back == [front[0]] + (front[1..] + back)
    ensures front + back' == [front[0]] + (front[1..] + back')
  {
    assert front == [front[0]] + front[1..];
  }

  /** A product that is not featured stops before another that is not featured. */
  lemma InsertBeforeOther(x: Product, back: seq<Product>)
    requires !x.featured
    requires back == [] || !back[0].featured
    ensures Sorting.Insert(x, back, FeaturedFirst) == [x] + back
  {
    if back != [] {
      assert FeaturedFirst(x, back[0]);
    }
  }

  /** A product that is not featured moves past a featured head. */
  lemma InsertPastHead(x: Product, h: Product, rest: seq<Product>)
    requires !x.featured && h.featured
    ensures Sorting.Insert(x, [h] + rest, FeaturedFirst) == [h] + Sorting.Insert(x, rest, FeaturedFirst)
  {
    assert ([h] + rest)[0] == h && ([h] + rest)[1..] == rest;
  }

  lemma {:induction false} InsertFeatured(x: Product, t: seq<Product>)
    requires x.featured
    ensures Sorting.Insert(x, t, FeaturedFirst) == [x] + t
  {
    if t != [] {
      assert FeaturedFirst(x, t[0]);
    }
  }

  lemma {:induction false} SortConsFeatured(x: Product, rest: seq<Product>)
    requires x.featured
    ensures Sorting.InsertionSort([x] + rest, FeaturedFirst) == [x] + Sorting.InsertionSort(rest, FeaturedFirst)
  {
    assert ([x] + rest)[0] == x && ([x] + rest)[1..] == rest;
    InsertFeatured(x, Sorting.InsertionSort(rest, FeaturedFirst));
  }

  lemma {:induction false} SortConsOther(x: Product, rest: seq<Product>, front: seq<Product>, back: seq<Product>)
    requires !x.featured
    requires forall i :: 0 <= i < |front| ==> front[i].featured
    requires back == [] || !back[0].featured
    requires Sorting.InsertionSort(rest, FeaturedFirst) == front + back
    ensures Sorting.InsertionSort([x] + rest, FeaturedFirst) == front + ([x] + back)
  {
    assert ([x] + rest)[0] == x && ([x] + rest)[1..] == rest;
    InsertNotFeatured(x, front, back);
  }

  /** One step of the partition proof, for a featured head. */
  lemma PartitionStepFeatured(x: Product, rest: seq<Product>)
    requires x.featured
    requires Sorting.InsertionSort(rest, FeaturedFirst) == Filter(IsFeatured, rest) + Filter(NotFeatured, rest)
    ensures Sorting.InsertionSort([x] + rest, FeaturedFirst)
      == Filter(IsFeatured, [x] + rest) + Filter(NotFeatured, [x] + rest)
  {
    SortConsFeatured(x, rest);
    FilterPairConsFirst(IsFeatured, NotFeatured, x, rest);
  }

  /** One step of the partition proof, for a head that is not featured. */
  lemma PartitionStepOther(x: Product, rest: seq<Product>)
    requires !x.featured
    requires Sorting.InsertionSort(rest, FeaturedFirst) == Filter(IsFeatured, rest) + Filter(NotFeatured, rest)
    ensures Sorting.InsertionSort([x] + rest, FeaturedFirst)
      == Filter(IsFeatured, [x] + rest) + Filter(NotFeatured, [x] + rest)
  {
    var front := Filter(IsFeatured, rest);
    var back := Filter(NotFeatured, rest);
    if back != [] {
      assert NotFeatured(back[0]);
    }
    SortConsOther(x, rest, front, back);
    FilterPairConsSecond(IsFeatured, NotFeatured, x, rest);
  }

  /** Sorting by `featured` is a stable partition: the featured products in
      their original order, then the others in their original order. */
  lemma {:induction false} FeaturedSortIsStablePartition(s: seq<Product>)
    ensures Sorting.InsertionSort(s, FeaturedFirst)
      == Filter(IsFeatured, s) + Filter(NotFeatured, s)
    decreases |s|
  {
    if s != [] {
      var x, rest := s[0], s[1..];
      assert s == [x] + rest;
      FeaturedSortIsStablePartition(rest);
      if x.featured {
        PartitionStepFeatured(x, rest);
      } else {
        PartitionStepOther(x, rest);
      }
    }
  }

  /** Every featured product precedes every product that is not featured. */
  lemma FeaturedSortPutsFeaturedFirst(s: seq<Product>)
    ensures FeaturedBeforeOthers(Sorting.InsertionSort(s, FeaturedFirst))
  {
    FeaturedSortIsStablePartition(s);
    var front := Filter(IsFeatured, s);
    var back := Filter(NotFeatured, s);
    var r := front + back;
    forall k | 0 <= k < |r| ensures r[k].featured <==> k < |front| {
      if k < |front| {
        assert r[k] == front[k] && IsFeatured(front[k]);
      } else {
        assert r[k] == back[k - |front|] && NotFeatured(back[k - |front|]);
      }
    }
  }

  /** `featured` returns the featured products, then the rest, each group in input order. */
  lemma SortProductsByFeatured(products: seq<Product>, collate: (string, string) -> bool)
    ensures var r := SortProducts(products, FeaturedKey, collate);
      && r == Sorted(Filter(IsFeatured, products) + Filter(NotFeatured, products))
      && FeaturedBeforeOthers(r.products)
  {
    assert SortProducts(products, FeaturedKey, collate) == Sorted(Sorting.InsertionSort(products, FeaturedFirst));
    FeaturedSortIsStablePartition(products);
    FeaturedSortPutsFeaturedFirst(products);
  }

  // ---------------------------------------------------------------------------
  // Filter pipeline

  datatype Filters = Filters(
    category: Option<string>,
    minPrice: Option<real>,
    maxPrice: Option<real>,
    search: Option<string>,
    sortBy: Option<string>)

  const NoFilters: Filters := Filters(None, None, None, None, None)

  /** The category filter applies to a non-empty category other than `all`. */
  predicate CategoryFilterApplies(f: Filters) {
    Truthy(f.category) && f.category.value != "all"
  }

  predicate CategoryTest(f: Filters, p: Product) {
    CategoryFilterApplies(f) ==> p.category == f.category.value
  }

  predicate MinPriceTest(f: Filters, p: Product) {
    f.minPrice.Some? ==> p.price >= f.minPrice.value
  }

  predicate MaxPriceTest(f: Filters, p: Product) {
    f.maxPrice.Some? ==> p.price <= f.maxPrice.value
  }

  predicate SearchTest(f: Filters, p: Product) {
    Truthy(f.search) ==> TextMatches(p, Lower(f.search.value))
  }

  /** Whether `p` survives every filter of `f`; sorting is not a filter. */
  predicate Matches(f: Filters, p: Product) {
    CategoryTest(f, p) && MinPriceTest(f, p) && MaxPriceTest(f, p) && SearchTest(f, p)
  }

  function ByCategory(s: seq<Product>, f: Filters): seq<Product> {
    if CategoryFilterApplies(f) then
      var c := f.category.value; Filter((p: Product) => p.category == c, s)
    else s
  }

  function ByMinPrice(s: seq<Product>, f: Filters): seq<Product> {
    if f.minPrice.Some? then
      var lo := f.minPrice.value; Filter((p: Product) => p.price >= lo, s)
    else s
  }

  function ByMaxPrice(s: seq<Product>, f: Filters): seq<Product> {
    if f.maxPrice.Some? then
      var hi := f.maxPrice.value; Filter((p: Product) => p.price <= hi, s)
    else s
  }

  function BySearch(s: seq<Product>, f: Filters): seq<Product> {
    if Truthy(f.search) then
      var q := Lower(f.search.value); Filter((p: Product) => TextMatches(p, q), s)
    else s
  }

  /** The four filter steps, applied one after the other as the service does. */
  function FilterSteps(all: seq<Product>, f: Filters): seq<Product>
  {
    BySearch(ByMaxPrice(ByMinPrice(ByCategory(all, f), f), f), f)
  }

  lemma ByCategoryIsFilter(s: seq<Product>, f: Filters)
    ensures ByCategory(s, f) == Filter((p: Product) => CategoryTest(f, p), s)
  {
    if CategoryFilterApplies(f) {
      var c := f.category.value;
      FilterSamePredicate((p: Product) => p.category == c, (p: Product) => CategoryTest(f, p), s);
    } else {
      FilterAll((p: Product) => CategoryTest(f, p), s);
    }
  }

  lemma ByMinPriceIsFilter(s: seq<Product>, f: Filters)
    ensures ByMinPrice(s, f) == Filter((p: Product) => MinPriceTest(f, p), s)
  {
    if f.minPrice.Some? {
      var lo := f.minPrice.value;
      FilterSamePredicate((p: Product) => p.price >= lo, (p: Product) => MinPriceTest(f, p), s);
    } else {
      FilterAll((p: Product) => MinPriceTest(f, p), s);
    }
  }

  lemma ByMaxPriceIsFilter(s: seq<Product>, f: Filters)
    ensures ByMaxPrice(s, f) == Filter((p: Product) => MaxPriceTest(f, p), s)
  {
    if f.maxPrice.Some? {
      var hi := f.maxPrice.value;
      FilterSamePredicate((p: Product) => p.price <= hi, (p: Product) => MaxPriceTest(f, p), s);
    } else {
      FilterAll((p: Product) => MaxPriceTest(f, p), s);
    }
  }

  lemma BySearchIsFilter(s: seq<Product>, f: Filters)
    ensures BySearch(s, f) == Filter((p: Product) => SearchTest(f, p), s)
  {
    if Truthy(f.search) {
      var q := Lower(f.search.value);
      FilterSamePredicate((p: Product) => TextMatches(p, q), (p: Product) => SearchTest(f, p), s);
    } else {
      FilterAll((p: Product) => SearchTest(f, p), s);
    }
  }

  /** `Matches` as a predicate value. */
  function MatchTest(f: Filters): Product -> bool {
    (p: Product) => Matches(f, p)
  }

  /** The pipeline keeps exactly the matching products, in input order. */
  lemma FilterStepsMatch(all: seq<Product>, f: Filters)
    ensures FilterSteps(all, f) == Filter(MatchTest(f), all)
  {
    var q1 := (p: Product) => CategoryTest(f, p);
    var q2 := (p: Product) => MinPriceTest(f, p);
    var q3 := (p: Product) => MaxPriceTest(f, p);
    var q4 := (p: Product) => SearchTest(f, p);
    var s1 := ByCategory(all, f);
    var s2 := ByMinPrice(s1, f);
    var s3 := ByMaxPrice(s2, f);
    ByCategoryIsFilter(all, f);
    ByMinPriceIsFilter(s1, f);
    ByMaxPriceIsFilter(s2, f);
    BySearchIsFilter(s3, f);
    FilterChain(q1, q2, q3, q4, MatchTest(f), all);
  }

  /** The catalog query with filters: the matching products, sorted when a
      sort key is given. */
  function GetFilteredProducts(all: seq<Product>, f: Filters, collate: (string, string) -> bool): (r: SortOutcome)
  {
    var kept := FilterSteps(all, f);
    if Truthy(f.sortBy) then SortProducts(kept, f.sortBy.value, collate) else Sorted(kept)
  }

  /** Before sorting, the result is an order-preserving subsequence of the
      catalog holding exactly the products that match every filter; the sort
      then only permutes it. */
  lemma GetFilteredProductsSound(all: seq<Product>, f: Filters, collate: (string, string) -> bool)
    ensures Subsequence(FilterSteps(all, f), all)
    ensures forall i :: 0 <= i < |all| && Matches(f, all[i]) ==> all[i] in FilterSteps(all, f)
    ensures forall i :: 0 <= i < |FilterSteps(all, f)| ==> Matches(f, FilterSteps(all, f)[i])
    ensures !Truthy(f.sortBy) ==> GetFilteredProducts(all, f, collate) == Sorted(FilterSteps(all, f))
    ensures GetFilteredProducts(all, f, collate).Sorted? ==>
      multiset(GetFilteredProducts(all, f, collate).products) == multiset(FilterSteps(all, f))
  {
    FilterStepsMatch(all, f);
    FilterSubsequence(MatchTest(f), all);
    FilterMembers(MatchTest(f), all);
  }

  /** Without filters the catalog comes back as it is. */
  lemma GetFilteredProductsNoFilters(all: seq<Product>, collate: (string, string) -> bool)
    ensures GetFilteredProducts(all, NoFilters, collate) == Sorted(all)
  {
  }
}
