/** The category page's own sort of the products it shows.  Unlike the
    catalog service's sort, a missing rating counts as 0 and any other sort
    key falls back to the featured order. */
module CategoryPage {
  import opened Common
  import Sorting
  import opened Catalog

  const KnownKeys: set<string> := {PriceLowKey, PriceHighKey, RatingKey, NameKey}

  /** The page's sorted copy of the products; no products gives an empty list. */
  function SortedProducts(products: Option<seq<Product>>, sortBy: string, collate: (string, string) -> bool)
    : (r: seq<Product>)
    ensures products.None? ==> r == []
    ensures products.Some? ==> multiset(r) == multiset(products.value) && |r| == |products.value|
  {
    if products.None? then []
    else
      var sorted := products.value;
      if sortBy == PriceLowKey then Sorting.InsertionSort(sorted, PriceAscending)
      else if sortBy == PriceHighKey then Sorting.InsertionSort(sorted, PriceDescending)
      else if sortBy == RatingKey then Sorting.InsertionSort(sorted, RatingDescending)
      else if sortBy == NameKey then Sorting.InsertionSort(sorted, TitleOrder(collate))
      else Sorting.InsertionSort(sorted, FeaturedFirst)
  }

  /** `price-low` gives non-decreasing prices and `price-high` non-increasing prices. */
  lemma SortedByPrice(products: seq<Product>, collate: (string, string) -> bool)
    ensures var r := SortedProducts(Some(products), PriceLowKey, collate);
      forall i, j :: 0 <= i < j < |r| ==> r[i].price <= r[j].price
    ensures var r := SortedProducts(Some(products), PriceHighKey, collate);
      forall i, j :: 0 <= i < j < |r| ==> r[i].price >= r[j].price
  {
    SortProductsByPrice(products, collate);
  }

  /** `rating` gives non-increasing rates, a product without a rating counting as 0. */
  lemma SortedByRating(products: seq<Product>, collate: (string, string) -> bool)
    ensures var r := SortedProducts(Some(products), RatingKey, collate);
      forall i, j :: 0 <= i < j < |r| ==> RateOr0(r[i]) >= RateOr0(r[j])
  {
    PriceOrdersAreTotal();
    var sorted := Sorting.InsertionSort(products, RatingDescending);
    Sorting.InsertionSortSorted(products, RatingDescending);
    Sorting.SortedByAllPairs(sorted, RatingDescending);
  }

  /** `name` orders titles by the collation, when it is a total preorder. */
  lemma SortedByName(products: seq<Product>, collate: (string, string) -> bool)
    requires Sorting.Total(collate) && Sorting.Transitive(collate)
    ensures var r := SortedProducts(Some(products), NameKey, collate);
      forall i, j :: 0 <= i < j < |r| ==> collate(r[i].title, r[j].title)
  {
    SortProductsByName(products, collate);
  }

  /** `featured` and every key the page does not know put the featured
      products first, each group in input order. */
  lemma SortedByFeatured(products: seq<Product>, sortBy: string, collate: (string, string) -> bool)
    requires sortBy !in KnownKeys
    ensures var r := SortedProducts(Some(products), sortBy, collate);
      && r == Filter(IsFeatured, products) + Filter(NotFeatured, products)
      && FeaturedBeforeOthers(r)
  {
    FallsBackToFeatured(products, sortBy, collate);
    var r := Sorting.InsertionSort(products, FeaturedFirst);
    FeaturedSortIsStablePartition(products);
    FeaturedSortPutsFeaturedFirst(products);
    assert r == Filter(IsFeatured, products) + Filter(NotFeatured, products) && FeaturedBeforeOthers(r);
  }

  /** A key the page does not know sorts by `featured`. */
  lemma FallsBackToFeatured(products: seq<Product>, sortBy: string, collate: (string, string) -> bool)
    requires sortBy !in KnownKeys
    ensures SortedProducts(Some(products), sortBy, collate) == Sorting.InsertionSort(products, FeaturedFirst)
  {
    assert sortBy != PriceLowKey && sortBy != PriceHighKey && sortBy != RatingKey && sortBy != NameKey;
  }

  /** Where the catalog's sort succeeds on one of the page's keys, the two sorts agree;
      on any other key the catalog leaves the order alone and the page sorts by `featured`. */
  lemma AgreesWithCatalogSort(products: seq<Product>, sortBy: string, collate: (string, string) -> bool)
    requires SortProducts(products, sortBy, collate).Sorted?
    ensures sortBy in KnownKeys + {FeaturedKey} ==>
              SortedProducts(Some(products), sortBy, collate) == SortProducts(products, sortBy, collate).products
    ensures sortBy !in KnownKeys + {FeaturedKey} ==>
              SortProducts(products, sortBy, collate).products == products
              && SortedProducts(Some(products), sortBy, collate) == SortedProducts(Some(products), FeaturedKey, collate)
  {
    if sortBy !in KnownKeys {
      FallsBackToFeatured(products, sortBy, collate);
    }
  }
}
