/** Product list selection: the shop page's category filter and its count
    label, and the home page's featured products. */
module Catalog {
  import opened Types
  import opened Lists

  // ---------------------------------------------------------------------------
  // Shop page

  /** The category buttons: "all" or one category. */
  datatype CategoryFilter = All | Only(category: Category)

  /** The effect on `[activeCategory, products]`. */
  function Shown(products: seq<Product>, active: CategoryFilter): (r: seq<Product>)
    ensures active.All? ==> r == products
    ensures active.Only? ==> forall i :: 0 <= i < |r| ==> r[i].category == active.category
    ensures active.Only? ==> forall p :: multiset(r)[p] == if p.category == active.category then multiset(products)[p] else 0
    ensures IsSubsequence(r, products) && |r| <= |products|
  {
    match active
    case All =>
      SubsequenceReflexive(products);
      products
    case Only(c) =>
      var keep := (p: Product) => p.category == c;
      FilterSpec(products, keep);
      Filter(products, keep)
  }

  /** The noun after the count: singular exactly for one product. */
  function CountNoun(n: int): (noun: string)
    ensures noun == "product" <==> n == 1
    ensures noun == "products" <==> n != 1
  {
    if n == 1 then "product" else "products"
  }

  class ShopPage {
    var products: seq<Product>
    var filteredProducts: seq<Product>
    var loading: bool
    var activeCategory: CategoryFilter

    /** After every handler and the effect it triggers, the shown list is the
        category filter of the loaded list. */
    ghost predicate Valid()
      reads this
    {
      filteredProducts == Shown(products, activeCategory)
    }

    constructor ()
      ensures Valid() && products == [] && filteredProducts == []
      ensures loading && activeCategory == All
    {
      products, filteredProducts := [], [];
      loading := true;
      activeCategory := All;
    }

    /** The category effect. */
    method ApplyCategory()
      modifies this
      ensures Valid()
      ensures products == old(products) && activeCategory == old(activeCategory) && loading == old(loading)
    {
      if activeCategory == All {
        filteredProducts := products;
      } else {
        filteredProducts := Shown(products, activeCategory);
      }
    }

    /** `loadProducts` when `getAll` resolves: both lists are set to the data,
        then the effect re-filters for the current category. */
    method Loaded(data: seq<Product>)
      modifies this
      ensures Valid() && products == data && !loading
      ensures activeCategory == old(activeCategory)
      ensures old(activeCategory) == All ==> filteredProducts == data
    {
      products := data;
      filteredProducts := data;
      loading := false;
      ApplyCategory();
    }

    /** `loadProducts` when `getAll` throws: only `loading` changes. */
    method LoadFailed()
      requires Valid()
      modifies this
      ensures Valid() && !loading
      ensures products == old(products) && filteredProducts == old(filteredProducts)
      ensures activeCategory == old(activeCategory)
    {
      loading := false;
    }

    /** A click on a category button, followed by the effect. */
    method SelectCategory(category: CategoryFilter)
      modifies this
      ensures Valid() && activeCategory == category
      ensures products == old(products) && loading == old(loading)
    {
      activeCategory := category;
      ApplyCategory();
    }
  }

  // ---------------------------------------------------------------------------
  // Home page

  const FeaturedLimit: nat := 4

  function IsFeatured(p: Product): bool {
    p.featured
  }

  /** `products.filter(p => p.featured).slice(0, 4)`. */
  function FeaturedSelection(products: seq<Product>): (shown: seq<Product>)
    ensures |shown| <= FeaturedLimit
    ensures forall i :: 0 <= i < |shown| ==> shown[i].featured
  {
    var featured := Filter(products, IsFeatured);
    if |featured| <= FeaturedLimit then featured else featured[..FeaturedLimit]
  }

  /** The featured products are shown in catalog order: the first featured
      products of the catalog, and all of them when there are fewer than four. */
  lemma FeaturedSpec(products: seq<Product>)
    ensures var shown := FeaturedSelection(products);
      && IsSubsequence(shown, products)
      && shown == Filter(products, IsFeatured)[..|shown|]
      && (|Filter(products, IsFeatured)| < FeaturedLimit ==> shown == Filter(products, IsFeatured))
      && (|Filter(products, IsFeatured)| >= FeaturedLimit ==> |shown| == FeaturedLimit)
  {
    var featured := Filter(products, IsFeatured);
    FilterSpec(products, IsFeatured);
    if |featured| > FeaturedLimit {
      PrefixSubsequence(featured, products, FeaturedLimit);
    }
  }
}
