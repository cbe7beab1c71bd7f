/**
 * The catalog page (src/pages/Dashboard.tsx): the search-and-category filter,
 * the category list, and the card's add-to-cart guard.
 */
module Dashboard {
  import opened Types
  import opened Text
  import opened CartContext

  /** The category value that selects every product. */
  const AllCategories: string := "all"

  /** Name or description contains the search term, ignoring ASCII case. */
  predicate MatchesSearch(p: Product, searchTerm: string) {
    Includes(ToLower(p.name), ToLower(searchTerm))
    || Includes(ToLower(p.description), ToLower(searchTerm))
  }

  predicate MatchesCategory(p: Product, selectedCategory: string) {
    selectedCategory == AllCategories || p.category == selectedCategory
  }

  predicate Matches(p: Product, searchTerm: string, selectedCategory: string) {
    MatchesSearch(p, searchTerm) && MatchesCategory(p, selectedCategory)
  }

  /** `filteredProducts`: the products that match, in catalog order. */
  function FilteredProducts(products: seq<Product>, searchTerm: string, selectedCategory: string)
    : (r: seq<Product>)
    ensures |r| <= |products|
    ensures forall p :: p in r <==> p in products && Matches(p, searchTerm, selectedCategory)
  {
    if products == [] then []
    else
      (if Matches(products[0], searchTerm, selectedCategory) then [products[0]] else [])
      + FilteredProducts(products[1..], searchTerm, selectedCategory)
  }

  /** Filtering a concatenation filters each part and keeps them in order. */
  lemma {:induction false} FilterOfConcat(a: seq<Product>, b: seq<Product>, searchTerm: string, selectedCategory: string)
    ensures FilteredProducts(a + b, searchTerm, selectedCategory)
         == FilteredProducts(a, searchTerm, selectedCategory) + FilteredProducts(b, searchTerm, selectedCategory)
  {
    if a == [] {
      assert a + b == b;
    } else {
      assert (a + b)[0] == a[0] && (a + b)[1..] == a[1..] + b;
      FilterOfConcat(a[1..], b, searchTerm, selectedCategory);
    }
  }

  /** When every product matches, the whole catalog is shown unchanged. */
  lemma {:induction false} FilterKeepsAllMatching(products: seq<Product>, searchTerm: string, selectedCategory: string)
    requires forall i :: 0 <= i < |products| ==> Matches(products[i], searchTerm, selectedCategory)
    ensures FilteredProducts(products, searchTerm, selectedCategory) == products
  {
    if products != [] {
      assert forall i :: 0 <= i < |products[1..]| ==> products[1..][i] == products[i + 1];
      FilterKeepsAllMatching(products[1..], searchTerm, selectedCategory);
      assert [products[0]] + products[1..] == products;
    }
  }

  /** Filtering twice with the same criteria is filtering once. */
  lemma FilterIdempotent(products: seq<Product>, searchTerm: string, selectedCategory: string)
    ensures var once := FilteredProducts(products, searchTerm, selectedCategory);
      FilteredProducts(once, searchTerm, selectedCategory) == once
  {
    var once := FilteredProducts(products, searchTerm, selectedCategory);
    assert forall i :: 0 <= i < |once| ==> once[i] in once;
    FilterKeepsAllMatching(once, searchTerm, selectedCategory);
  }

  /** An empty search with the "all" category shows the whole catalog. */
  lemma EmptySearchShowsAll(products: seq<Product>)
    ensures FilteredProducts(products, "", AllCategories) == products
  {
    forall i | 0 <= i < |products|
      ensures Matches(products[i], "", AllCategories)
    {
      IncludesEmpty(ToLower(products[i].name));
    }
    FilterKeepsAllMatching(products, "", AllCategories);
  }

  // ---------------------------------------------------------------------------
  // Categories

  predicate HasCategory(products: seq<Product>, c: string) {
    exists i :: 0 <= i < |products| && products[i].category == c
  }

  /** The first product with category `c`, or -1. */
  function FirstWith(products: seq<Product>, c: string): (r: int)
    ensures -1 <= r < |products|
    ensures r >= 0 ==> products[r].category == c
    ensures r >= 0 ==> forall j :: 0 <= j < r ==> products[j].category != c
    ensures r == -1 <==> !HasCategory(products, c)
  {
    if products == [] then -1
    else if products[0].category == c then 0
    else
      var k := FirstWith(products[1..], c);
      if k < 0 then -1 else k + 1
  }

  /** `Array.from(new Set(products.map(p => p.category).filter(Boolean)))`. */
  function DistinctCategories(products: seq<Product>): seq<string> {
    if products == [] then []
    else
      var seen := DistinctCategories(products[..|products| - 1]);
      var c := products[|products| - 1].category;
      if c == "" || c in seen then seen else seen + [c]
  }

  /** `categories`: the "all" option, then each non-empty category once. */
  function Categories(products: seq<Product>): (r: seq<string>)
    ensures |r| > 0 && r[0] == AllCategories
  {
    [AllCategories] + DistinctCategories(products)
  }

  /**
   * The category options after "all" are exactly the non-empty categories of the
   * catalog, each once, ordered by where each first appears.
   */
  lemma {:induction false} DistinctCategoriesSpec(products: seq<Product>)
    ensures forall c :: c in DistinctCategories(products) <==> c != "" && HasCategory(products, c)
    ensures forall i, j :: 0 <= i < j < |DistinctCategories(products)| ==>
      DistinctCategories(products)[i] != DistinctCategories(products)[j]
    ensures forall i, j :: 0 <= i < j < |DistinctCategories(products)| ==>
      FirstWith(products, DistinctCategories(products)[i]) < FirstWith(products, DistinctCategories(products)[j])
  {
    if products != [] {
      var n := |products| - 1;
      var prefix := products[..n];
      DistinctCategoriesSpec(prefix);
      var seen := DistinctCategories(prefix);
      var c := products[n].category;
      assert forall j :: 0 <= j < n ==> prefix[j] == products[j];
      forall x | HasCategory(prefix, x)
        ensures FirstWith(products, x) == FirstWith(prefix, x)
      {
      }
      forall x
        ensures HasCategory(products, x) <==> HasCategory(prefix, x) || x == c
      {
        if HasCategory(products, x) && x != c {
          var i :| 0 <= i < |products| && products[i].category == x;
          assert i < n && prefix[i].category == x;
        }
      }
      if c == "" || c in seen {
        assert DistinctCategories(products) == seen;
        forall x
          ensures x in seen <==> x != "" && HasCategory(products, x)
        {
          if x == c && c != "" {
            assert products[n].category == x;
          }
        }
      } else {
        var r := seen + [c];
        assert !HasCategory(prefix, c);
        assert FirstWith(products, c) == n;
        forall i, j | 0 <= i < j < |r|
          ensures FirstWith(products, r[i]) < FirstWith(products, r[j])
        {
          if j == |seen| {
            assert r[i] == seen[i] && seen[i] in seen;
            assert FirstWith(products, r[i]) == FirstWith(prefix, r[i]);
          }
        }
      }
    }
  }

  /** The card's "Add to Cart": out-of-stock products are refused, others added once. */
  method HandleAddToCart(cart: CartStore, product: Product)
    requires cart.Valid()
    modifies cart
    ensures cart.Valid()
    ensures !product.inStock ==> unchanged(cart)
    ensures product.inStock ==> cart.items == Added(old(cart.items), product, 1)
  {
    if !product.inStock {
      return;
    }
    cart.AddToCart(product, 1);
  }
}
