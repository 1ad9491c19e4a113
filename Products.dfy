/** The body of a `/products` request and the client-side relevance filter
    that the header suggestions (src/components/Header.tsx) and the product
    grid (src/pages/Home.tsx) both apply to it. */
module Products {
  import opened Types
  import opened Sequences
  import opened Text

  /** The shapes the storefront accepts: an object whose `products` field is
      set (with an optional `pagination`), a bare array, or anything else. */
  datatype ProductsBody =
    | Listing(products: Option<seq<Product>>, pagination: Option<Pagination>)
    | Bare(items: seq<Product>)
    | Unexpected

  /** The product list read from a body: `data.products` when present, else
      `data` when it is an array, else nothing. */
  function NormaliseProducts(body: ProductsBody): (r: seq<Product>)
    ensures body.Listing? && body.products.Some? ==> r == body.products.value
    ensures body.Bare? ==> r == body.items
    ensures !(body.Listing? && body.products.Some?) && !body.Bare? ==> r == []
  {
    match body
    case Listing(Some(ps), _) => ps
    case Bare(items) => items
    case _ => []
  }

  /** The relevance test: the lowercased name contains the lowercased query,
      or the description is non-empty and its lowercased form contains it. */
  predicate Matches(p: Product, query: string)
  {
    Includes(Lower(p.name), Lower(query))
    || (p.description != "" && Includes(Lower(p.description), Lower(query)))
  }

  /** `products.filter(p => Matches(p, query))`. */
  function FilterMatching(products: seq<Product>, query: string): (r: seq<Product>)
    ensures |r| <= |products|
    ensures forall p :: p in r ==> p in products && Matches(p, query)
    ensures forall p :: p in products && Matches(p, query) ==> p in r
  {
    if products == [] then []
    else if Matches(products[0], query) then [products[0]] + FilterMatching(products[1..], query)
    else FilterMatching(products[1..], query)
  }

  /** The filter keeps the order of the products it lets through. */
  lemma {:induction false} FilterIsSubsequence(products: seq<Product>, query: string)
    ensures IsSubsequence(FilterMatching(products, query), products)
  {
    if products != [] {
      FilterIsSubsequence(products[1..], query);
      var rest := FilterMatching(products[1..], query);
      if Matches(products[0], query) {
        assert ([products[0]] + rest)[1..] == rest;
      }
    }
  }

  /** Each product is let through as often as it occurs when it matches, and
      never when it does not. */
  lemma {:induction false} FilterCounts(products: seq<Product>, query: string, p: Product)
    ensures multiset(FilterMatching(products, query))[p]
         == if Matches(p, query) then multiset(products)[p] else 0
  {
    if products != [] {
      FilterCounts(products[1..], query, p);
      assert products == [products[0]] + products[1..];
    }
  }

  /** A filter is idempotent: filtering the shown list again changes nothing. */
  lemma {:induction false} FilterIdempotent(products: seq<Product>, query: string)
    ensures FilterMatching(FilterMatching(products, query), query) == FilterMatching(products, query)
  {
    if products != [] {
      FilterIdempotent(products[1..], query);
      var rest := FilterMatching(products[1..], query);
      if Matches(products[0], query) {
        assert ([products[0]] + rest)[1..] == rest;
      }
    }
  }
}
