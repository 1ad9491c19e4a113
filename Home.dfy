/** The product grid of the home and category pages (src/pages/Home.tsx):
    the category lookup for the breadcrumb, the product list built from a
    reply, the page title, and the pagination bar. */
module Home {
  import opened Types
  import opened Sequences
  import opened Products

  // ---------------------------------------------------------------------
  // Category lookup

  /** The categories in pre-order: each node before its children, earlier
      siblings (with their subtrees) before later ones. */
  function Flatten(cats: seq<Category>): seq<Category>
    decreases cats
  {
    if cats == [] then []
    else [cats[0]] + Flatten(cats[0].children) + Flatten(cats[1..])
  }

  /** The first category in `cats` whose id is `id`. */
  function FirstWithId(cats: seq<Category>, id: string): (r: Option<Category>)
    ensures r.Some? ==> r.value in cats && r.value.id == id
    ensures r.Some? ==> exists k :: 0 <= k < |cats| && cats[k] == r.value && forall j :: 0 <= j < k ==> cats[j].id != id
    ensures r.None? ==> forall c :: c in cats ==> c.id != id
  {
    if cats == [] then None
    else if cats[0].id == id then Some(cats[0])
    else FirstWithId(cats[1..], id)
  }

  /** Pre-order of a forest split in two is the pre-order of each part. */
  lemma {:induction false} FlattenConcat(a: seq<Category>, b: seq<Category>)
    ensures Flatten(a + b) == Flatten(a) + Flatten(b)
    decreases |a|
  {
    if a == [] {
      assert a + b == b;
    } else {
      var c := a[0];
      assert (a + b)[0] == c && (a + b)[1..] == a[1..] + b;
      FlattenConcat(a[1..], b);
      assert Flatten(a + b) == [c] + Flatten(c.children) + (Flatten(a[1..]) + Flatten(b));
    }
  }

  lemma FlattenAppend(a: seq<Category>, c: Category)
    ensures Flatten(a + [c]) == Flatten(a) + [c] + Flatten(c.children)
  {
    FlattenConcat(a, [c]);
    assert [c][1..] == [];
    assert Flatten([c]) == [c] + Flatten(c.children) + Flatten([]);
  }

  lemma {:induction false} FirstWithIdAppend(a: seq<Category>, b: seq<Category>, id: string)
    ensures FirstWithId(a + b, id) == if FirstWithId(a, id).Some? then FirstWithId(a, id) else FirstWithId(b, id)
    decreases |a|
  {
    if a == [] {
      assert a + b == b;
    } else {
      assert (a + b)[0] == a[0];
      assert (a + b)[1..] == a[1..] + b;
      FirstWithIdAppend(a[1..], b, id);
    }
  }

  /** `findCategory`: walks the siblings in order, testing each node before
      searching its children, and returns the first match in pre-order. */
  method FindCategory(cats: seq<Category>, id: string) returns (found: Option<Category>)
    ensures found == FirstWithId(Flatten(cats), id)
    decreases cats
  {
    var i := 0;
    while i < |cats|
      invariant 0 <= i <= |cats|
      invariant FirstWithId(Flatten(cats[..i]), id) == None
    {
      var cat := cats[i];
      assert cats[..i + 1] == cats[..i] + [cat];
      FlattenAppend(cats[..i], cat);
      FirstWithIdAppend(Flatten(cats[..i]), [cat], id);
      FirstWithIdAppend(Flatten(cats[..i]) + [cat], Flatten(cat.children), id);
      SplitAt(cats, i);
      FirstWithIdAppend(Flatten(cats[..i]), Flatten(cats[i..]), id);
      assert cats[i..][0] == cat;
      assert cats[i..][1..] == cats[i + 1..];
      if cat.id == id {
        return Some(cat);
      }
      var inner := FindCategory(cat.children, id);
      FirstWithIdAppend([cat], Flatten(cat.children), id);
      FirstWithIdAppend([cat] + Flatten(cat.children), Flatten(cats[i + 1..]), id);
      if inner.Some? {
        return inner;
      }
      i := i + 1;
    }
    assert cats[..i] == cats;
    found := None;
  }

  lemma SplitAt(cats: seq<Category>, i: int)
    requires 0 <= i <= |cats|
    ensures Flatten(cats) == Flatten(cats[..i]) + Flatten(cats[i..])
  {
    assert cats == cats[..i] + cats[i..];
    FlattenConcat(cats[..i], cats[i..]);
  }

  // ---------------------------------------------------------------------
  // Products shown

  /** The products shown for a reply: the normalised list, narrowed to the
      matching products when there is a search term. */
  function ShownProducts(searchTerm: Option<string>, body: ProductsBody): (r: seq<Product>)
    ensures !Truthy(searchTerm) ==> r == NormaliseProducts(body)
    ensures Truthy(searchTerm) ==> forall p :: p in r ==> Matches(p, searchTerm.value)
    ensures Truthy(searchTerm) ==> r == FilterMatching(NormaliseProducts(body), searchTerm.value)
    ensures forall p :: p in r ==> p in NormaliseProducts(body)
  {
    var fetched := NormaliseProducts(body);
    if Truthy(searchTerm) && |fetched| > 0 then FilterMatching(fetched, searchTerm.value) else fetched
  }

  /** With a search term, the shown products keep the order of the fetched ones. */
  lemma ShownProductsInOrder(searchTerm: Option<string>, body: ProductsBody)
    ensures IsSubsequence(ShownProducts(searchTerm, body), NormaliseProducts(body))
  {
    var fetched := NormaliseProducts(body);
    if Truthy(searchTerm) && |fetched| > 0 {
      FilterIsSubsequence(fetched, searchTerm.value);
    } else {
      SubsequenceReflexive(fetched);
    }
  }

  lemma {:induction false} SubsequenceReflexive(s: seq<Product>)
    ensures IsSubsequence(s, s)
  {
    if s != [] {
      SubsequenceReflexive(s[1..]);
    }
  }

  /** The pagination kept after a reply: replaced when the listing carries
      one, cleared for a bare array, and otherwise left as it was. */
  function NextPagination(current: Option<Pagination>, body: ProductsBody): (r: Option<Pagination>)
    ensures body.Bare? ==> r == None
    ensures body.Listing? && body.products.Some? && body.pagination.Some? ==> r == body.pagination
    ensures !body.Bare? && !(body.Listing? && body.products.Some? && body.pagination.Some?) ==> r == current
  {
    match body
    case Listing(Some(_), Some(p)) => Some(p)
    case Bare(_) => None
    case _ => current
  }

  // ---------------------------------------------------------------------
  // Title

  /** The heading: the search term wins, then the category (its name, or a
      generic label while the name is unknown), then the catalogue label. */
  function PageTitle(searchTerm: Option<string>, categoryId: Option<string>, categoryName: string): (title: string)
    ensures title != ""
  {
    if Truthy(searchTerm) then "Resultados para \"" + searchTerm.value + "\""
    else if Truthy(categoryId) then (if categoryName != "" then categoryName else "Produtos da Categoria")
    else "Todos os Produtos"
  }

  /** A search term decides the title whatever the category. */
  lemma SearchTitleIgnoresCategory(term: string, c1: Option<string>, n1: string, c2: Option<string>, n2: string)
    requires term != ""
    ensures PageTitle(Some(term), c1, n1) == PageTitle(Some(term), c2, n2)
    ensures PageTitle(Some(term), c1, n1)[|"Resultados para \""|..|"Resultados para \""| + |term|] == term
  {
  }

  /** Without a search term the category name is the title once known, and
      the generic labels stand in otherwise. */
  lemma CategoryTitle(searchTerm: Option<string>, categoryId: Option<string>, name: string)
    requires !Truthy(searchTerm)
    ensures Truthy(categoryId) && name != "" ==> PageTitle(searchTerm, categoryId, name) == name
    ensures Truthy(categoryId) && name == "" ==> PageTitle(searchTerm, categoryId, name) == "Produtos da Categoria"
    ensures !Truthy(categoryId) ==> PageTitle(searchTerm, categoryId, name) == "Todos os Produtos"
  {
  }

  // ---------------------------------------------------------------------
  // Pagination bar

  /** Page `p` gets a button: the first, the last, and the current page with
      its neighbours. */
  predicate Visible(p: int, total: int, current: int)
  {
    p == 1 || p == total || -1 <= p - current <= 1
  }

  /** The visible pages among `from..total`, ascending. */
  function WindowFrom(from: int, total: int, current: int): (w: seq<int>)
    requires 1 <= from
    ensures forall p :: p in w <==> from <= p <= total && Visible(p, total, current)
    ensures forall i, j :: 0 <= i < j < |w| ==> w[i] < w[j]
    decreases total - from
  {
    if from > total then []
    else
      var rest := WindowFrom(from + 1, total, current);
      assert forall j :: 0 <= j < |rest| ==> from < rest[j] by {
        forall j | 0 <= j < |rest| ensures from < rest[j] { assert rest[j] in rest; }
      }
      if Visible(from, total, current) then [from] + rest else rest
  }

  /** The page buttons of the bar, in order. */
  function PageWindow(total: int, current: int): (w: seq<int>)
    ensures forall p :: p in w <==> 1 <= p <= total && Visible(p, total, current)
    ensures forall i, j :: 0 <= i < j < |w| ==> w[i] < w[j]
  {
    WindowFrom(1, total, current)
  }

  /** An ellipsis precedes the button at index `k` when it is not the first
      and the previous button is not the previous page. */
  predicate EllipsisBefore(w: seq<int>, k: int)
    requires 0 <= k < |w|
  {
    k > 0 && w[k - 1] != w[k] - 1
  }

  /** An ellipsis stands exactly where pages are hidden between two buttons. */
  lemma EllipsisMarksHiddenPages(total: int, current: int, k: int)
    requires 0 < k < |PageWindow(total, current)|
    ensures var w := PageWindow(total, current);
      EllipsisBefore(w, k) <==>
        exists p :: w[k - 1] < p < w[k] && 1 <= p <= total && !Visible(p, total, current)
  {
    var w := PageWindow(total, current);
    assert w[k - 1] in w && w[k] in w;
    if EllipsisBefore(w, k) {
      var p := w[k - 1] + 1;
      assert w[k - 1] < p < w[k];
      if Visible(p, total, current) {
        assert p in w;
        var j :| 0 <= j < |w| && w[j] == p;
        assert false;
      }
    }
  }

  /** The bar shows when loading has finished and there is more than one page. */
  predicate ShowsPagination(isLoading: bool, pagination: Option<Pagination>)
  {
    !isLoading && pagination.Some? && pagination.value.totalPages > 1
  }

  /** Whenever the bar shows, it holds distinct buttons for the first and the
      last page, wherever the current page is. */
  lemma ShownBarHasBothEnds(isLoading: bool, pagination: Option<Pagination>, current: int)
    requires ShowsPagination(isLoading, pagination)
    ensures var w := PageWindow(pagination.value.totalPages, current);
      |w| >= 2 && w[0] == 1 && w[|w| - 1] == pagination.value.totalPages
  {
    var total := pagination.value.totalPages;
    var w := PageWindow(total, current);
    assert 1 in w && total in w;
    var i :| 0 <= i < |w| && w[i] == 1;
    var j :| 0 <= j < |w| && w[j] == total;
    assert w[0] in w && w[|w| - 1] in w;
    assert i == 0 && j == |w| - 1 && i != j;
  }

  class Catalogue {
    var products: seq<Product>
    var pagination: Option<Pagination>
    var currentPage: int
    var isLoading: bool
    var categoryName: string

    constructor ()
      ensures products == [] && pagination == None && currentPage == 1 && isLoading && categoryName == ""
    {
      products := [];
      pagination := None;
      currentPage := 1;
      isLoading := true;
      categoryName := "";
    }

    /** `fetchProducts`: the shown products and the pagination follow the
        reply; a failed request empties the grid and keeps the pagination.
        Loading has finished afterwards in every case. */
    method FetchProducts(searchTerm: Option<string>, reply: Response<ProductsBody>)
      modifies this`products, this`pagination, this`isLoading
      ensures !isLoading
      ensures reply.Ok? ==>
        products == ShownProducts(searchTerm, reply.body)
        && pagination == NextPagination(old(pagination), reply.body)
      ensures reply.Threw? ==> products == [] && pagination == old(pagination)
    {
      isLoading := true;
      match reply {
        case Ok(body) =>
          pagination := NextPagination(pagination, body);
          products := ShownProducts(searchTerm, body);
        case Threw(_) =>
          products := [];
      }
      isLoading := false;
    }

    /** `handlePageChange`: moves to a page only when the pagination is known
        and the page is within it; returns whether it moved. */
    method HandlePageChange(newPage: int) returns (moved: bool)
      modifies this`currentPage
      ensures moved <==> pagination.Some? && 1 <= newPage <= pagination.value.totalPages
      ensures currentPage == if moved then newPage else old(currentPage)
    {
      if pagination.None? {
        return false;
      }
      moved := 1 <= newPage <= pagination.value.totalPages;
      if moved {
        currentPage := newPage;
      }
    }

    /** `fetchCategoryInfo`: with a category id, looks the category up in the
        fetched tree and takes its name when found; otherwise nothing changes. */
    method FetchCategoryInfo(categoryId: Option<string>, reply: Response<seq<Category>>)
      modifies this`categoryName
      ensures Truthy(categoryId) && reply.Ok? && FirstWithId(Flatten(reply.body), categoryId.value).Some? ==>
        categoryName == FirstWithId(Flatten(reply.body), categoryId.value).value.name
      ensures !(Truthy(categoryId) && reply.Ok? && FirstWithId(Flatten(reply.body), categoryId.value).Some?) ==>
        categoryName == old(categoryName)
    {
      if !Truthy(categoryId) || reply.Threw? {
        return;
      }
      var found := FindCategory(reply.body, categoryId.value);
      if found.Some? {
        categoryName := found.value.name;
      }
    }
  }
}
