/** The product catalogue as the shop handlers read it, and the pagination
    arithmetic of the product list (`getProducts`) and the index page (`getIndex`). */
module Catalog {
  import opened Wrappers

  type ProductId = nat

  /** A product record. The price is kept in integer cents so that sums are exact. */
  datatype Product = Product(id: ProductId, title: string, price: int)

  /** Number of products shown on one page. */
  const ITEMS_PER_PAGE: nat := 2

  function Min(a: int, b: int): int { if a <= b then a else b }

  function Max(a: int, b: int): int { if a >= b then a else b }

  /** `Product.findById`: the first product of the catalogue with that id. */
  function FindById(products: seq<Product>, pid: ProductId): (r: Option<Product>)
    ensures r.None? <==> forall k :: 0 <= k < |products| ==> products[k].id != pid
    ensures r.Some? ==> r.value in products && r.value.id == pid
  {
    if products == [] then None
    else if products[0].id == pid then Some(products[0])
    else FindById(products[1..], pid)
  }

  /** The `page` query parameter as JavaScript's unary `+` sees it. */
  datatype PageQuery =
    | Absent              // no `?page=`: `+undefined` is NaN
    | NotNumeric          // `+"abc"` is NaN
    | Numeric(value: int) // a string denoting an integer; `""` and `"0"` give 0

  /** `+req.query.page || 1`: NaN and 0 are falsy and fall back to page 1;
      every other number, negative ones included, is kept. */
  function PageOf(query: PageQuery): (page: int)
    ensures page != 0
    ensures query.Numeric? && query.value != 0 ==> page == query.value
    ensures query.Absent? || query.NotNumeric? || query.value == 0 ==> page == 1
  {
    if query.Numeric? && query.value != 0 then query.value else 1
  }

  /** Number of products the query skips for a page. */
  function Skip(page: int): int { (page - 1) * ITEMS_PER_PAGE }

  /** `Product.find().skip((page - 1) * 2).limit(2)`. The database refuses a
      negative skip, which is what a page below 1 asks for. */
  function PageWindow(products: seq<Product>, page: int): (w: Option<seq<Product>>)
    ensures w.None? <==> page < 1
    ensures w.Some? ==> |w.value| == Min(ITEMS_PER_PAGE, Max(0, |products| - Skip(page)))
    ensures w.Some? ==> forall k :: 0 <= k < |w.value| ==> w.value[k] == products[Skip(page) + k]
  {
    if page < 1 then None
    else
      var from := Min(Skip(page), |products|);
      Some(products[from..Min(from + ITEMS_PER_PAGE, |products|)])
  }

  /** `Math.ceil(totalItems / 2)`: the number of pages needed to show every product. */
  function LastPage(totalItems: nat): (last: nat)
    ensures totalItems == 0 <==> last == 0
    ensures last > 0 ==> ITEMS_PER_PAGE * (last - 1) < totalItems <= ITEMS_PER_PAGE * last
  {
    (totalItems + ITEMS_PER_PAGE - 1) / ITEMS_PER_PAGE
  }

  /** The navigation fields handed to the listing views. */
  datatype PageInfo = PageInfo(
    currentPage: int,
    hasNextPage: bool,
    hasPreviousPage: bool,
    nextPage: int,
    previousPage: int,
    lastPage: nat)

  function Paging(page: int, totalItems: nat): PageInfo {
    PageInfo(page, ITEMS_PER_PAGE * page < totalItems, page > 1, page + 1, page - 1, LastPage(totalItems))
  }

  /** There is a next page exactly when this page comes before the last one,
      and exactly when the window of the next page holds a product. */
  lemma NextPageIffMoreProducts(products: seq<Product>, page: int)
    requires page >= 1
    ensures var info := Paging(page, |products|);
      && (info.hasNextPage <==> page < info.lastPage)
      && (info.hasNextPage <==> PageWindow(products, info.nextPage).value != [])
  {
    var info := Paging(page, |products|);
    var w := PageWindow(products, page + 1).value;
    if info.hasNextPage {
      assert |w| > 0;
    } else {
      assert |w| == 0;
    }
  }

  /** There is a previous page exactly when the previous page number is one the
      database accepts. */
  lemma PreviousPageIffValid(products: seq<Product>, page: int)
    ensures var info := Paging(page, |products|);
      info.hasPreviousPage <==> PageWindow(products, info.previousPage).Some?
  {
  }

  /** Pages 1 to lastPage cover the catalogue: product i is shown on page i / 2 + 1. */
  lemma EveryProductOnItsPage(products: seq<Product>, i: nat)
    requires i < |products|
    ensures var page := i / ITEMS_PER_PAGE + 1;
      && 1 <= page <= LastPage(|products|)
      && PageWindow(products, page).Some?
      && i % ITEMS_PER_PAGE < |PageWindow(products, page).value|
      && PageWindow(products, page).value[i % ITEMS_PER_PAGE] == products[i]
  {
    var page := i / ITEMS_PER_PAGE + 1;
    assert Skip(page) + i % ITEMS_PER_PAGE == i;
  }

  /** A page after the last one is valid but empty. */
  lemma PagesAfterLastAreEmpty(products: seq<Product>, page: int)
    requires page > LastPage(|products|) && page >= 1
    ensures PageWindow(products, page) == Some([])
  {
  }

  /** What a listing handler renders. */
  datatype ListingView = ListingView(pageTitle: string, prods: seq<Product>, paging: PageInfo)

  /** `NoResponse`: the query's rejection is not caught, so nothing is rendered;
      `ServerError`: the rejection is forwarded as a 500 error. */
  datatype ListingResponse = Rendered(view: ListingView) | ServerError | NoResponse

  /** `getProducts`: count the products, fetch the page's window, render the list. */
  function GetProducts(query: PageQuery, products: seq<Product>): (r: ListingResponse)
    ensures r.Rendered? <==> PageOf(query) >= 1
    ensures !r.Rendered? ==> r == NoResponse
    ensures r.Rendered? ==> r.view.paging.currentPage == PageOf(query)
    ensures r.Rendered? ==> |r.view.prods| <= ITEMS_PER_PAGE
    ensures r.Rendered? ==> r.view.prods == PageWindow(products, PageOf(query)).value
    ensures r.Rendered? ==> r.view.paging == Paging(PageOf(query), |products|)
  {
    var page := PageOf(query);
    match PageWindow(products, page)
    case None => NoResponse
    case Some(prods) => Rendered(ListingView("Products", prods, Paging(page, |products|)))
  }

  /** `getIndex`: the same query and fields as `getProducts`, with error handling. */
  function GetIndex(query: PageQuery, products: seq<Product>): (r: ListingResponse)
    ensures r.Rendered? <==> PageOf(query) >= 1
    ensures !r.Rendered? ==> r == ServerError
    ensures r.Rendered? ==> r.view.prods == PageWindow(products, PageOf(query)).value
    ensures r.Rendered? ==> r.view.paging == Paging(PageOf(query), |products|)
  {
    var page := PageOf(query);
    match PageWindow(products, page)
    case None => ServerError
    case Some(prods) => Rendered(ListingView("Shop", prods, Paging(page, |products|)))
  }

  /** The index page shows the same products and navigation as the product list;
      the two differ only in the title and in how a failed query is reported. */
  lemma IndexMatchesProducts(query: PageQuery, products: seq<Product>)
    ensures GetIndex(query, products).Rendered? <==> GetProducts(query, products).Rendered?
    ensures GetIndex(query, products).Rendered? ==>
      && GetIndex(query, products).view.prods == GetProducts(query, products).view.prods
      && GetIndex(query, products).view.paging == GetProducts(query, products).view.paging
  {
  }

  /** Without a usable page number the list shows the first page: the first two products. */
  lemma DefaultPageShowsFirstProducts(query: PageQuery, products: seq<Product>)
    requires query.Absent? || query.NotNumeric? || query.value == 0
    ensures GetProducts(query, products).Rendered?
    ensures GetProducts(query, products).view.prods == products[..Min(ITEMS_PER_PAGE, |products|)]
    ensures !GetProducts(query, products).view.paging.hasPreviousPage
  {
  }
}
