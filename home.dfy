/**
 * The catalog query pipeline of the home page: category filter, case-insensitive
 * search, sort by the selected key and fixed-size pagination, plus the page state
 * whose filter handlers send the shopper back to page one.
 */
module Home {
  import opened Catalog
  import opened Text
  import opened Lists

  /** The sort keys offered by the sort menu. */
  datatype SortKey = Default | PriceAsc | PriceDesc | ByRating | ByName

  /** `ITEMS_PER_PAGE`. */
  const ItemsPerPage: nat := 8

  // ---------------------------------------------------------------------------
  // The filter stages

  /** `if (activeCategory)`: a category is selected and is not the empty string. */
  predicate CategoryActive(cat: Option<string>)
  {
    cat.Some? && cat.value != ""
  }

  /** The search test: the lowercased query occurs in the lowercased title, description or category. */
  predicate MatchesQuery(p: Product, query: string)
  {
    Includes(Lower(p.title), query) || Includes(Lower(p.description), query) || Includes(Lower(p.category), query)
  }

  /** What the two filter stages together let through. */
  predicate Selected(p: Product, cat: Option<string>, search: string)
  {
    && (CategoryActive(cat) ==> p.category == cat.value)
    && (search != "" ==> MatchesQuery(p, Lower(search)))
  }

  // ---------------------------------------------------------------------------
  // Sorting

  /** Titles in lexicographic order of their characters. */
  predicate TitleLeq(a: string, b: string)
  {
    a == [] || (b != [] && (a[0] < b[0] || (a[0] == b[0] && TitleLeq(a[1..], b[1..]))))
  }

  /** The comparator for `key` lets `a` stay ahead of `b` (it is not positive for `(a, b)`). */
  predicate InOrder(a: Product, b: Product, key: SortKey)
  {
    match key
    case Default => true
    case PriceAsc => a.price <= b.price
    case PriceDesc => a.price >= b.price
    case ByRating => a.rating >= b.rating
    case ByName => TitleLeq(a.title, b.title)
  }

  lemma {:induction false} TitleTotal(a: string, b: string)
    ensures TitleLeq(a, b) || TitleLeq(b, a)
  {
    if a != [] && b != [] && a[0] == b[0] {
      TitleTotal(a[1..], b[1..]);
    }
  }

  lemma {:induction false} TitleTrans(a: string, b: string, c: string)
    requires TitleLeq(a, b) && TitleLeq(b, c)
    ensures TitleLeq(a, c)
  {
    if a != [] && b != [] && c != [] && a[0] == b[0] && b[0] == c[0] {
      TitleTrans(a[1..], b[1..], c[1..]);
    }
  }

  lemma InOrderTotal(a: Product, b: Product, key: SortKey)
    ensures InOrder(a, b, key) || InOrder(b, a, key)
  {
    if key == ByName { TitleTotal(a.title, b.title); }
  }

  lemma InOrderTrans(a: Product, b: Product, c: Product, key: SortKey)
    requires InOrder(a, b, key) && InOrder(b, c, key)
    ensures InOrder(a, c, key)
  {
    if key == ByName { TitleTrans(a.title, b.title, c.title); }
  }

  ghost predicate Sorted(s: seq<Product>, key: SortKey)
  {
    forall i, j :: 0 <= i < j < |s| ==> InOrder(s[i], s[j], key)
  }

  /** Places `x` ahead of the first element it may precede: equal keys keep their order. */
  function Insert(x: Product, t: seq<Product>, key: SortKey): seq<Product>
  {
    if t == [] then [x]
    else if InOrder(x, t[0], key) then [x] + t
    else [t[0]] + Insert(x, t[1..], key)
  }

  /** `result.sort(comparator)`: a stable sort, written as an insertion sort. */
  function SortBy(s: seq<Product>, key: SortKey): seq<Product>
  {
    if s == [] then [] else Insert(s[0], SortBy(s[1..], key), key)
  }

  lemma SortedCons(y: Product, r: seq<Product>, key: SortKey)
    requires Sorted(r, key)
    requires forall i :: 0 <= i < |r| ==> InOrder(y, r[i], key)
    ensures Sorted([y] + r, key)
  {
    forall i, j | 0 <= i < j < |[y] + r| ensures InOrder(([y] + r)[i], ([y] + r)[j], key) {
      assert ([y] + r)[j] == r[j - 1];
      if i > 0 { assert ([y] + r)[i] == r[i - 1]; }
    }
  }

  lemma {:induction false} InsertSorted(x: Product, t: seq<Product>, key: SortKey)
    requires Sorted(t, key)
    ensures Sorted(Insert(x, t, key), key)
    ensures multiset(Insert(x, t, key)) == multiset(t) + multiset{x}
  {
    if t == [] {
    } else if InOrder(x, t[0], key) {
      forall j | 0 <= j < |t| ensures InOrder(x, t[j], key) {
        if j > 0 { InOrderTrans(x, t[0], t[j], key); }
      }
      SortedCons(x, t, key);
    } else {
      InOrderTotal(x, t[0], key);
      var tail := t[1..];
      assert Sorted(tail, key) by {
        forall i, j | 0 <= i < j < |tail| ensures InOrder(tail[i], tail[j], key) {
          assert tail[i] == t[i + 1] && tail[j] == t[j + 1];
        }
      }
      InsertSorted(x, tail, key);
      var r := Insert(x, tail, key);
      HeadPrecedes(t, x, r, key);
      SortedCons(t[0], r, key);
      assert t == [t[0]] + tail;
    }
  }

  /** The head of a sorted list may precede every element of a list made of `x` and its tail. */
  lemma HeadPrecedes(t: seq<Product>, x: Product, r: seq<Product>, key: SortKey)
    requires Sorted(t, key) && t != []
    requires InOrder(t[0], x, key)
    requires multiset(r) == multiset(t[1..]) + multiset{x}
    ensures forall i :: 0 <= i < |r| ==> InOrder(t[0], r[i], key)
  {
    forall i | 0 <= i < |r| ensures InOrder(t[0], r[i], key) {
      assert r[i] in multiset(r);
      if r[i] != x {
        assert r[i] in multiset(t[1..]);
        var j :| 0 <= j < |t[1..]| && t[1..][j] == r[i];
        assert t[j + 1] == r[i];
      }
    }
  }

  /** The sort yields an ordering of the same elements, each pair in comparator order. */
  lemma {:induction false} SortBySpec(s: seq<Product>, key: SortKey)
    ensures Sorted(SortBy(s, key), key)
    ensures multiset(SortBy(s, key)) == multiset(s)
  {
    if s != [] {
      SortBySpec(s[1..], key);
      InsertSorted(s[0], SortBy(s[1..], key), key);
      assert s == [s[0]] + s[1..];
    }
  }

  /** The products that compare equal to `x` under the key: neither may go after the other. */
  function Tied(x: Product, key: SortKey): Product -> bool
  {
    (p: Product) => InOrder(p, x, key) && InOrder(x, p, key)
  }

  /** Inserting `y` puts it ahead of every product tied with it, so each tie group gains `y` at its front. */
  lemma {:induction false} InsertKeepsTies(y: Product, t: seq<Product>, key: SortKey, x: Product)
    ensures Filter(Insert(y, t, key), Tied(x, key)) == (if Tied(x, key)(y) then [y] else []) + Filter(t, Tied(x, key))
  {
    var tied := Tied(x, key);
    if t == [] {
    } else if InOrder(y, t[0], key) {
      assert ([y] + t)[1..] == t;
    } else {
      InsertKeepsTies(y, t[1..], key, x);
      assert tied(y) ==> !tied(t[0]) by {
        if tied(y) && tied(t[0]) { InOrderTrans(y, x, t[0], key); }
      }
      var r := Insert(y, t[1..], key);
      assert ([t[0]] + r)[1..] == r;
    }
  }

  /** The sort is stable: the products tied with any `x` keep their relative order. */
  lemma {:induction false} SortByKeepsTies(s: seq<Product>, key: SortKey, x: Product)
    ensures Filter(SortBy(s, key), Tied(x, key)) == Filter(s, Tied(x, key))
  {
    if s != [] {
      SortByKeepsTies(s[1..], key, x);
      InsertKeepsTies(s[0], SortBy(s[1..], key), key, x);
    }
  }

  // ---------------------------------------------------------------------------
  // The pipeline

  /** The keep test of the category stage. */
  function ByCategory(c: string): Product -> bool
  {
    (p: Product) => p.category == c
  }

  /** The keep test of the search stage, for an already lowercased query. */
  function ByQuery(query: string): Product -> bool
  {
    (p: Product) => MatchesQuery(p, query)
  }

  /** The two filter stages keep, in catalog order, exactly the selected products. */
  lemma FilterStages(products: seq<Product>, cat: Option<string>, search: string,
                     afterCategory: seq<Product>, afterSearch: seq<Product>)
    requires afterCategory == if CategoryActive(cat) then Filter(products, ByCategory(cat.value)) else products
    requires afterSearch == if search != "" then Filter(afterCategory, ByQuery(Lower(search))) else afterCategory
    ensures forall x :: multiset(afterSearch)[x] == if Selected(x, cat, search) then multiset(products)[x] else 0
    ensures Subseq(afterSearch, products)
  {
    SubseqRefl(products);
    if CategoryActive(cat) {
      FilterSpec(products, ByCategory(cat.value));
    }
    if search != "" {
      FilterSpec(afterCategory, ByQuery(Lower(search)));
      SubseqTrans(afterSearch, afterCategory, products);
    }
  }

  /** The sort stage reorders without adding or dropping anything. */
  lemma SortStage(unsorted: seq<Product>, key: SortKey, result: seq<Product>)
    requires result == if key == Default then unsorted else SortBy(unsorted, key)
    ensures multiset(result) == multiset(unsorted)
    ensures Sorted(result, key)
    ensures forall x :: Filter(result, Tied(x, key)) == Filter(unsorted, Tied(x, key))
  {
    if key != Default {
      SortBySpec(unsorted, key);
      forall x ensures Filter(result, Tied(x, key)) == Filter(unsorted, Tied(x, key)) {
        SortByKeepsTies(unsorted, key, x);
      }
    }
  }

  /** Tie groups taken unchanged from a subsequence of the catalog are in catalog order. */
  lemma TiesInCatalogOrder(result: seq<Product>, unsorted: seq<Product>, products: seq<Product>, key: SortKey)
    requires Subseq(unsorted, products)
    requires forall x :: Filter(result, Tied(x, key)) == Filter(unsorted, Tied(x, key))
    ensures forall x :: Subseq(Filter(result, Tied(x, key)), products)
  {
    forall x ensures Subseq(Filter(result, Tied(x, key)), products) {
      FilterSpec(unsorted, Tied(x, key));
      SubseqTrans(Filter(unsorted, Tied(x, key)), unsorted, products);
    }
  }

  /**
   * What the pipeline promises of its result: exactly the selected products, each as
   * often as in the catalog, in comparator order for the key, products with equal
   * keys in catalog order, and everything in catalog order for the default key.
   */
  ghost predicate QueryResult(result: seq<Product>, products: seq<Product>, cat: Option<string>, search: string, key: SortKey)
  {
    && (forall x :: multiset(result)[x] == if Selected(x, cat, search) then multiset(products)[x] else 0)
    && Sorted(result, key)
    && (forall x :: Subseq(Filter(result, Tied(x, key)), products))
    && (key == Default ==> Subseq(result, products))
  }

  /**
   * `filteredProducts`: copy the catalog, keep the active category, keep the search
   * matches, then sort by the selected key (the default key leaves catalog order).
   */
  method FilteredProducts(products: seq<Product>, activeCategory: Option<string>, search: string, sortBy: SortKey)
    returns (result: seq<Product>)
    ensures QueryResult(result, products, activeCategory, search, sortBy)
    ensures forall x :: multiset(result)[x] == if Selected(x, activeCategory, search) then multiset(products)[x] else 0
    ensures forall i :: 0 <= i < |result| ==> Selected(result[i], activeCategory, search)
    ensures sortBy == Default ==> Subseq(result, products)
    ensures !CategoryActive(activeCategory) && search == "" && sortBy == Default ==> result == products
    ensures sortBy == PriceAsc ==> forall i, j :: 0 <= i < j < |result| ==> result[i].price <= result[j].price
    ensures sortBy == PriceDesc ==> forall i, j :: 0 <= i < j < |result| ==> result[i].price >= result[j].price
    ensures sortBy == ByRating ==> forall i, j :: 0 <= i < j < |result| ==> result[i].rating >= result[j].rating
    ensures sortBy == ByName ==> forall i, j :: 0 <= i < j < |result| ==> TitleLeq(result[i].title, result[j].title)
  {
    result := products;
    if CategoryActive(activeCategory) {
      result := Filter(result, ByCategory(activeCategory.value));
    }
    ghost var afterCategory := result;
    if search != "" {
      var query := Lower(search);
      result := Filter(result, ByQuery(query));
    }
    ghost var unsorted := result;
    FilterStages(products, activeCategory, search, afterCategory, unsorted);
    if sortBy != Default {
      result := SortBy(result, sortBy);
    }
    SortStage(unsorted, sortBy, result);
    TiesInCatalogOrder(result, unsorted, products, sortBy);
    SortedOrders(result, sortBy);
    OnlySelected(result, products, activeCategory, search);
  }

  /** What the sort order means for each key. */
  lemma SortedOrders(r: seq<Product>, key: SortKey)
    requires Sorted(r, key)
    ensures key == PriceAsc ==> forall i, j :: 0 <= i < j < |r| ==> r[i].price <= r[j].price
    ensures key == PriceDesc ==> forall i, j :: 0 <= i < j < |r| ==> r[i].price >= r[j].price
    ensures key == ByRating ==> forall i, j :: 0 <= i < j < |r| ==> r[i].rating >= r[j].rating
    ensures key == ByName ==> forall i, j :: 0 <= i < j < |r| ==> TitleLeq(r[i].title, r[j].title)
  {
    forall i, j | 0 <= i < j < |r| ensures InOrder(r[i], r[j], key) { }
  }

  /** A list holding only selected products holds them at every position. */
  lemma OnlySelected(r: seq<Product>, products: seq<Product>, cat: Option<string>, search: string)
    requires forall x :: multiset(r)[x] == if Selected(x, cat, search) then multiset(products)[x] else 0
    ensures forall i :: 0 <= i < |r| ==> Selected(r[i], cat, search)
  {
    forall i | 0 <= i < |r| ensures Selected(r[i], cat, search) {
      assert r[i] in multiset(r);
    }
  }

  // ---------------------------------------------------------------------------
  // Pagination of the result

  /** `Math.ceil(n / ITEMS_PER_PAGE)`. */
  function TotalPages(n: nat): (r: nat)
    ensures n <= r * ItemsPerPage
    ensures n > 0 ==> (r - 1) * ItemsPerPage < n
    ensures r == 0 <==> n == 0
  {
    (n + ItemsPerPage - 1) / ItemsPerPage
  }

  /**
   * `paginatedProducts`: page `page` holds the items from `(page - 1) * 8` up to
   * `page * 8`; every page up to the last is non-empty, every later page is empty.
   */
  function PageOf(s: seq<Product>, page: int): (r: seq<Product>)
    requires page >= 1
    ensures |r| <= ItemsPerPage
    ensures page > TotalPages(|s|) ==> r == []
    ensures page <= TotalPages(|s|) ==> r == s[(page - 1) * ItemsPerPage .. Min(|s|, page * ItemsPerPage)] && r != []
  {
    var start := (page - 1) * ItemsPerPage;
    Slice(s, start, start + ItemsPerPage)
  }

  /** Pages `1..k` one after another. */
  function PagesUpTo(s: seq<Product>, k: nat): seq<Product>
  {
    if k == 0 then [] else PagesUpTo(s, k - 1) + PageOf(s, k)
  }

  lemma {:induction false} PagesPrefix(s: seq<Product>, k: nat)
    ensures PagesUpTo(s, k) == s[..Min(|s|, k * ItemsPerPage)]
  {
    if k > 0 {
      PagesPrefix(s, k - 1);
      var a := Min(|s|, (k - 1) * ItemsPerPage);
      var b := Min(|s|, k * ItemsPerPage);
      assert PageOf(s, k) == s[a..b];
      assert s[..a] + s[a..b] == s[..b];
    }
  }

  /** The pages `1..totalPages` in order are exactly the whole result, each item on one page. */
  lemma PagesCoverResult(s: seq<Product>)
    ensures PagesUpTo(s, TotalPages(|s|)) == s
  {
    PagesPrefix(s, TotalPages(|s|));
    assert s[..|s|] == s;
  }

  /** Seventeen products make three pages: eight on page one, one on page three. */
  lemma SeventeenProducts(s: seq<Product>)
    requires |s| == 17
    ensures TotalPages(|s|) == 3 && |PageOf(s, 1)| == 8 && |PageOf(s, 2)| == 8 && |PageOf(s, 3)| == 1
    ensures PageOf(s, 4) == []
  {
  }

  // ---------------------------------------------------------------------------
  // The page state

  /**
   * The home page's query state. The search text the pipeline sees is the settled
   * (debounced) copy of what was typed.
   */
  class HomePage {
    var searchQuery: string
    var debouncedSearch: string
    var activeCategory: Option<string>
    var sortBy: SortKey
    var currentPage: int

    ghost predicate Valid()
      reads this
    {
      currentPage >= 1
    }

    constructor ()
      ensures Valid()
      ensures searchQuery == "" && debouncedSearch == "" && activeCategory == None
      ensures sortBy == Default && currentPage == 1
    {
      searchQuery, debouncedSearch, activeCategory := "", "", None;
      sortBy, currentPage := Default, 1;
    }

    /** `handleSearchChange`. */
    method HandleSearchChange(val: string)
      modifies this
      ensures searchQuery == val && currentPage == 1 && Valid()
      ensures debouncedSearch == old(debouncedSearch) && activeCategory == old(activeCategory) && sortBy == old(sortBy)
    {
      searchQuery, currentPage := val, 1;
    }

    /** The debounce delay has passed: the pipeline now sees the typed text. */
    method SettleSearch()
      modifies this
      ensures debouncedSearch == searchQuery == old(searchQuery)
      ensures activeCategory == old(activeCategory) && sortBy == old(sortBy) && currentPage == old(currentPage)
    {
      debouncedSearch := searchQuery;
    }

    /** `handleCategoryChange`. */
    method HandleCategoryChange(cat: Option<string>)
      modifies this
      ensures activeCategory == cat && currentPage == 1 && Valid()
      ensures searchQuery == old(searchQuery) && debouncedSearch == old(debouncedSearch) && sortBy == old(sortBy)
    {
      activeCategory, currentPage := cat, 1;
    }

    /** `handleSortChange`. */
    method HandleSortChange(key: SortKey)
      modifies this
      ensures sortBy == key && currentPage == 1 && Valid()
      ensures searchQuery == old(searchQuery) && debouncedSearch == old(debouncedSearch)
      ensures activeCategory == old(activeCategory)
    {
      sortBy, currentPage := key, 1;
    }

    /** `onPageChange` from the pagination bar, which only offers pages from one up. */
    method PageChange(page: int)
      requires page >= 1
      modifies this
      ensures currentPage == page && Valid()
      ensures searchQuery == old(searchQuery) && debouncedSearch == old(debouncedSearch)
      ensures activeCategory == old(activeCategory) && sortBy == old(sortBy)
    {
      currentPage := page;
    }

    /** The "Clear Filters" action of the empty result. */
    method ClearFilters()
      modifies this
      ensures searchQuery == "" && activeCategory == None && sortBy == Default && currentPage == 1 && Valid()
      ensures debouncedSearch == old(debouncedSearch)
    {
      searchQuery, activeCategory, sortBy, currentPage := "", None, Default, 1;
    }

    /**
     * The page view: the filtered and sorted products, the page count, and the slice
     * of the filtered list that the current page shows.
     */
    method Visible(products: seq<Product>) returns (filtered: seq<Product>, page: seq<Product>, totalPages: nat)
      requires Valid()
      ensures QueryResult(filtered, products, activeCategory, debouncedSearch, sortBy)
      ensures totalPages == TotalPages(|filtered|)
      ensures page == PageOf(filtered, currentPage)
      ensures |page| <= ItemsPerPage
      ensures forall i :: 0 <= i < |page| ==> Selected(page[i], activeCategory, debouncedSearch)
      ensures currentPage > totalPages ==> page == []
      ensures currentPage <= totalPages ==> page != []
    {
      filtered := FilteredProducts(products, activeCategory, debouncedSearch, sortBy);
      totalPages := TotalPages(|filtered|);
      page := PageOf(filtered, currentPage);
      forall i | 0 <= i < |page| ensures Selected(page[i], activeCategory, debouncedSearch) {
        assert page[i] == filtered[(currentPage - 1) * ItemsPerPage + i];
      }
    }
  }
}
