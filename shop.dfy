/**
 * The shop page's listing logic (src/pages/Shop.tsx): the filter predicate,
 * the sort, slice pagination, the page-reset handlers, the previous/next
 * clamps and which page buttons the pagination bar shows.
 *
 * `String.prototype.toLowerCase` and `localeCompare` are parameters
 * (`lower` and `collate`): their Unicode tables are not part of this model.
 */
module ShopPage {
  import opened Storefront

  datatype Filters = Filters(
    categories: seq<string>,
    genders: seq<string>,
    brands: seq<string>,
    priceLow: int,
    priceHigh: int)

  datatype SortOption = Featured | PriceAsc | PriceDesc | NameAsc | NameDesc

  // ---------------------------------------------------------------------
  // Filtering

  predicate IsPrefix(pre: string, s: string)
  {
    |pre| <= |s| && s[..|pre|] == pre
  }

  /** `s.includes(sub)` */
  predicate Includes(s: string, sub: string)
    decreases |s|
  {
    IsPrefix(sub, s) || (s != [] && Includes(s[1..], sub))
  }

  /** `sub` occurs in `s` starting at position `i`. */
  predicate OccursAt(s: string, sub: string, i: int)
  {
    0 <= i <= |s| - |sub| && s[i..i + |sub|] == sub
  }

  /** `includes` finds `sub` exactly when it occurs at some position of `s`. */
  lemma {:induction false} IncludesIff(s: string, sub: string)
    ensures Includes(s, sub) <==> exists i :: OccursAt(s, sub, i)
    decreases |s|
  {
    if IsPrefix(sub, s) {
      assert OccursAt(s, sub, 0);
    } else if s != [] {
      IncludesIff(s[1..], sub);
      if Includes(s[1..], sub) {
        var i :| OccursAt(s[1..], sub, i);
        assert s[i + 1..i + 1 + |sub|] == s[1..][i..i + |sub|];
        assert OccursAt(s, sub, i + 1);
      }
      if exists i :: OccursAt(s, sub, i) {
        var i :| OccursAt(s, sub, i);
        assert i != 0;
        assert s[1..][i - 1..i - 1 + |sub|] == s[i..i + |sub|];
        assert OccursAt(s[1..], sub, i - 1);
      }
    }
  }

  /** An empty list of choices accepts every value. */
  predicate ListAllows(choices: seq<string>, value: string)
  {
    |choices| == 0 || value in choices
  }

  /** `!searchQuery || name, brand or description contains the query, all lower-cased` */
  predicate SearchMatches(p: Product, query: string, lower: string -> string)
  {
    query == []
    || Includes(lower(p.name), lower(query))
    || Includes(lower(p.brand), lower(query))
    || Includes(lower(p.description), lower(query))
  }

  /** The body of the `products.filter` callback. */
  predicate Matches(p: Product, f: Filters, query: string, lower: string -> string)
  {
    && ListAllows(f.categories, p.category)
    && ListAllows(f.genders, p.gender)
    && ListAllows(f.brands, p.brand)
    && f.priceLow <= p.price && p.price <= f.priceHigh
    && SearchMatches(p, query, lower)
  }

  function Filtered(products: seq<Product>, f: Filters, query: string, lower: string -> string): (r: seq<Product>)
    ensures |r| <= |products|
    ensures forall p :: p in r <==> p in products && Matches(p, f, query, lower)
  {
    if products == [] then []
    else if Matches(products[0], f, query, lower) then [products[0]] + Filtered(products[1..], f, query, lower)
    else Filtered(products[1..], f, query, lower)
  }

  /** Filtering keeps the catalogue order. */
  lemma {:induction false} FilteredAppend(a: seq<Product>, b: seq<Product>, f: Filters, query: string, lower: string -> string)
    ensures Filtered(a + b, f, query, lower) == Filtered(a, f, query, lower) + Filtered(b, f, query, lower)
  {
    if a == [] {
      assert a + b == b;
    } else {
      assert (a + b)[1..] == a[1..] + b;
      FilteredAppend(a[1..], b, f, query, lower);
    }
  }

  /** With no category, gender or brand chosen, the full price range and an empty search, nothing is filtered out. */
  lemma {:induction false} NoFilterKeepsAll(products: seq<Product>, low: int, high: int, lower: string -> string)
    requires forall p :: p in products ==> low <= p.price <= high
    ensures Filtered(products, Filters([], [], [], low, high), [], lower) == products
  {
    if products != [] {
      assert products[0] in products;
      NoFilterKeepsAll(products[1..], low, high, lower);
    }
  }

  // ---------------------------------------------------------------------
  // Sorting

  /** A consistent `localeCompare`: any two names compare one way or the other, and `<= 0` is transitive. */
  ghost predicate ConsistentCollation(collate: (string, string) -> int)
  {
    && (forall a, b :: collate(a, b) <= 0 || collate(b, a) <= 0)
    && (forall a, b, c :: collate(a, b) <= 0 && collate(b, c) <= 0 ==> collate(a, c) <= 0)
  }

  /** `a` may stay before `b`: the comparator passed to `sort` returns a value `<= 0`. */
  function Precedes(opt: SortOption, collate: (string, string) -> int): (Product, Product) -> bool
  {
    match opt
    case PriceAsc => (a: Product, b: Product) => a.price - b.price <= 0
    case PriceDesc => (a: Product, b: Product) => b.price - a.price <= 0
    case NameAsc => (a: Product, b: Product) => collate(a.name, b.name) <= 0
    case NameDesc => (a: Product, b: Product) => collate(b.name, a.name) <= 0
    case Featured => (a: Product, b: Product) => true
  }

  ghost predicate TotalPreorder(le: (Product, Product) -> bool)
  {
    && (forall a, b :: le(a, b) || le(b, a))
    && (forall a, b, c :: le(a, b) && le(b, c) ==> le(a, c))
  }

  predicate SortedBy(s: seq<Product>, le: (Product, Product) -> bool)
  {
    forall i, j :: 0 <= i < j < |s| ==> le(s[i], s[j])
  }

  /** Insert `x` before the first element it may precede; equal elements keep their order. */
  function Insert(x: Product, s: seq<Product>, le: (Product, Product) -> bool): (r: seq<Product>)
    ensures multiset(r) == multiset{x} + multiset(s)
  {
    if s == [] then [x]
    else if le(x, s[0]) then [x] + s
    else
      assert s == [s[0]] + s[1..];
      [s[0]] + Insert(x, s[1..], le)
  }

  /** A stable sort; under a total preorder its result is the unique stable order, the one `Array.prototype.sort` gives. */
  function InsertionSort(s: seq<Product>, le: (Product, Product) -> bool): (r: seq<Product>)
    ensures multiset(r) == multiset(s)
  {
    if s == [] then []
    else
      assert s == [s[0]] + s[1..];
      Insert(s[0], InsertionSort(s[1..], le), le)
  }

  lemma {:induction false} InsertSorted(x: Product, s: seq<Product>, le: (Product, Product) -> bool)
    requires TotalPreorder(le) && SortedBy(s, le)
    ensures SortedBy(Insert(x, s, le), le)
  {
    if s != [] && !le(x, s[0]) {
      InsertSorted(x, s[1..], le);
      var t := Insert(x, s[1..], le);
      assert forall k :: 0 <= k < |t| ==> le(s[0], t[k]) by {
        forall k | 0 <= k < |t| ensures le(s[0], t[k]) {
          assert t[k] in multiset(t);
          if t[k] != x {
            assert t[k] in multiset(s[1..]);
            var m :| 0 <= m < |s[1..]| && s[1..][m] == t[k];
            assert s[m + 1] == t[k];
          }
        }
      }
      var r := [s[0]] + t;
      forall i, j | 0 <= i < j < |r| ensures le(r[i], r[j]) {
        if i == 0 { assert r[j] == t[j - 1]; }
        else { assert r[i] == t[i - 1] && r[j] == t[j - 1]; }
      }
    }
  }

  lemma {:induction false} InsertionSortSorted(s: seq<Product>, le: (Product, Product) -> bool)
    requires TotalPreorder(le)
    ensures SortedBy(InsertionSort(s, le), le)
  {
    if s != [] {
      InsertionSortSorted(s[1..], le);
      InsertSorted(s[0], InsertionSort(s[1..], le), le);
    }
  }

  /** `sortedProducts`: a sorted copy, or the copy itself for 'featured'. */
  function SortedProducts(filtered: seq<Product>, opt: SortOption, collate: (string, string) -> int): seq<Product>
  {
    if opt == Featured then filtered else InsertionSort(filtered, Precedes(opt, collate))
  }

  /** Every sort option yields a permutation of the filtered list; 'featured' yields the list itself. */
  lemma SortIsPermutation(filtered: seq<Product>, opt: SortOption, collate: (string, string) -> int)
    ensures multiset(SortedProducts(filtered, opt, collate)) == multiset(filtered)
    ensures opt == Featured ==> SortedProducts(filtered, opt, collate) == filtered
  {
  }

  /** The price comparators, and the name comparators under a consistent collation, are total preorders. */
  lemma PrecedesIsPreorder(opt: SortOption, collate: (string, string) -> int)
    requires opt == NameAsc || opt == NameDesc ==> ConsistentCollation(collate)
    ensures TotalPreorder(Precedes(opt, collate))
  {
    var le := Precedes(opt, collate);
    match opt
    case PriceAsc =>
      assert forall a: Product, b: Product :: le(a, b) == (a.price <= b.price);
    case PriceDesc =>
      assert forall a: Product, b: Product :: le(a, b) == (b.price <= a.price);
    case NameAsc =>
      assert forall a: Product, b: Product :: le(a, b) == (collate(a.name, b.name) <= 0);
    case NameDesc =>
      assert forall a: Product, b: Product :: le(a, b) == (collate(b.name, a.name) <= 0);
    case Featured =>
  }

  /** Price sorts order by price; name sorts order by a consistent collation. */
  lemma SortOrders(filtered: seq<Product>, opt: SortOption, collate: (string, string) -> int)
    ensures var r := SortedProducts(filtered, opt, collate);
            && (opt == PriceAsc ==> forall i, j :: 0 <= i < j < |r| ==> r[i].price <= r[j].price)
            && (opt == PriceDesc ==> forall i, j :: 0 <= i < j < |r| ==> r[i].price >= r[j].price)
    ensures ConsistentCollation(collate) ==>
              var r := SortedProducts(filtered, opt, collate);
              && (opt == NameAsc ==> forall i, j :: 0 <= i < j < |r| ==> collate(r[i].name, r[j].name) <= 0)
              && (opt == NameDesc ==> forall i, j :: 0 <= i < j < |r| ==> collate(r[j].name, r[i].name) <= 0)
  {
    if opt != Featured && (opt == PriceAsc || opt == PriceDesc || ConsistentCollation(collate)) {
      PrecedesIsPreorder(opt, collate);
      InsertionSortSorted(filtered, Precedes(opt, collate));
    }
  }

  // ---------------------------------------------------------------------
  // Pagination

  /** `Math.ceil(n / perPage)` */
  function TotalPages(n: nat, perPage: nat): (t: nat)
    requires perPage > 0
    ensures t * perPage >= n
    ensures t > 0 ==> (t - 1) * perPage < n
  {
    (n + perPage - 1) / perPage
  }

  /** `sortedProducts.slice(startIndex, startIndex + PRODUCTS_PER_PAGE)` */
  function PageItems(sorted: seq<Product>, currentPage: int, perPage: nat): seq<Product>
  {
    Slice(sorted, (currentPage - 1) * perPage, (currentPage - 1) * perPage + perPage)
  }

  /** Page `p` shows the items at indices [(p-1)·P, min(p·P, n)): at most P of them, and none past the end. */
  lemma PageWindow(sorted: seq<Product>, currentPage: int, perPage: nat)
    requires currentPage >= 1
    ensures var n := |sorted|;
            var start := Min((currentPage - 1) * perPage, n);
            PageItems(sorted, currentPage, perPage) == sorted[start..Min(currentPage * perPage, n)]
    ensures |PageItems(sorted, currentPage, perPage)| <= perPage
  {
    PageBounds(currentPage, perPage);
    MulStep(currentPage, perPage);
    SliceWindow(sorted, (currentPage - 1) * perPage, currentPage * perPage);
  }

  lemma SliceWindow(s: seq<Product>, lo: int, hi: int)
    requires 0 <= lo <= hi
    ensures Slice(s, lo, hi) == s[Min(lo, |s|)..Min(hi, |s|)]
  {
  }

  lemma MulStep(k: int, p: int)
    ensures (k - 1) * p + p == k * p
  {
  }

  /** Pages 1..k laid end to end. */
  function FirstPages(sorted: seq<Product>, k: nat, perPage: nat): seq<Product>
  {
    if k == 0 then [] else FirstPages(sorted, k - 1, perPage) + PageItems(sorted, k, perPage)
  }

  /** Pages 1..k together are the first min(k·P, n) items, in order. */
  lemma {:induction false} FirstPagesPrefix(sorted: seq<Product>, k: nat, perPage: nat)
    requires perPage > 0
    ensures FirstPages(sorted, k, perPage) == sorted[..Min(k * perPage, |sorted|)]
  {
    if k > 0 {
      FirstPagesPrefix(sorted, k - 1, perPage);
      PageWindow(sorted, k, perPage);
      PageBounds(k, perPage);
      AppendWindow(sorted, (k - 1) * perPage, k * perPage);
    }
  }

  lemma PageBounds(k: nat, p: nat)
    requires k > 0
    ensures 0 <= (k - 1) * p <= k * p
  {
    MulStep(k, p);
  }

  lemma AppendWindow(s: seq<Product>, lo: int, hi: int)
    requires 0 <= lo <= hi
    ensures s[..Min(lo, |s|)] + s[Min(lo, |s|)..Min(hi, |s|)] == s[..Min(hi, |s|)]
  {
  }

  /** The pages partition the list: pages 1..totalPages laid end to end are the whole list, in order. */
  lemma PagesCoverList(sorted: seq<Product>, perPage: nat)
    requires perPage > 0
    ensures FirstPages(sorted, TotalPages(|sorted|, perPage), perPage) == sorted
  {
    var t := TotalPages(|sorted|, perPage);
    FirstPagesPrefix(sorted, t, perPage);
    assert sorted[..|sorted|] == sorted;
  }

  /** The previous button: `Math.max(1, p - 1)`. */
  function PrevPage(p: int): int { if 1 >= p - 1 then 1 else p - 1 }

  /** The next button: `Math.min(totalPages, p + 1)`. */
  function NextPage(p: int, totalPages: int): int { if totalPages <= p + 1 then totalPages else p + 1 }

  /** The clamps keep the current page within [1, totalPages] and move by one where they can. */
  lemma PrevNextInRange(p: int, totalPages: int)
    requires 1 <= p <= totalPages
    ensures 1 <= PrevPage(p) <= totalPages && 1 <= NextPage(p, totalPages) <= totalPages
    ensures PrevPage(p) == (if p > 1 then p - 1 else 1)
    ensures NextPage(p, totalPages) == (if p < totalPages then p + 1 else totalPages)
  {
  }

  /** A numbered button is shown for the first and last page and for the pages next to the current one. */
  predicate ShowsButton(page: int, current: int, totalPages: int)
  {
    page == 1 || page == totalPages || (page >= current - 1 && page <= current + 1)
  }

  /** Otherwise an ellipsis is shown two pages away from the current one. */
  predicate ShowsEllipsis(page: int, current: int, totalPages: int)
  {
    !ShowsButton(page, current, totalPages) && (page == current - 2 || page == current + 2)
  }

  function Abs(x: int): nat { if x < 0 then -x else x }

  /** An ellipsis appears exactly at distance 2 from the current page, and never on the first or last page. */
  lemma PageButtons(page: int, current: int, totalPages: int)
    ensures ShowsEllipsis(page, current, totalPages) <==>
              Abs(page - current) == 2 && page != 1 && page != totalPages
  {
  }

  /** The pages of 1..totalPages for which the bar renders anything. */
  function BarPages(current: int, totalPages: nat): set<int>
  {
    set page | 1 <= page <= totalPages &&
      (ShowsButton(page, current, totalPages) || ShowsEllipsis(page, current, totalPages))
  }

  /** However many pages there are, the bar renders at most seven controls. */
  lemma BarIsNarrow(current: int, totalPages: nat)
    ensures |BarPages(current, totalPages)| <= 7
  {
    var around: set<int> := {current - 2, current - 1, current, current + 1, current + 2};
    var ends: set<int> := {1, totalPages};
    forall page | page in BarPages(current, totalPages) ensures page in around + ends {
      if page != 1 && page != totalPages {
        assert current - 2 <= page <= current + 2;
      }
    }
    assert |around| <= 5;
    assert |ends| <= 2;
    SubsetCard(BarPages(current, totalPages), around + ends);
  }

  lemma SubsetCard(a: set<int>, b: set<int>)
    requires a <= b
    ensures |a| <= |b|
  {
    var rest := b - a;
    assert b == a + rest;
  }

  // ---------------------------------------------------------------------
  // The page state and its reset handlers

  datatype ShopView = ShopView(filters: Filters, search: string, sort: SortOption, currentPage: int)

  function FilterChanged(v: ShopView, f: Filters): ShopView { v.(filters := f, currentPage := 1) }
  function SearchChanged(v: ShopView, q: string): ShopView { v.(search := q, currentPage := 1) }
  function SortChanged(v: ShopView, o: SortOption): ShopView { v.(sort := o, currentPage := 1) }
  function SearchCleared(v: ShopView): ShopView { v.(search := [], currentPage := 1) }

  /** The products the page lists for a view: filtered, then sorted. */
  function Listed(products: seq<Product>, v: ShopView, lower: string -> string, collate: (string, string) -> int): seq<Product>
  {
    SortedProducts(Filtered(products, v.filters, v.search, lower), v.sort, collate)
  }

  /** After any filter, search or sort change, or a cleared search, the page shows the first page of the new listing. */
  lemma ResetShowsFirstPage(products: seq<Product>, v: ShopView, f: Filters, q: string, o: SortOption,
                            lower: string -> string, collate: (string, string) -> int, perPage: nat)
    ensures forall w :: w in {FilterChanged(v, f), SearchChanged(v, q), SortChanged(v, o), SearchCleared(v)} ==>
              var listed := Listed(products, w, lower, collate);
              PageItems(listed, w.currentPage, perPage) == listed[..Min(perPage, |listed|)]
  {
    forall w | w in {FilterChanged(v, f), SearchChanged(v, q), SortChanged(v, o), SearchCleared(v)}
      ensures var listed := Listed(products, w, lower, collate);
              PageItems(listed, w.currentPage, perPage) == listed[..Min(perPage, |listed|)]
    {
      PageWindow(Listed(products, w, lower, collate), 1, perPage);
    }
  }
}
