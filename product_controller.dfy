/**
 * The catalog endpoints of backend/src/controllers/product.controller.js:
 * the query and parameter list `getProducts` builds, its pagination
 * arithmetic, the validation and `in_stock` derivation of `createProduct`,
 * and the UPDATE statement `updateProduct` assembles from the body's keys.
 *
 * Query-string values arrive as strings; an absent filter is "" (both are
 * falsy). `page` and `limit` are numbers, `None` when absent.
 */
module ProductController {
  import opened Wrappers
  import opened Schema

  // ---------------------------------------------------------------------
  // SQL text helpers

  function DigitChar(d: nat): (c: char)
    requires d < 10
    ensures '0' <= c <= '9' && (c == '0' <==> d == 0)
  {
    "0123456789"[d]
  }

  /** The decimal text of a placeholder number: digits only, with no leading zero. */
  function Digits(n: nat): (r: string)
    ensures |r| >= 1
    ensures forall i :: 0 <= i < |r| ==> '0' <= r[i] <= '9'
    ensures r[0] == '0' <==> n == 0
  {
    if n < 10 then [DigitChar(n)] else Digits(n / 10) + [DigitChar(n % 10)]
  }

  function Placeholder(n: nat): string { "$" + Digits(n) }

  function DigitValue(c: char): nat
  {
    if '0' <= c <= '9' then c as int - '0' as int else 0
  }

  /** The number a string of decimal digits spells, as the store reads the number after `$`. */
  function DecimalValue(s: string): nat
  {
    if s == [] then 0 else DecimalValue(s[..|s| - 1]) * 10 + DigitValue(s[|s| - 1])
  }

  lemma DigitCharValue(d: nat)
    requires d < 10
    ensures DigitValue(DigitChar(d)) == d
  {
    assert "0123456789"[d] as int == '0' as int + d by {
      if d < 5 {
        assert d == 0 || d == 1 || d == 2 || d == 3 || d == 4;
      } else {
        assert d == 5 || d == 6 || d == 7 || d == 8 || d == 9;
      }
    }
  }

  /** `Digits` spells its number: reading the text back gives `n`. */
  lemma {:induction false} DigitsRoundTrip(n: nat)
    ensures DecimalValue(Digits(n)) == n
  {
    if n < 10 {
      DigitCharValue(n);
      assert Digits(n)[..0] == [];
    } else {
      var r := Digits(n);
      assert r[..|r| - 1] == Digits(n / 10);
      DigitsRoundTrip(n / 10);
      DigitCharValue(n % 10);
    }
  }

  /** Placeholders `$1`, `$2`, … name distinct numbers: two placeholders are the same text exactly when their numbers are equal. */
  lemma PlaceholderInjective(m: nat, n: nat)
    ensures Placeholder(m) == Placeholder(n) <==> m == n
  {
    if Placeholder(m) == Placeholder(n) {
      assert Digits(m) == Placeholder(m)[1..];
      assert Digits(n) == Placeholder(n)[1..];
      DigitsRoundTrip(m);
      DigitsRoundTrip(n);
    }
  }

  /** A value bound to a placeholder. */
  datatype SqlParam = Text(s: string) | Number(n: int) | Json(s: string)

  // ---------------------------------------------------------------------
  // getProducts: the filters

  datatype ProductQuery = ProductQuery(
    page: Option<int>,
    limit: Option<int>,
    category: string,
    gender: string,
    brand: string,
    minPrice: string,
    maxPrice: string,
    search: string,
    sortBy: Option<string>,
    sortOrder: Option<string>)

  datatype FilterKind = Category | Gender | Brand | MinPrice | MaxPrice | Search

  function FilterValue(q: ProductQuery, k: FilterKind): string
  {
    match k
    case Category => q.category
    case Gender => q.gender
    case Brand => q.brand
    case MinPrice => q.minPrice
    case MaxPrice => q.maxPrice
    case Search => q.search
  }

  /** The position of each filter in the handler's sequence of `if`s. */
  function Rank(k: FilterKind): nat
  {
    match k
    case Category => 0
    case Gender => 1
    case Brand => 2
    case MinPrice => 3
    case MaxPrice => 4
    case Search => 5
  }

  function Keep(q: ProductQuery, k: FilterKind): seq<FilterKind>
  {
    if FilterValue(q, k) != "" then [k] else []
  }

  /** The filters that contribute a clause, in the handler's order. */
  function Active(q: ProductQuery): seq<FilterKind>
  {
    Keep(q, Category) + Keep(q, Gender) + Keep(q, Brand) + Keep(q, MinPrice) + Keep(q, MaxPrice) + Keep(q, Search)
  }

  /** Ranks strictly increase along `ks`. */
  predicate InHandlerOrder(ks: seq<FilterKind>)
  {
    forall i, j :: 0 <= i < j < |ks| ==> Rank(ks[i]) < Rank(ks[j])
  }

  lemma KeepAfter(ks: seq<FilterKind>, q: ProductQuery, k: FilterKind)
    requires InHandlerOrder(ks) && forall x :: x in ks ==> Rank(x) < Rank(k)
    ensures InHandlerOrder(ks + Keep(q, k))
  {
  }

  /** Exactly the truthy filters contribute a clause. */
  lemma ActiveIsTruthy(q: ProductQuery)
    ensures forall k :: k in Active(q) <==> FilterValue(q, k) != ""
  {
    forall k ensures k in Active(q) <==> FilterValue(q, k) != "" {
      match k
      case Category =>
      case Gender =>
      case Brand =>
      case MinPrice =>
      case MaxPrice =>
      case Search =>
    }
  }

  /** Each contributing filter appears once, in the handler's order. */
  lemma ActiveInHandlerOrder(q: ProductQuery)
    ensures InHandlerOrder(Active(q))
  {
    var a1 := Keep(q, Category);
    var a2 := a1 + Keep(q, Gender);
    KeepAfter(a1, q, Gender);
    var a3 := a2 + Keep(q, Brand);
    KeepAfter(a2, q, Brand);
    var a4 := a3 + Keep(q, MinPrice);
    KeepAfter(a3, q, MinPrice);
    var a5 := a4 + Keep(q, MaxPrice);
    KeepAfter(a4, q, MaxPrice);
    KeepAfter(a5, q, Search);
    assert Active(q) == a5 + Keep(q, Search);
  }

  /** One filter's clause; the search clause uses its placeholder three times. */
  function ClauseText(k: FilterKind, ph: nat): string
  {
    var p := Placeholder(ph);
    match k
    case Category => " AND category = " + p
    case Gender => " AND gender = " + p
    case Brand => " AND brand = " + p
    case MinPrice => " AND price >= " + p
    case MaxPrice => " AND price <= " + p
    case Search => " AND (name ILIKE " + p + " OR brand ILIKE " + p + " OR description ILIKE " + p + ")"
  }

  /** The clauses of `ks`, the i-th (from 0) numbered $i+1. */
  function WhereText(ks: seq<FilterKind>): string
  {
    if ks == [] then "" else WhereText(ks[..|ks| - 1]) + ClauseText(ks[|ks| - 1], |ks|)
  }

  function FilterParam(q: ProductQuery, k: FilterKind): SqlParam
  {
    if k == Search then Text("%" + q.search + "%") else Text(FilterValue(q, k))
  }

  function ParamsFor(q: ProductQuery, ks: seq<FilterKind>): seq<SqlParam>
  {
    seq(|ks|, i requires 0 <= i < |ks| => FilterParam(q, ks[i]))
  }

  // ---------------------------------------------------------------------
  // getProducts: sorting

  const SortFields: seq<string> := ["created_at", "price", "name", "brand"]

  function SortField(sortBy: Option<string>): string
  {
    var s := if sortBy.Some? then sortBy.value else "created_at";
    if s in SortFields then s else "created_at"
  }

  function UpperChar(c: char): char
  {
    if 'a' <= c <= 'z' then (c as int - 32) as char else c
  }

  /** `toUpperCase`, on ASCII letters. */
  function ToUpper(s: string): (r: string)
    ensures |r| == |s| && forall i :: 0 <= i < |s| ==> r[i] == UpperChar(s[i])
  {
    if s == [] then [] else [UpperChar(s[0])] + ToUpper(s[1..])
  }

  function Direction(sortOrder: Option<string>): string
  {
    var s := if sortOrder.Some? then sortOrder.value else "DESC";
    if ToUpper(s) == "ASC" then "ASC" else "DESC"
  }

  /** Only allow-listed text reaches ORDER BY, and an allow-listed field is kept. */
  lemma SortFieldAllowListed(sortBy: Option<string>)
    ensures SortField(sortBy) in SortFields
    ensures sortBy.Some? && sortBy.value in SortFields ==> SortField(sortBy) == sortBy.value
    ensures sortBy.Some? && sortBy.value !in SortFields ==> SortField(sortBy) == "created_at"
  {
  }

  lemma UpperCharIs(c: char, u: char)
    requires 'A' <= u <= 'Z'
    ensures UpperChar(c) == u <==> c == u || c == (u as int + 32) as char
  {
  }

  /** The direction is ASC exactly for the eight ASCII case variants of "asc"; everything else, absence included, is DESC. */
  lemma DirectionIsAscExactly(sortOrder: Option<string>)
    ensures Direction(sortOrder) in {"ASC", "DESC"}
    ensures Direction(sortOrder) == "ASC" <==>
              sortOrder.Some? && |sortOrder.value| == 3
              && sortOrder.value[0] in "aA" && sortOrder.value[1] in "sS" && sortOrder.value[2] in "cC"
  {
    if sortOrder.Some? {
      var s := sortOrder.value;
      UpperCharIs(if |s| > 0 then s[0] else 'x', 'A');
      UpperCharIs(if |s| > 1 then s[1] else 'x', 'S');
      UpperCharIs(if |s| > 2 then s[2] else 'x', 'C');
      if |s| == 3 && s[0] in "aA" && s[1] in "sS" && s[2] in "cC" {
        assert ToUpper(s) == "ASC";
      }
    } else {
      assert ToUpper("DESC") == "DESC";
    }
  }

  // ---------------------------------------------------------------------
  // getProducts: the two queries

  const FromProducts := " FROM products WHERE 1=1"
  const SelectAll := "SELECT *" + FromProducts
  const SelectCount := "SELECT COUNT(*)" + FromProducts

  function Page(q: ProductQuery): int { if q.page.Some? then q.page.value else 1 }
  function Limit(q: ProductQuery): int { if q.limit.Some? then q.limit.value else 12 }
  function Offset(q: ProductQuery): int { (Page(q) - 1) * Limit(q) }

  function OrderText(q: ProductQuery, ph: nat): string
  {
    " ORDER BY " + SortField(q.sortBy) + " " + Direction(q.sortOrder)
    + " LIMIT " + Placeholder(ph) + " OFFSET " + Placeholder(ph + 1)
  }

  function PageText(q: ProductQuery): string
  {
    SelectAll + WhereText(Active(q)) + OrderText(q, |Active(q)| + 1)
  }

  function PageParams(q: ProductQuery): seq<SqlParam>
  {
    ParamsFor(q, Active(q)) + [Number(Limit(q)), Number(Offset(q))]
  }

  /** `String.prototype.replace` with a string pattern: the first occurrence only. */
  function ReplaceFirst(s: string, pattern: string, replacement: string): string
    decreases |s|
  {
    if |s| < |pattern| then s
    else if s[..|pattern|] == pattern then replacement + s[|pattern|..]
    else [s[0]] + ReplaceFirst(s[1..], pattern, replacement)
  }

  lemma ReplaceFirstAtStart(pattern: string, rest: string, replacement: string)
    ensures ReplaceFirst(pattern + rest, pattern, replacement) == replacement + rest
  {
    assert (pattern + rest)[..|pattern|] == pattern;
    assert (pattern + rest)[|pattern|..] == rest;
  }

  function CountText(q: ProductQuery): string
  {
    ReplaceFirst(SelectAll + WhereText(Active(q)), "SELECT *", "SELECT COUNT(*)")
  }

  /** Appending a kind appends its clause, numbered after the clauses before it. */
  lemma WhereAppend(ks: seq<FilterKind>, k: FilterKind)
    ensures WhereText(ks + [k]) == WhereText(ks) + ClauseText(k, |ks| + 1)
  {
    var ks' := ks + [k];
    assert ks'[..|ks'| - 1] == ks && ks'[|ks'| - 1] == k;
  }

  lemma TextAppend(head: string, ks: seq<FilterKind>, k: FilterKind)
    ensures head + WhereText(ks + [k]) == (head + WhereText(ks)) + ClauseText(k, |ks| + 1)
  {
    WhereAppend(ks, k);
  }

  lemma ParamsAppend(q: ProductQuery, ks: seq<FilterKind>, k: FilterKind)
    ensures ParamsFor(q, ks + [k]) == ParamsFor(q, ks) + [FilterParam(q, k)]
  {
  }

  /** One of the handler's filter blocks: when the filter is truthy, append its clause at `$paramIndex`, push its value, and advance. */
  method AppendFilter(q: ProductQuery, k: FilterKind, queryText: string, queryParams: seq<SqlParam>, paramIndex: nat,
                      ghost head: string, ghost kinds: seq<FilterKind>)
    returns (queryText': string, queryParams': seq<SqlParam>, paramIndex': nat)
    requires queryText == head + WhereText(kinds) && queryParams == ParamsFor(q, kinds) && paramIndex == |kinds| + 1
    ensures var kinds' := kinds + Keep(q, k);
            queryText' == head + WhereText(kinds') && queryParams' == ParamsFor(q, kinds') && paramIndex' == |kinds'| + 1
  {
    queryText', queryParams', paramIndex' := queryText, queryParams, paramIndex;
    var value := FilterValue(q, k);
    if value != "" {
      assert kinds + Keep(q, k) == kinds + [k];
      TextAppend(head, kinds, k);
      ParamsAppend(q, kinds, k);
      queryText' := queryText + ClauseText(k, paramIndex);
      queryParams' := queryParams + [if k == Search then Text("%" + value + "%") else Text(value)];
      paramIndex' := paramIndex + 1;
    } else {
      assert kinds + Keep(q, k) == kinds;
    }
  }

  /** The handler's six filter blocks, in order: the WHERE clauses and parameters of the truthy filters. */
  method ApplyFilters(q: ProductQuery) returns (queryText: string, queryParams: seq<SqlParam>, paramIndex: nat)
    ensures queryText == SelectAll + WhereText(Active(q)) && queryParams == ParamsFor(q, Active(q))
    ensures paramIndex == |Active(q)| + 1
  {
    queryText := SelectAll;
    queryParams := [];
    paramIndex := 1;
    ghost var kinds: seq<FilterKind> := [];

    queryText, queryParams, paramIndex := AppendFilter(q, Category, queryText, queryParams, paramIndex, SelectAll, kinds);
    kinds := kinds + Keep(q, Category);
    queryText, queryParams, paramIndex := AppendFilter(q, Gender, queryText, queryParams, paramIndex, SelectAll, kinds);
    kinds := kinds + Keep(q, Gender);
    queryText, queryParams, paramIndex := AppendFilter(q, Brand, queryText, queryParams, paramIndex, SelectAll, kinds);
    kinds := kinds + Keep(q, Brand);
    queryText, queryParams, paramIndex := AppendFilter(q, MinPrice, queryText, queryParams, paramIndex, SelectAll, kinds);
    kinds := kinds + Keep(q, MinPrice);
    queryText, queryParams, paramIndex := AppendFilter(q, MaxPrice, queryText, queryParams, paramIndex, SelectAll, kinds);
    kinds := kinds + Keep(q, MaxPrice);
    queryText, queryParams, paramIndex := AppendFilter(q, Search, queryText, queryParams, paramIndex, SelectAll, kinds);
    kinds := kinds + Keep(q, Search);
    assert [] + Keep(q, Category) == Keep(q, Category);
    assert kinds == Active(q);
  }

  /**
   * `getProducts` up to the two store calls: the count query with its parameters, and the page query with its
   * parameters. The count runs with the filter parameters as they stand before LIMIT and OFFSET are pushed.
   */
  method BuildProductQuery(q: ProductQuery)
    returns (countText: string, countParams: seq<SqlParam>, queryText: string, queryParams: seq<SqlParam>)
    ensures countText == CountText(q) && queryText == PageText(q) && queryParams == PageParams(q)
    ensures countParams == ParamsFor(q, Active(q)) && queryParams == countParams + [Number(Limit(q)), Number(Offset(q))]
  {
    var offset := (Page(q) - 1) * Limit(q);
    var paramIndex;
    queryText, queryParams, paramIndex := ApplyFilters(q);
    countText := ReplaceFirst(queryText, "SELECT *", "SELECT COUNT(*)");
    countParams := queryParams;

    var sortField := SortField(q.sortBy);
    var order := Direction(q.sortOrder);
    var orderBy := " ORDER BY " + sortField + " " + order
                   + " LIMIT " + Placeholder(paramIndex) + " OFFSET " + Placeholder(paramIndex + 1);
    assert orderBy == OrderText(q, |Active(q)| + 1);
    queryText := queryText + orderBy;
    queryParams := queryParams + [Number(Limit(q)), Number(offset)];
  }

  /** Every clause's placeholder binds that clause's own filter value, the search value wrapped in %…%, and LIMIT and OFFSET take the two placeholders after the filters, so the highest placeholder is the parameter count. */
  lemma PlaceholdersMatchParams(q: ProductQuery)
    ensures var ks := Active(q);
            var ps := PageParams(q);
            && |ps| == |ks| + 2
            && (forall i :: 0 <= i < |ks| ==> ps[i] == Text(if ks[i] == Search then "%" + q.search + "%" else FilterValue(q, ks[i])))
            && ps[|ks|] == Number(Limit(q)) && ps[|ks| + 1] == Number(Offset(q))
            && PageText(q) == SelectAll + WhereText(ks) + OrderText(q, |ps| - 1)
  {
    var ks := Active(q);
    var ps := PageParams(q);
    var filters := ParamsFor(q, ks);
    assert ps == filters + [Number(Limit(q)), Number(Offset(q))] && |filters| == |ks|;
    forall i | 0 <= i < |ks|
      ensures ps[i] == Text(if ks[i] == Search then "%" + q.search + "%" else FilterValue(q, ks[i]))
    {
      assert ps[i] == filters[i] == FilterParam(q, ks[i]);
    }
  }

  /** The count query is the page query's SELECT with the same WHERE clauses; BuildProductQuery runs it with the same filter parameters. */
  lemma CountQuerySharesWhere(q: ProductQuery)
    ensures CountText(q) == SelectCount + WhereText(Active(q))
  {
    var w := WhereText(Active(q));
    ConcatAssoc("SELECT *", FromProducts, w);
    ConcatAssoc("SELECT COUNT(*)", FromProducts, w);
    ReplaceFirstAtStart("SELECT *", FromProducts + w, "SELECT COUNT(*)");
  }

  lemma ConcatAssoc(a: string, b: string, c: string)
    ensures (a + b) + c == a + (b + c)
  {
  }

  /** Filter values never reach the SQL text: two requests that name the same filters, sort and direction produce the same statement. */
  lemma TextIgnoresFilterValues(q1: ProductQuery, q2: ProductQuery)
    requires forall k :: (FilterValue(q1, k) != "") == (FilterValue(q2, k) != "")
    requires SortField(q1.sortBy) == SortField(q2.sortBy) && Direction(q1.sortOrder) == Direction(q2.sortOrder)
    ensures PageText(q1) == PageText(q2) && CountText(q1) == CountText(q2)
  {
    assert Active(q1) == Active(q2) by {
      assert Keep(q1, Category) == Keep(q2, Category);
      assert Keep(q1, Gender) == Keep(q2, Gender);
      assert Keep(q1, Brand) == Keep(q2, Brand);
      assert Keep(q1, MinPrice) == Keep(q2, MinPrice);
      assert Keep(q1, MaxPrice) == Keep(q2, MaxPrice);
      assert Keep(q1, Search) == Keep(q2, Search);
    }
  }

  // ---------------------------------------------------------------------
  // getProducts: pagination

  datatype Pagination = Pagination(page: int, limit: int, totalProducts: nat, totalPages: Option<nat>)

  datatype ListOutcome = Listed(products: seq<ProductRow>, pagination: Pagination) | ServerError

  /** `Math.ceil(total / limit)`; a zero limit has no finite page count. */
  function TotalPages(total: nat, limit: int): (r: Option<nat>)
    ensures r.Some? <==> limit > 0
  {
    if limit > 0 then Some((total + limit - 1) / limit) else None
  }

  /** The rows the store returns for LIMIT/OFFSET over the matching rows. */
  function Window(rows: seq<ProductRow>, offset: nat, limit: nat): (r: seq<ProductRow>)
    ensures |r| <= limit
    ensures |r| == if offset >= |rows| then 0 else if |rows| - offset < limit then |rows| - offset else limit
    ensures forall i :: 0 <= i < |r| ==> offset + i < |rows| && r[i] == rows[offset + i]
  {
    if offset >= |rows| then [] else rows[offset..if offset + limit < |rows| then offset + limit else |rows|]
  }

  /**
   * The response for the rows the WHERE clauses select, in ORDER BY order.
   * A negative LIMIT or OFFSET is rejected by the store and reported as 500.
   */
  function ListProducts(q: ProductQuery, matching: seq<ProductRow>): ListOutcome
  {
    if Limit(q) < 0 || Offset(q) < 0 then ServerError
    else Listed(Window(matching, Offset(q), Limit(q)),
                Pagination(Page(q), Limit(q), |matching|, TotalPages(|matching|, Limit(q))))
  }

  lemma DivBounds(n: nat, d: nat, t: nat)
    requires d > 0 && t == (n + d - 1) / d
    ensures t * d >= n && (t == 0 || (t - 1) * d < n)
  {
    var r := (n + d - 1) % d;
    assert n + d - 1 == t * d + r;
    if t > 0 {
      assert (t - 1) * d == t * d - d;
    }
  }

  /** `totalPages` is the least page count whose pages hold every matching product. */
  lemma TotalPagesIsCeiling(total: nat, limit: int)
    requires limit > 0
    ensures var t := TotalPages(total, limit).value;
            t * limit >= total && (t == 0 || (t - 1) * limit < total)
            && (t == 0 <==> total == 0)
  {
    DivBounds(total, limit, TotalPages(total, limit).value);
  }

  lemma SplitIndex(i: nat, limit: nat)
    requires limit > 0
    ensures (i / limit) * limit + i % limit == i && 0 <= i % limit < limit
  {
  }

  /** With a positive limit, the i-th matching product is shown on page i / limit + 1, at position i % limit, and that page is within `totalPages`. */
  lemma EveryProductOnItsPage(q: ProductQuery, matching: seq<ProductRow>, i: nat)
    requires Limit(q) > 0 && i < |matching|
    requires Page(q) == i / Limit(q) + 1
    ensures var r := ListProducts(q, matching);
            && r.Listed?
            && i % Limit(q) < |r.products| && r.products[i % Limit(q)] == matching[i]
            && Page(q) <= r.pagination.totalPages.value
  {
    var limit := Limit(q);
    SplitIndex(i, limit);
    assert Offset(q) == (i / limit) * limit;
    var t := TotalPages(|matching|, limit).value;
    TotalPagesIsCeiling(|matching|, limit);
    assert (i / limit) * limit < t * limit;
    LessOfMul(i / limit, t, limit);
  }

  lemma LessOfMul(a: int, b: int, c: int)
    requires c > 0 && a * c < b * c
    ensures a < b
  {
    assert (b - a) * c == b * c - a * c;
  }

  // ---------------------------------------------------------------------
  // createProduct

  /** The request body; a missing string is "", a missing price 0 (both falsy). */
  datatype ProductBody = ProductBody(
    name: string,
    brand: string,
    description: Option<string>,
    price: real,
    discount: Option<int>,
    category: string,
    gender: string,
    stockQuantity: Option<int>)

  datatype CreateOutcome = BadRequest | Failed | Created(row: ProductRow)

  predicate MissingRequired(b: ProductBody)
  {
    b.name == "" || b.brand == "" || b.price == 0.0 || b.category == "" || b.gender == ""
  }

  /**
   * `createProduct`: 400 for a falsy required field, 500 when the store's CHECK refuses the category or gender,
   * otherwise the inserted row. Column widths and numeric ranges are not checked here, and the frame, image and
   * feature columns are not part of the row.
   */
  function CreateProduct(b: ProductBody): (r: CreateOutcome)
    ensures r.BadRequest? <==> MissingRequired(b)
    ensures r.Failed? <==> !MissingRequired(b) && !(ValidCategory(b.category) && ValidGender(b.gender))
    ensures r.Created? ==>
              && r.row.inStock == (r.row.stockQuantity > 0)
              && r.row.stockQuantity == (if b.stockQuantity.Some? then b.stockQuantity.value else 0)
              && r.row.discount == (if b.discount.Some? then b.discount.value else 0)
              && r.row.name == b.name && r.row.brand == b.brand && r.row.price == b.price
              && r.row.description == b.description
              && ValidCategory(r.row.category) && r.row.category == b.category
              && ValidGender(r.row.gender) && r.row.gender == b.gender
  {
    if MissingRequired(b) then BadRequest
    else if !(ValidCategory(b.category) && ValidGender(b.gender)) then Failed
    else
      var stock := if b.stockQuantity.Some? then b.stockQuantity.value else 0;
      Created(ProductRow(b.name, b.brand, b.description, b.price,
                         if b.discount.Some? then b.discount.value else 0,
                         b.category, b.gender, stock, stock > 0))
  }

  // ---------------------------------------------------------------------
  // updateProduct

  predicate IsUpper(c: char) { 'A' <= c <= 'Z' }
  predicate IsLower(c: char) { 'a' <= c <= 'z' }

  function Lower(c: char): char
    requires IsUpper(c)
  {
    (c as int + 32) as char
  }

  /** `key.replace(/[A-Z]/g, l => '_' + l.toLowerCase())`. */
  function SnakeCase(key: string): string
  {
    if key == [] then []
    else (if IsUpper(key[0]) then ['_', Lower(key[0])] else [key[0]]) + SnakeCase(key[1..])
  }

  function UpperCount(key: string): nat
  {
    if key == [] then 0 else (if IsUpper(key[0]) then 1 else 0) + UpperCount(key[1..])
  }

  /** Column names never contain an uppercase letter, and each uppercase letter of the key adds one character. */
  lemma {:induction false} SnakeCaseIsLower(key: string)
    ensures forall i :: 0 <= i < |SnakeCase(key)| ==> !IsUpper(SnakeCase(key)[i])
    ensures |SnakeCase(key)| == |key| + UpperCount(key)
  {
    if key != [] {
      SnakeCaseIsLower(key[1..]);
    }
  }

  /** The inverse direction: "_x" back to "X". */
  function CamelCase(col: string): string
  {
    if col == [] then []
    else if |col| >= 2 && col[0] == '_' && IsLower(col[1]) then [(col[1] as int - 32) as char] + CamelCase(col[2..])
    else [col[0]] + CamelCase(col[1..])
  }

  /** For keys without '_', the column name gives back the key. */
  lemma {:induction false} SnakeCaseRoundTrip(key: string)
    requires '_' !in key
    ensures CamelCase(SnakeCase(key)) == key
  {
    if key != [] {
      var rest := SnakeCase(key[1..]);
      assert '_' !in key[1..];
      SnakeCaseRoundTrip(key[1..]);
      if IsUpper(key[0]) {
        assert SnakeCase(key) == ['_', Lower(key[0])] + rest;
      } else {
        var col := [key[0]] + rest;
        assert SnakeCase(key) == col && col[1..] == rest;
      }
    }
  }

  /** So two different keys without '_' never name the same column. */
  lemma SnakeCaseInjective(a: string, b: string)
    requires '_' !in a && '_' !in b && SnakeCase(a) == SnakeCase(b)
    ensures a == b
  {
    SnakeCaseRoundTrip(a);
    SnakeCaseRoundTrip(b);
  }

  /** A key already in snake case is spliced unchanged. */
  lemma {:induction false} SnakeCaseKeepsLowerKeys(key: string)
    requires forall i :: 0 <= i < |key| ==> !IsUpper(key[i])
    ensures SnakeCase(key) == key
  {
    if key != [] {
      SnakeCaseKeepsLowerKeys(key[1..]);
    }
  }

  lemma SnakeUpper(u: char)
    requires IsUpper(u)
    ensures SnakeCase([u]) == ['_', Lower(u)]
  {
    assert [u][1..] == [];
  }

  lemma CamelSpelling(a: string, u: char, b: string)
    requires IsUpper(u)
    requires forall i :: 0 <= i < |a| ==> !IsUpper(a[i])
    requires forall i :: 0 <= i < |b| ==> !IsUpper(b[i])
    ensures SnakeCase(a + [u] + b) == a + ['_', Lower(u)] + b
  {
    SnakeCaseKeepsLowerKeys(a);
    SnakeCaseKeepsLowerKeys(b);
    SnakeCaseAppend(a + [u], b);
    SnakeCaseAppend(a, [u]);
    SnakeUpper(u);
  }

  /** A camelCase key and its snake_case spelling name the same column, which the store then refuses as a double assignment. */
  lemma SpellingsCollide(a: string, u: char, b: string)
    requires IsUpper(u)
    requires forall i :: 0 <= i < |a| ==> !IsUpper(a[i])
    requires forall i :: 0 <= i < |b| ==> !IsUpper(b[i])
    ensures var snake := a + ['_', Lower(u)] + b;
            SnakeCase(a + [u] + b) == SnakeCase(snake) == snake
  {
    var snake := a + ['_', Lower(u)] + b;
    CamelSpelling(a, u, b);
    assert forall i :: 0 <= i < |snake| ==> !IsUpper(snake[i]);
    SnakeCaseKeepsLowerKeys(snake);
  }

  lemma {:induction false} SnakeCaseAppend(a: string, b: string)
    ensures SnakeCase(a + b) == SnakeCase(a) + SnakeCase(b)
  {
    if a == [] {
      assert a + b == b;
    } else {
      assert (a + b)[0] == a[0] && (a + b)[1..] == a[1..] + b;
      SnakeCaseAppend(a[1..], b);
    }
  }

  predicate IsJsonColumn(key: string) { key == "images" || key == "features" }

  function ColumnFor(key: string): string
  {
    if IsJsonColumn(key) then key else SnakeCase(key)
  }

  /** One body entry: the key and its value (as JSON text). */
  datatype Field = Field(key: string, value: string)

  function BoundValue(f: Field): SqlParam
  {
    if IsJsonColumn(f.key) then Json(f.value) else Text(f.value)
  }

  function SetEntry(f: Field, ph: nat): string
  {
    ColumnFor(f.key) + " = " + Placeholder(ph)
  }

  /** `fields.join(', ')`. */
  function Join(parts: seq<string>, sep: string): string
  {
    if parts == [] then "" else if |parts| == 1 then parts[0] else Join(parts[..|parts| - 1], sep) + sep + parts[|parts| - 1]
  }

  /** The SET entries for the body, the i-th bound at $i+1. */
  function SetEntries(body: seq<Field>): seq<string>
  {
    seq(|body|, i requires 0 <= i < |body| => SetEntry(body[i], i + 1))
  }

  lemma SetEntriesStep(body: seq<Field>, i: nat)
    requires i < |body|
    ensures SetEntries(body[..i + 1]) == SetEntries(body[..i]) + [SetEntry(body[i], i + 1)]
  {
    var a, b := SetEntries(body[..i + 1]), SetEntries(body[..i]) + [SetEntry(body[i], i + 1)];
    assert forall j :: 0 <= j < i + 1 ==> a[j] == b[j];
  }

  function UpdateText(entries: seq<string>, idPlaceholder: nat): string
  {
    "UPDATE products SET " + Join(entries, ", ") + " WHERE id = " + Placeholder(idPlaceholder) + " RETURNING *"
  }

  datatype UpdateOutcome = NotFound | Statement(text: string, values: seq<SqlParam>)

  /**
   * `updateProduct` up to running the statement: 404 for an unknown id, otherwise one SET entry per body key,
   * in order, the i-th bound at $i+1, and the id at $(number of keys + 1).
   */
  method UpdateProduct(products: map<ProductId, ProductRow>, id: ProductId, body: seq<Field>) returns (r: UpdateOutcome)
    ensures id !in products <==> r.NotFound?
    ensures r.Statement? ==> r.text == UpdateText(SetEntries(body), |body| + 1)
    ensures r.Statement? ==>
              && |r.values| == |body| + 1
              && (forall i :: 0 <= i < |body| ==> r.values[i] == BoundValue(body[i]))
              && r.values[|body|] == Text(id)
  {
    if id !in products {
      return NotFound;
    }
    var fields: seq<string> := [];
    var values: seq<SqlParam> := [];
    var paramIndex := 1;
    for i := 0 to |body|
      invariant paramIndex == i + 1
      invariant |fields| == i && |values| == i
      invariant fields == SetEntries(body[..i])
      invariant forall j :: 0 <= j < i ==> values[j] == BoundValue(body[j])
    {
      var key := body[i].key;
      var entry: string;
      if key == "images" || key == "features" {
        entry := key + " = " + Placeholder(paramIndex);
        values := values + [Json(body[i].value)];
      } else {
        var dbKey := SnakeCase(key);
        entry := dbKey + " = " + Placeholder(paramIndex);
        values := values + [Text(body[i].value)];
      }
      assert entry == SetEntry(body[i], i + 1);
      SetEntriesStep(body, i);
      fields := fields + [entry];
      paramIndex := paramIndex + 1;
    }
    values := values + [Text(id)];
    assert body[..|body|] == body;
    return Statement(UpdateText(fields, paramIndex), values);
  }
}
