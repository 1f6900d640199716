/**
 * The products page (frontend/src/pages/Products.jsx): the product list
 * narrowed by the search box, the category select and the price bounds,
 * sorted as selected, cut into pages of ten, and summed into the figures above
 * the table.
 */
module ProductsPage {
  import opened Wrappers
  import opened Text
  import opened Lists
  import Paging

  /**
   * A product as the list endpoint sends it, with its category populated to
   * its name (`None` when the category no longer exists).
   */
  datatype Row = Row(productName: string, categoryName: Option<string>, sellingPrice: real, stock: real)

  /** The sort select: name, price or stock. */
  datatype SortKey = ByName | ByPrice | ByStock

  /**
   * The filter controls: the search text, the category select ("all" or a
   * category name), the price boxes (`None` for an empty box) and the sort.
   */
  datatype Filters = Filters(search: string, category: string, minPrice: Option<real>, maxPrice: Option<real>,
                             sortBy: SortKey)

  const PageSize: nat := 10

  /** The name contains the search text, compared in lower case; a blank search keeps every product. */
  predicate MatchesSearch(q: string, p: Row) {
    Trim(q) == "" || Contains(Lower(p.productName), Lower(q))
  }

  /** "all", or exactly the product's category name. */
  predicate InCategory(c: string, p: Row) {
    c == "all" || p.categoryName == Some(c)
  }

  /** Within the price bounds, both inclusive; an empty box sets no bound. */
  predicate InPriceRange(lo: Option<real>, hi: Option<real>, p: Row) {
    (lo.None? || p.sellingPrice >= lo.value) && (hi.None? || p.sellingPrice <= hi.value)
  }

  predicate Passes(f: Filters, p: Row) {
    MatchesSearch(f.search, p) && InCategory(f.category, p) && InPriceRange(f.minPrice, f.maxPrice, p)
  }

  /** The test of each filter step. */
  function NameHas(q: string): Row -> bool {
    (p: Row) => Contains(Lower(p.productName), Lower(q))
  }

  function CategoryIs(c: string): Row -> bool {
    (p: Row) => p.categoryName == Some(c)
  }

  function PriceAtLeast(m: real): Row -> bool {
    (p: Row) => p.sellingPrice >= m
  }

  function PriceAtMost(m: real): Row -> bool {
    (p: Row) => p.sellingPrice <= m
  }

  /** The filter steps, each applied only when its control is set, in the page's order. */
  function Narrowed(ps: seq<Row>, f: Filters): seq<Row> {
    var bySearch := FilterIf(Trim(f.search) != "", ps, NameHas(f.search));
    var byCategory := FilterIf(f.category != "all", bySearch, CategoryIs(f.category));
    var byMin := FilterIf(f.minPrice.Some?, byCategory, PriceAtLeast(f.minPrice.GetOr(0.0)));
    FilterIf(f.maxPrice.Some?, byMin, PriceAtMost(f.maxPrice.GetOr(0.0)))
  }

  /**
   * The comparator of the sort select; `collate` is `localeCompare`, a
   * parameter that stands for the browser's collation.
   */
  function Compare(sortBy: SortKey, collate: (string, string) -> real): (Row, Row) -> real {
    match sortBy
    case ByPrice => (a: Row, b: Row) => a.sellingPrice - b.sellingPrice
    case ByStock => (a: Row, b: Row) => a.stock - b.stock
    case ByName => (a: Row, b: Row) => collate(a.productName, b.productName)
  }

  /** `filtered`: the narrowed list, sorted. */
  function Filtered(ps: seq<Row>, f: Filters, collate: (string, string) -> real): seq<Row> {
    SortWith(Narrowed(ps, f), Compare(f.sortBy, collate))
  }

  lemma NarrowedMultiplicity(ps: seq<Row>, f: Filters, x: Row)
    ensures multiset(Narrowed(ps, f))[x] == if Passes(f, x) then multiset(ps)[x] else 0
  {
    var s1 := FilterIf(Trim(f.search) != "", ps, NameHas(f.search));
    var s2 := FilterIf(f.category != "all", s1, CategoryIs(f.category));
    var s3 := FilterIf(f.minPrice.Some?, s2, PriceAtLeast(f.minPrice.GetOr(0.0)));
    FilterIfMultiplicity(Trim(f.search) != "", ps, NameHas(f.search), x);
    FilterIfMultiplicity(f.category != "all", s1, CategoryIs(f.category), x);
    FilterIfMultiplicity(f.minPrice.Some?, s2, PriceAtLeast(f.minPrice.GetOr(0.0)), x);
    FilterIfMultiplicity(f.maxPrice.Some?, s3, PriceAtMost(f.maxPrice.GetOr(0.0)), x);
  }

  /**
   * The list shows exactly the products that pass every filter, each as often
   * as the fetched list holds it, in a permutation of the fetched order.
   */
  lemma FilteredContents(ps: seq<Row>, f: Filters, collate: (string, string) -> real, x: Row)
    ensures multiset(Filtered(ps, f, collate))[x] == if Passes(f, x) then multiset(ps)[x] else 0
    ensures x in Filtered(ps, f, collate) <==> x in ps && Passes(f, x)
    ensures multiset(Filtered(ps, f, collate)) <= multiset(ps)
  {
    forall y ensures multiset(Filtered(ps, f, collate))[y] <= multiset(ps)[y] {
      NarrowedMultiplicity(ps, f, y);
    }
    NarrowedMultiplicity(ps, f, x);
  }

  /**
   * The price and stock sorts are the stable ascending sorts by that field;
   * the name sort is the stable sort by any ranking of names that
   * `localeCompare` follows.
   */
  lemma FilteredOrder(ps: seq<Row>, f: Filters, collate: (string, string) -> real, rank: string -> real)
    ensures f.sortBy == ByPrice ==> Filtered(ps, f, collate) == SortBy(Narrowed(ps, f), (p: Row) => p.sellingPrice)
    ensures f.sortBy == ByStock ==> Filtered(ps, f, collate) == SortBy(Narrowed(ps, f), (p: Row) => p.stock)
    ensures f.sortBy == ByName && (forall a, b :: collate(a, b) < 0.0 <==> rank(a) < rank(b)) ==>
      Filtered(ps, f, collate) == SortBy(Narrowed(ps, f), (p: Row) => rank(p.productName))
  {
    var n := Narrowed(ps, f);
    match f.sortBy
    case ByPrice => SortWithKey(n, Compare(ByPrice, collate), (p: Row) => p.sellingPrice);
    case ByStock => SortWithKey(n, Compare(ByStock, collate), (p: Row) => p.stock);
    case ByName =>
      if forall a, b :: collate(a, b) < 0.0 <==> rank(a) < rank(b) {
        var cmp := Compare(ByName, collate);
        forall a: Row, b: Row ensures cmp(a, b) < 0.0 <==> rank(a.productName) < rank(b.productName) {
          assert cmp(a, b) == collate(a.productName, b.productName);
        }
        SortWithKey(n, Compare(ByName, collate), (p: Row) => rank(p.productName));
      }
  }

  /** Sorted by price or stock, the list is in ascending order of that field. */
  lemma FilteredAscending(ps: seq<Row>, f: Filters, collate: (string, string) -> real)
    ensures f.sortBy == ByPrice ==> SortedBy(Filtered(ps, f, collate), (p: Row) => p.sellingPrice)
    ensures f.sortBy == ByStock ==> SortedBy(Filtered(ps, f, collate), (p: Row) => p.stock)
  {
    FilteredOrder(ps, f, collate, (s: string) => 0.0);
  }

  /** The rows of page `page` (counted from 1). */
  function Paged(filtered: seq<Row>, page: nat): (r: seq<Row>)
    requires page >= 1
    ensures |r| <= PageSize
  {
    Paging.Page(filtered, page, PageSize)
  }

  // ---------------------------------------------------------------- figures

  /** The four figures above the table. */
  datatype Kpis = Kpis(totalProducts: nat, inventoryValue: real, avgPrice: real, lowStock: nat)

  function StockValue(p: Row): real {
    p.sellingPrice * p.stock
  }

  /** `kpis` over the shown list. */
  function ComputeKpis(rows: seq<Row>): Kpis {
    var n := |rows|;
    Kpis(n, Sum(rows, StockValue),
         if n > 0 then Sum(rows, (p: Row) => p.sellingPrice) / n as real else 0.0,
         Count(rows, (p: Row) => p.stock < 5.0))
  }

  /**
   * The figures count the products, count low stock among them, give an
   * average of 0 for an empty list and otherwise one within the lowest and
   * highest price; with no negative price or stock the inventory value is not
   * negative.
   */
  lemma KpisBounds(rows: seq<Row>, lo: real, hi: real)
    ensures ComputeKpis(rows).totalProducts == |rows|
    ensures ComputeKpis(rows).lowStock <= |rows|
    ensures rows == [] ==> ComputeKpis(rows).avgPrice == 0.0 && ComputeKpis(rows).inventoryValue == 0.0
    ensures rows != [] && (forall i :: 0 <= i < |rows| ==> lo <= rows[i].sellingPrice <= hi) ==>
      lo <= ComputeKpis(rows).avgPrice <= hi
    ensures (forall i :: 0 <= i < |rows| ==> rows[i].sellingPrice >= 0.0 && rows[i].stock >= 0.0) ==>
      ComputeKpis(rows).inventoryValue >= 0.0
  {
    if rows != [] && (forall i :: 0 <= i < |rows| ==> lo <= rows[i].sellingPrice <= hi) {
      MeanWithin(rows, (p: Row) => p.sellingPrice, lo, hi);
    }
    if forall i :: 0 <= i < |rows| ==> rows[i].sellingPrice >= 0.0 && rows[i].stock >= 0.0 {
      assert forall i :: 0 <= i < |rows| ==> StockValue(rows[i]) >= 0.0;
      SumAtLeast(rows, StockValue, 0.0);
    }
  }

  /** The figures depend on which products are shown, not on the sort. */
  lemma KpisIgnoreSort(ps: seq<Row>, f: Filters, collate: (string, string) -> real)
    ensures ComputeKpis(Filtered(ps, f, collate)) == ComputeKpis(Narrowed(ps, f))
  {
    var a, b := Filtered(ps, f, collate), Narrowed(ps, f);
    SumCountPermutation(a, b, StockValue, (p: Row) => p.stock < 5.0);
    SumCountPermutation(a, b, (p: Row) => p.sellingPrice, (p: Row) => p.stock < 5.0);
    assert |a| == |multiset(a)| == |multiset(b)| == |b|;
  }
}
