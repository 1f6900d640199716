/**
 * The dashboard (frontend/src/pages/Dashboard.jsx): the fetched payloads
 * unwrapped to lists, the invoices narrowed to a date range, and the revenue,
 * low-stock count, category list, sales per day, stock value per category and
 * latest sales computed from them.
 */
module Dashboard {
  import opened Wrappers
  import opened Lists
  import opened Tally
  import opened JsSet

  // ---------------------------------------------------------------- payloads

  /**
   * A response body as `toArray` sees it: an array of records, an object whose
   * fields are again payloads, `null`/`undefined`, or any other scalar.
   */
  datatype Payload<T> = List(elems: seq<T>) | Record(fields: map<string, Payload<T>>) | Nothing | Scalar

  /** The fields `toArray` looks in, in order. */
  const Candidates: seq<string> := ["data", "items", "result", "results", "products", "invoices", "purchases"]

  /** Whether field `k` of `m` holds an array. */
  predicate IsListAt<T>(m: map<string, Payload<T>>, k: string) {
    k in m && m[k].List?
  }

  /** The array under the first of `keys` that holds one, or [] when none does. */
  function FirstList<T>(m: map<string, Payload<T>>, keys: seq<string>): seq<T> {
    if keys == [] then [] else if IsListAt(m, keys[0]) then m[keys[0]].elems else FirstList(m, keys[1..])
  }

  /** What `toArray(payload)` returns. */
  function Unwrapped<T>(payload: Payload<T>): seq<T> {
    match payload
    case List(elems) => elems
    case Record(m) => FirstList(m, Candidates)
    case _ => []
  }

  /** `toArray`: the loop over the candidate fields that returns at the first array. */
  method ToArray<T>(payload: Payload<T>) returns (r: seq<T>)
    ensures r == Unwrapped(payload)
  {
    if payload.List? {
      return payload.elems;
    }
    if !payload.Record? {
      return [];
    }
    var m := payload.fields;
    var i := 0;
    while i < |Candidates|
      invariant 0 <= i <= |Candidates|
      invariant FirstList(m, Candidates) == FirstList(m, Candidates[i..])
    {
      var key := Candidates[i];
      if key in m && m[key].List? {
        return m[key].elems;
      }
      assert Candidates[i..][1..] == Candidates[i + 1..];
      i := i + 1;
    }
    return [];
  }

  /** `keys[i]` holds an array and no earlier key does. */
  predicate FirstListAt<T>(m: map<string, Payload<T>>, keys: seq<string>, i: nat) {
    i < |keys| && IsListAt(m, keys[i]) && forall j :: 0 <= j < i ==> !IsListAt(m, keys[j])
  }

  predicate NoListAt<T>(m: map<string, Payload<T>>, keys: seq<string>) {
    forall j :: 0 <= j < |keys| ==> !IsListAt(m, keys[j])
  }

  /**
   * The array found is the one under the first key of `keys` that holds one;
   * when no key holds one the result is [].
   */
  lemma {:induction false} FirstListSpec<T>(m: map<string, Payload<T>>, keys: seq<string>)
    ensures (exists i: nat :: FirstListAt(m, keys, i) && m[keys[i]].elems == FirstList(m, keys))
      || (NoListAt(m, keys) && FirstList(m, keys) == [])
  {
    if keys != [] {
      if IsListAt(m, keys[0]) {
        assert FirstListAt(m, keys, 0);
      } else {
        var tail := keys[1..];
        FirstListSpec(m, tail);
        assert forall j :: 1 <= j < |keys| ==> keys[j] == tail[j - 1];
        if exists i: nat :: FirstListAt(m, tail, i) && m[tail[i]].elems == FirstList(m, tail) {
          var i: nat :| FirstListAt(m, tail, i) && m[tail[i]].elems == FirstList(m, tail);
          assert FirstListAt(m, keys, i + 1);
        }
      }
    }
  }

  /**
   * `toArray` hands an array back unchanged and gives [] for `null`, `undefined`
   * and scalars; for an object it gives the array under the first candidate
   * field holding one, [] when none does.
   */
  lemma ToArraySpec<T>(payload: Payload<T>)
    ensures payload.List? ==> Unwrapped(payload) == payload.elems
    ensures payload.Nothing? || payload.Scalar? ==> Unwrapped(payload) == []
    ensures payload.Record? ==>
      (exists i: nat :: FirstListAt(payload.fields, Candidates, i) && payload.fields[Candidates[i]].elems == Unwrapped(payload))
      || (NoListAt(payload.fields, Candidates) && Unwrapped(payload) == [])
  {
    if payload.Record? {
      FirstListSpec(payload.fields, Candidates);
    }
  }

  // ---------------------------------------------------------------- invoices and the date range

  /**
   * An invoice as the dashboard reads it: the times its date fields denote
   * (`None` when a field is missing or empty) and its amounts (`None` for
   * `null` or missing).
   */
  datatype DashInvoice = DashInvoice(dateTime: Option<int>, date: Option<int>, createdAt: Option<int>,
                                     netTotal: Option<real>, total: Option<real>)

  /** `inv.date_time || inv.date || inv.createdAt`. */
  function Stamp(inv: DashInvoice): Option<int> {
    if inv.dateTime.Some? then inv.dateTime else if inv.date.Some? then inv.date else inv.createdAt
  }

  /** The time the date filter and the per-day chart use; an undated invoice counts as made `now`. */
  function DateOf(inv: DashInvoice, now: int): int {
    Stamp(inv).GetOr(now)
  }

  /** The filter test: not before `from`, not after `to`; an empty box sets no bound. */
  function InRange(from: Option<int>, to: Option<int>, now: int): DashInvoice -> bool {
    (inv: DashInvoice) => !(from.Some? && DateOf(inv, now) < from.value) && !(to.Some? && DateOf(inv, now) > to.value)
  }

  /** `filteredInvoices`. */
  function FilteredInvoices(invs: seq<DashInvoice>, from: Option<int>, to: Option<int>, now: int): seq<DashInvoice> {
    Filter(invs, InRange(from, to, now))
  }

  /**
   * The range is inclusive at both ends and a missing bound does not filter:
   * an invoice is kept, as often as it occurs, exactly when its time lies
   * within the bounds given; with no bounds every invoice is kept.
   */
  lemma DateFilterSpec(invs: seq<DashInvoice>, from: Option<int>, to: Option<int>, now: int, x: DashInvoice)
    ensures var within := (from.None? || from.value <= DateOf(x, now)) && (to.None? || DateOf(x, now) <= to.value);
      multiset(FilteredInvoices(invs, from, to, now))[x] == if within then multiset(invs)[x] else 0
    ensures from.None? && to.None? ==> FilteredInvoices(invs, from, to, now) == invs
  {
    FilterMultiplicity(invs, InRange(from, to, now), x);
    if from.None? && to.None? {
      FilterAllPass(invs, InRange(from, to, now));
    }
  }

  /** `Number(inv.net_total ?? inv.total ?? 0)`. */
  function Amount(inv: DashInvoice): real {
    if inv.netTotal.Some? then inv.netTotal.value else inv.total.GetOr(0.0)
  }

  /** `totalRevenue`. */
  function TotalRevenue(filtered: seq<DashInvoice>): real {
    Sum(filtered, Amount)
  }

  // ---------------------------------------------------------------- products

  /** A product's `category`: a name, a populated object with an optional name, or missing. */
  datatype CategoryField = Named(s: string) | Populated(name: Option<string>) | Absent

  datatype DashProduct = DashProduct(category: CategoryField, sellingPrice: Option<real>, stock: Option<real>)

  /** `typeof p.category === "string" ? p.category : p.category?.name`, kept only when truthy. */
  function CategoryName(p: DashProduct): Option<string> {
    var n := match p.category
      case Named(s) => Some(s)
      case Populated(name) => name
      case Absent => None;
    if n.Some? && n.value != "" then n else None
  }

  predicate LowStock(p: DashProduct) {
    p.stock.GetOr(0.0) < 5.0
  }

  /** `lowStockCount`: products whose stock, 0 when missing, is below 5. */
  function LowStockCount(ps: seq<DashProduct>): nat {
    Count(ps, LowStock)
  }

  /**
   * The count never exceeds the number of products, adds up over two lists,
   * and a product without a stock figure counts as low.
   */
  lemma LowStockSpec(a: seq<DashProduct>, b: seq<DashProduct>, p: DashProduct)
    ensures LowStockCount(a) <= |a|
    ensures LowStockCount(a + b) == LowStockCount(a) + LowStockCount(b)
    ensures p.stock.None? ==> LowStockCount(a + [p]) == LowStockCount(a) + 1
  {
    CountAppend(a, b, LowStock);
    CountAppend(a, [p], LowStock);
    assert [p][..0] == [];
  }

  /** The truthy category names of the products, in order, repetitions included. */
  function TruthyNames(ps: seq<DashProduct>): seq<string> {
    if ps == [] then []
    else
      var n := CategoryName(ps[|ps| - 1]);
      TruthyNames(ps[..|ps| - 1]) + (if n.Some? then [n.value] else [])
  }

  lemma TruthyNamesStep(ps: seq<DashProduct>, i: nat)
    requires i < |ps|
    ensures var n := CategoryName(ps[i]);
      TruthyNames(ps[..i + 1]) == if n.Some? then TruthyNames(ps[..i]) + [n.value] else TruthyNames(ps[..i])
  {
    assert ps[..i + 1][..i] == ps[..i];
  }

  /** `allCategories`: a `Set` filled in `forEach`, read back with `Array.from`. */
  method AllCategories(ps: seq<DashProduct>) returns (names: seq<string>)
    ensures names == Dedup(TruthyNames(ps))
  {
    var names' := new OrderedSet.Empty();
    var i := 0;
    while i < |ps|
      invariant 0 <= i <= |ps|
      invariant names'.items == Dedup(TruthyNames(ps[..i]))
    {
      var n := CategoryName(ps[i]);
      TruthyNamesStep(ps, i);
      if n.Some? {
        DedupSnoc(TruthyNames(ps[..i]), n.value);
        names'.Add(n.value);
      }
      i := i + 1;
    }
    assert ps[..|ps|] == ps;
    names := names'.items;
  }

  lemma {:induction false} TruthyNamesSpec(ps: seq<DashProduct>, c: string)
    ensures c in TruthyNames(ps) <==> exists i :: 0 <= i < |ps| && CategoryName(ps[i]) == Some(c)
  {
    if ps != [] {
      var init := ps[..|ps| - 1];
      TruthyNamesSpec(init, c);
      assert forall i :: 0 <= i < |init| ==> init[i] == ps[i];
      if exists i :: 0 <= i < |ps| && CategoryName(ps[i]) == Some(c) {
        var i :| 0 <= i < |ps| && CategoryName(ps[i]) == Some(c);
        if i < |init| {
          assert CategoryName(init[i]) == Some(c);
        }
      }
    }
  }

  /** The category list names each category a product has, once each, and nothing else. */
  lemma AllCategoriesSpec(ps: seq<DashProduct>, c: string)
    ensures Distinct(Dedup(TruthyNames(ps)))
    ensures c in Dedup(TruthyNames(ps)) <==> exists i :: 0 <= i < |ps| && CategoryName(ps[i]) == Some(c)
    ensures c in Dedup(TruthyNames(ps)) ==> c != ""
  {
    TruthyNamesSpec(ps, c);
  }

  // ---------------------------------------------------------------- sales per day

  /** The (day label, amount) pairs of the invoices; `dayOf` is `toLocaleDateString("en-GB", …)`. */
  function DatePairs(invs: seq<DashInvoice>, now: int, dayOf: int -> string): (r: seq<(string, real)>)
    ensures |r| == |invs|
    ensures forall i :: 0 <= i < |invs| ==> r[i] == (dayOf(DateOf(invs[i], now)), Amount(invs[i]))
  {
    if invs == [] then []
    else DatePairs(invs[..|invs| - 1], now, dayOf) + [(dayOf(DateOf(invs[|invs| - 1], now)), Amount(invs[|invs| - 1]))]
  }

  /** `salesByDate`: the object filled in `forEach`, read back with `Object.entries`. */
  method SalesByDate(filtered: seq<DashInvoice>, now: int, dayOf: int -> string) returns (t: Tally<string>)
    ensures t == TallyOf(DatePairs(filtered, now, dayOf))
  {
    t := Empty();
    var i := 0;
    while i < |filtered|
      invariant 0 <= i <= |filtered|
      invariant t == TallyOf(DatePairs(filtered[..i], now, dayOf))
    {
      var p := (dayOf(DateOf(filtered[i], now)), Amount(filtered[i]));
      assert DatePairs(filtered[..i + 1], now, dayOf) == DatePairs(filtered[..i], now, dayOf) + [p];
      TallyOfSnoc(DatePairs(filtered[..i], now, dayOf), p);
      t := Add(t, p.0, p.1);
      i := i + 1;
    }
    assert filtered[..|filtered|] == filtered;
  }

  lemma {:induction false} DatePairsSum(invs: seq<DashInvoice>, now: int, dayOf: int -> string)
    ensures SumAll(DatePairs(invs, now, dayOf)) == TotalRevenue(invs)
  {
    SumPointwise(DatePairs(invs, now, dayOf), (p: (string, real)) => p.1, invs, Amount);
  }

  /**
   * One point per day dayOf, in order of first appearance, each with its
   * invoices' summed amounts; the points add up to the total revenue.
   */
  lemma SalesByDateSpec(filtered: seq<DashInvoice>, now: int, dayOf: int -> string)
    ensures var pairs := DatePairs(filtered, now, dayOf); var t := TallyOf(pairs);
      && Valid(t)
      && t.keys == Dedup(KeysOf(pairs))
      && (forall d :: d in t.sums ==> t.sums[d] == SumFor(pairs, d))
      && Total(t.keys, t.sums) == TotalRevenue(filtered)
  {
    var pairs := DatePairs(filtered, now, dayOf);
    TallyOfSpec(pairs);
    TallyTotal(pairs);
    DatePairsSum(filtered, now, dayOf);
  }

  // ---------------------------------------------------------------- stock value per category

  /** `Number(p?.sellingPrice ?? 0) * Number(p?.stock ?? 0)`. */
  function StockValue(p: DashProduct): real {
    p.sellingPrice.GetOr(0.0) * p.stock.GetOr(0.0)
  }

  /** A product is charted when it has a truthy category name that the category select lets through. */
  predicate Charted(p: DashProduct, filter: string) {
    CategoryName(p).Some? && (filter == "all" || CategoryName(p).value == filter)
  }

  function CategoryPairs(ps: seq<DashProduct>, filter: string): seq<(string, real)> {
    if ps == [] then []
    else
      var p := ps[|ps| - 1];
      CategoryPairs(ps[..|ps| - 1], filter) + (if Charted(p, filter) then [(CategoryName(p).value, StockValue(p))] else [])
  }

  /** `categoryData`: the object filled in `forEach` (with early returns), read back with `Object.entries`. */
  method CategoryData(ps: seq<DashProduct>, filter: string) returns (t: Tally<string>)
    ensures t == TallyOf(CategoryPairs(ps, filter))
  {
    t := Empty();
    var i := 0;
    while i < |ps|
      invariant 0 <= i <= |ps|
      invariant t == TallyOf(CategoryPairs(ps[..i], filter))
    {
      var p := ps[i];
      assert ps[..i + 1][..i] == ps[..i];
      var name := CategoryName(p);
      if name.None? || (filter != "all" && name.value != filter) {
        var none: seq<(string, real)> := [];
        assert CategoryPairs(ps[..i + 1], filter) == CategoryPairs(ps[..i], filter) + none;
        assert CategoryPairs(ps[..i], filter) + none == CategoryPairs(ps[..i], filter);
        i := i + 1;
        continue;
      }
      var q := (name.value, StockValue(p));
      assert CategoryPairs(ps[..i + 1], filter) == CategoryPairs(ps[..i], filter) + [q];
      TallyOfSnoc(CategoryPairs(ps[..i], filter), q);
      t := Add(t, q.0, q.1);
      i := i + 1;
    }
    assert ps[..|ps|] == ps;
  }

  function ChartedValue(filter: string): DashProduct -> real {
    (p: DashProduct) => if Charted(p, filter) then StockValue(p) else 0.0
  }

  lemma CategoryPairsSpec(ps: seq<DashProduct>, filter: string)
    ensures SumAll(CategoryPairs(ps, filter)) == Sum(ps, ChartedValue(filter))
    ensures forall k :: k in KeysOf(CategoryPairs(ps, filter)) ==> k != "" && (filter == "all" || k == filter)
  {
    CategoryPairsSum(ps, filter);
    CategoryPairsNames(ps, filter);
  }

  lemma {:induction false} CategoryPairsSum(ps: seq<DashProduct>, filter: string)
    ensures SumAll(CategoryPairs(ps, filter)) == Sum(ps, ChartedValue(filter))
  {
    if ps != [] {
      var init := ps[..|ps| - 1];
      var p := ps[|ps| - 1];
      CategoryPairsSum(init, filter);
      var a := CategoryPairs(init, filter);
      var b: seq<(string, real)> := if Charted(p, filter) then [(CategoryName(p).value, StockValue(p))] else [];
      SumAppend(a, b, (q: (string, real)) => q.1);
      if b != [] {
        assert b[..0] == [];
      }
    }
  }

  lemma {:induction false} CategoryPairsNames(ps: seq<DashProduct>, filter: string)
    ensures forall j :: 0 <= j < |CategoryPairs(ps, filter)| ==>
      CategoryPairs(ps, filter)[j].0 != "" && (filter == "all" || CategoryPairs(ps, filter)[j].0 == filter)
  {
    if ps != [] {
      var init := ps[..|ps| - 1];
      var p := ps[|ps| - 1];
      CategoryPairsNames(init, filter);
      var a := CategoryPairs(init, filter);
      var b: seq<(string, real)> := if Charted(p, filter) then [(CategoryName(p).value, StockValue(p))] else [];
      var ab: seq<(string, real)> := a + b;
      forall j | 0 <= j < |ab| ensures ab[j].0 != "" && (filter == "all" || ab[j].0 == filter) {
        if j < |a| {
          assert ab[j] == a[j];
        } else {
          assert ab[j] == b[j - |a|];
        }
      }
    }
  }

  /**
   * The chart has one slice per charted category name, none for a blank name
   * and, with a category selected, none but that category; each slice sums
   * price times stock over its products, and the slices add up to the stock
   * value of all charted products.
   */
  lemma CategoryDataSpec(ps: seq<DashProduct>, filter: string)
    ensures var pairs := CategoryPairs(ps, filter); var t := TallyOf(pairs);
      && Valid(t)
      && t.keys == Dedup(KeysOf(pairs))
      && (forall k :: k in t.sums ==> k != "" && (filter == "all" || k == filter) && t.sums[k] == SumFor(pairs, k))
      && Total(t.keys, t.sums) == Sum(ps, ChartedValue(filter))
  {
    var pairs := CategoryPairs(ps, filter);
    TallyOfSpec(pairs);
    TallyTotal(pairs);
    CategoryPairsSpec(ps, filter);
  }

  // ---------------------------------------------------------------- latest sales

  /**
   * The comparator of `recentSales`: `new Date(b…) - new Date(a…)` over the
   * first truthy date field, with no `Date.now()` fallback; an invoice
   * without a date makes the difference `NaN`, read as 0.
   */
  function RecentCompare(a: DashInvoice, b: DashInvoice): real {
    if Stamp(a).Some? && Stamp(b).Some? then (Stamp(b).value - Stamp(a).value) as real else 0.0
  }

  /** `recentSales`: the filtered invoices sorted by that comparator, the first six. */
  function RecentSales(filtered: seq<DashInvoice>): seq<DashInvoice> {
    Take(SortWith(filtered, RecentCompare), 6)
  }

  function Newest(inv: DashInvoice): real {
    -(Time(inv) as real)
  }

  predicate Dated(inv: DashInvoice) {
    Stamp(inv).Some?
  }

  /** At most six invoices, all of them filtered ones. */
  lemma RecentSalesSpec(filtered: seq<DashInvoice>)
    ensures |RecentSales(filtered)| <= 6
    ensures multiset(RecentSales(filtered)) <= multiset(filtered)
  {
    var sorted := SortWith(filtered, RecentCompare);
    var shown := Take(sorted, 6);
    assert sorted == shown + sorted[|shown|..];
    assert multiset(sorted) == multiset(shown) + multiset(sorted[|shown|..]);
  }

  /** The time an invoice is dated (0 when undated). */
  function Time(inv: DashInvoice): int {
    Stamp(inv).GetOr(0)
  }

  /**
   * When every invoice is dated the latest sales are the newest six, newest
   * first, and no invoice left out is newer than one shown.
   */
  lemma RecentSalesDated(filtered: seq<DashInvoice>)
    requires forall i :: 0 <= i < |filtered| ==> Dated(filtered[i])
    ensures var r := SortBy(filtered, Newest); var shown := RecentSales(filtered);
      && shown == Take(r, 6)
      && (forall i, j :: 0 <= i < j < |shown| ==> Time(shown[i]) >= Time(shown[j]))
      && (forall x, y :: x in r[|shown|..] && y in shown ==> Time(x) <= Time(y))
  {
    SortWithKeyOn(filtered, RecentCompare, Newest, Dated);
    SmallestFirst(filtered, Newest, 6);
  }
}
