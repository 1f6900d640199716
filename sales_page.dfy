/**
 * The sales page (frontend/src/pages/Sales.jsx): the invoice list narrowed by
 * the product search, the payment select and the amount bounds, sorted by
 * date, total or invoice number, cut into pages of eight, and summed into the
 * figures above the table.
 */
module SalesPage {
  import opened Wrappers
  import opened Text
  import opened Lists
  import opened Tally
  import opened InvoiceSchema
  import InvoiceController
  import ReportChart
  import Paging

  /** The sort select: date, total or invoice number, each newest or largest first. */
  datatype SortKey = ByDate | ByTotal | ByInvoice

  /**
   * The filter controls: the product search, the payment select ("all" or a
   * method), the amount boxes (`None` for an empty box) and the sort.
   */
  datatype Filters = Filters(search: string, payment: string, minTotal: Option<real>, maxTotal: Option<real>,
                             sortBy: SortKey)

  const PageSize: nat := 8

  /** Some line of the invoice names a product containing the search text, compared in lower case. */
  predicate SoldMatching(q: string, inv: Invoice) {
    exists i :: 0 <= i < |inv.items| && Contains(Lower(inv.items[i].name), Lower(q))
  }

  predicate Passes(f: Filters, inv: Invoice) {
    && (Trim(f.search) == "" || SoldMatching(f.search, inv))
    && (f.payment == "all" || inv.paymentMethod == f.payment)
    && (f.minTotal.None? || inv.netTotal >= f.minTotal.value)
    && (f.maxTotal.None? || inv.netTotal <= f.maxTotal.value)
  }

  /** The test of each filter step. */
  function Sold(q: string): Invoice -> bool {
    (inv: Invoice) => SoldMatching(q, inv)
  }

  function PaidBy(m: string): Invoice -> bool {
    (inv: Invoice) => inv.paymentMethod == m
  }

  function NetAtLeast(m: real): Invoice -> bool {
    (inv: Invoice) => inv.netTotal >= m
  }

  function NetAtMost(m: real): Invoice -> bool {
    (inv: Invoice) => inv.netTotal <= m
  }

  /** The filter steps, each applied only when its control is set, in the page's order. */
  function Narrowed(invs: seq<Invoice>, f: Filters): seq<Invoice> {
    var bySearch := FilterIf(Trim(f.search) != "", invs, Sold(f.search));
    var byPayment := FilterIf(f.payment != "all", bySearch, PaidBy(f.payment));
    var byMin := FilterIf(f.minTotal.Some?, byPayment, NetAtLeast(f.minTotal.GetOr(0.0)));
    FilterIf(f.maxTotal.Some?, byMin, NetAtMost(f.maxTotal.GetOr(0.0)))
  }

  lemma NarrowedMultiplicity(invs: seq<Invoice>, f: Filters, x: Invoice)
    ensures multiset(Narrowed(invs, f))[x] == if Passes(f, x) then multiset(invs)[x] else 0
  {
    var s1 := FilterIf(Trim(f.search) != "", invs, Sold(f.search));
    var s2 := FilterIf(f.payment != "all", s1, PaidBy(f.payment));
    var s3 := FilterIf(f.minTotal.Some?, s2, NetAtLeast(f.minTotal.GetOr(0.0)));
    FilterIfMultiplicity(Trim(f.search) != "", invs, Sold(f.search), x);
    FilterIfMultiplicity(f.payment != "all", s1, PaidBy(f.payment), x);
    FilterIfMultiplicity(f.minTotal.Some?, s2, NetAtLeast(f.minTotal.GetOr(0.0)), x);
    FilterIfMultiplicity(f.maxTotal.Some?, s3, NetAtMost(f.maxTotal.GetOr(0.0)), x);
  }

  // ---------------------------------------------------------------- sorting

  /**
   * `Number(s)` on an invoice number: a string of digits is its value (the
   * empty string, which `|| 0` turns into 0, reads as 0); any other string,
   * every `INV-…` number among them, is `NaN` (`None`).
   */
  function ToNumber(s: string): Option<int> {
    if AllDigits(s) then Some(DigitsValue(s)) else None
  }

  /**
   * The "invoice" comparator as written: `(b.invoice_number || 0) -
   * (a.invoice_number || 0)`, with a `NaN` difference read as 0 by `sort`.
   */
  function InvoiceCompareAsWritten(a: Invoice, b: Invoice): real {
    match (ToNumber(b.number), ToNumber(a.number))
    case (Some(x), Some(y)) => (x - y) as real
    case _ => 0.0
  }

  /** The sequence number the controller puts after `INV-` (0 when there is none). */
  function SequenceOf(inv: Invoice): real {
    InvoiceController.InvoiceSeq(inv.number).GetOr(0) as real
  }

  /** The "invoice" comparator as intended: the higher sequence number first. */
  function InvoiceCompare(a: Invoice, b: Invoice): real {
    SequenceOf(b) - SequenceOf(a)
  }

  function Compare(sortBy: SortKey): (Invoice, Invoice) -> real {
    match sortBy
    case ByDate => (a: Invoice, b: Invoice) => (b.dateTime - a.dateTime) as real
    case ByTotal => (a: Invoice, b: Invoice) => b.netTotal - a.netTotal
    case ByInvoice => InvoiceCompare
  }

  /** The comparator as written: the same as `Compare` but for the "invoice" sort. */
  function CompareAsWritten(sortBy: SortKey): (Invoice, Invoice) -> real {
    if sortBy == ByInvoice then InvoiceCompareAsWritten else Compare(sortBy)
  }

  /** `filtered`: the narrowed list, sorted, with the "invoice" sort corrected to highest number first. */
  function Filtered(invs: seq<Invoice>, f: Filters): seq<Invoice> {
    SortWith(Narrowed(invs, f), Compare(f.sortBy))
  }

  /** `filtered` as written. */
  function FilteredAsWritten(invs: seq<Invoice>, f: Filters): seq<Invoice> {
    SortWith(Narrowed(invs, f), CompareAsWritten(f.sortBy))
  }

  /**
   * As written, the date and total sorts are those of `Filtered`, while the
   * "invoice" sort leaves a list of `INV-…` invoices in its fetched order,
   * only narrowed.
   */
  lemma FilteredAsWrittenOrder(invs: seq<Invoice>, f: Filters)
    ensures f.sortBy != ByInvoice ==> FilteredAsWritten(invs, f) == Filtered(invs, f)
    ensures f.sortBy == ByInvoice && (forall i :: 0 <= i < |invs| ==> |invs[i].number| >= 4 && invs[i].number[..4] == "INV-") ==>
      FilteredAsWritten(invs, f) == Narrowed(invs, f)
  {
    if f.sortBy == ByInvoice && (forall i :: 0 <= i < |invs| ==> |invs[i].number| >= 4 && invs[i].number[..4] == "INV-") {
      var n := Narrowed(invs, f);
      forall k | 0 <= k < |n| ensures |n[k].number| >= 4 && n[k].number[..4] == "INV-" {
        NarrowedMultiplicity(invs, f, n[k]);
        assert n[k] in multiset(n);
        var i :| 0 <= i < |invs| && invs[i] == n[k];
      }
      InvoiceSortAsWrittenKeepsOrder(n);
    }
  }

  /**
   * The list shows exactly the invoices that pass every filter, each as often
   * as the fetched list holds it.
   */
  lemma FilteredContents(invs: seq<Invoice>, f: Filters, x: Invoice)
    ensures multiset(Filtered(invs, f))[x] == if Passes(f, x) then multiset(invs)[x] else 0
    ensures x in Filtered(invs, f) <==> x in invs && Passes(f, x)
    ensures multiset(Filtered(invs, f)) <= multiset(invs)
  {
    forall y ensures multiset(Filtered(invs, f))[y] <= multiset(invs)[y] {
      NarrowedMultiplicity(invs, f, y);
    }
    NarrowedMultiplicity(invs, f, x);
  }

  function NewestFirst(inv: Invoice): real {
    -(inv.dateTime as real)
  }

  function LargestFirst(inv: Invoice): real {
    -inv.netTotal
  }

  function HighestNumberFirst(inv: Invoice): real {
    -SequenceOf(inv)
  }

  /** Each sort is the stable sort newest, largest or highest-numbered first. */
  lemma FilteredOrder(invs: seq<Invoice>, f: Filters)
    ensures f.sortBy == ByDate ==> Filtered(invs, f) == SortBy(Narrowed(invs, f), NewestFirst)
    ensures f.sortBy == ByTotal ==> Filtered(invs, f) == SortBy(Narrowed(invs, f), LargestFirst)
    ensures f.sortBy == ByInvoice ==> Filtered(invs, f) == SortBy(Narrowed(invs, f), HighestNumberFirst)
  {
    var n := Narrowed(invs, f);
    match f.sortBy
    case ByDate =>
      SortWithKey(n, Compare(ByDate), NewestFirst);
    case ByTotal =>
      SortWithKey(n, Compare(ByTotal), LargestFirst);
    case ByInvoice =>
      SortWithKey(n, InvoiceCompare, HighestNumberFirst);
  }

  /** So the list is in descending order of the chosen field. */
  lemma FilteredDescending(invs: seq<Invoice>, f: Filters, i: nat, j: nat)
    requires i < j < |Filtered(invs, f)|
    ensures var r := Filtered(invs, f);
      && (f.sortBy == ByDate ==> r[i].dateTime >= r[j].dateTime)
      && (f.sortBy == ByTotal ==> r[i].netTotal >= r[j].netTotal)
      && (f.sortBy == ByInvoice ==> SequenceOf(r[i]) >= SequenceOf(r[j]))
  {
    FilteredOrder(invs, f);
  }

  /** Invoices numbered `INV-…` are all `NaN` to `Number`. */
  lemma InvNumberIsNaN(s: string)
    requires |s| >= 4 && s[..4] == "INV-"
    ensures ToNumber(s).None?
  {
    assert s[0] == "INV-"[0] == 'I';
  }

  /**
   * As written, every comparison of two `INV-…` numbers is `NaN`, so the
   * "invoice" sort leaves the list in the order it was fetched.
   */
  lemma InvoiceSortAsWrittenKeepsOrder(data: seq<Invoice>)
    requires forall i :: 0 <= i < |data| ==> |data[i].number| >= 4 && data[i].number[..4] == "INV-"
    ensures SortWith(data, InvoiceCompareAsWritten) == data
  {
    forall i, j | 0 <= i < |data| && 0 <= j < |data| ensures InvoiceCompareAsWritten(data[i], data[j]) >= 0.0 {
      InvNumberIsNaN(data[i].number);
    }
    SortWithTies(data, InvoiceCompareAsWritten);
  }

  /**
   * An invoice numbered `INV-<k>` listed before one numbered `INV-<k+1>`
   * stays before it as written, while the intended sort puts the higher
   * number first.
   */
  lemma InvoiceSortCounterexample(a: Invoice, b: Invoice, k: nat)
    requires a.number == "INV-" + NatToString(k) && b.number == "INV-" + NatToString(k + 1)
    ensures SortWith([a, b], InvoiceCompareAsWritten) == [a, b]
    ensures SortWith([a, b], InvoiceCompare) == [b, a]
  {
    assert ("INV-" + NatToString(k))[..4] == "INV-";
    assert ("INV-" + NatToString(k + 1))[..4] == "INV-";
    InvNumberIsNaN(a.number);
    InvNumberIsNaN(b.number);
    SortWithPair(a, b, InvoiceCompareAsWritten);
    InvoiceController.InvoiceSeqOfNumber(k);
    InvoiceController.InvoiceSeqOfNumber(k + 1);
    assert InvoiceCompare(b, a) == -1.0;
    SortWithPair(a, b, InvoiceCompare);
  }

  /** The invoices of page `page` (counted from 1). */
  function Paged(filtered: seq<Invoice>, page: nat): (r: seq<Invoice>)
    requires page >= 1
    ensures |r| <= PageSize
  {
    Paging.Page(filtered, page, PageSize)
  }

  // ---------------------------------------------------------------- figures

  /** The four figures above the table. */
  datatype Kpis = Kpis(totalRevenue: real, invoiceCount: nat, avgInvoice: real, topProduct: string)

  function Net(inv: Invoice): real {
    inv.netTotal
  }

  /** The (name, line total) pairs of some lines, a missing total counting 0. */
  function LinePairs(items: seq<Item>): (r: seq<(string, real)>)
    ensures |r| == |items|
  {
    if items == [] then [] else LinePairs(items[..|items| - 1]) + [(items[|items| - 1].name, items[|items| - 1].total.GetOr(0.0))]
  }

  /** The pairs of every line of every invoice, in order. */
  function SalePairs(invs: seq<Invoice>): seq<(string, real)> {
    if invs == [] then [] else SalePairs(invs[..|invs| - 1]) + LinePairs(invs[|invs| - 1].items)
  }

  /** The inner `forEach`: the lines of one invoice added to the `productTotals` map. */
  method AddLines(t: Tally<string>, items: seq<Item>, ghost before: seq<(string, real)>) returns (r: Tally<string>)
    requires t == TallyOf(before)
    ensures r == TallyOf(before + LinePairs(items))
  {
    r := t;
    assert before + LinePairs(items[..0]) == before;
    var j := 0;
    while j < |items|
      invariant 0 <= j <= |items|
      invariant r == TallyOf(before + LinePairs(items[..j]))
    {
      var it := items[j];
      assert items[..j + 1][..j] == items[..j];
      var p := (it.name, it.total.GetOr(0.0));
      assert before + LinePairs(items[..j + 1]) == (before + LinePairs(items[..j])) + [p];
      TallyOfSnoc(before + LinePairs(items[..j]), p);
      r := Add(r, p.0, p.1);
      j := j + 1;
    }
    assert items[..|items|] == items;
  }

  /** The `kpis` memo over the shown list. */
  method ComputeKpis(filtered: seq<Invoice>) returns (k: Kpis)
    ensures k.totalRevenue == Sum(filtered, Net)
    ensures k.invoiceCount == |filtered|
    ensures k.avgInvoice == if |filtered| > 0 then k.totalRevenue / |filtered| as real else 0.0
    ensures Valid(TallyOf(SalePairs(filtered)))
    ensures k.topProduct == ReportChart.TopName(TallyOf(SalePairs(filtered)))
  {
    var revenue := Sum(filtered, Net);
    var count := |filtered|;
    var totals: Tally<string> := Empty();
    var i := 0;
    while i < |filtered|
      invariant 0 <= i <= |filtered|
      invariant totals == TallyOf(SalePairs(filtered[..i]))
    {
      assert filtered[..i + 1][..i] == filtered[..i];
      totals := AddLines(totals, filtered[i].items, SalePairs(filtered[..i]));
      i := i + 1;
    }
    assert filtered[..|filtered|] == filtered;
    TallyOfSpec(SalePairs(filtered));
    k := Kpis(revenue, count, if count > 0 then revenue / count as real else 0.0, ReportChart.TopName(totals));
  }

  /**
   * The top product is "—" when no line was sold; otherwise it is a sold
   * product's name and no product's summed line total exceeds its own.
   */
  lemma TopProductIsBest(filtered: seq<Invoice>)
    ensures var pairs := SalePairs(filtered);
      Valid(TallyOf(pairs)) && var top := ReportChart.TopName(TallyOf(pairs));
      && (pairs == [] ==> top == "—")
      && (top != "—" ==> top in KeysOf(pairs) && forall n :: n in KeysOf(pairs) ==> SumFor(pairs, n) <= SumFor(pairs, top))
  {
    var pairs := SalePairs(filtered);
    TallyOfSpec(pairs);
    var t := TallyOf(pairs);
    match TopKey(t)
    case None =>
    case Some(k) =>
      assert k in t.keys;
      forall n | n in KeysOf(pairs) ensures SumFor(pairs, n) <= SumFor(pairs, k) {
        assert n in t.keys;
      }
  }

  /** Revenue, count and average depend on which invoices are shown, not on the sort. */
  lemma RevenueIgnoresSort(invs: seq<Invoice>, f: Filters, g: SortKey)
    ensures var a, b := Filtered(invs, f), Filtered(invs, f.(sortBy := g));
      Sum(a, Net) == Sum(b, Net) && |a| == |b|
  {
    var a, b := Filtered(invs, f), Filtered(invs, f.(sortBy := g));
    assert Narrowed(invs, f) == Narrowed(invs, f.(sortBy := g));
    SumCountPermutation(a, b, Net, (inv: Invoice) => true);
    assert |a| == |multiset(a)| == |multiset(b)| == |b|;
  }

  /** The average is the revenue shared over the invoices, within the smallest and largest amount. */
  lemma AverageWithinAmounts(filtered: seq<Invoice>, lo: real, hi: real)
    requires filtered != []
    requires forall i :: 0 <= i < |filtered| ==> lo <= filtered[i].netTotal <= hi
    ensures lo <= Sum(filtered, Net) / |filtered| as real <= hi
  {
    MeanWithin(filtered, Net, lo, hi);
  }
}
