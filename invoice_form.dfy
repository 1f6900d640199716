/**
 * The point-of-sale invoice screen (frontend/src/pages/InvoiceForm.jsx): the
 * product suggestions, the list of invoice lines it edits, the totals it
 * shows, and the checks and stock updates of "create invoice".
 */
module InvoiceForm {
  import opened Wrappers
  import opened Text
  import opened Lists
  import InvoiceSchema

  /** A product as fetched from the catalogue; only the fields the screen reads. */
  datatype Product = Product(id: string, productName: Option<string>, sellingPrice: real, stock: Option<real>)

  /** An invoice line: a copy of the product (its stock as it was when added) plus quantity and total. */
  datatype Line = Line(id: string, productName: Option<string>, sellingPrice: real, stock: Option<real>,
                       quantity: real, total: real)

  // ---------------------------------------------------------------- suggestions

  /**
   * `filteredProducts`: nothing while the search box is empty, otherwise the
   * products whose name (missing names read as "") starts with the query,
   * ignoring case, in catalogue order.
   */
  function FilteredProducts(products: seq<Product>, query: string): (r: seq<Product>)
    ensures query == "" ==> r == []
    ensures query != "" ==> forall p :: p in r <==> p in products && StartsWith(Lower(p.productName.GetOr("")), Lower(query))
    ensures multiset(r) <= multiset(products)
  {
    if query == "" then []
    else
      var keep := (p: Product) => StartsWith(Lower(p.productName.GetOr("")), Lower(query));
      FilterSubMultiset(products, keep);
      Filter(products, keep)
  }

  /**
   * The suggestions keep the catalogue order: they are found in each part of
   * a split catalogue separately, and one product is suggested exactly when
   * the query is not empty and the name starts with it, ignoring case.
   */
  lemma FilteredProductsInOrder(a: seq<Product>, b: seq<Product>, p: Product, query: string)
    ensures FilteredProducts(a + b, query) == FilteredProducts(a, query) + FilteredProducts(b, query)
    ensures FilteredProducts([p], query) ==
      if query != "" && StartsWith(Lower(p.productName.GetOr("")), Lower(query)) then [p] else []
  {
    var keep := (p: Product) => StartsWith(Lower(p.productName.GetOr("")), Lower(query));
    FilterConcat(a, b, keep);
    FilterSingleton(p, keep);
  }

  // ---------------------------------------------------------------- invoice lines

  /** What a line is worth. */
  function Amount(l: Line): real {
    l.sellingPrice * l.quantity
  }

  /** Every line's total is its quantity times its price. */
  ghost predicate Consistent(items: seq<Line>) {
    forall i :: 0 <= i < |items| ==> items[i].total == Amount(items[i])
  }

  /** No product occurs on two lines. */
  ghost predicate UniqueIds(items: seq<Line>) {
    forall i, j :: 0 <= i < j < |items| ==> items[i].id != items[j].id
  }

  /** `!product.stock || product.stock <= 0` is false: the product can be sold. */
  predicate InStock(p: Product) {
    p.stock.Some? && p.stock.value > 0.0
  }

  /** `items.find(i => i._id === id)`, as an index. */
  function FindLine(items: seq<Line>, id: string): (r: Option<nat>)
    ensures r.None? <==> forall i :: 0 <= i < |items| ==> items[i].id != id
    ensures r.Some? ==> r.value < |items| && items[r.value].id == id
                        && forall i :: 0 <= i < r.value ==> items[i].id != id
  {
    if items == [] then None
    else if items[0].id == id then Some(0)
    else match FindLine(items[1..], id)
      case None => None
      case Some(k) => Some(k + 1)
  }

  /** The line one more unit of its product makes. */
  function Bump(l: Line): (r: Line)
    ensures r.quantity == l.quantity + 1.0 && r.total == Amount(r)
    ensures r.id == l.id && r.sellingPrice == l.sellingPrice
  {
    var b := l.(quantity := l.quantity + 1.0);
    b.(total := Amount(b))
  }

  /** Every line of product `id` bumped by one unit, the others as they are. */
  function BumpLines(items: seq<Line>, id: string): (r: seq<Line>)
    ensures |r| == |items|
    ensures forall i :: 0 <= i < |items| ==> r[i] == if items[i].id == id then Bump(items[i]) else items[i]
  {
    seq(|items|, i requires 0 <= i < |items| => if items[i].id == id then Bump(items[i]) else items[i])
  }

  /** The line a product starts with: quantity 1 and the selling price as total. */
  function NewLine(p: Product): Line {
    Line(p.id, p.productName, p.sellingPrice, p.stock, 1.0, p.sellingPrice)
  }

  /**
   * `addItem(product)`: nothing changes for a product out of stock, or when
   * one more unit would exceed its stock; an existing line gains one unit and
   * its total is recomputed; a new product is appended with quantity 1.
   */
  function AddItem(items: seq<Line>, p: Product): (r: seq<Line>)
    ensures !InStock(p) ==> r == items
    ensures InStock(p) && FindLine(items, p.id).Some? ==>
      var k := FindLine(items, p.id).value;
      if items[k].quantity + 1.0 > p.stock.value then r == items
      else |r| == |items| && forall i :: 0 <= i < |items| ==>
        if items[i].id == p.id then r[i].quantity == items[i].quantity + 1.0 && r[i].total == Amount(r[i])
                                    && r[i].id == items[i].id && r[i].sellingPrice == items[i].sellingPrice
        else r[i] == items[i]
    ensures InStock(p) && FindLine(items, p.id).None? ==>
      |r| == |items| + 1 && r[..|items|] == items && r[|items|].id == p.id
      && r[|items|].quantity == 1.0 && r[|items|].total == p.sellingPrice
  {
    if !InStock(p) then items
    else match FindLine(items, p.id)
      case Some(k) =>
        if items[k].quantity + 1.0 > p.stock.value then items
        else BumpLines(items, p.id)
      case None => items + [NewLine(p)]
  }

  /** `addItem` keeps every line's total equal to quantity times price, and one line per product. */
  lemma AddItemPreserves(items: seq<Line>, p: Product)
    requires Consistent(items) && UniqueIds(items)
    ensures Consistent(AddItem(items, p)) && UniqueIds(AddItem(items, p))
  {
    var r := AddItem(items, p);
    if InStock(p) && FindLine(items, p.id).None? {
      assert r == items + [NewLine(p)];
      assert Amount(NewLine(p)) == p.sellingPrice;
    }
  }

  /**
   * `updateQuantity(id, qty)`: every line of that product gets quantity `qty`,
   * or its stock when `qty` is above it (no lower bound is checked), and total
   * quantity times price; the other lines are unchanged.
   */
  function UpdateQuantity(items: seq<Line>, id: string, qty: real): (r: seq<Line>)
    ensures |r| == |items|
    ensures forall i :: 0 <= i < |items| && items[i].id != id ==> r[i] == items[i]
    ensures forall i :: 0 <= i < |items| && items[i].id == id ==>
      && r[i].quantity == (if items[i].stock.Some? && qty > items[i].stock.value then items[i].stock.value else qty)
      && r[i].total == Amount(r[i])
      && r[i].id == items[i].id && r[i].sellingPrice == items[i].sellingPrice && r[i].stock == items[i].stock
  {
    seq(|items|, i requires 0 <= i < |items| =>
      var l := items[i];
      if l.id == id then
        var q := if l.stock.Some? && qty > l.stock.value then l.stock.value else qty;
        var b := l.(quantity := q);
        b.(total := Amount(b))
      else l)
  }

  /** After `updateQuantity` no line of that product exceeds its known stock, and the invariants still hold. */
  lemma UpdateQuantityPreserves(items: seq<Line>, id: string, qty: real)
    requires Consistent(items) && UniqueIds(items)
    ensures var r := UpdateQuantity(items, id, qty);
      && Consistent(r) && UniqueIds(r)
      && forall i :: 0 <= i < |r| && r[i].id == id && r[i].stock.Some? ==> r[i].quantity <= r[i].stock.value
  {
  }

  /** `removeItem(id)`: the lines of every other product, in their order. */
  function RemoveItem(items: seq<Line>, id: string): (r: seq<Line>)
    ensures forall l :: l in r <==> l in items && l.id != id
    ensures |r| == Count(items, (l: Line) => l.id != id)
  {
    Filter(items, (l: Line) => l.id != id)
  }

  /**
   * Removal keeps the order of the lines: it acts on each part of a split
   * list separately, and on one line it keeps it exactly when its id differs.
   */
  lemma RemoveItemInOrder(a: seq<Line>, b: seq<Line>, l: Line, id: string)
    ensures RemoveItem(a + b, id) == RemoveItem(a, id) + RemoveItem(b, id)
    ensures RemoveItem([l], id) == if l.id != id then [l] else []
  {
    FilterConcat(a, b, (l: Line) => l.id != id);
    FilterSingleton(l, (l: Line) => l.id != id);
  }

  /** `removeItem` keeps the invariants: it only drops lines. */
  lemma {:induction false} RemoveItemPreserves(items: seq<Line>, id: string)
    requires Consistent(items) && UniqueIds(items)
    ensures Consistent(RemoveItem(items, id)) && UniqueIds(RemoveItem(items, id))
  {
    if items != [] {
      var init := items[..|items| - 1];
      RemoveItemPreserves(init, id);
      var ri := RemoveItem(init, id);
      var last := items[|items| - 1];
      if last.id != id {
        assert RemoveItem(items, id) == ri + [last];
        forall i | 0 <= i < |ri| ensures ri[i].id != last.id {
          assert ri[i] in init;
        }
      }
    }
  }

  // ---------------------------------------------------------------- totals

  /** The figures the summary panel shows. */
  datatype Totals = Totals(subtotal: real, tax: real, net: real, change: real)

  function LineTotal(l: Line): real {
    l.total
  }

  /**
   * The totals: subtotal is the sum of the line totals, tax is taxPct percent of
   * it, net is subtotal - discount + tax, and the change is received - net when
   * an amount (a non-zero one) has been entered and covers the net total, else 0.
   */
  function ComputeTotals(items: seq<Line>, discount: real, taxPct: real, received: Option<real>): (t: Totals)
    ensures t.subtotal == Sum(items, LineTotal)
    ensures t.net == t.subtotal - discount + t.tax && t.tax == t.subtotal * taxPct / 100.0
    ensures t.change >= 0.0
    ensures received.Some? && received.value != 0.0 && received.value >= t.net ==> t.change == received.value - t.net
    ensures received.None? || received.value == 0.0 || received.value < t.net ==> t.change == 0.0
  {
    var subtotal := Sum(items, LineTotal);
    var tax := subtotal * (taxPct / 100.0);
    var net := subtotal - discount + tax;
    var change := if received.Some? && received.value != 0.0 && received.value >= net then received.value - net else 0.0;
    Totals(subtotal, tax, net, change)
  }

  /** With consistent lines the subtotal is the sum of quantity times price. */
  lemma SubtotalOfConsistent(items: seq<Line>)
    requires Consistent(items)
    ensures Sum(items, LineTotal) == Sum(items, Amount)
  {
    SumPointwise(items, LineTotal, items, Amount);
  }

  /** Adding a new product raises the subtotal by its selling price. */
  lemma AddNewProductSubtotal(items: seq<Line>, p: Product)
    requires InStock(p) && FindLine(items, p.id).None?
    ensures Sum(AddItem(items, p), LineTotal) == Sum(items, LineTotal) + p.sellingPrice
  {
    assert AddItem(items, p) == items + [NewLine(p)];
    SumAppend(items, [NewLine(p)], LineTotal);
    assert [NewLine(p)][..0] == [];
  }

  /** `Math.max(0, Number(value))` on the discount field. */
  function DiscountInput(v: real): (r: real)
    ensures r >= 0.0 && (v >= 0.0 ==> r == v) && (v < 0.0 ==> r == 0.0)
  {
    if v < 0.0 then 0.0 else v
  }

  /** `Math.max(netTotal, Number(value))` on the amount-received field. */
  function AmountInput(net: real, v: real): (r: real)
    ensures r >= net && (v >= net ==> r == v) && (v < net ==> r == net)
  {
    if v < net then net else v
  }

  // ---------------------------------------------------------------- create invoice

  datatype Rejection = NoItems | NotEnoughStock(productName: Option<string>) | AmountTooLow | NegativeAmount

  /** Either the alert that stops the submission, or the invoice posted and the stock written per product. */
  datatype Submission =
    | Rejected(reason: Rejection)
    | Submitted(payload: InvoiceSchema.InvoiceInput, stockWrites: seq<(string, real)>)

  /** `item.stock || 0`. */
  function StockOrZero(l: Line): real {
    if l.stock.Some? then l.stock.value else 0.0
  }

  /** `newStock < 0 ? 0 : newStock` with `newStock = (item.stock || 0) - item.quantity`. */
  function NewStock(l: Line): (s: real)
    ensures s >= 0.0
    ensures StockOrZero(l) >= l.quantity ==> s == StockOrZero(l) - l.quantity
  {
    var n := StockOrZero(l) - l.quantity;
    if n < 0.0 then 0.0 else n
  }

  function PayloadItem(l: Line): InvoiceSchema.ItemInput {
    InvoiceSchema.ItemInput(Some(l.id), l.productName, Some(l.quantity), Some(l.sellingPrice), Some(l.total))
  }

  /** The body posted to the server; it carries no invoice number. */
  function Payload(items: seq<Line>, discount: real, taxPct: real, received: real, paymentMethod: string): InvoiceSchema.InvoiceInput {
    var t := ComputeTotals(items, discount, taxPct, Some(received));
    InvoiceSchema.InvoiceInput(
      "",
      seq(|items|, i requires 0 <= i < |items| => PayloadItem(items[i])),
      Some(t.subtotal), Some(discount), Some(t.tax), Some(t.net),
      Some(paymentMethod), Some(received), Some(t.change))
  }

  ghost predicate EnoughStock(items: seq<Line>) {
    forall i :: 0 <= i < |items| ==> items[i].quantity <= StockOrZero(items[i])
  }

  /**
   * `createInvoice`: the checks in the order the screen makes them (no lines;
   * the first line above its stock; no amount or one below the net total; a
   * negative amount), and otherwise the posted invoice and one stock write per
   * line, never below 0.
   */
  method CreateInvoice(items: seq<Line>, discount: real, taxPct: real, received: Option<real>, paymentMethod: string)
    returns (s: Submission)
    ensures s == Rejected(NoItems) <==> items == []
    ensures s.Rejected? && s.reason.NotEnoughStock? <==> items != [] && !EnoughStock(items)
    ensures s.Rejected? && s.reason.NotEnoughStock? ==>
      exists i :: && 0 <= i < |items|
                  && items[i].quantity > StockOrZero(items[i]) && s.reason.productName == items[i].productName
                  && forall j :: 0 <= j < i ==> items[j].quantity <= StockOrZero(items[j])
    ensures s == Rejected(AmountTooLow) <==>
      && items != [] && EnoughStock(items)
      && (received.None? || received.value < ComputeTotals(items, discount, taxPct, received).net)
    ensures s == Rejected(NegativeAmount) <==>
      && items != [] && EnoughStock(items) && received.Some?
      && received.value >= ComputeTotals(items, discount, taxPct, received).net && received.value < 0.0
    ensures s.Submitted? ==>
      && received.Some?
      && s.payload == Payload(items, discount, taxPct, received.value, paymentMethod)
      && |s.stockWrites| == |items|
      && forall i :: 0 <= i < |items| ==> s.stockWrites[i] == (items[i].id, NewStock(items[i]))
  {
    if items == [] {
      return Rejected(NoItems);
    }
    var i := 0;
    while i < |items|
      invariant 0 <= i <= |items|
      invariant forall j :: 0 <= j < i ==> items[j].quantity <= StockOrZero(items[j])
    {
      if items[i].quantity > StockOrZero(items[i]) {
        return Rejected(NotEnoughStock(items[i].productName));
      }
      i := i + 1;
    }
    var net := ComputeTotals(items, discount, taxPct, received).net;
    if received.None? || received.value < net {
      return Rejected(AmountTooLow);
    }
    if received.value < 0.0 {
      return Rejected(NegativeAmount);
    }
    var payload := Payload(items, discount, taxPct, received.value, paymentMethod);
    var writes: seq<(string, real)> := [];
    i := 0;
    while i < |items|
      invariant 0 <= i <= |items| && |writes| == i
      invariant forall j :: 0 <= j < i ==> writes[j] == (items[j].id, NewStock(items[j]))
    {
      writes := writes + [(items[i].id, NewStock(items[i]))];
      i := i + 1;
    }
    s := Submitted(payload, writes);
  }

  /** After the checks pass, the clamp at 0 never fires: each write is exactly the stock minus the quantity sold. */
  lemma StockWritesExact(items: seq<Line>)
    requires EnoughStock(items)
    ensures forall i :: 0 <= i < |items| ==> NewStock(items[i]) == StockOrZero(items[i]) - items[i].quantity
  {
  }

  /**
   * What the screen posts and what the server stores agree: for consistent
   * lines of named products with quantity at least 1 and an accepted payment
   * method, the server validates the payload and its hook recomputes the same
   * subtotal and net total the screen showed, and the same change once the
   * amount entered covers the net total.
   */
  lemma ServerAgreesWithScreen(items: seq<Line>, discount: real, taxPct: real, received: real, paymentMethod: string,
                               now: int, random: real)
    requires Consistent(items)
    requires forall i :: 0 <= i < |items| ==> SellableLine(items[i])
    requires paymentMethod in InvoiceSchema.PaymentMethods
    ensures var d := Payload(items, discount, taxPct, received, paymentMethod);
      var screen := ComputeTotals(items, discount, taxPct, Some(received));
      && InvoiceSchema.Validate(d, now).Some?
      && var saved := InvoiceSchema.Hook(InvoiceSchema.Validate(d, now).value, now, random);
      && saved.subtotal == screen.subtotal
      && saved.netTotal == screen.net
      && (received != 0.0 && received >= screen.net ==> saved.changeReturned == screen.change)
  {
    var d := Payload(items, discount, taxPct, received, paymentMethod);
    var screen := ComputeTotals(items, discount, taxPct, Some(received));
    PayloadValid(items, discount, taxPct, received, paymentMethod);
    var inv := InvoiceSchema.Validate(d, now).value;
    InvoiceSchema.HookTotals(inv, now, random);
    forall i | 0 <= i < |items|
      ensures inv.items[i].quantity == items[i].quantity && inv.items[i].price == items[i].sellingPrice
    {
      assert d.items[i] == PayloadItem(items[i]);
    }
    SameAmounts(inv.items, items);
    SumPointwise(inv.items, InvoiceSchema.LineAmount, items, Amount);
    SubtotalOfConsistent(items);
  }

  lemma SameAmounts(saved: seq<InvoiceSchema.Item>, items: seq<Line>)
    requires |saved| == |items|
    requires forall i :: 0 <= i < |items| ==> saved[i].quantity == items[i].quantity && saved[i].price == items[i].sellingPrice
    ensures forall i :: 0 <= i < |items| ==> InvoiceSchema.LineAmount(saved[i]) == Amount(items[i])
  {
  }

  /** A line the server accepts: a product id, a name and a quantity of at least 1. */
  predicate SellableLine(l: Line) {
    l.id != "" && l.quantity >= 1.0 && l.productName.Some? && l.productName.value != ""
  }

  lemma PayloadValid(items: seq<Line>, discount: real, taxPct: real, received: real, paymentMethod: string)
    requires forall i :: 0 <= i < |items| ==> SellableLine(items[i])
    requires paymentMethod in InvoiceSchema.PaymentMethods
    ensures InvoiceSchema.InputValid(Payload(items, discount, taxPct, received, paymentMethod))
  {
    var d := Payload(items, discount, taxPct, received, paymentMethod);
    assert forall i :: 0 <= i < |d.items| ==> d.items[i] == PayloadItem(items[i]);
  }
}
