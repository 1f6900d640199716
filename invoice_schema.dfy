/**
 * The invoice document (Backend/model/invoiceSchema.js): the field constraints
 * Mongoose checks on save, the defaults it fills in, and the pre-save hook that
 * derives the line totals, subtotal, net total and change from the raw inputs.
 */
module InvoiceSchema {
  import opened Wrappers
  import opened Text
  import opened Lists

  /** The values the `payment_method` enum admits. */
  const PaymentMethods: seq<string> := ["Cash", "Card", "EasyPaisa", "JazzCash"]

  /** A line as it arrives in the request body: every field may be missing. */
  datatype ItemInput = ItemInput(
    productId: Option<string>,
    name: Option<string>,
    quantity: Option<real>,
    price: Option<real>,
    total: Option<real>)

  /**
   * The fields handed to `new Invoice({...})`. `number` is the invoice number,
   * "" when none is given (every falsy number behaves the same way here).
   */
  datatype InvoiceInput = InvoiceInput(
    number: string,
    items: seq<ItemInput>,
    subtotal: Option<real>,
    discountTotal: Option<real>,
    taxTotal: Option<real>,
    netTotal: Option<real>,
    paymentMethod: Option<string>,
    amountReceived: Option<real>,
    changeReturned: Option<real>)

  /** A validated line; `total` stays missing until the hook sets it. */
  datatype Item = Item(productId: string, name: string, quantity: real, price: real, total: Option<real>)

  /** A validated invoice document. */
  datatype Invoice = Invoice(
    number: string,
    dateTime: int,
    items: seq<Item>,
    subtotal: real,
    discountTotal: real,
    taxTotal: real,
    netTotal: real,
    paymentMethod: string,
    amountReceived: real,
    changeReturned: real)

  // ---------------------------------------------------------------- field constraints

  /** `product_id`, `name`, `quantity` (at least 1) and `price` are required on every line. */
  predicate ItemValid(it: ItemInput) {
    && it.productId.Some? && it.productId.value != ""
    && it.name.Some? && it.name.value != ""
    && it.quantity.Some? && it.quantity.value >= 1.0
    && it.price.Some?
  }

  /** The schema's validators: every line valid, a payment method from the enum, an amount received. */
  predicate InputValid(d: InvoiceInput) {
    && (forall i :: 0 <= i < |d.items| ==> ItemValid(d.items[i]))
    && d.paymentMethod.Some? && d.paymentMethod.value in PaymentMethods
    && d.amountReceived.Some?
  }

  function ToItem(it: ItemInput): Item
    requires ItemValid(it)
  {
    Item(it.productId.value, it.name.value, it.quantity.value, it.price.value, it.total)
  }

  /**
   * Casting and validation, which Mongoose runs before the pre-save hooks:
   * `None` is a validation error; otherwise the document with its defaults
   * (`date_time` now, the numeric totals 0 when missing).
   */
  function Validate(d: InvoiceInput, now: int): (r: Option<Invoice>)
    ensures r.Some? <==> InputValid(d)
    ensures r.Some? ==> && r.value.number == d.number && r.value.dateTime == now
                        && r.value.discountTotal == d.discountTotal.GetOr(0.0)
                        && r.value.taxTotal == d.taxTotal.GetOr(0.0)
                        && r.value.paymentMethod in PaymentMethods
                        && r.value.amountReceived == d.amountReceived.value
    ensures r.Some? ==> |r.value.items| == |d.items|
                        && forall i :: 0 <= i < |d.items| ==>
                             var it := r.value.items[i];
                             && Some(it.productId) == d.items[i].productId && Some(it.name) == d.items[i].name
                             && Some(it.quantity) == d.items[i].quantity && Some(it.price) == d.items[i].price
                             && it.quantity >= 1.0
  {
    if InputValid(d) then
      Some(Invoice(
        d.number, now,
        seq(|d.items|, i requires 0 <= i < |d.items| && ItemValid(d.items[i]) => ToItem(d.items[i])),
        d.subtotal.GetOr(0.0), d.discountTotal.GetOr(0.0), d.taxTotal.GetOr(0.0), d.netTotal.GetOr(0.0),
        d.paymentMethod.value, d.amountReceived.value, d.changeReturned.GetOr(0.0)))
    else None
  }

  // ---------------------------------------------------------------- the pre-save hook

  /** `Math.floor(Math.random() * 1000)`. */
  function RandomSuffix(random: real): (d: int)
    ensures 0.0 <= random < 1.0 ==> 0 <= d <= 999
  {
    (random * 1000.0).Floor
  }

  /** The number the hook gives an invoice that has none: `INV-<now>-<suffix>`. */
  function FallbackNumber(now: int, random: real): string {
    "INV-" + IntToString(now) + "-" + IntToString(RandomSuffix(random))
  }

  /** What the hook stores as a line's total. */
  function WithTotal(it: Item): Item {
    it.(total := Some(LineAmount(it)))
  }

  /** A line's contribution to the subtotal (the hook has set every total before it sums them). */
  function LineTotal(it: Item): real {
    it.total.GetOr(0.0)
  }

  /** The amount a line is worth: price times quantity. */
  function LineAmount(it: Item): real {
    it.price * it.quantity
  }

  /** The document after the pre-save hook has run on `inv`. */
  function Hook(inv: Invoice, now: int, random: real): Invoice {
    var items := seq(|inv.items|, i requires 0 <= i < |inv.items| => WithTotal(inv.items[i]));
    var subtotal := Sum(items, LineTotal);
    var net := subtotal - inv.discountTotal + inv.taxTotal;
    inv.(number := if inv.number == "" then FallbackNumber(now, random) else inv.number,
         items := items, subtotal := subtotal, netTotal := net,
         changeReturned := inv.amountReceived - net)
  }

  /**
   * Whatever totals the client sent: each line total becomes price times
   * quantity, the subtotal is the sum of those amounts, the net total is
   * subtotal - discount + tax and the change is amount received - net, with no
   * check that it is not negative.
   */
  lemma HookTotals(inv: Invoice, now: int, random: real)
    ensures var r := Hook(inv, now, random);
      && |r.items| == |inv.items|
      && (forall i :: 0 <= i < |r.items| ==>
            r.items[i] == inv.items[i].(total := Some(LineAmount(inv.items[i]))))
      && r.subtotal == Sum(inv.items, LineAmount)
      && r.netTotal == r.subtotal - inv.discountTotal + inv.taxTotal
      && r.changeReturned == inv.amountReceived - r.netTotal
      && r.discountTotal == inv.discountTotal && r.taxTotal == inv.taxTotal
      && r.amountReceived == inv.amountReceived && r.paymentMethod == inv.paymentMethod
      && r.dateTime == inv.dateTime
  {
    var r := Hook(inv, now, random);
    SumPointwise(r.items, LineTotal, inv.items, LineAmount);
  }

  /** A present invoice number is kept; a missing one becomes `INV-<now>-<d>` with 0 <= d <= 999. */
  lemma HookNumber(inv: Invoice, now: nat, random: real)
    requires 0.0 <= random < 1.0
    ensures inv.number != "" ==> Hook(inv, now, random).number == inv.number
    ensures inv.number == "" ==> exists d: nat ::
      d <= 999 && Hook(inv, now, random).number == "INV-" + NatToString(now) + "-" + NatToString(d)
  {
    if inv.number == "" {
      var d := RandomSuffix(random);
      assert Hook(inv, now, random).number == "INV-" + NatToString(now) + "-" + NatToString(d);
    }
  }

  /** The fallback number splits at '-' into "INV", the timestamp and the random suffix. */
  lemma FallbackNumberPieces(now: nat, d: nat)
    ensures Split("INV-" + NatToString(now) + "-" + NatToString(d), '-') == ["INV", NatToString(now), NatToString(d)]
  {
    var a, b := NatToString(now), NatToString(d);
    NoDashInDigits(now);
    NoDashInDigits(d);
    assert '-' !in "INV";
    assert "INV-" + a + "-" + b == "INV" + ['-'] + (a + ['-'] + b);
    SplitAfterFirst("INV", '-', a + ['-'] + b);
    SplitAfterFirst(a, '-', b);
  }

  lemma NoDashInDigits(n: nat)
    ensures '-' !in NatToString(n)
  {
    var a := NatToString(n);
    forall i | 0 <= i < |a| ensures a[i] != '-' {
      assert IsDigit(a[i]);
    }
  }

  /**
   * The hook is idempotent: the derived fields depend only on price, quantity,
   * discount, tax and amount received, and the number is set after the first run.
   */
  lemma HookIdempotent(inv: Invoice, now: int, random: real, now2: int, random2: real)
    ensures Hook(Hook(inv, now, random), now2, random2) == Hook(inv, now, random)
  {
    var once := Hook(inv, now, random);
    var twice := Hook(once, now2, random2);
    HookTotals(inv, now, random);
    HookTotals(once, now2, random2);
    assert once.number != "";
    HookItemsStable(inv, once, twice);
    SumPointwise(once.items, LineAmount, inv.items, LineAmount);
  }

  /** Recomputing the line totals of lines whose totals are already set changes nothing. */
  lemma HookItemsStable(inv: Invoice, once: Invoice, twice: Invoice)
    requires |once.items| == |inv.items| && |twice.items| == |once.items|
    requires forall i :: 0 <= i < |once.items| ==> once.items[i] == inv.items[i].(total := Some(LineAmount(inv.items[i])))
    requires forall i :: 0 <= i < |twice.items| ==> twice.items[i] == once.items[i].(total := Some(LineAmount(once.items[i])))
    ensures twice.items == once.items
    ensures forall i :: 0 <= i < |once.items| ==> LineAmount(once.items[i]) == LineAmount(inv.items[i])
  {
    forall i | 0 <= i < |once.items| ensures twice.items[i] == once.items[i] && LineAmount(once.items[i]) == LineAmount(inv.items[i]) {
      var x := inv.items[i];
      assert once.items[i] == WithTotal(x);
      assert LineAmount(WithTotal(x)) == LineAmount(x);
    }
  }

  /** Nothing stops the change from being negative: an underpaid invoice is saved as it is. */
  lemma ChangeMayBeNegative()
    ensures exists inv: Invoice :: Hook(inv, 0, 0.0).changeReturned < 0.0
  {
    var it := Item("p1", "Pen", 1.0, 10.0, None);
    var inv := Invoice("INV-1001", 0, [it], 0.0, 0.0, 0.0, 0.0, "Cash", 5.0, 0.0);
    HookTotals(inv, 0, 0.0);
    assert [it][..0] == [];
    assert Sum(inv.items, LineAmount) == 10.0;
  }

  /**
   * The document Mongoose holds while saving: the hook updates each line's
   * total in place and then assigns the derived fields one after another.
   */
  class InvoiceDoc {
    var number: string
    var dateTime: int
    const items: array<Item>
    var subtotal: real
    var discountTotal: real
    var taxTotal: real
    var netTotal: real
    var paymentMethod: string
    var amountReceived: real
    var changeReturned: real

    /** The document's fields as a value. */
    function Record(): Invoice
      reads this, items
    {
      Invoice(number, dateTime, items[..], subtotal, discountTotal, taxTotal, netTotal,
              paymentMethod, amountReceived, changeReturned)
    }

    constructor (inv: Invoice)
      ensures Record() == inv && fresh(items)
    {
      number := inv.number;
      dateTime := inv.dateTime;
      items := new Item[|inv.items|](i requires 0 <= i < |inv.items| => inv.items[i]);
      subtotal := inv.subtotal;
      discountTotal := inv.discountTotal;
      taxTotal := inv.taxTotal;
      netTotal := inv.netTotal;
      paymentMethod := inv.paymentMethod;
      amountReceived := inv.amountReceived;
      changeReturned := inv.changeReturned;
      new;
      assert items[..] == inv.items;
    }

    /** `invoiceSchema.pre("save", ...)`. */
    method PreSave(now: int, random: real)
      modifies this, items
      ensures Record() == Hook(old(Record()), now, random)
    {
      ghost var was := Record();
      ghost var want := Hook(was, now, random);
      if number == "" {
        number := FallbackNumber(now, random);
      }
      var i := 0;
      while i < items.Length
        invariant 0 <= i <= items.Length
        invariant forall k :: 0 <= k < i ==> items[k] == want.items[k]
        invariant forall k :: i <= k < items.Length ==> items[k] == was.items[k]
        invariant number == want.number
        invariant subtotal == was.subtotal && discountTotal == was.discountTotal && taxTotal == was.taxTotal
        invariant amountReceived == was.amountReceived && dateTime == was.dateTime && paymentMethod == was.paymentMethod
      {
        items[i] := WithTotal(items[i]);
        i := i + 1;
      }
      assert items[..] == want.items;
      subtotal := Sum(items[..], LineTotal);
      netTotal := subtotal - discountTotal + taxTotal;
      changeReturned := amountReceived - netTotal;
    }
  }
}
