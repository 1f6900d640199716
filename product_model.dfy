/**
 * The product document (Backend/model/product.model.js): the fields, the
 * constraints Mongoose checks on save, the `trim` setter on the name, the
 * unique SKU, and the pre-save hook that fills in a missing SKU.
 */
module ProductModel {
  import opened Wrappers
  import opened Text

  /**
   * A product document. Every field `Object.assign` can overwrite is optional;
   * `productName` is stored trimmed, as the schema's setter leaves it.
   */
  datatype Product = Product(
    productName: Option<string>,
    category: Option<string>,
    sku: Option<string>,
    purchasePrice: Option<real>,
    sellingPrice: Option<real>,
    description: string,
    stock: Option<real>,
    imageUrl: Option<string>,
    barcodeImage: Option<string>)

  /** The fields of a request body; a missing key is `None`. */
  datatype ProductFields = ProductFields(
    productName: Option<string>,
    category: Option<string>,
    sku: Option<string>,
    purchasePrice: Option<real>,
    sellingPrice: Option<real>,
    description: Option<string>,
    stock: Option<real>,
    imageUrl: Option<string>,
    barcodeImage: Option<string>)

  /**
   * A SKU `<code>-<now>`: the code is the first `n` characters of `value` in
   * upper case, or "PRD" when `value` is empty. The hook uses the category id
   * with `n` = 4, the controller the category name with `n` = 3.
   */
  function SkuFrom(value: string, n: nat, now: int): string {
    (if value != "" then Upper(Prefix(value, n)) else "PRD") + "-" + IntToString(now)
  }

  /** The code in front of the '-' has at most `n` characters, and the time follows the '-'. */
  lemma SkuFromParts(value: string, n: nat, now: int)
    ensures exists code: string :: && SkuFrom(value, n, now) == code + "-" + IntToString(now)
                                   && (value == "" ==> code == "PRD")
                                   && (value != "" ==> |code| <= n && |code| <= |value|
                                                       && forall i :: 0 <= i < |code| ==> code[i] == UpperChar(value[i]))
  {
    var code := if value != "" then Upper(Prefix(value, n)) else "PRD";
    assert SkuFrom(value, n, now) == code + "-" + IntToString(now);
  }

  /** SKUs with the same code drawn at different times differ. */
  lemma SkuFromTimeInjective(value: string, n: nat, a: nat, b: nat)
    requires SkuFrom(value, n, a) == SkuFrom(value, n, b)
    ensures a == b
  {
    var code := if value != "" then Upper(Prefix(value, n)) else "PRD";
    assert (code + "-") + NatToString(a) == (code + "-") + NatToString(b);
    assert NatToString(a) == (code + "-" + NatToString(a))[|code| + 1..];
    assert NatToString(b) == (code + "-" + NatToString(b))[|code| + 1..];
    DigitsValueOfNatToString(a);
    DigitsValueOfNatToString(b);
  }

  /** JavaScript falsiness of an optional string. */
  predicate Falsy(s: Option<string>) {
    s.None? || s.value == ""
  }

  /** The SKU the hook would give the product. */
  function DefaultSku(p: Product, now: int): string {
    SkuFrom(if p.category.Some? then p.category.value else "", 4, now)
  }

  /** `pre("save")`: a missing or empty SKU becomes the category's code and the time. */
  function SkuHook(p: Product, now: int): (r: Product)
    ensures !Falsy(p.sku) ==> r == p
    ensures Falsy(p.sku) ==> r == p.(sku := Some(DefaultSku(p, now)))
  {
    if Falsy(p.sku) then p.(sku := Some(DefaultSku(p, now))) else p
  }

  /** After the hook the product has a SKU, and running the hook again, at any time, changes nothing. */
  lemma SkuHookIdempotent(p: Product, now: int, later: int)
    ensures !Falsy(SkuHook(p, now).sku)
    ensures SkuHook(SkuHook(p, now), later) == SkuHook(p, now)
  {
    if Falsy(p.sku) {
      var s := DefaultSku(p, now);
      assert |s| > 0 by { assert s == (if p.category.Some? && p.category.value != "" then Upper(Prefix(p.category.value, 4)) else "PRD") + "-" + IntToString(now); }
    }
  }

  /**
   * The schema's validators: a non-empty name, a category, both prices and
   * a stock that is at least 0.
   */
  predicate SchemaValid(p: Product) {
    && !Falsy(p.productName)
    && !Falsy(p.category)
    && p.purchasePrice.Some?
    && p.sellingPrice.Some?
    && p.stock.Some? && p.stock.value >= 0.0
  }

  /** `sku` is unique: another document than `id` holds it. */
  predicate SkuTaken(store: map<string, Product>, id: string, sku: Option<string>) {
    exists k :: k in store && k != id && store[k].sku == sku
  }

  /** No two stored products share a SKU. */
  ghost predicate SkusUnique(store: map<string, Product>) {
    forall a, b :: a in store && b in store && a != b ==> store[a].sku != store[b].sku
  }

  /**
   * `save()` of `p` under `id`: validation first, then the hook, then the
   * unique index. `None` is the error the save throws.
   */
  function Save(store: map<string, Product>, id: string, p: Product, now: int): (r: Option<map<string, Product>>)
    ensures r.Some? <==> SchemaValid(p) && !SkuTaken(store, id, SkuHook(p, now).sku)
    ensures r.Some? ==> r.value == store[id := SkuHook(p, now)]
  {
    if !SchemaValid(p) then None
    else
      var q := SkuHook(p, now);
      if SkuTaken(store, id, q.sku) then None else Some(store[id := q])
  }

  /** A successful save keeps the SKUs unique, stores a valid document with a SKU, and touches no other id. */
  lemma SaveKeepsSkusUnique(store: map<string, Product>, id: string, p: Product, now: int)
    requires SkusUnique(store) && Save(store, id, p, now).Some?
    ensures var s := Save(store, id, p, now).value;
      && SkusUnique(s) && id in s && SchemaValid(s[id]) && !Falsy(s[id].sku)
      && forall k :: k in store && k != id ==> k in s && s[k] == store[k]
  {
    var s := Save(store, id, p, now).value;
    var q := SkuHook(p, now);
    SkuHookIdempotent(p, now, now);
    forall a, b | a in s && b in s && a != b ensures s[a].sku != s[b].sku {
      if a == id {
        assert b in store && b != id;
      } else if b == id {
        assert a in store && a != id;
      }
    }
  }

  /** `Object.assign(product, body)`: every field the body carries replaces the document's, the name trimmed. */
  function Assign(p: Product, b: ProductFields): (r: Product)
    ensures b.productName.Some? ==> r.productName == Some(Trim(b.productName.value))
    ensures b.productName.None? ==> r.productName == p.productName
    ensures r.category == (if b.category.Some? then b.category else p.category)
    ensures r.sku == (if b.sku.Some? then b.sku else p.sku)
    ensures r.purchasePrice == (if b.purchasePrice.Some? then b.purchasePrice else p.purchasePrice)
    ensures r.sellingPrice == (if b.sellingPrice.Some? then b.sellingPrice else p.sellingPrice)
    ensures r.description == b.description.GetOr(p.description)
    ensures r.stock == (if b.stock.Some? then b.stock else p.stock)
    ensures r.imageUrl == (if b.imageUrl.Some? then b.imageUrl else p.imageUrl)
    ensures r.barcodeImage == (if b.barcodeImage.Some? then b.barcodeImage else p.barcodeImage)
  {
    Product(
      if b.productName.Some? then Some(Trim(b.productName.value)) else p.productName,
      if b.category.Some? then b.category else p.category,
      if b.sku.Some? then b.sku else p.sku,
      if b.purchasePrice.Some? then b.purchasePrice else p.purchasePrice,
      if b.sellingPrice.Some? then b.sellingPrice else p.sellingPrice,
      b.description.GetOr(p.description),
      if b.stock.Some? then b.stock else p.stock,
      if b.imageUrl.Some? then b.imageUrl else p.imageUrl,
      if b.barcodeImage.Some? then b.barcodeImage else p.barcodeImage)
  }

  /** The empty body changes nothing, and assigning the same body twice is the same as once. */
  lemma AssignIdempotent(p: Product, b: ProductFields)
    ensures Assign(p, ProductFields(None, None, None, None, None, None, None, None, None)) == p
    ensures Assign(Assign(p, b), b) == Assign(p, b)
  {
    if b.productName.Some? {
      TrimIdempotent(b.productName.value);
    }
  }

  /**
   * The document Mongoose holds during create and update: `Object.assign`,
   * the controller's assignments and the hook change its fields in place.
   */
  class ProductDoc {
    var productName: Option<string>
    var category: Option<string>
    var sku: Option<string>
    var purchasePrice: Option<real>
    var sellingPrice: Option<real>
    var description: string
    var stock: Option<real>
    var imageUrl: Option<string>
    var barcodeImage: Option<string>

    function Record(): Product
      reads this
    {
      Product(productName, category, sku, purchasePrice, sellingPrice, description, stock, imageUrl, barcodeImage)
    }

    /** `new Product({...})`: the body's fields with `description` defaulting to "". */
    constructor (b: ProductFields)
      ensures Record() == Assign(Product(None, None, None, None, None, "", None, None, None), b)
    {
      productName := if b.productName.Some? then Some(Trim(b.productName.value)) else None;
      category := b.category;
      sku := b.sku;
      purchasePrice := b.purchasePrice;
      sellingPrice := b.sellingPrice;
      description := b.description.GetOr("");
      stock := b.stock;
      imageUrl := b.imageUrl;
      barcodeImage := b.barcodeImage;
    }

    /** A document loaded from the collection. */
    constructor Load(p: Product)
      ensures Record() == p
    {
      productName, category, sku := p.productName, p.category, p.sku;
      purchasePrice, sellingPrice, description := p.purchasePrice, p.sellingPrice, p.description;
      stock, imageUrl, barcodeImage := p.stock, p.imageUrl, p.barcodeImage;
    }

    method AssignFields(b: ProductFields)
      modifies this
      ensures Record() == Assign(old(Record()), b)
    {
      var r := Assign(Record(), b);
      productName, category, sku := r.productName, r.category, r.sku;
      purchasePrice, sellingPrice, description := r.purchasePrice, r.sellingPrice, r.description;
      stock, imageUrl, barcodeImage := r.stock, r.imageUrl, r.barcodeImage;
    }

    /** `productSchema.pre("save", ...)`. */
    method PreSave(now: int)
      modifies this
      ensures Record() == SkuHook(old(Record()), now)
    {
      if sku.None? || sku.value == "" {
        var code := if category.Some? then category.value else "";
        sku := Some(SkuFrom(code, 4, now));
      }
    }
  }
}
