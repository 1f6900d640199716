/**
 * The product endpoints (Backend/controller/productcontroler.js) over the
 * product collection, a map from document id to product, with the category
 * collection read to resolve a category id to its name.
 */
module ProductController {
  import opened Wrappers
  import opened Text
  import opened Lists
  import opened ProductModel
  import CategoryController

  type Categories = map<string, CategoryController.Category>

  /** `generateSKU(categoryName)`: the first three characters of the name in upper case, or "PRD", and the time. */
  function GenerateSku(categoryName: string, now: int): string {
    SkuFrom(categoryName, 3, now)
  }

  /**
   * The controller's SKU is a code of at most three upper-cased leading
   * characters of the category name ("PRD" for an empty name), then '-' and
   * the time: one character shorter than the code the model's own hook uses.
   */
  lemma GenerateSkuShape(categoryName: string, now: int)
    ensures exists code: string :: && GenerateSku(categoryName, now) == code + "-" + IntToString(now)
                                   && (categoryName == "" ==> code == "PRD")
                                   && (categoryName != "" ==> |code| <= 3 && |code| <= |categoryName|
                                                              && forall i :: 0 <= i < |code| ==> code[i] == UpperChar(categoryName[i]))
  {
    SkuFromParts(categoryName, 3, now);
  }

  /** A request body: one product, or a list of them. */
  datatype Body = One(product: ProductFields) | Many(products: seq<ProductFields>)

  /** A single product is handled as a list of one. */
  function AsList(b: Body): (r: seq<ProductFields>)
    ensures b.One? ==> r == [b.product]
    ensures b.Many? ==> r == b.products
  {
    match b
    case One(p) => [p]
    case Many(ps) => ps
  }

  /** JavaScript truthiness of an optional number (0 is falsy). */
  predicate TruthyNumber(x: Option<real>) {
    x.Some? && x.value != 0.0
  }

  /**
   * The fields `createProduct` demands: a name, both prices and a category that
   * are truthy, and a stock that is not null (0 is allowed).
   */
  predicate Required(b: ProductFields) {
    && !Falsy(b.productName)
    && TruthyNumber(b.purchasePrice)
    && TruthyNumber(b.sellingPrice)
    && !Falsy(b.category)
    && b.stock.Some?
  }

  /** The fields `new Product({...})` receives: the body's own, with the generated SKU and barcode. */
  function NewFields(b: ProductFields, sku: string, barcode: string -> string): ProductFields {
    ProductFields(b.productName, b.category, Some(sku), b.purchasePrice, b.sellingPrice,
                  b.description, b.stock, b.imageUrl, Some(barcode(sku)))
  }

  /** A document built by `new Product(...)` from `fields`. */
  function NewProduct(fields: ProductFields): Product {
    Assign(Product(None, None, None, None, None, "", None, None, None), fields)
  }

  /**
   * The product `createProduct` builds from a complete body: the body's
   * fields, the name trimmed, the description defaulting to "", the SKU
   * generated from the category's name and the barcode of that SKU.
   */
  function Built(b: ProductFields, cats: Categories, now: int, barcode: string -> string): (p: Product)
    requires Required(b) && b.category.value in cats
    ensures p.productName == Some(Trim(b.productName.value)) && p.category == b.category
    ensures p.sku == Some(GenerateSku(cats[b.category.value].name, now))
    ensures p.barcodeImage == Some(barcode(GenerateSku(cats[b.category.value].name, now)))
    ensures p.purchasePrice == b.purchasePrice && p.sellingPrice == b.sellingPrice && p.stock == b.stock
    ensures p.description == b.description.GetOr("") && p.imageUrl == b.imageUrl
  {
    NewProduct(NewFields(b, GenerateSku(cats[b.category.value].name, now), barcode))
  }

  /** What one iteration of the loop does with a product. */
  datatype StepResult = Fail(status: int) | Saved(store: map<string, Product>, product: Product)

  /**
   * One product of `createProduct`: 400 for a missing field or an unknown
   * category; otherwise the built product is saved, which fails with 500
   * when its trimmed name is empty, its stock negative or its SKU already held.
   */
  function Step(store: map<string, Product>, cats: Categories, b: ProductFields, id: string, now: int,
                barcode: string -> string): (r: StepResult)
    ensures r.Fail? ==> r.status == 400 || r.status == 500
    ensures r.Fail? && r.status == 400 <==> !Required(b) || b.category.value !in cats
    ensures r.Saved? ==> r.store == store[id := r.product]
  {
    if !Required(b) || b.category.value !in cats then Fail(400)
    else
      var doc := Built(b, cats, now, barcode);
      assert doc.sku.value == GenerateSku(cats[b.category.value].name, now) != "";
      match Save(store, id, doc, now)
      case None => Fail(500)
      case Some(s) => Saved(s, s[id])
  }

  /** A saved product is the one built from its body. */
  lemma StepBuilds(store: map<string, Product>, cats: Categories, b: ProductFields, id: string, now: int,
                   barcode: string -> string)
    requires Step(store, cats, b, id, now, barcode).Saved?
    ensures Required(b) && b.category.value in cats
    ensures Step(store, cats, b, id, now, barcode).product == Built(b, cats, now, barcode)
  {
  }

  /**
   * A complete body with a known category is saved exactly when its trimmed
   * name is not empty, its stock is not negative and no other product holds
   * the generated SKU.
   */
  lemma StepSavesExactly(store: map<string, Product>, cats: Categories, b: ProductFields, id: string, now: int,
                         barcode: string -> string)
    ensures Step(store, cats, b, id, now, barcode).Saved?
      <==> && Required(b) && b.category.value in cats
           && Trim(b.productName.value) != "" && b.stock.value >= 0.0
           && !SkuTaken(store, id, Some(GenerateSku(cats[b.category.value].name, now)))
  {
  }

  /**
   * Why a product fails with `status`: 400 exactly for a missing field or an
   * unknown category, 500 exactly for an empty trimmed name, a negative stock
   * or a SKU another product holds.
   */
  predicate FailsWith(store: map<string, Product>, cats: Categories, b: ProductFields, id: string, now: int, status: int) {
    && (status == 400 <==> !Required(b) || b.category.value !in cats)
    && (status == 500 <==> && Required(b) && b.category.value in cats
                           && (|| Trim(b.productName.value) == "" || b.stock.value < 0.0
                               || SkuTaken(store, id, Some(GenerateSku(cats[b.category.value].name, now)))))
  }

  /** The answer to a create request, the collection afterwards, and the products created. */
  datatype Outcome = Outcome(status: int, store: map<string, Product>, created: seq<Product>)

  /**
   * The loop of `createProduct` from position `i` on: each product is saved in
   * turn under `ids[i]` at time `clock(i)`, and the first one that fails ends
   * the request, the ones saved before it staying saved.
   */
  function CreateFrom(store: map<string, Product>, cats: Categories, ps: seq<ProductFields>, ids: seq<string>,
                      i: nat, clock: nat -> int, barcode: string -> string): (o: Outcome)
    requires i <= |ps| <= |ids|
    ensures o.status == 201 ==> |o.created| == |ps| - i
    ensures o.status == 201 || o.status == 400 || o.status == 500
    decreases |ps| - i
  {
    if i == |ps| then Outcome(201, store, [])
    else
      match Step(store, cats, ps[i], ids[i], clock(i), barcode)
      case Fail(st) => Outcome(st, store, [])
      case Saved(s, p) =>
        var rest := CreateFrom(s, cats, ps, ids, i + 1, clock, barcode);
        rest.(created := [p] + rest.created)
  }

  /** `after` keeps every entry of `before` unchanged and adds entries only under `added`. */
  ghost predicate Extends(before: map<string, Product>, after: map<string, Product>, added: seq<string>) {
    && (forall k :: k in before ==> k in after && after[k] == before[k])
    && (forall k :: k in after && k !in before ==> k in added)
  }

  /** The products created so far in front of those the rest of the loop creates. */
  function Prepend(created: seq<Product>, o: Outcome): Outcome {
    o.(created := created + o.created)
  }

  lemma PrependStep(created: seq<Product>, p: Product, o: Outcome)
    ensures Prepend(created, o.(created := [p] + o.created)) == Prepend(created + [p], o)
  {
    assert created + ([p] + o.created) == (created + [p]) + o.created;
  }

  /**
   * There is no rollback: whatever the outcome, every stored product is still
   * there unchanged, and the new entries are products saved under the ids of
   * this request.
   */
  lemma {:induction false} CreateFromKeeps(store: map<string, Product>, cats: Categories, ps: seq<ProductFields>,
                                           ids: seq<string>, i: nat, clock: nat -> int, barcode: string -> string)
    requires i <= |ps| <= |ids|
    requires forall j :: i <= j < |ps| ==> ids[j] !in store
    requires forall j, k :: i <= j < k < |ps| ==> ids[j] != ids[k]
    ensures Extends(store, CreateFrom(store, cats, ps, ids, i, clock, barcode).store, ids[i..|ps|])
    decreases |ps| - i
  {
    if i < |ps| {
      var st := Step(store, cats, ps[i], ids[i], clock(i), barcode);
      if st.Saved? {
        var rest := CreateFrom(st.store, cats, ps, ids, i + 1, clock, barcode);
        FreshAfterSave(store, st.product, ids, i, |ps|);
        CreateFromKeeps(st.store, cats, ps, ids, i + 1, clock, barcode);
        ExtendsStep(store, st.product, st.store, rest.store, ids, i, |ps|);
        SavedStepContinues(store, cats, ps, ids, i, clock, barcode);
      }
    }
  }

  /** After a saved step the request goes on from the next position on the new collection. */
  lemma SavedStepContinues(store: map<string, Product>, cats: Categories, ps: seq<ProductFields>,
                           ids: seq<string>, i: nat, clock: nat -> int, barcode: string -> string)
    requires i < |ps| <= |ids|
    requires Step(store, cats, ps[i], ids[i], clock(i), barcode).Saved?
    ensures var st := Step(store, cats, ps[i], ids[i], clock(i), barcode);
      var rest := CreateFrom(st.store, cats, ps, ids, i + 1, clock, barcode);
      CreateFrom(store, cats, ps, ids, i, clock, barcode) == rest.(created := [st.product] + rest.created)
  {
  }

  /** A failed step ends the request with its status and the collection as it was. */
  lemma FailedStepStops(store: map<string, Product>, cats: Categories, ps: seq<ProductFields>,
                        ids: seq<string>, i: nat, clock: nat -> int, barcode: string -> string)
    requires i < |ps| <= |ids|
    requires Step(store, cats, ps[i], ids[i], clock(i), barcode).Fail?
    ensures CreateFrom(store, cats, ps, ids, i, clock, barcode)
      == Outcome(Step(store, cats, ps[i], ids[i], clock(i), barcode).status, store, [])
  {
  }

  /** The product at position `k` of the request was built from its body and is stored under `ids[k]`. */
  ghost predicate SavedAs(store: map<string, Product>, cats: Categories, ps: seq<ProductFields>, ids: seq<string>, k: nat,
                          p: Product, clock: nat -> int, barcode: string -> string)
    requires k < |ps| <= |ids|
  {
    && ids[k] in store && store[ids[k]] == p
    && Required(ps[k]) && ps[k].category.value in cats
    && p == Built(ps[k], cats, clock(k), barcode)
  }

  /**
   * The products an outcome lists as created from position `i` on are stored
   * under their ids and are the products built from their bodies, and the
   * outcome is 201 exactly when every product was created.
   */
  ghost predicate CreatedStored(o: Outcome, cats: Categories, ps: seq<ProductFields>, ids: seq<string>, i: nat,
                                clock: nat -> int, barcode: string -> string)
    requires i <= |ps| <= |ids|
  {
    && i + |o.created| <= |ps|
    && (o.status == 201 <==> i + |o.created| == |ps|)
    && (forall j :: 0 <= j < |o.created| ==> SavedAs(o.store, cats, ps, ids, i + j, o.created[j], clock, barcode))
  }

  /**
   * No rollback, product by product: with fresh, distinct ids, every product
   * the request created is still stored under its id when the request ends,
   * whatever its status, and is the product built from its body.
   */
  lemma {:induction false} CreateFromNoRollback(store: map<string, Product>, cats: Categories, ps: seq<ProductFields>,
                                                ids: seq<string>, i: nat, clock: nat -> int, barcode: string -> string)
    requires i <= |ps| <= |ids|
    requires forall j :: i <= j < |ps| ==> ids[j] !in store
    requires forall j, k :: i <= j < k < |ps| ==> ids[j] != ids[k]
    ensures CreatedStored(CreateFrom(store, cats, ps, ids, i, clock, barcode), cats, ps, ids, i, clock, barcode)
    decreases |ps| - i
  {
    if i < |ps| {
      var st := Step(store, cats, ps[i], ids[i], clock(i), barcode);
      if st.Saved? {
        FreshAfterSave(store, st.product, ids, i, |ps|);
        CreateFromNoRollback(st.store, cats, ps, ids, i + 1, clock, barcode);
        NoRollbackSaved(store, cats, ps, ids, i, clock, barcode);
      } else {
        FailedStepStops(store, cats, ps, ids, i, clock, barcode);
      }
    }
  }

  /** A product that fails fails for the reason its status names. */
  lemma StepFailsWith(store: map<string, Product>, cats: Categories, b: ProductFields, id: string, now: int,
                      barcode: string -> string)
    requires Step(store, cats, b, id, now, barcode).Fail?
    ensures FailsWith(store, cats, b, id, now, Step(store, cats, b, id, now, barcode).status)
  {
  }

  /**
   * The outcome lists at most the products from position `i` on, and when it
   * is not 201 the product right after them fails, for the reason its status
   * names, on the collection as it is left.
   */
  ghost predicate StopsAt(o: Outcome, cats: Categories, ps: seq<ProductFields>, ids: seq<string>, i: nat,
                          clock: nat -> int)
    requires i <= |ps| <= |ids|
  {
    && i + |o.created| <= |ps|
    && (o.status != 201 ==>
          && i + |o.created| < |ps|
          && FailsWith(o.store, cats, ps[i + |o.created|], ids[i + |o.created|], clock(i + |o.created|), o.status))
  }

  /**
   * A request that does not answer 201 stopped at the first product that
   * failed: a missing field or an unknown category answers 400, an empty
   * trimmed name, a negative stock or a SKU already held answers 500, judged
   * against the collection the products before it left.
   */
  lemma {:induction false} CreateFromStopsAtFailure(store: map<string, Product>, cats: Categories,
                                                    ps: seq<ProductFields>, ids: seq<string>, i: nat,
                                                    clock: nat -> int, barcode: string -> string)
    requires i <= |ps| <= |ids|
    ensures StopsAt(CreateFrom(store, cats, ps, ids, i, clock, barcode), cats, ps, ids, i, clock)
    decreases |ps| - i
  {
    if i < |ps| {
      var st := Step(store, cats, ps[i], ids[i], clock(i), barcode);
      if st.Saved? {
        CreateFromStopsAtFailure(st.store, cats, ps, ids, i + 1, clock, barcode);
        StopsAtSaved(store, cats, ps, ids, i, clock, barcode);
      } else {
        FailedStepStops(store, cats, ps, ids, i, clock, barcode);
        StepFailsWith(store, cats, ps[i], ids[i], clock(i), barcode);
      }
    }
  }

  /** The step of `CreateFromStopsAtFailure` for a product that is saved. */
  lemma StopsAtSaved(store: map<string, Product>, cats: Categories, ps: seq<ProductFields>,
                     ids: seq<string>, i: nat, clock: nat -> int, barcode: string -> string)
    requires i < |ps| <= |ids|
    requires Step(store, cats, ps[i], ids[i], clock(i), barcode).Saved?
    requires StopsAt(CreateFrom(Step(store, cats, ps[i], ids[i], clock(i), barcode).store, cats, ps, ids, i + 1, clock, barcode),
                     cats, ps, ids, i + 1, clock)
    ensures StopsAt(CreateFrom(store, cats, ps, ids, i, clock, barcode), cats, ps, ids, i, clock)
  {
    var st := Step(store, cats, ps[i], ids[i], clock(i), barcode);
    var rest := CreateFrom(st.store, cats, ps, ids, i + 1, clock, barcode);
    SavedStepContinues(store, cats, ps, ids, i, clock, barcode);
    StopsAtShift(rest, rest.(created := [st.product] + rest.created), cats, ps, ids, i, clock);
  }

  /** One more product in front moves the stopping point by one. */
  lemma StopsAtShift(rest: Outcome, o: Outcome, cats: Categories, ps: seq<ProductFields>, ids: seq<string>, i: nat,
                     clock: nat -> int)
    requires i < |ps| <= |ids|
    requires StopsAt(rest, cats, ps, ids, i + 1, clock)
    requires o.status == rest.status && o.store == rest.store && |o.created| == 1 + |rest.created|
    ensures StopsAt(o, cats, ps, ids, i, clock)
  {
    assert i + |o.created| == (i + 1) + |rest.created|;
  }

  /** The step of `CreateFromNoRollback` for a product that is saved. */
  lemma NoRollbackSaved(store: map<string, Product>, cats: Categories, ps: seq<ProductFields>,
                        ids: seq<string>, i: nat, clock: nat -> int, barcode: string -> string)
    requires i < |ps| <= |ids|
    requires forall j :: i <= j < |ps| ==> ids[j] !in store
    requires forall j, k :: i <= j < k < |ps| ==> ids[j] != ids[k]
    requires Step(store, cats, ps[i], ids[i], clock(i), barcode).Saved?
    requires CreatedStored(CreateFrom(Step(store, cats, ps[i], ids[i], clock(i), barcode).store, cats, ps, ids, i + 1, clock, barcode),
                           cats, ps, ids, i + 1, clock, barcode)
    ensures CreatedStored(CreateFrom(store, cats, ps, ids, i, clock, barcode), cats, ps, ids, i, clock, barcode)
  {
    var st := Step(store, cats, ps[i], ids[i], clock(i), barcode);
    var rest := CreateFrom(st.store, cats, ps, ids, i + 1, clock, barcode);
    SavedStepContinues(store, cats, ps, ids, i, clock, barcode);
    FreshAfterSave(store, st.product, ids, i, |ps|);
    CreateFromKeeps(st.store, cats, ps, ids, i + 1, clock, barcode);
    StepBuilds(store, cats, ps[i], ids[i], clock(i), barcode);
    assert ids[i] in st.store && st.store[ids[i]] == st.product;
    CreatedStoredPrepend(rest, rest.(created := [st.product] + rest.created), st.product, cats, ps, ids, i, clock, barcode);
  }

  /** A product saved at position `i` and kept to the end extends what the rest of the loop created. */
  lemma CreatedStoredPrepend(rest: Outcome, o: Outcome, p: Product, cats: Categories, ps: seq<ProductFields>,
                             ids: seq<string>, i: nat, clock: nat -> int, barcode: string -> string)
    requires i < |ps| <= |ids|
    requires CreatedStored(rest, cats, ps, ids, i + 1, clock, barcode)
    requires o.status == rest.status && o.store == rest.store && o.created == [p] + rest.created
    requires SavedAs(rest.store, cats, ps, ids, i, p, clock, barcode)
    ensures CreatedStored(o, cats, ps, ids, i, clock, barcode)
  {
    assert i + |o.created| == (i + 1) + |rest.created|;
    forall j | 0 <= j < |o.created|
      ensures SavedAs(o.store, cats, ps, ids, i + j, o.created[j], clock, barcode)
    {
      if j > 0 {
        assert o.created[j] == rest.created[j - 1] && i + j == (i + 1) + (j - 1);
      }
    }
  }

  /** The invariant of `ProductStore.CreateProduct` after a saved product. */
  lemma LoopGoesOn(store: map<string, Product>, cats: Categories, ps: seq<ProductFields>, ids: seq<string>, i: nat,
                   clock: nat -> int, barcode: string -> string, created: seq<Product>, want: Outcome)
    requires i < |ps| <= |ids|
    requires Step(store, cats, ps[i], ids[i], clock(i), barcode).Saved?
    requires want == Prepend(created, CreateFrom(store, cats, ps, ids, i, clock, barcode))
    ensures var st := Step(store, cats, ps[i], ids[i], clock(i), barcode);
      want == Prepend(created + [st.product], CreateFrom(st.store, cats, ps, ids, i + 1, clock, barcode))
  {
    var st := Step(store, cats, ps[i], ids[i], clock(i), barcode);
    SavedStepContinues(store, cats, ps, ids, i, clock, barcode);
    PrependStep(created, st.product, CreateFrom(st.store, cats, ps, ids, i + 1, clock, barcode));
  }

  /** What `ProductStore.CreateProduct` returns at a failed product. */
  lemma LoopStops(store: map<string, Product>, cats: Categories, ps: seq<ProductFields>, ids: seq<string>, i: nat,
                  clock: nat -> int, barcode: string -> string, created: seq<Product>, want: Outcome)
    requires i < |ps| <= |ids|
    requires Step(store, cats, ps[i], ids[i], clock(i), barcode).Fail?
    requires want == Prepend(created, CreateFrom(store, cats, ps, ids, i, clock, barcode))
    ensures want == Outcome(Step(store, cats, ps[i], ids[i], clock(i), barcode).status, store, created)
  {
    FailedStepStops(store, cats, ps, ids, i, clock, barcode);
    assert created + [] == created;
  }

  /** Nothing created yet. */
  lemma PrependNothing(o: Outcome)
    ensures o == Prepend([], o)
  {
    assert [] + o.created == o.created;
  }

  /** What `ProductStore.CreateProduct` returns once every product is saved. */
  lemma LoopEnds(store: map<string, Product>, cats: Categories, ps: seq<ProductFields>, ids: seq<string>,
                 clock: nat -> int, barcode: string -> string, created: seq<Product>, want: Outcome)
    requires |ps| <= |ids|
    requires want == Prepend(created, CreateFrom(store, cats, ps, ids, |ps|, clock, barcode))
    ensures want == Outcome(201, store, created)
  {
    assert created + [] == created;
  }

  /** With distinct ids, the ids after `ids[i]` are still free once `ids[i]` is used. */
  lemma FreshAfterSave(store: map<string, Product>, p: Product, ids: seq<string>, i: nat, n: nat)
    requires i < n <= |ids|
    requires forall j :: i <= j < n ==> ids[j] !in store
    requires forall j, k :: i <= j < k < n ==> ids[j] != ids[k]
    ensures forall j :: i + 1 <= j < n ==> ids[j] !in store[ids[i] := p]
  {
    forall j | i + 1 <= j < n ensures ids[j] !in store[ids[i] := p] {
      assert ids[i] != ids[j];
    }
  }

  /** Saving under `ids[i]` and then extending under `ids[i+1..n]` extends under `ids[i..n]`. */
  lemma ExtendsStep(before: map<string, Product>, p: Product, mid: map<string, Product>, after: map<string, Product>,
                    ids: seq<string>, i: nat, n: nat)
    requires i < n <= |ids|
    requires ids[i] !in before && mid == before[ids[i] := p]
    requires Extends(mid, after, ids[i + 1..n])
    ensures Extends(before, after, ids[i..n])
  {
    forall k | k in after && k !in before ensures k in ids[i..n] {
      if k == ids[i] {
        assert ids[i..n][0] == k;
      } else {
        assert k !in mid;
        var j :| 0 <= j < n - i - 1 && ids[i + 1..n][j] == k;
        assert ids[i..n][j + 1] == k;
      }
    }
  }

  /** A request whose first product is invalid or names an unknown category is a 400 that saves nothing. */
  lemma FirstInvalidSavesNothing(store: map<string, Product>, cats: Categories, ps: seq<ProductFields>,
                                 ids: seq<string>, clock: nat -> int, barcode: string -> string)
    requires 0 < |ps| <= |ids|
    requires !Required(ps[0]) || ps[0].category.value !in cats
    ensures CreateFrom(store, cats, ps, ids, 0, clock, barcode) == Outcome(400, store, [])
  {
  }

  /**
   * Two valid products of one category drawn in the same millisecond get the
   * same SKU, so the second save fails on the unique index after the first
   * is stored: the request answers 500 and keeps the first product.
   */
  lemma SameMillisecondCollides(store: map<string, Product>, cats: Categories, b: ProductFields,
                                ids: seq<string>, clock: nat -> int, barcode: string -> string)
    requires |ids| == 2 && ids[0] != ids[1]
    requires clock(0) == clock(1)
    requires match Step(store, cats, b, ids[0], clock(0), barcode)
             case Fail(_) => false
             case Saved(_, _) => true
    ensures var o := CreateFrom(store, cats, [b, b], ids, 0, clock, barcode);
      o.status == 500 && ids[0] in o.store && o.store == Step(store, cats, b, ids[0], clock(0), barcode).store
  {
    var s := Step(store, cats, b, ids[0], clock(0), barcode).store;
    var sku := GenerateSku(cats[b.category.value].name, clock(0));
    var doc := NewProduct(NewFields(b, sku, barcode));
    SkuHookIdempotent(doc, clock(0), clock(1));
    assert s[ids[0]].sku == SkuHook(doc, clock(1)).sku;
    assert SkuTaken(s, ids[1], SkuHook(doc, clock(1)).sku);
  }

  /** The answer to an update, the collection afterwards, and the product sent back. */
  datatype UpdateResult = UpdateResult(status: int, store: map<string, Product>, product: Option<Product>)

  /** The body names a category other than the product's. */
  predicate ChangesCategory(p: Product, b: ProductFields) {
    !Falsy(b.category) && b.category != p.category
  }

  /** The loaded product before `Object.assign`: with a new SKU, barcode and category when the category changes. */
  function Base(p: Product, b: ProductFields, cats: Categories, now: int, barcode: string -> string): Product
    requires ChangesCategory(p, b) ==> b.category.value in cats
  {
    if ChangesCategory(p, b) then Regenerate(p, b.category.value, cats[b.category.value].name, now, barcode) else p
  }

  /**
   * `updateProduct`: 404 for an unknown id; a change to an unknown category is
   * a 400; a change to a known one first replaces the SKU with one generated
   * from the new category's name, and its barcode. Then every field of the body
   * overwrites the document, an explicit `sku` included, and the save decides
   * between 200 and 500: 200 exactly when the document passes the schema and
   * its SKU after the hook is held by no other product.
   */
  function Update(store: map<string, Product>, id: string, b: ProductFields, cats: Categories, now: int,
                  barcode: string -> string): (r: UpdateResult)
    ensures id !in store ==> r == UpdateResult(404, store, None)
    ensures id in store && ChangesCategory(store[id], b) && b.category.value !in cats ==>
      r == UpdateResult(400, store, None)
    ensures r.status == 404 <==> id !in store
    ensures r.status == 400 <==> id in store && ChangesCategory(store[id], b) && b.category.value !in cats
    ensures id in store && !(ChangesCategory(store[id], b) && b.category.value !in cats) ==>
      var doc := Assign(Base(store[id], b, cats, now, barcode), b);
      (r.status == 200 <==> SchemaValid(doc) && !SkuTaken(store, id, SkuHook(doc, now).sku))
    ensures r.status == 500 ==> r.store == store && r.product == None
    ensures r.status == 200 || r.status == 400 || r.status == 404 || r.status == 500
    ensures r.status == 200 ==>
      && id in store && !(ChangesCategory(store[id], b) && b.category.value !in cats)
      && r.product == Some(Updated(store[id], b, cats, now, barcode))
      && r.store == store[id := r.product.value]
  {
    if id !in store then UpdateResult(404, store, None)
    else
      var p := store[id];
      if ChangesCategory(p, b) && b.category.value !in cats then UpdateResult(400, store, None)
      else
        var doc := Assign(Base(p, b, cats, now, barcode), b);
        match Save(store, id, doc, now)
        case None => UpdateResult(500, store, None)
        case Some(s) => UpdateResult(200, s, Some(s[id]))
  }

  /**
   * The document `updateProduct` saves: the new SKU and barcode when the
   * category changes, then the body's fields, then the SKU hook. A non-empty
   * SKU in the body is kept, a changed category otherwise brings its generated
   * SKU, and an empty SKU is replaced by the hook's default.
   */
  function Updated(p: Product, b: ProductFields, cats: Categories, now: int, barcode: string -> string): (q: Product)
    requires ChangesCategory(p, b) ==> b.category.value in cats
    ensures q.productName == (if b.productName.Some? then Some(Trim(b.productName.value)) else p.productName)
    ensures q.category == (if b.category.Some? then b.category else p.category)
    ensures q.purchasePrice == (if b.purchasePrice.Some? then b.purchasePrice else p.purchasePrice)
    ensures q.sellingPrice == (if b.sellingPrice.Some? then b.sellingPrice else p.sellingPrice)
    ensures q.description == b.description.GetOr(p.description)
    ensures q.stock == (if b.stock.Some? then b.stock else p.stock)
    ensures q.imageUrl == (if b.imageUrl.Some? then b.imageUrl else p.imageUrl)
    ensures q.barcodeImage == (if b.barcodeImage.Some? then b.barcodeImage
                               else if ChangesCategory(p, b) then Some(barcode(GenerateSku(cats[b.category.value].name, now)))
                               else p.barcodeImage)
    ensures b.sku.Some? && b.sku.value != "" ==> q.sku == b.sku
    ensures b.sku == Some("") ==> q.sku == Some(DefaultSku(q, now))
    ensures b.sku.None? && ChangesCategory(p, b) ==> q.sku == Some(GenerateSku(cats[b.category.value].name, now))
    ensures b.sku.None? && !ChangesCategory(p, b) ==>
      q.sku == (if Falsy(p.sku) then Some(DefaultSku(q, now)) else p.sku)
  {
    SkuHook(Assign(Base(p, b, cats, now, barcode), b), now)
  }

  /** The assignments to `sku`, `barcodeImage` and `category` when the category changes. */
  function Regenerate(p: Product, category: string, categoryName: string, now: int, barcode: string -> string): Product {
    var sku := GenerateSku(categoryName, now);
    p.(sku := Some(sku), barcodeImage := Some(barcode(sku)), category := Some(category))
  }

  /** An update whose body has no fields leaves a valid stored product as it was. */
  lemma EmptyUpdateKeepsProduct(store: map<string, Product>, id: string, cats: Categories, now: int,
                                barcode: string -> string)
    requires id in store && SchemaValid(store[id]) && !Falsy(store[id].sku) && SkusUnique(store)
    ensures var empty := ProductFields(None, None, None, None, None, None, None, None, None);
      Update(store, id, empty, cats, now, barcode) == UpdateResult(200, store, Some(store[id]))
  {
    var empty := ProductFields(None, None, None, None, None, None, None, None, None);
    AssignIdempotent(store[id], empty);
    assert !SkuTaken(store, id, store[id].sku);
    assert store[id := store[id]] == store;
  }

  class ProductStore {
    var products: map<string, Product>

    constructor ()
      ensures products == map[]
    {
      products := map[];
    }

    /** One pass of the loop: the checks, `new Product(...)` and `save()` for one product. */
    method SaveOne(b: ProductFields, id: string, cats: Categories, now: int, barcode: string -> string)
      returns (st: StepResult)
      modifies this
      ensures st == Step(old(products), cats, b, id, now, barcode)
      ensures products == if st.Saved? then st.store else old(products)
    {
      if !Required(b) || b.category.value !in cats {
        return Fail(400);
      }
      var sku := GenerateSku(cats[b.category.value].name, now);
      var doc := new ProductDoc(NewFields(b, sku, barcode));
      ghost var built := NewProduct(NewFields(b, sku, barcode));
      assert doc.Record() == built;
      if !SchemaValid(doc.Record()) {
        return Fail(500);
      }
      doc.PreSave(now);
      var saved := doc.Record();
      assert saved == SkuHook(built, now);
      if SkuTaken(products, id, saved.sku) {
        return Fail(500);
      }
      products := products[id := saved];
      st := Saved(products, saved);
    }

    /** `SaveOne` for the `i`-th product, with what it means for the outcome of the whole request. */
    method SaveNext(ps: seq<ProductFields>, ids: seq<string>, i: nat, cats: Categories, clock: nat -> int,
                    barcode: string -> string, ghost created: seq<Product>, ghost want: Outcome)
      returns (st: StepResult)
      requires i < |ps| <= |ids|
      requires want == Prepend(created, CreateFrom(products, cats, ps, ids, i, clock, barcode))
      modifies this
      ensures st.Fail? ==> want == Outcome(st.status, products, created)
      ensures st.Saved? ==> want == Prepend(created + [st.product], CreateFrom(products, cats, ps, ids, i + 1, clock, barcode))
    {
      ghost var before := products;
      st := SaveOne(ps[i], ids[i], cats, clock(i), barcode);
      if st.Fail? {
        LoopStops(before, cats, ps, ids, i, clock, barcode, created, want);
      } else {
        LoopGoesOn(before, cats, ps, ids, i, clock, barcode, created, want);
      }
    }

    /**
     * `createProduct`: the products are saved one by one under the fresh ids
     * `ids`, the i-th at time `clock(i)`; the outcome is that of `CreateFrom`.
     */
    method CreateProduct(body: Body, cats: Categories, ids: seq<string>, clock: nat -> int,
                         barcode: string -> string) returns (status: int, created: seq<Product>)
      requires |AsList(body)| <= |ids|
      modifies this
      ensures var o := CreateFrom(old(products), cats, AsList(body), ids, 0, clock, barcode);
        status == o.status && products == o.store && created == o.created
    {
      var ps := AsList(body);
      ghost var start := products;
      assert CreateFrom(old(products), cats, AsList(body), ids, 0, clock, barcode) == CreateFrom(start, cats, ps, ids, 0, clock, barcode);
      ghost var want := CreateFrom(products, cats, ps, ids, 0, clock, barcode);
      PrependNothing(want);
      created := [];
      var i := 0;
      while i < |ps|
        invariant 0 <= i <= |ps|
        invariant want == Prepend(created, CreateFrom(products, cats, ps, ids, i, clock, barcode))
        decreases |ps| - i
      {
        var st := SaveNext(ps, ids, i, cats, clock, barcode, created, want);
        if st.Fail? {
          return st.status, created;
        }
        created := created + [st.product];
        i := i + 1;
      }
      LoopEnds(products, cats, ps, ids, clock, barcode, created, want);
      status := 201;
    }

    /** `updateProduct`, in place on the loaded document; the outcome is that of `Update`. */
    method UpdateProduct(id: string, b: ProductFields, cats: Categories, now: int, barcode: string -> string)
      returns (status: int, product: Option<Product>)
      modifies this
      ensures var r := Update(old(products), id, b, cats, now, barcode);
        status == r.status && products == r.store && product == r.product
    {
      if id !in products {
        return 404, None;
      }
      var doc := new ProductDoc.Load(products[id]);
      if ChangesCategory(doc.Record(), b) {
        if b.category.value !in cats {
          return 400, None;
        }
        var sku := GenerateSku(cats[b.category.value].name, now);
        doc.sku := Some(sku);
        doc.barcodeImage := Some(barcode(sku));
        doc.category := b.category;
      }
      doc.AssignFields(b);
      if !SchemaValid(doc.Record()) {
        return 500, None;
      }
      doc.PreSave(now);
      var saved := doc.Record();
      if SkuTaken(products, id, saved.sku) {
        return 500, None;
      }
      products := products[id := saved];
      status, product := 200, Some(saved);
    }

    /** `deleteProduct`: 404 for an unknown id, otherwise only that product is removed. */
    method DeleteProduct(id: string) returns (status: int)
      modifies this
      ensures id !in old(products) ==> status == 404 && products == old(products)
      ensures id in old(products) ==> status == 200 && products == old(products) - {id}
    {
      if id !in products {
        return 404;
      }
      products := products - {id};
      status := 200;
    }

    /** `deleteAllProducts`: the collection is emptied and the count of removed products reported. */
    method DeleteAllProducts() returns (status: int, deletedCount: nat)
      modifies this
      ensures status == 200 && deletedCount == |old(products)| && products == map[]
    {
      deletedCount := |products|;
      products := map[];
      status := 200;
    }
  }
}
