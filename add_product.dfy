/**
 * The add-product page (frontend/src/pages/AddProduct.jsx): editing the form,
 * with the SKU filled in whenever the category changes, and the bulk upload
 * that replaces each CSV row's category name by the matching category's id.
 */
module AddProduct {
  import opened Wrappers
  import opened Text
  import ProductModel

  /** The form (and a parsed CSV row): field name to text. */
  type Form = map<string, string>

  /** The blank form the page starts with and returns to after a submit. */
  const EmptyForm: Form := map[
    "productName" := "", "category" := "", "sku" := "", "purchasePrice" := "", "sellingPrice" := "",
    "stock" := "", "description" := "", "imageUrl" := "", "barcodeImage" := ""]

  /**
   * `handleChange` for the input `name` taking `value` at time `now`: the
   * field is set and, for the category select, the SKU becomes the first four
   * characters of the selected value in upper case (an empty value gives
   * "PRD") followed by '-' and the time. The select's values are category ids.
   */
  function HandleChange(form: Form, name: string, value: string, now: int): (r: Form)
    ensures r.Keys == form.Keys + {name} + (if name == "category" then {"sku"} else {})
    ensures r[name] == value
    ensures name == "category" ==> r["sku"] == ProductModel.SkuFrom(value, 4, now)
    ensures forall k :: k in form && k != name && (name != "category" || k != "sku") ==> r[k] == form[k]
  {
    var edited := form[name := value];
    if name == "category" then edited["sku" := ProductModel.SkuFrom(value, 4, now)] else edited
  }

  /**
   * The SKU the page shows for a category is the one the product model's
   * pre-save hook would derive from the same category text at the same time.
   */
  lemma FormSkuMatchesModelDefault(form: Form, value: string, now: int, p: ProductModel.Product)
    requires p.category == Some(value) && p.sku.None?
    ensures HandleChange(form, "category", value, now)["sku"] == ProductModel.SkuHook(p, now).sku.value
  {
  }

  /** A category as the page receives it from the category list. */
  datatype CategoryRef = CategoryRef(id: string, name: string)

  /** The id the lookup built from `cats` holds for `key`: that of the last category whose lower-cased name is `key`. */
  function LastIdFor(cats: seq<CategoryRef>, key: string): Option<string> {
    if cats == [] then None
    else if Lower(cats[|cats| - 1].name) == key then Some(cats[|cats| - 1].id)
    else LastIdFor(cats[..|cats| - 1], key)
  }

  /** A found id belongs to a category whose lower-cased name is the key. */
  lemma {:induction false} LastIdForFound(cats: seq<CategoryRef>, key: string)
    requires LastIdFor(cats, key).Some?
    ensures exists c :: c in cats && Lower(c.name) == key && c.id == LastIdFor(cats, key).value
  {
    if Lower(cats[|cats| - 1].name) != key {
      LastIdForFound(cats[..|cats| - 1], key);
      var c :| c in cats[..|cats| - 1] && Lower(c.name) == key && c.id == LastIdFor(cats, key).value;
      assert c in cats;
    } else {
      assert cats[|cats| - 1] in cats;
    }
  }

  /** Every category is found under its lower-cased name. */
  lemma {:induction false} LastIdForComplete(cats: seq<CategoryRef>, c: CategoryRef)
    requires c in cats
    ensures LastIdFor(cats, Lower(c.name)).Some?
  {
    if cats[|cats| - 1] != c {
      assert c in cats[..|cats| - 1];
      LastIdForComplete(cats[..|cats| - 1], c);
    }
  }

  /** `m` holds, under each lower-cased name, the id of the last category with that name, and nothing else. */
  ghost predicate IsCategoryMap(cats: seq<CategoryRef>, m: map<string, string>) {
    && (forall k :: k in m <==> LastIdFor(cats, k).Some?)
    && (forall k :: k in m ==> m[k] == LastIdFor(cats, k).value)
  }

  /** `categoryMap`, filled by `categories.forEach(c => categoryMap[c.name.toLowerCase()] = c._id)`. */
  method CategoryMap(cats: seq<CategoryRef>) returns (m: map<string, string>)
    ensures IsCategoryMap(cats, m)
  {
    m := map[];
    var i := 0;
    while i < |cats|
      invariant 0 <= i <= |cats|
      invariant forall k :: k in m <==> LastIdFor(cats[..i], k).Some?
      invariant forall k :: k in m ==> m[k] == LastIdFor(cats[..i], k).value
    {
      assert cats[..i + 1][..i] == cats[..i];
      m := m[Lower(cats[i].name) := cats[i].id];
      i := i + 1;
    }
    assert cats[..|cats|] == cats;
  }

  /** What the bulk upload does. */
  datatype Bulk =
    | NoData                  // nothing parsed: a warning, no request
    | NotFound(name: string)  // a thrown "Category … not found in system", no request
    | NoCategory              // a row without a category column: `undefined.toLowerCase()` throws, no request
    | Send(rows: seq<Form>)   // the rows posted to the product endpoint

  /** The id a row's category resolves to, if any (a falsy id counts as not found). */
  function Lookup(m: map<string, string>, row: Form): Option<string>
    requires "category" in row
  {
    var key := Lower(row["category"]);
    if key in m && m[key] != "" then Some(m[key]) else None
  }

  /** `csvProducts.map(...)`: each row with its category replaced, stopping at the first row that throws. */
  function Resolve(m: map<string, string>, rows: seq<Form>): (r: Bulk)
    ensures r.Send? || r.NotFound? || r.NoCategory?
    ensures r.Send? <==> forall i :: 0 <= i < |rows| ==> "category" in rows[i] && Lookup(m, rows[i]).Some?
    ensures r.Send? ==> |r.rows| == |rows| && forall i :: 0 <= i < |rows| ==>
      "category" in rows[i] && r.rows[i] == rows[i]["category" := Lookup(m, rows[i]).value]
    ensures !r.Send? ==> exists i :: FirstFailure(m, rows, i, r)
  {
    if rows == [] then Send([])
    else if "category" !in rows[0] then
      assert FirstFailure(m, rows, 0, NoCategory);
      NoCategory
    else match Lookup(m, rows[0])
      case None =>
        assert FirstFailure(m, rows, 0, NotFound(rows[0]["category"]));
        NotFound(rows[0]["category"])
      case Some(id) =>
        var rest := Resolve(m, rows[1..]);
        assert forall i :: 1 <= i < |rows| ==> rows[i] == rows[1..][i - 1];
        if rest.Send? then Send([rows[0]["category" := id]] + rest.rows)
        else
          FirstFailureShift(m, rows, rest);
          rest
  }

  /**
   * Row `i` is the first row that throws, and `r` is what it throws: every
   * earlier row resolves; a row without a category column is `NoCategory`,
   * and one whose category is not found is `NotFound` with its category text.
   */
  ghost predicate FirstFailure(m: map<string, string>, rows: seq<Form>, i: int, r: Bulk) {
    && 0 <= i < |rows|
    && (forall j :: 0 <= j < i ==> "category" in rows[j] && Lookup(m, rows[j]).Some?)
    && (if "category" !in rows[i] then r == NoCategory
        else Lookup(m, rows[i]).None? && r == NotFound(rows[i]["category"]))
  }

  /** A first failure after a row that resolves is the first failure of the whole list. */
  lemma FirstFailureShift(m: map<string, string>, rows: seq<Form>, r: Bulk)
    requires rows != [] && "category" in rows[0] && Lookup(m, rows[0]).Some?
    requires exists i :: FirstFailure(m, rows[1..], i, r)
    ensures exists i :: FirstFailure(m, rows, i, r)
  {
    var i :| FirstFailure(m, rows[1..], i, r);
    forall j | 0 <= j < i + 1 ensures "category" in rows[j] && Lookup(m, rows[j]).Some? {
      if j > 0 {
        assert rows[j] == rows[1..][j - 1];
      }
    }
    assert rows[i + 1] == rows[1..][i];
    assert FirstFailure(m, rows, i + 1, r);
  }

  /** `handleBulkUpload` on the parsed rows and the loaded categories. */
  method HandleBulkUpload(rows: seq<Form>, cats: seq<CategoryRef>) returns (r: Bulk)
    ensures rows == [] ==> r == NoData
    ensures rows != [] ==> exists m :: IsCategoryMap(cats, m) && r == Resolve(m, rows)
  {
    if |rows| == 0 {
      return NoData;
    }
    var m := CategoryMap(cats);
    r := Resolve(m, rows);
  }

  /**
   * A row that is sent names, in place of its category, the id of a category
   * whose name matches the row's case-insensitively; its other fields are kept.
   */
  lemma SentRowsReferToCategories(rows: seq<Form>, cats: seq<CategoryRef>, m: map<string, string>, i: nat)
    requires IsCategoryMap(cats, m)
    requires Resolve(m, rows).Send? && i < |rows|
    ensures var out := Resolve(m, rows).rows[i];
      && (exists c :: c in cats && Lower(c.name) == Lower(rows[i]["category"]) && out["category"] == c.id)
      && forall k :: k in rows[i] && k != "category" ==> k in out && out[k] == rows[i][k]
  {
    LastIdForFound(cats, Lower(rows[i]["category"]));
  }

  /** A row whose category matches no category's name stops the whole upload. */
  lemma UnknownCategoryStopsUpload(rows: seq<Form>, cats: seq<CategoryRef>, m: map<string, string>, i: nat)
    requires IsCategoryMap(cats, m)
    requires i < |rows| && "category" in rows[i]
    requires forall c :: c in cats ==> Lower(c.name) != Lower(rows[i]["category"])
    ensures !Resolve(m, rows).Send?
  {
    if LastIdFor(cats, Lower(rows[i]["category"])).Some? {
      LastIdForFound(cats, Lower(rows[i]["category"]));
    }
  }
}
