/**
 * The category endpoints (Backend/controller/categoryController.js) over the
 * category collection, a map from document id to category. The schema
 * (Backend/model/Category.js) trims the name, requires it and keeps it unique;
 * a category with no parent is a main category.
 */
module CategoryController {
  import opened Wrappers
  import opened Text
  import opened Lists

  datatype Category = Category(name: string, parent: Option<string>, createdAt: int)

  /** What `populate("parentCategory", "name")` puts in place of the parent id: its id and name. */
  datatype ParentView = ParentView(id: string, name: string)

  /** A category as the endpoints send it. */
  datatype CategoryView = CategoryView(id: string, name: string, parent: Option<ParentView>, createdAt: int)

  datatype CategoryBody = CategoryBody(name: Option<string>, parentCategory: Option<string>)

  datatype Response = Response(status: int, category: Option<CategoryView>)

  /** A category document as `save()` leaves it and create and update send it: the parent as its bare id. */
  datatype CategoryDoc = CategoryDoc(id: string, name: string, parentCategory: Option<string>, createdAt: int)

  datatype SaveResponse = SaveResponse(status: int, category: Option<CategoryDoc>)

  /** `parentCategory || null`: a missing or empty id means no parent. */
  function ParentOf(p: Option<string>): (r: Option<string>)
    ensures r.Some? <==> p.Some? && p.value != ""
    ensures r.Some? ==> r == p
  {
    if p.Some? && p.value != "" then p else None
  }

  /** The parent reference resolved against the collection; one that names no category populates as null. */
  function Populate(cats: map<string, Category>, p: Option<string>): (r: Option<ParentView>)
    ensures r.Some? <==> p.Some? && p.value in cats
    ensures r.Some? ==> r.value == ParentView(p.value, cats[p.value].name)
  {
    if p.Some? && p.value in cats then Some(ParentView(p.value, cats[p.value].name)) else None
  }

  function View(cats: map<string, Category>, id: string): (v: CategoryView)
    requires id in cats
    ensures v.id == id && v.name == cats[id].name && v.createdAt == cats[id].createdAt
    ensures v.parent == Populate(cats, cats[id].parent)
  {
    CategoryView(id, cats[id].name, Populate(cats, cats[id].parent), cats[id].createdAt)
  }

  /** The stored document `id`, unpopulated. */
  function Doc(cats: map<string, Category>, id: string): (d: CategoryDoc)
    requires id in cats
    ensures d.id == id && d.name == cats[id].name && d.createdAt == cats[id].createdAt
    ensures d.parentCategory == cats[id].parent
  {
    CategoryDoc(id, cats[id].name, cats[id].parent, cats[id].createdAt)
  }

  /** Some category other than `except` is called `name`. */
  predicate NameTaken(cats: map<string, Category>, name: string, except: Option<string>) {
    exists k :: k in cats && Some(k) != except && cats[k].name == name
  }

  /** A name the schema admits after its trim setter: present and trimmed. */
  predicate StoredName(n: string) {
    n != "" && Trim(n) == n
  }

  /** What the schema guarantees of the stored names: present, trimmed and unique. */
  ghost predicate Valid(cats: map<string, Category>) {
    && (forall k :: k in cats ==> StoredName(cats[k].name))
    && (forall a, b :: a in cats && b in cats && a != b ==> cats[a].name != cats[b].name)
  }

  /** `!name || name.trim() === ""`. */
  predicate BlankName(name: Option<string>) {
    name.None? || Trim(name.value) == ""
  }

  /** The body carries a truthy name. */
  predicate Renames(body: CategoryBody) {
    body.name.Some? && body.name.value != ""
  }

  /** The name the category has before saving: the trimmed new name, or the old one. */
  function NewName(c: Category, body: CategoryBody): string {
    if Renames(body) then Trim(body.name.value) else c.name
  }

  /** Storing a present, trimmed name nobody else has keeps the names valid. */
  lemma PutKeepsValid(cats: map<string, Category>, id: string, c: Category)
    requires Valid(cats) && StoredName(c.name) && !NameTaken(cats, c.name, Some(id))
    ensures Valid(cats[id := c])
  {
    PutKeepsNamesStored(cats, id, c);
    PutKeepsNamesUnique(cats, id, c);
  }

  lemma PutKeepsNamesStored(cats: map<string, Category>, id: string, c: Category)
    requires Valid(cats) && StoredName(c.name)
    ensures var after := cats[id := c]; forall k :: k in after ==> StoredName(after[k].name)
  {
  }

  lemma PutKeepsNamesUnique(cats: map<string, Category>, id: string, c: Category)
    requires Valid(cats) && !NameTaken(cats, c.name, Some(id))
    ensures var after := cats[id := c];
      forall a, b :: a in after && b in after && a != b ==> after[a].name != after[b].name
  {
  }

  function CreatedAtKey(v: CategoryView): real {
    -(v.createdAt as real)
  }

  class CategoryStore {
    var cats: map<string, Category>

    constructor ()
      ensures cats == map[]
    {
      cats := map[];
    }

    /**
     * `createCategory` under the fresh id `id`: a blank name is a 400, a
     * trimmed name some category already has is a 400, otherwise the category
     * is stored with the trimmed name and `parentCategory || null` and the
     * saved document is sent with 201; the names stay valid.
     */
    method CreateCategory(body: CategoryBody, id: string, now: int) returns (res: SaveResponse)
      requires id !in cats
      modifies this
      ensures BlankName(body.name) ==> res == SaveResponse(400, None) && cats == old(cats)
      ensures !BlankName(body.name) && NameTaken(old(cats), Trim(body.name.value), None) ==>
        res == SaveResponse(400, None) && cats == old(cats)
      ensures !BlankName(body.name) && !NameTaken(old(cats), Trim(body.name.value), None) ==>
        && cats == old(cats)[id := Category(Trim(body.name.value), ParentOf(body.parentCategory), now)]
        && res == SaveResponse(201, Some(CategoryDoc(id, Trim(body.name.value), ParentOf(body.parentCategory), now)))
      ensures Valid(old(cats)) ==> Valid(cats)
    {
      if BlankName(body.name) {
        return SaveResponse(400, None);
      }
      var name := Trim(body.name.value);
      if NameTaken(cats, name, None) {
        return SaveResponse(400, None);
      }
      var c := Category(name, ParentOf(body.parentCategory), now);
      if Valid(cats) {
        TrimIdempotent(body.name.value);
        TrimEmptyIff(body.name.value);
        PutKeepsValid(cats, id, c);
      }
      cats := cats[id := c];
      res := SaveResponse(201, Some(Doc(cats, id)));
    }

    /**
     * `updateCategory`: 404 for an unknown id. A truthy name whose trimmed
     * form another category already has is a 400 (the query filter on `name`
     * goes through the schema's trim setter); otherwise the name is replaced
     * by its trimmed form. The parent is always replaced by
     * `parentCategory || null`, so an update that leaves it out turns the
     * category into a main one. Saving then fails with 500 when the name is
     * empty (`required`) or taken (the unique index); otherwise the saved
     * document is sent with 200.
     */
    method UpdateCategory(id: string, body: CategoryBody) returns (res: SaveResponse)
      modifies this
      ensures id !in old(cats) ==> res == SaveResponse(404, None) && cats == old(cats)
      ensures id in old(cats) && Renames(body) && NameTaken(old(cats), Trim(body.name.value), Some(id)) ==>
        res == SaveResponse(400, None) && cats == old(cats)
      ensures id in old(cats) && !(Renames(body) && NameTaken(old(cats), Trim(body.name.value), Some(id))) ==>
        var name := NewName(old(cats)[id], body);
        if name == "" || NameTaken(old(cats), name, Some(id)) then
          res == SaveResponse(500, None) && cats == old(cats)
        else
          && cats == old(cats)[id := Category(name, ParentOf(body.parentCategory), old(cats)[id].createdAt)]
          && res == SaveResponse(200, Some(CategoryDoc(id, name, ParentOf(body.parentCategory), old(cats)[id].createdAt)))
      ensures Valid(old(cats)) ==> Valid(cats)
    {
      if id !in cats {
        return SaveResponse(404, None);
      }
      if Renames(body) && NameTaken(cats, Trim(body.name.value), Some(id)) {
        return SaveResponse(400, None);
      }
      var name := NewName(cats[id], body);
      if name == "" || NameTaken(cats, name, Some(id)) {
        return SaveResponse(500, None);
      }
      var c := Category(name, ParentOf(body.parentCategory), cats[id].createdAt);
      if Valid(cats) {
        if Renames(body) {
          TrimIdempotent(body.name.value);
        }
        PutKeepsValid(cats, id, c);
      }
      cats := cats[id := c];
      res := SaveResponse(200, Some(Doc(cats, id)));
    }

    /** `deleteCategory`: 404 for an unknown id, otherwise the category is removed and its children keep their parent id. */
    method DeleteCategory(id: string) returns (status: int)
      modifies this
      ensures id !in old(cats) ==> status == 404 && cats == old(cats)
      ensures id in old(cats) ==> status == 200 && cats == old(cats) - {id}
      ensures Valid(old(cats)) ==> Valid(cats)
    {
      if id !in cats {
        return 404;
      }
      cats := cats - {id};
      status := 200;
    }

    /** `getCategoryById`: the populated category with 200, or 404. */
    function GetCategoryById(id: string): (res: Response)
      reads this
      ensures res.status == 200 <==> id in cats
      ensures res.status == 404 <==> id !in cats
      ensures id in cats ==> res.category == Some(View(cats, id))
      ensures id !in cats ==> res.category == None
    {
      if id in cats then Response(200, Some(View(cats, id))) else Response(404, None)
    }

    /** `getCategories`: every category, populated, newest first. */
    method GetCategories() returns (r: seq<CategoryView>)
      ensures |r| == |cats|
      ensures forall i, j :: 0 <= i < j < |r| ==> r[i].createdAt >= r[j].createdAt
      ensures forall v :: v in r <==> v.id in cats && v == View(cats, v.id)
    {
      var all := CollectViews(cats);
      r := SortBy(all, CreatedAtKey);
      SortedNewestFirst(all, r);
    }
  }

  /** `Category.find()`: the view of every stored category once, in some order. */
  method CollectViews(cats: map<string, Category>) returns (all: seq<CategoryView>)
    ensures |all| == |cats|
    ensures forall v :: v in all <==> v.id in cats && v == View(cats, v.id)
  {
    var todo := cats.Keys;
    all := [];
    while todo != {}
      invariant todo <= cats.Keys
      invariant |all| + |todo| == |cats|
      invariant forall v :: v in all <==> v.id in cats && v.id !in todo && v == View(cats, v.id)
      decreases |todo|
    {
      var id :| id in todo;
      all := all + [View(cats, id)];
      todo := todo - {id};
    }
  }

  /** The stable sort by `-createdAt` orders newest first and keeps exactly the same views. */
  lemma SortedNewestFirst(all: seq<CategoryView>, r: seq<CategoryView>)
    requires r == SortBy(all, CreatedAtKey)
    ensures |r| == |all|
    ensures forall i, j :: 0 <= i < j < |r| ==> r[i].createdAt >= r[j].createdAt
    ensures forall v :: v in r <==> v in all
  {
    SameMembers(r, all);
    forall i, j | 0 <= i < j < |r| ensures r[i].createdAt >= r[j].createdAt {
      assert CreatedAtKey(r[i]) <= CreatedAtKey(r[j]);
    }
  }

  /** Deleting a category leaves its children pointing at an id that populates as null. */
  lemma DeleteOrphansChildren(cats: map<string, Category>, id: string, child: string)
    requires id in cats && child in cats && child != id && cats[child].parent == Some(id)
    ensures var after := cats - {id}; child in after && View(after, child).parent == None
  {
  }

  /** An update that leaves out `parentCategory` makes the category a main category. */
  lemma UpdateWithoutParentIsMain(cats: map<string, Category>, id: string, name: string, createdAt: int)
    requires id in cats
    ensures View(cats[id := Category(name, ParentOf(None), createdAt)], id).parent == None
  {
  }

  /**
   * Renaming to a space-padded copy of another category's name is caught by
   * the duplicate check, as on create: the filter is trimmed before it is
   * compared, so the rename is a 400 and not a failed save.
   */
  lemma PaddedDuplicateRenameRefused(cats: map<string, Category>, id: string, other: string)
    requires Valid(cats) && id in cats && other in cats && other != id
    ensures var body := CategoryBody(Some([' '] + cats[other].name), None);
      Renames(body) && NameTaken(cats, Trim(body.name.value), Some(id))
  {
    var t := cats[other].name;
    assert StoredName(t);
    TrimLeadingSpace(t);
    assert Some(other) != Some(id) && cats[other].name == Trim([' '] + t);
  }

  /** Create refuses a blank name with 400, but renaming to a blank name passes the checks and fails the save. */
  lemma BlankNameRefusedOnCreateButNotOnUpdate(cats: map<string, Category>)
    requires Valid(cats)
    ensures BlankName(Some("  "))
    ensures Trim("  ") == "" && !NameTaken(cats, Trim("  "), None)
  {
    assert AllSpace("  ");
    TrimEmptyIff("  ");
  }
}
