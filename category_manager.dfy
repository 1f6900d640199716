/**
 * The category manager page (frontend/src/pages/CategoryManager.jsx): the
 * add/edit form, the expand/collapse flags and the indented tree of
 * categories it renders.
 */
module CategoryManager {
  import opened Wrappers
  import opened Text
  import opened Lists

  /** A category as the list endpoint sends it; `parentId` is `parentCategory?._id`. */
  datatype Cat = Cat(id: string, name: string, parentId: Option<string>)

  /** `c.parentCategory?._id || null`: the parent the tree files a category under. */
  function ParentKey(c: Cat): Option<string> {
    if c.parentId.Some? && c.parentId.value != "" then c.parentId else None
  }

  // ---------------------------------------------------------------- the form

  /** The form's state: the name box, the parent select ("" for none) and the category being edited. */
  datatype FormState = FormState(name: string, parent: string, editing: Option<Cat>)

  /** The JSON body of a save: the name as typed and `parentCategory || null`. */
  datatype Body = Body(name: string, parentCategory: Option<string>)

  /** What a submit does: nothing but an error message, an update, or a creation. */
  datatype Submit = Rejected | Put(id: string, body: Body) | Post(body: Body)

  /** `handleSubmit`. */
  function HandleSubmit(s: FormState): (r: Submit)
    ensures r.Rejected? <==> Trim(s.name) == ""
    ensures r.Put? <==> Trim(s.name) != "" && s.editing.Some?
    ensures !r.Rejected? ==> var b := if r.Put? then r.body else r.body;
      b.name == s.name && (b.parentCategory.None? <==> s.parent == "")
  {
    if Trim(s.name) == "" then Rejected
    else
      var body := Body(s.name, if s.parent != "" then Some(s.parent) else None);
      if s.editing.Some? then Put(s.editing.value.id, body) else Post(body)
  }

  /** After a save the server accepted: the form is emptied and editing ends. */
  function AfterSaved(s: FormState): (r: FormState)
    ensures r == FormState("", "", None)
  {
    FormState("", "", None)
  }

  /** `handleEdit(cat)`: the form takes the category's name and parent id ("" with no parent). */
  function HandleEdit(s: FormState, cat: Cat): (r: FormState)
    ensures r.editing == Some(cat) && r.name == cat.name
    ensures r.parent == if ParentKey(cat).Some? then ParentKey(cat).value else ""
  {
    FormState(cat.name, if cat.parentId.Some? && cat.parentId.value != "" then cat.parentId.value else "", Some(cat))
  }

  /**
   * Editing a category and saving it unchanged sends an update of that
   * category with its own name and the parent the tree files it under; a
   * category with a blank name cannot be saved back.
   */
  lemma EditThenSubmit(s: FormState, cat: Cat)
    ensures Trim(cat.name) != "" ==> HandleSubmit(HandleEdit(s, cat)) == Put(cat.id, Body(cat.name, ParentKey(cat)))
    ensures Trim(cat.name) == "" ==> HandleSubmit(HandleEdit(s, cat)) == Rejected
  {
  }

  // ---------------------------------------------------------------- expand flags

  /** `expanded[id]`, a missing flag being falsy. */
  predicate IsExpanded(expanded: map<string, bool>, id: string) {
    id in expanded && expanded[id]
  }

  /** `toggleExpand(id)`. */
  function ToggleExpand(expanded: map<string, bool>, id: string): (r: map<string, bool>)
    ensures IsExpanded(r, id) == !IsExpanded(expanded, id)
    ensures forall k :: k != id ==> (k in r <==> k in expanded) && (k in r ==> r[k] == expanded[k])
  {
    expanded[id := !IsExpanded(expanded, id)]
  }

  /** Toggling twice restores every flag as the page reads it. */
  lemma ToggleTwice(expanded: map<string, bool>, id: string, k: string)
    ensures IsExpanded(ToggleExpand(ToggleExpand(expanded, id), id), k) == IsExpanded(expanded, k)
  {
  }

  // ---------------------------------------------------------------- the tree

  /** One rendered line: the category, its indentation level, whether it has a toggle, and whether that toggle is open. */
  datatype Line = Line(cat: Cat, level: nat, hasChildren: bool, expanded: bool)

  /** `cats.some(child => child.parentCategory?._id === cat._id)`. */
  predicate HasChildren(cats: seq<Cat>, cat: Cat) {
    exists i :: 0 <= i < |cats| && cats[i].parentId == Some(cat.id)
  }

  function UnderParent(parent: Option<string>): Cat -> bool {
    (c: Cat) => ParentKey(c) == parent
  }

  /** The categories filed under `parent` (`None` for the root), in list order. */
  function ChildrenOf(cats: seq<Cat>, parent: Option<string>): seq<Cat> {
    Filter(cats, UnderParent(parent))
  }

  /**
   * The lines for the categories `kids` at `level`: each category's line,
   * followed, when it is expanded, by its own subtree one level deeper.
   * `fuel` bounds the depth.
   */
  function Render(cats: seq<Cat>, kids: seq<Cat>, level: nat, expanded: map<string, bool>, fuel: nat): seq<Line>
    decreases fuel, |kids|
  {
    if kids == [] then []
    else
      var c := kids[0];
      var open := IsExpanded(expanded, c.id);
      var sub := if open && fuel > 0 then Render(cats, ChildrenOf(cats, Some(c.id)), level + 1, expanded, fuel - 1) else [];
      [Line(c, level, HasChildren(cats, c), open)] + sub + Render(cats, kids[1..], level, expanded, fuel)
  }

  /** `renderCategoryTree(cats, parent, level)`, at most `fuel` levels below `level`. */
  function CategoryTree(cats: seq<Cat>, parent: Option<string>, level: nat, expanded: map<string, bool>, fuel: nat): seq<Line> {
    Render(cats, ChildrenOf(cats, parent), level, expanded, fuel)
  }

  /** The categories on the lines at exactly `level`, in order. */
  function AtLevel(lines: seq<Line>, level: nat): seq<Cat> {
    if lines == [] then []
    else (if lines[0].level == level then [lines[0].cat] else []) + AtLevel(lines[1..], level)
  }

  lemma {:induction false} AtLevelAppend(a: seq<Line>, b: seq<Line>, level: nat)
    ensures AtLevel(a + b, level) == AtLevel(a, level) + AtLevel(b, level)
  {
    if a != [] {
      AtLevelAppend(a[1..], b, level);
      assert (a + b)[1..] == a[1..] + b;
    } else {
      assert a + b == b;
    }
  }

  lemma {:induction false} AtLevelDeeper(lines: seq<Line>, level: nat)
    requires forall i :: 0 <= i < |lines| ==> lines[i].level > level
    ensures AtLevel(lines, level) == []
  {
    if lines != [] {
      AtLevelDeeper(lines[1..], level);
    }
  }

  /** Whether every line sits at `level` or deeper. */
  predicate NoShallower(lines: seq<Line>, level: nat) {
    forall i :: 0 <= i < |lines| ==> lines[i].level >= level
  }

  /** Line `k`, before line `j`, is the expanded category one level up that line `j` is filed under. */
  ghost predicate ParentLine(lines: seq<Line>, j: int, k: int, expanded: map<string, bool>) {
    && 0 <= k < j < |lines|
    && lines[k].level + 1 == lines[j].level
    && ParentKey(lines[j].cat) == Some(lines[k].cat.id)
    && IsExpanded(expanded, lines[k].cat.id)
  }

  /** Every line at `top` is filed under `parent`. */
  ghost predicate TopUnder(lines: seq<Line>, top: nat, parent: Option<string>) {
    forall j :: 0 <= j < |lines| && lines[j].level == top ==> ParentKey(lines[j].cat) == parent
  }

  /** Every line deeper than `top` has its parent line before it. */
  ghost predicate DeeperHosted(lines: seq<Line>, top: nat, expanded: map<string, bool>) {
    forall j :: 0 <= j < |lines| && lines[j].level > top ==> exists k :: ParentLine(lines, j, k, expanded)
  }

  /**
   * The lines nested under an expanded category: every line deeper than
   * `top` comes after a line one level up for its parent, and that parent is
   * expanded; every line at `top` is filed under `parent`.
   */
  ghost predicate WellNested(lines: seq<Line>, top: nat, parent: Option<string>, expanded: map<string, bool>) {
    NoShallower(lines, top) && TopUnder(lines, top, parent) && DeeperHosted(lines, top, expanded)
  }

  /** Parent lines stay parent lines when more lines come before them. */
  lemma ParentLineShift(a: seq<Line>, b: seq<Line>, j: int, k: int, expanded: map<string, bool>)
    requires ParentLine(b, j, k, expanded)
    ensures ParentLine(a + b, j + |a|, k + |a|, expanded)
  {
    assert (a + b)[j + |a|] == b[j];
    assert (a + b)[k + |a|] == b[k];
  }

  /** Parent lines stay parent lines when more lines come after them. */
  lemma ParentLineKeep(a: seq<Line>, b: seq<Line>, j: int, k: int, expanded: map<string, bool>)
    requires ParentLine(a, j, k, expanded)
    ensures ParentLine(a + b, j, k, expanded)
  {
    assert (a + b)[j] == a[j];
    assert (a + b)[k] == a[k];
  }

  lemma DeeperHostedAppend(a: seq<Line>, b: seq<Line>, top: nat, expanded: map<string, bool>)
    requires DeeperHosted(a, top, expanded) && DeeperHosted(b, top, expanded)
    ensures DeeperHosted(a + b, top, expanded)
  {
    var ab := a + b;
    forall j | 0 <= j < |ab| && ab[j].level > top ensures exists k :: ParentLine(ab, j, k, expanded) {
      if j < |a| {
        assert ab[j] == a[j];
        var k :| ParentLine(a, j, k, expanded);
        ParentLineKeep(a, b, j, k, expanded);
      } else {
        assert ab[j] == b[j - |a|];
        var k :| ParentLine(b, j - |a|, k, expanded);
        ParentLineShift(a, b, j - |a|, k, expanded);
      }
    }
  }

  lemma TopUnderAppend(a: seq<Line>, b: seq<Line>, top: nat, parent: Option<string>)
    requires TopUnder(a, top, parent) && TopUnder(b, top, parent)
    ensures TopUnder(a + b, top, parent)
  {
    forall j | 0 <= j < |a + b| && (a + b)[j].level == top ensures ParentKey((a + b)[j].cat) == parent {
      if j >= |a| {
        assert (a + b)[j] == b[j - |a|];
      }
    }
  }

  /** Two well-nested runs of lines at the same level make one. */
  lemma WellNestedAppend(a: seq<Line>, b: seq<Line>, top: nat, parent: Option<string>, expanded: map<string, bool>)
    requires WellNested(a, top, parent, expanded) && WellNested(b, top, parent, expanded)
    ensures WellNested(a + b, top, parent, expanded)
  {
    NoShallowerAppend(a, b, top);
    TopUnderAppend(a, b, top, parent);
    DeeperHostedAppend(a, b, top, expanded);
  }

  /** A category's line followed by its well-nested subtree, shown only when it is expanded. */
  lemma BlockNested(line: Line, sub: seq<Line>, top: nat, parent: Option<string>, expanded: map<string, bool>)
    requires line.level == top && ParentKey(line.cat) == parent
    requires sub != [] ==> IsExpanded(expanded, line.cat.id)
    requires WellNested(sub, top + 1, Some(line.cat.id), expanded)
    ensures WellNested([line] + sub, top, parent, expanded)
  {
    var lines := [line] + sub;
    forall j | 0 <= j < |lines| && lines[j].level > top ensures exists k :: ParentLine(lines, j, k, expanded) {
      BlockLineHosted(line, sub, top, expanded, j);
    }
    forall j | 0 <= j < |lines| ensures lines[j].level >= top && (lines[j].level == top ==> ParentKey(lines[j].cat) == parent) {
      if j > 0 {
        assert lines[j] == sub[j - 1];
      }
    }
  }

  /** A line of the subtree finds its parent line in the subtree or, at the subtree's top, in the category's own line. */
  lemma BlockLineHosted(line: Line, sub: seq<Line>, top: nat, expanded: map<string, bool>, j: int)
    requires line.level == top
    requires sub != [] ==> IsExpanded(expanded, line.cat.id)
    requires NoShallower(sub, top + 1) && TopUnder(sub, top + 1, Some(line.cat.id)) && DeeperHosted(sub, top + 1, expanded)
    requires 0 < j <= |sub|
    ensures exists k :: ParentLine([line] + sub, j, k, expanded)
  {
    var lines := [line] + sub;
    assert lines[j] == sub[j - 1];
    if sub[j - 1].level == top + 1 {
      assert lines[0] == line;
      assert ParentLine(lines, j, 0, expanded);
    } else {
      var k :| ParentLine(sub, j - 1, k, expanded);
      ParentLineShift([line], sub, j - 1, k, expanded);
    }
  }

  lemma NoShallowerAppend(a: seq<Line>, b: seq<Line>, level: nat)
    requires NoShallower(a, level) && NoShallower(b, level)
    ensures NoShallower(a + b, level)
  {
    forall j | 0 <= j < |a + b| ensures (a + b)[j].level >= level {
      if j >= |a| {
        assert (a + b)[j] == b[j - |a|];
      }
    }
  }

  /** The lines of the categories filed directly at `level`, in order: the categories themselves. */
  lemma RenderTop(cats: seq<Cat>, kids: seq<Cat>, level: nat, expanded: map<string, bool>, fuel: nat)
    ensures NoShallower(Render(cats, kids, level, expanded, fuel), level)
    ensures AtLevel(Render(cats, kids, level, expanded, fuel), level) == kids
  {
    RenderNoShallower(cats, kids, level, expanded, fuel);
    RenderAtLevel(cats, kids, level, expanded, fuel);
  }

  lemma {:induction false} RenderNoShallower(cats: seq<Cat>, kids: seq<Cat>, level: nat, expanded: map<string, bool>, fuel: nat)
    ensures NoShallower(Render(cats, kids, level, expanded, fuel), level)
    decreases fuel, |kids|
  {
    if kids != [] {
      var c := kids[0];
      var open := IsExpanded(expanded, c.id);
      var head := [Line(c, level, HasChildren(cats, c), open)];
      var sub := if open && fuel > 0 then Render(cats, ChildrenOf(cats, Some(c.id)), level + 1, expanded, fuel - 1) else [];
      var rest := Render(cats, kids[1..], level, expanded, fuel);
      RenderNoShallower(cats, kids[1..], level, expanded, fuel);
      if open && fuel > 0 {
        RenderNoShallower(cats, ChildrenOf(cats, Some(c.id)), level + 1, expanded, fuel - 1);
      }
      assert NoShallower(sub, level);
      NoShallowerAppend(head, sub, level);
      NoShallowerAppend(head + sub, rest, level);
    }
  }

  lemma {:induction false} RenderAtLevel(cats: seq<Cat>, kids: seq<Cat>, level: nat, expanded: map<string, bool>, fuel: nat)
    ensures AtLevel(Render(cats, kids, level, expanded, fuel), level) == kids
    decreases |kids|
  {
    if kids != [] {
      var c := kids[0];
      var open := IsExpanded(expanded, c.id);
      var head := [Line(c, level, HasChildren(cats, c), open)];
      var sub := if open && fuel > 0 then Render(cats, ChildrenOf(cats, Some(c.id)), level + 1, expanded, fuel - 1) else [];
      var rest := Render(cats, kids[1..], level, expanded, fuel);
      RenderAtLevel(cats, kids[1..], level, expanded, fuel);
      if open && fuel > 0 {
        RenderNoShallower(cats, ChildrenOf(cats, Some(c.id)), level + 1, expanded, fuel - 1);
      }
      AtLevelDeeper(sub, level);
      AtLevelAppend(head + sub, rest, level);
      AtLevelAppend(head, sub, level);
      assert AtLevel(head, level) == [c];
      assert kids == [c] + kids[1..];
    }
  }

  /**
   * Every line deeper than `level` sits right under an expanded category
   * that is its parent, one level up; every line at `level` is filed under `parent`.
   */
  lemma {:induction false} RenderNested(cats: seq<Cat>, kids: seq<Cat>, level: nat, parent: Option<string>,
                                        expanded: map<string, bool>, fuel: nat)
    requires forall i :: 0 <= i < |kids| ==> ParentKey(kids[i]) == parent
    ensures WellNested(Render(cats, kids, level, expanded, fuel), level, parent, expanded)
    decreases fuel, |kids|
  {
    if kids != [] {
      var c := kids[0];
      var open := IsExpanded(expanded, c.id);
      var line := Line(c, level, HasChildren(cats, c), open);
      var children := ChildrenOf(cats, Some(c.id));
      var sub := if open && fuel > 0 then Render(cats, children, level + 1, expanded, fuel - 1) else [];
      assert forall i :: 0 <= i < |kids[1..]| ==> kids[1..][i] == kids[i + 1];
      RenderNested(cats, kids[1..], level, parent, expanded, fuel);
      if open && fuel > 0 {
        assert forall i :: 0 <= i < |children| ==> children[i] in children;
        RenderNested(cats, children, level + 1, Some(c.id), expanded, fuel - 1);
      }
      BlockNested(line, sub, level, parent, expanded);
      WellNestedAppend([line] + sub, Render(cats, kids[1..], level, expanded, fuel), level, parent, expanded);
    }
  }

  /** The tree's top lines are the categories filed under `parent`, in list order, the rest nested as above. */
  lemma CategoryTreeSpec(cats: seq<Cat>, parent: Option<string>, level: nat, expanded: map<string, bool>, fuel: nat)
    ensures AtLevel(CategoryTree(cats, parent, level, expanded, fuel), level) == ChildrenOf(cats, parent)
    ensures WellNested(CategoryTree(cats, parent, level, expanded, fuel), level, parent, expanded)
  {
    var kids := ChildrenOf(cats, parent);
    assert forall i :: 0 <= i < |kids| ==> kids[i] in kids;
    RenderTop(cats, kids, level, expanded, fuel);
    RenderNested(cats, kids, level, parent, expanded, fuel);
  }

  /**
   * A category shows a toggle exactly when the tree has categories to list
   * under it (for an id that is not empty).
   */
  lemma HasChildrenIffSubtree(cats: seq<Cat>, cat: Cat)
    requires cat.id != ""
    ensures HasChildren(cats, cat) <==> ChildrenOf(cats, Some(cat.id)) != []
  {
    if HasChildren(cats, cat) {
      var i :| 0 <= i < |cats| && cats[i].parentId == Some(cat.id);
      assert cats[i] in ChildrenOf(cats, Some(cat.id));
    }
    var kids := ChildrenOf(cats, Some(cat.id));
    if kids != [] {
      assert kids[0] in kids;
      var i :| 0 <= i < |cats| && cats[i] == kids[0];
      assert cats[i].parentId == Some(cat.id);
    }
  }
}
