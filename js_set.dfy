/**
 * A JavaScript `Set`: its members in insertion order, as the settings page
 * (frontend/src/pages/setting.jsx) and the dashboard
 * (frontend/src/pages/Dashboard.jsx) use it.
 */
module JsSet {
  import opened Lists

  class OrderedSet<T(==, !new)> {
    var items: seq<T>

    /** `new Set()`. */
    constructor Empty()
      ensures items == []
    {
      items := [];
    }

    /** `new Set(arr)`: each element once, at its first occurrence. */
    constructor (arr: seq<T>)
      ensures items == Dedup(arr)
    {
      items := [];
      new;
      var i := 0;
      while i < |arr|
        invariant 0 <= i <= |arr|
        invariant items == Dedup(arr[..i])
      {
        assert arr[..i + 1] == arr[..i] + [arr[i]];
        DedupSnoc(arr[..i], arr[i]);
        Add(arr[i]);
        i := i + 1;
      }
      assert arr[..|arr|] == arr;
    }

    /** `set.has(x)`. */
    predicate Has(x: T)
      reads this
    {
      x in items
    }

    /** `set.add(x)`: appended unless already present. */
    method Add(x: T)
      modifies this
      ensures items == if x in old(items) then old(items) else old(items) + [x]
    {
      if x !in items {
        items := items + [x];
      }
    }

    /** `set.delete(x)`: the others keep their order. */
    method Delete(x: T)
      modifies this
      ensures items == Filter(old(items), Other(x))
    {
      items := Filter(items, Other(x));
    }
  }
}
