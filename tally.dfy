/**
 * Running totals per key in first-insertion order: the
 * `m.set(k, (m.get(k) || 0) + v)` / `obj[k] = (obj[k] || 0) + v` pattern of the
 * report, sales and dashboard pages, read back with `Array.from(m.entries())`
 * or `Object.entries(obj)`.
 */
module Tally {
  import opened Wrappers
  import opened Lists

  /** The keys in the order they were first set, and the running sum of each. */
  datatype Tally<K> = Tally(keys: seq<K>, sums: map<K, real>)

  ghost predicate Valid<K(!new)>(t: Tally<K>) {
    && Distinct(t.keys)
    && (forall k :: k in t.sums <==> k in t.keys)
  }

  function Empty<K(==,!new)>(): Tally<K> {
    Tally([], map[])
  }

  /** Adds `v` to the total of `k`; a new key goes to the end. */
  function Add<K(==,!new)>(t: Tally<K>, k: K, v: real): Tally<K> {
    if k in t.sums then Tally(t.keys, t.sums[k := t.sums[k] + v])
    else Tally(t.keys + [k], t.sums[k := v])
  }

  /** The tally after adding the pairs one by one, in order. */
  function TallyOf<K(==,!new)>(pairs: seq<(K, real)>): Tally<K> {
    if pairs == [] then Empty()
    else var last := pairs[|pairs| - 1]; Add(TallyOf(pairs[..|pairs| - 1]), last.0, last.1)
  }

  /** Adding one more pair is one more `Add`. */
  lemma TallyOfSnoc<K(!new)>(pairs: seq<(K, real)>, p: (K, real))
    ensures TallyOf(pairs + [p]) == Add(TallyOf(pairs), p.0, p.1)
  {
    assert (pairs + [p])[..|pairs|] == pairs;
  }

  /** The keys of the pairs, in order, repetitions included. */
  function KeysOf<K(==,!new)>(pairs: seq<(K, real)>): (ks: seq<K>)
    ensures |ks| == |pairs|
    ensures forall i :: 0 <= i < |pairs| ==> ks[i] == pairs[i].0
  {
    seq(|pairs|, i requires 0 <= i < |pairs| => pairs[i].0)
  }

  /** The sum of the values paired with `k`. */
  function SumFor<K(==,!new)>(pairs: seq<(K, real)>, k: K): real {
    Sum(pairs, (p: (K, real)) => if p.0 == k then p.1 else 0.0)
  }

  /** The sum of all values. */
  function SumAll<K(==,!new)>(pairs: seq<(K, real)>): real {
    Sum(pairs, (p: (K, real)) => p.1)
  }

  /** `Array.from(m.entries())`. */
  function Entries<K(==,!new)>(t: Tally<K>): (es: seq<(K, real)>)
    requires forall k :: k in t.keys ==> k in t.sums
    ensures |es| == |t.keys|
    ensures forall i :: 0 <= i < |es| ==> es[i] == (t.keys[i], t.sums[t.keys[i]])
  {
    seq(|t.keys|, i requires 0 <= i < |t.keys| => (t.keys[i], t.sums[t.keys[i]]))
  }

  /** The sum of the totals, visiting the keys in order. */
  function Total<K(==,!new)>(keys: seq<K>, sums: map<K, real>): real
    requires forall k :: k in keys ==> k in sums
  {
    if keys == [] then 0.0 else Total(keys[..|keys| - 1], sums) + sums[keys[|keys| - 1]]
  }

  /**
   * The tally of a pair sequence: each key once, in order of first appearance,
   * with the sum of its values; nothing else.
   */
  lemma TallyOfSpec<K(!new)>(pairs: seq<(K, real)>)
    ensures Valid(TallyOf(pairs))
    ensures TallyOf(pairs).keys == Dedup(KeysOf(pairs))
    ensures forall k :: k in TallyOf(pairs).sums ==> TallyOf(pairs).sums[k] == SumFor(pairs, k)
  {
    TallyOfKeys(pairs);
    forall k | k in TallyOf(pairs).sums ensures TallyOf(pairs).sums[k] == SumFor(pairs, k) {
      TallyOfSum(pairs, k);
    }
  }

  /** The keys of a tally are those of its pairs, de-duplicated, and each has a total. */
  lemma {:induction false} TallyOfKeys<K(!new)>(pairs: seq<(K, real)>)
    ensures Valid(TallyOf(pairs))
    ensures TallyOf(pairs).keys == Dedup(KeysOf(pairs))
  {
    if pairs != [] {
      var init := pairs[..|pairs| - 1];
      TallyOfKeys(init);
      assert KeysOf(pairs)[..|pairs| - 1] == KeysOf(init);
    }
  }

  /** The total of one key is the sum of the values paired with it. */
  lemma {:induction false} TallyOfSum<K(!new)>(pairs: seq<(K, real)>, k: K)
    ensures k in TallyOf(pairs).sums ==> TallyOf(pairs).sums[k] == SumFor(pairs, k)
  {
    if pairs != [] {
      var init := pairs[..|pairs| - 1];
      var last := pairs[|pairs| - 1];
      var t := TallyOf(init);
      TallyOfSum(init, k);
      assert SumFor(pairs, k) == SumFor(init, k) + (if last.0 == k then last.1 else 0.0);
      if k !in t.sums {
        TallyOfKeys(init);
        assert k !in KeysOf(init);
        SumForAbsent(init, k);
      }
    }
  }

  /**
   * The entries of a tally of pairs: each row's value is the sum of the values
   * paired with its key, keys do not repeat, and every key of the pairs has a row.
   */
  lemma EntriesSpec<K(!new)>(pairs: seq<(K, real)>)
    ensures Valid(TallyOf(pairs))
    ensures var rows := Entries(TallyOf(pairs));
      && (forall i :: 0 <= i < |rows| ==> rows[i].1 == SumFor(pairs, rows[i].0))
      && (forall i, j :: 0 <= i < j < |rows| ==> rows[i].0 != rows[j].0)
      && (forall k :: k in KeysOf(pairs) ==> exists i :: 0 <= i < |rows| && rows[i].0 == k)
  {
    TallyOfSpec(pairs);
    var t := TallyOf(pairs);
    var rows := Entries(t);
    forall i | 0 <= i < |rows| ensures rows[i].1 == SumFor(pairs, rows[i].0) {
      assert rows[i] == (t.keys[i], t.sums[t.keys[i]]);
    }
    forall k | k in KeysOf(pairs) ensures exists i :: 0 <= i < |rows| && rows[i].0 == k {
      assert k in t.keys;
      var i :| 0 <= i < |t.keys| && t.keys[i] == k;
      assert rows[i].0 == k;
    }
  }

  /** A key that never occurs sums to 0. */
  lemma {:induction false} SumForAbsent<K(!new)>(pairs: seq<(K, real)>, k: K)
    requires k !in KeysOf(pairs)
    ensures SumFor(pairs, k) == 0.0
  {
    if pairs != [] {
      var init := pairs[..|pairs| - 1];
      assert KeysOf(pairs)[..|pairs| - 1] == KeysOf(init);
      SumForAbsent(init, k);
    }
  }

  /** The group totals add up to the sum of all values. */
  lemma {:induction false} TallyTotal<K(!new)>(pairs: seq<(K, real)>)
    ensures Valid(TallyOf(pairs))
    ensures Total(TallyOf(pairs).keys, TallyOf(pairs).sums) == SumAll(pairs)
  {
    if pairs != [] {
      var init := pairs[..|pairs| - 1];
      var last := pairs[|pairs| - 1];
      TallyTotal(init);
      AddTotal(TallyOf(init), last.0, last.1);
      assert SumAll(pairs) == SumAll(init) + last.1;
    }
  }

  /** Adding `v` under a key raises the sum of the totals by `v`. */
  lemma AddTotal<K(!new)>(t: Tally<K>, k: K, v: real)
    requires Valid(t)
    ensures Valid(Add(t, k, v))
    ensures Total(Add(t, k, v).keys, Add(t, k, v).sums) == Total(t.keys, t.sums) + v
  {
    AddValid(t, k, v);
    var a := Add(t, k, v);
    if k in t.sums {
      assert a.keys == t.keys && a.sums == t.sums[k := t.sums[k] + v];
      assert k in t.keys;
      TotalBump(t.keys, t.sums, k, v);
    } else {
      assert a.keys == t.keys + [k] && a.sums == t.sums[k := v];
      assert k !in t.keys;
      TotalExtend(t.keys, t.sums, k, v);
    }
  }

  lemma AddValid<K(!new)>(t: Tally<K>, k: K, v: real)
    requires Valid(t)
    ensures Valid(Add(t, k, v))
  {
  }

  lemma {:induction false} TotalBump<K(!new)>(keys: seq<K>, sums: map<K, real>, k: K, v: real)
    requires Distinct(keys) && k in keys
    requires forall x :: x in keys ==> x in sums
    ensures Total(keys, sums[k := sums[k] + v]) == Total(keys, sums) + v
  {
    var init := keys[..|keys| - 1];
    var last := keys[|keys| - 1];
    if last == k {
      assert k !in init;
      TotalUnchanged(init, sums, k, sums[k] + v);
    } else {
      assert k in init;
      TotalBump(init, sums, k, v);
    }
  }

  lemma {:induction false} TotalUnchanged<K(!new)>(keys: seq<K>, sums: map<K, real>, k: K, v: real)
    requires k !in keys
    requires forall x :: x in keys ==> x in sums
    ensures Total(keys, sums[k := v]) == Total(keys, sums)
  {
    if keys != [] {
      TotalUnchanged(keys[..|keys| - 1], sums, k, v);
    }
  }

  lemma TotalExtend<K(!new)>(keys: seq<K>, sums: map<K, real>, k: K, v: real)
    requires k !in keys
    requires forall x :: x in keys ==> x in sums
    ensures Total(keys + [k], sums[k := v]) == Total(keys, sums) + v
  {
    assert (keys + [k])[..|keys|] == keys;
    TotalUnchanged(keys, sums, k, v);
  }

  /**
   * `Array.from(m.entries()).sort((a, b) => b[1] - a[1])[0]?.[0]`: a key whose total
   * is the largest; `None` when the map is empty.
   */
  function TopKey<K(==,!new)>(t: Tally<K>): (r: Option<K>)
    requires Valid(t)
    ensures r.None? <==> t.keys == []
    ensures r.Some? ==> r.value in t.sums && forall k :: k in t.sums ==> t.sums[k] <= t.sums[r.value]
  {
    var es := Entries(t);
    var sorted := SortBy(es, (e: (K, real)) => -e.1);
    if sorted == [] then None
    else
      FirstIsLargest(t, sorted);
      Some(sorted[0].0)
  }

  lemma FirstIsLargest<K(!new)>(t: Tally<K>, sorted: seq<(K, real)>)
    requires Valid(t)
    requires SortedBy(sorted, (e: (K, real)) => -e.1) && multiset(sorted) == multiset(Entries(t))
    requires sorted != []
    ensures sorted[0].0 in t.sums && sorted[0].1 == t.sums[sorted[0].0]
    ensures forall k :: k in t.sums ==> t.sums[k] <= sorted[0].1
  {
    var es := Entries(t);
    assert sorted[0] in multiset(es);
    forall k | k in t.sums ensures t.sums[k] <= sorted[0].1 {
      var i :| 0 <= i < |t.keys| && t.keys[i] == k;
      assert es[i] in multiset(sorted);
      var j :| 0 <= j < |sorted| && sorted[j] == es[i];
      assert j == 0 || -sorted[0].1 <= -sorted[j].1;
    }
  }
}
