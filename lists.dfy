/**
 * The array operations the pages chain together: `reduce` sums, `filter`,
 * counting, the comparator `sort` (by a numeric key), `slice(0, k)` and the
 * order-keeping de-duplication of `Array.from(new Set(xs))`.
 */
module Lists {

  /** `s.reduce((acc, x) => acc + f(x), 0)`: a left fold, as `reduce` runs. */
  function Sum<T>(s: seq<T>, f: T -> real): real {
    if s == [] then 0.0 else Sum(s[..|s| - 1], f) + f(s[|s| - 1])
  }

  lemma {:induction false} SumAppend<T>(a: seq<T>, b: seq<T>, f: T -> real)
    ensures Sum(a + b, f) == Sum(a, f) + Sum(b, f)
    decreases |b|
  {
    if b != [] {
      assert (a + b)[..|a + b| - 1] == a + b[..|b| - 1];
      assert (a + b)[|a + b| - 1] == b[|b| - 1];
      SumAppend(a, b[..|b| - 1], f);
    } else {
      assert a + b == a;
    }
  }

  /** Summing an empty prefix, then one more element at a time (the step a loop takes). */
  lemma SumStep<T>(s: seq<T>, i: nat, f: T -> real)
    requires i < |s|
    ensures Sum(s[..i + 1], f) == Sum(s[..i], f) + f(s[i])
  {
    assert s[..i + 1][..i] == s[..i];
  }

  /** Two sequences whose elements contribute the same amounts, index by index, have the same sum. */
  lemma {:induction false} SumPointwise<T, U>(a: seq<T>, f: T -> real, b: seq<U>, g: U -> real)
    requires |a| == |b|
    requires forall i :: 0 <= i < |a| ==> f(a[i]) == g(b[i])
    ensures Sum(a, f) == Sum(b, g)
  {
    if a != [] {
      SumPointwise(a[..|a| - 1], f, b[..|b| - 1], g);
    }
  }

  /** A sum of `|s|` terms none below `lo` is at least `|s| * lo`. */
  lemma {:induction false} SumAtLeast<T>(s: seq<T>, f: T -> real, lo: real)
    requires forall i :: 0 <= i < |s| ==> lo <= f(s[i])
    ensures |s| as real * lo <= Sum(s, f)
  {
    if s != [] {
      var init := s[..|s| - 1];
      assert forall i :: 0 <= i < |init| ==> init[i] == s[i];
      SumAtLeast(init, f, lo);
    }
  }

  /** A sum of `|s|` terms none above `hi` is at most `|s| * hi`. */
  lemma {:induction false} SumAtMost<T>(s: seq<T>, f: T -> real, hi: real)
    requires forall i :: 0 <= i < |s| ==> f(s[i]) <= hi
    ensures Sum(s, f) <= |s| as real * hi
  {
    if s != [] {
      var init := s[..|s| - 1];
      assert forall i :: 0 <= i < |init| ==> init[i] == s[i];
      SumAtMost(init, f, hi);
    }
  }

  /** The mean of terms within `[lo, hi]` lies within `[lo, hi]`. */
  lemma MeanWithin<T>(s: seq<T>, f: T -> real, lo: real, hi: real)
    requires s != []
    requires forall i :: 0 <= i < |s| ==> lo <= f(s[i]) <= hi
    ensures lo <= Sum(s, f) / |s| as real <= hi
  {
    SumAtLeast(s, f, lo);
    SumAtMost(s, f, hi);
    DivWithin(Sum(s, f), |s| as real, lo, hi);
  }

  lemma DivWithin(total: real, n: real, lo: real, hi: real)
    requires n > 0.0 && n * lo <= total <= n * hi
    ensures lo <= total / n <= hi
  {
    var avg := total / n;
    assert (avg - lo) * n == total - n * lo;
    assert (hi - avg) * n == n * hi - total;
  }

  /** `s.filter(p).length`. */
  function Count<T>(s: seq<T>, p: T -> bool): (n: nat)
    ensures n <= |s|
  {
    if s == [] then 0 else Count(s[..|s| - 1], p) + (if p(s[|s| - 1]) then 1 else 0)
  }

  lemma {:induction false} CountAppend<T>(a: seq<T>, b: seq<T>, p: T -> bool)
    ensures Count(a + b, p) == Count(a, p) + Count(b, p)
    decreases |b|
  {
    if b != [] {
      assert (a + b)[..|a + b| - 1] == a + b[..|b| - 1];
      assert (a + b)[|a + b| - 1] == b[|b| - 1];
      CountAppend(a, b[..|b| - 1], p);
    } else {
      assert a + b == a;
    }
  }

  /** Reordering a list changes neither a sum over it nor a count of it. */
  lemma {:induction false} SumCountPermutation<T>(a: seq<T>, b: seq<T>, f: T -> real, p: T -> bool)
    requires multiset(a) == multiset(b)
    ensures Sum(a, f) == Sum(b, f)
    ensures Count(a, p) == Count(b, p)
    decreases |a|
  {
    if a != [] {
      var init, x := a[..|a| - 1], a[|a| - 1];
      DropLast(a);
      assert x in multiset(b);
      var j :| 0 <= j < |b| && b[j] == x;
      var rest := b[..j] + b[j + 1..];
      RemoveOne(b, j);
      SumCountPermutation(init, rest, f, p);
      SumCountRemoveOne(b, j, f, p);
      assert Sum(a, f) == Sum(init, f) + f(x);
      assert Count(a, p) == Count(init, p) + (if p(x) then 1 else 0);
    }
  }

  /** Dropping the last element drops one occurrence of it. */
  lemma DropLast<T>(a: seq<T>)
    requires a != []
    ensures multiset(a[..|a| - 1]) == multiset(a) - multiset{a[|a| - 1]}
    ensures a[|a| - 1] in multiset(a)
  {
    assert a == a[..|a| - 1] + [a[|a| - 1]];
  }

  /** Dropping the element at `j` drops one occurrence of it. */
  lemma RemoveOne<T>(b: seq<T>, j: nat)
    requires j < |b|
    ensures multiset(b[..j] + b[j + 1..]) == multiset(b) - multiset{b[j]}
  {
    assert b == b[..j] + [b[j]] + b[j + 1..];
    assert multiset(b) == multiset(b[..j]) + multiset{b[j]} + multiset(b[j + 1..]);
  }

  /** The element at `j` contributes its own term to a sum and to a count. */
  lemma SumCountRemoveOne<T>(b: seq<T>, j: nat, f: T -> real, p: T -> bool)
    requires j < |b|
    ensures Sum(b, f) == Sum(b[..j] + b[j + 1..], f) + f(b[j])
    ensures Count(b, p) == Count(b[..j] + b[j + 1..], p) + (if p(b[j]) then 1 else 0)
  {
    AroundIndex(b, j);
    SumRemoveMiddle(b[..j], b[j], b[j + 1..], f);
    CountRemoveMiddle(b[..j], b[j], b[j + 1..], p);
  }

  /** The elements before `j`, the one at `j` and those after it make up the sequence. */
  lemma AroundIndex<T>(b: seq<T>, j: nat)
    requires j < |b|
    ensures (b[..j] + [b[j]]) + b[j + 1..] == b
  {
    assert b[..j] + [b[j]] == b[..j + 1];
  }

  lemma SumRemoveMiddle<T>(l: seq<T>, x: T, r: seq<T>, f: T -> real)
    ensures Sum((l + [x]) + r, f) == Sum(l + r, f) + f(x)
  {
    SumAppend(l + [x], r, f);
    SumAppend(l, [x], f);
    SumAppend(l, r, f);
    assert [x][..0] == [];
  }

  lemma CountRemoveMiddle<T>(l: seq<T>, x: T, r: seq<T>, p: T -> bool)
    ensures Count((l + [x]) + r, p) == Count(l + r, p) + (if p(x) then 1 else 0)
  {
    CountAppend(l + [x], r, p);
    CountAppend(l, [x], p);
    CountAppend(l, r, p);
    assert [x][..0] == [];
  }

  /** `s.filter(p)`: the elements satisfying `p`, in their original order. */
  function Filter<T(!new)>(s: seq<T>, p: T -> bool): (r: seq<T>)
    ensures |r| == Count(s, p)
    ensures forall x :: x in r <==> x in s && p(x)
  {
    if s == [] then [] else
      var init := Filter(s[..|s| - 1], p);
      assert forall x :: x in s <==> x in s[..|s| - 1] || x == s[|s| - 1];
      if p(s[|s| - 1]) then init + [s[|s| - 1]] else init
  }

  /** The test `y => y !== x`, as one value wherever a list drops `x`. */
  function Other<T(==)>(x: T): T -> bool {
    (y: T) => y != x
  }

  /** Each element is kept as often as it occurs when it passes, and not at all otherwise. */
  lemma {:induction false} FilterMultiplicity<T(!new)>(s: seq<T>, p: T -> bool, x: T)
    ensures multiset(Filter(s, p))[x] == if p(x) then multiset(s)[x] else 0
  {
    if s != [] {
      var init := s[..|s| - 1];
      FilterMultiplicity(init, p, x);
      assert s == init + [s[|s| - 1]];
    }
  }

  /** A filter step that a control switches on or off: `on ? s.filter(p) : s`. */
  function FilterIf<T(!new)>(on: bool, s: seq<T>, p: T -> bool): seq<T> {
    if on then Filter(s, p) else s
  }

  /** A switched step drops exactly the elements its test rejects, when it is on. */
  lemma FilterIfMultiplicity<T(!new)>(on: bool, s: seq<T>, p: T -> bool, x: T)
    ensures multiset(FilterIf(on, s, p))[x] == if on && !p(x) then 0 else multiset(s)[x]
  {
    if on {
      FilterMultiplicity(s, p, x);
    }
  }

  /** The filtered sequence is a sub-multiset of its input. */
  lemma {:induction false} FilterSubMultiset<T(!new)>(s: seq<T>, p: T -> bool)
    ensures multiset(Filter(s, p)) <= multiset(s)
  {
    if s != [] {
      FilterSubMultiset(s[..|s| - 1], p);
      assert s == s[..|s| - 1] + [s[|s| - 1]];
    }
  }

  /** Filtering twice by the same test changes nothing the second time. */
  lemma {:induction false} FilterIdempotent<T(!new)>(s: seq<T>, p: T -> bool)
    ensures Filter(Filter(s, p), p) == Filter(s, p)
  {
    if s != [] {
      var init := s[..|s| - 1];
      FilterIdempotent(init, p);
      var fi := Filter(init, p);
      if p(s[|s| - 1]) {
        assert (fi + [s[|s| - 1]])[..|fi|] == fi;
      }
    }
  }

  // ---------------------------------------------------------------- ordering by a key

  predicate SortedBy<T>(s: seq<T>, key: T -> real) {
    forall i, j :: 0 <= i < j < |s| ==> key(s[i]) <= key(s[j])
  }

  /** Places `x` after every element whose key is not larger: equal keys keep their order. */
  function Insert<T>(x: T, s: seq<T>, key: T -> real): (r: seq<T>)
    requires SortedBy(s, key)
    ensures SortedBy(r, key)
    ensures multiset(r) == multiset(s) + multiset{x}
    ensures |r| == |s| + 1
  {
    if s == [] then [x]
    else if key(x) < key(s[0]) then [x] + s
    else
      var rest := Insert(x, s[1..], key);
      InsertBehindHead(x, s, key, rest);
      [s[0]] + rest
  }

  /** The head of a sorted list, with a key not larger than `x`'s, stays in front of the rest with `x` inserted. */
  lemma InsertBehindHead<T>(x: T, s: seq<T>, key: T -> real, rest: seq<T>)
    requires SortedBy(s, key) && s != [] && key(s[0]) <= key(x)
    requires SortedBy(rest, key) && multiset(rest) == multiset(s[1..]) + multiset{x} && |rest| == |s|
    ensures SortedBy([s[0]] + rest, key)
    ensures multiset([s[0]] + rest) == multiset(s) + multiset{x}
  {
    forall j | 0 <= j < |rest| ensures key(s[0]) <= key(rest[j]) {
      var y := rest[j];
      assert y in multiset(rest);
      if y != x {
        assert y in multiset(s[1..]);
        var k :| 0 <= k < |s[1..]| && s[1..][k] == y;
        assert s[k + 1] == y;
      }
    }
    var r := [s[0]] + rest;
    forall i, j | 0 <= i < j < |r| ensures key(r[i]) <= key(r[j]) {
      assert r[j] == rest[j - 1];
      if i > 0 {
        assert r[i] == rest[i - 1];
      }
    }
    assert s == [s[0]] + s[1..];
  }

  /**
   * `[...s].sort((a, b) => key(a) - key(b))`: a stable sort ascending by `key`.
   * The result is ordered and is a permutation of the input.
   */
  function SortBy<T>(s: seq<T>, key: T -> real): (r: seq<T>)
    ensures SortedBy(r, key)
    ensures multiset(r) == multiset(s)
    ensures |r| == |s|
  {
    if s == [] then [] else
      assert s == s[..|s| - 1] + [s[|s| - 1]];
      Insert(s[|s| - 1], SortBy(s[..|s| - 1], key), key)
  }

  /** Filtering distributes over concatenation. */
  lemma {:induction false} FilterConcat<T(!new)>(a: seq<T>, b: seq<T>, p: T -> bool)
    ensures Filter(a + b, p) == Filter(a, p) + Filter(b, p)
    decreases |b|
  {
    if b != [] {
      var init, last := b[..|b| - 1], b[|b| - 1];
      FilterConcat(a, init, p);
      assert (a + b)[..|a + b| - 1] == a + init;
      assert (a + b)[|a + b| - 1] == last;
    } else {
      assert a + b == a;
    }
  }

  /** The test "has key `c`". */
  function HasKey<T>(key: T -> real, c: real): T -> bool {
    (y: T) => key(y) == c
  }

  lemma FilterSingleton<T(!new)>(x: T, p: T -> bool)
    ensures Filter([x], p) == if p(x) then [x] else []
  {
    assert [x][..0] == [];
  }

  /** No element of a list sorted by `key` has the key of something placed in front of it. */
  lemma NoneOfSmallerKey<T(!new)>(x: T, s: seq<T>, key: T -> real)
    requires SortedBy(s, key) && s != [] && key(x) < key(s[0])
    ensures Filter(s, HasKey(key, key(x))) == []
  {
  }

  /** Inserting `x` puts it behind every element of the same key and leaves their order as it was. */
  lemma {:induction false} InsertStable<T(!new)>(x: T, s: seq<T>, key: T -> real, c: real)
    requires SortedBy(s, key)
    ensures Filter(Insert(x, s, key), HasKey(key, c)) == Filter(s, HasKey(key, c)) + (if key(x) == c then [x] else [])
    decreases |s|, 1
  {
    var p := HasKey(key, c);
    FilterSingleton(x, p);
    if s == [] {
      assert Insert(x, s, key) == [x];
    } else if key(x) < key(s[0]) {
      assert Insert(x, s, key) == [x] + s;
      FilterConcat([x], s, p);
      if key(x) == c {
        NoneOfSmallerKey(x, s, key);
      }
    } else {
      InsertStableBehind(x, s, key, c);
    }
  }

  lemma {:induction false} InsertStableBehind<T(!new)>(x: T, s: seq<T>, key: T -> real, c: real)
    requires SortedBy(s, key) && s != [] && key(s[0]) <= key(x)
    ensures Filter(Insert(x, s, key), HasKey(key, c)) == Filter(s, HasKey(key, c)) + (if key(x) == c then [x] else [])
    decreases |s|, 0
  {
    var p := HasKey(key, c);
    var one := if key(x) == c then [x] else [];
    var head, tail := [s[0]], s[1..];
    var rest := Insert(x, tail, key);
    calc {
      Filter(Insert(x, s, key), p);
      Filter(head + rest, p);
    == { FilterConcat(head, rest, p); }
      Filter(head, p) + Filter(rest, p);
    == { InsertStable(x, tail, key, c); }
      Filter(head, p) + (Filter(tail, p) + one);
      (Filter(head, p) + Filter(tail, p)) + one;
    == { FilterConcat(head, tail, p); }
      Filter(head + tail, p) + one;
    == { assert head + tail == s; }
      Filter(s, p) + one;
    }
  }

  /** The sort is stable: the elements of any one key keep their relative order. */
  lemma {:induction false} SortByStable<T(!new)>(s: seq<T>, key: T -> real, c: real)
    ensures Filter(SortBy(s, key), HasKey(key, c)) == Filter(s, HasKey(key, c))
  {
    if s != [] {
      var init, last := s[..|s| - 1], s[|s| - 1];
      SortByStable(init, key, c);
      InsertStable(last, SortBy(init, key), key, c);
    }
  }

  /** Two sequences with the same multiset have the same members. */
  lemma SameMembers<T>(a: seq<T>, b: seq<T>)
    requires multiset(a) == multiset(b)
    ensures forall x :: x in a <==> x in b
  {
    forall x ensures x in a <==> x in b {
      assert x in a <==> x in multiset(a);
      assert x in b <==> x in multiset(b);
    }
  }

  /**
   * One step of `sort` with a comparator, as an insertion sort runs it: `x`
   * goes before the first element `y` with `cmp(x, y) < 0`. A comparison that
   * is `NaN` counts as 0, so `cmp` stands for the comparator with `NaN` read as 0.
   */
  function InsertWith<T>(x: T, s: seq<T>, cmp: (T, T) -> real): (r: seq<T>)
    ensures multiset(r) == multiset(s) + multiset{x}
  {
    if s == [] then [x]
    else if cmp(x, s[0]) < 0.0 then [x] + s
    else
      assert s == [s[0]] + s[1..];
      [s[0]] + InsertWith(x, s[1..], cmp)
  }

  /** `[...s].sort(cmp)`, stable: a permutation of `s`. */
  function SortWith<T>(s: seq<T>, cmp: (T, T) -> real): (r: seq<T>)
    ensures multiset(r) == multiset(s)
  {
    if s == [] then [] else
      assert s == s[..|s| - 1] + [s[|s| - 1]];
      InsertWith(s[|s| - 1], SortWith(s[..|s| - 1], cmp), cmp)
  }

  /** Two elements swap exactly when the second compares below the first. */
  lemma SortWithPair<T>(a: T, b: T, cmp: (T, T) -> real)
    ensures SortWith([a, b], cmp) == if cmp(b, a) < 0.0 then [b, a] else [a, b]
  {
    assert [a, b][..1] == [a];
    assert [a][..0] == [];
    assert SortWith([a], cmp) == [a];
  }

  lemma {:induction false} InsertWithKey<T>(x: T, s: seq<T>, cmp: (T, T) -> real, key: T -> real, ok: T -> bool)
    requires SortedBy(s, key)
    requires ok(x) && forall i :: 0 <= i < |s| ==> ok(s[i])
    requires forall a, b :: ok(a) && ok(b) ==> (cmp(a, b) < 0.0 <==> key(a) < key(b))
    ensures InsertWith(x, s, cmp) == Insert(x, s, key)
  {
    if s != [] && !(cmp(x, s[0]) < 0.0) {
      var tail := s[1..];
      assert forall i :: 0 <= i < |tail| ==> tail[i] == s[i + 1];
      InsertWithKey(x, tail, cmp, key, ok);
    }
  }

  /**
   * A comparator whose sign, on the elements that satisfy `ok`, is that of a
   * key difference, as `a.x - b.x` is, sorts a list of such elements exactly
   * as the stable sort by that key.
   */
  lemma {:induction false} SortWithKeyOn<T>(s: seq<T>, cmp: (T, T) -> real, key: T -> real, ok: T -> bool)
    requires forall i :: 0 <= i < |s| ==> ok(s[i])
    requires forall a, b :: ok(a) && ok(b) ==> (cmp(a, b) < 0.0 <==> key(a) < key(b))
    ensures SortWith(s, cmp) == SortBy(s, key)
  {
    if s != [] {
      var init := s[..|s| - 1];
      assert forall i :: 0 <= i < |init| ==> init[i] == s[i];
      SortWithKeyOn(init, cmp, key, ok);
      var sorted := SortBy(init, key);
      forall i | 0 <= i < |sorted| ensures ok(sorted[i]) {
        assert sorted[i] in multiset(init);
        var j :| 0 <= j < |init| && init[j] == sorted[i];
      }
      InsertWithKey(s[|s| - 1], sorted, cmp, key, ok);
    }
  }

  /** The same for a comparator that agrees with the key everywhere. */
  lemma SortWithKey<T>(s: seq<T>, cmp: (T, T) -> real, key: T -> real)
    requires forall a, b :: cmp(a, b) < 0.0 <==> key(a) < key(b)
    ensures SortWith(s, cmp) == SortBy(s, key)
  {
    SortWithKeyOn(s, cmp, key, (x: T) => true);
  }

  lemma {:induction false} InsertWithTiesLast<T>(x: T, s: seq<T>, cmp: (T, T) -> real)
    requires forall i :: 0 <= i < |s| ==> cmp(x, s[i]) >= 0.0
    ensures InsertWith(x, s, cmp) == s + [x]
  {
    if s != [] {
      var tail := s[1..];
      assert cmp(x, s[0]) >= 0.0;
      assert forall i :: 0 <= i < |tail| ==> cmp(x, tail[i]) >= 0.0 by {
        forall i | 0 <= i < |tail| ensures cmp(x, tail[i]) >= 0.0 {
          assert tail[i] == s[i + 1];
        }
      }
      InsertWithTiesLast(x, tail, cmp);
      assert InsertWith(x, s, cmp) == [s[0]] + (tail + [x]);
      assert s == [s[0]] + tail;
    }
  }

  /** Comparisons among all of `s` that never answer "before" never do so among its prefix and last element either. */
  lemma TiesInit<T>(s: seq<T>, cmp: (T, T) -> real)
    requires s != []
    requires forall i, j :: 0 <= i < |s| && 0 <= j < |s| ==> cmp(s[i], s[j]) >= 0.0
    ensures var init := s[..|s| - 1];
      forall i, j :: 0 <= i < |init| && 0 <= j < |init| ==> cmp(init[i], init[j]) >= 0.0
    ensures var init := s[..|s| - 1];
      forall i :: 0 <= i < |init| ==> cmp(s[|s| - 1], init[i]) >= 0.0
  {
    var init := s[..|s| - 1];
    forall i, j | 0 <= i < |init| && 0 <= j < |init| ensures cmp(init[i], init[j]) >= 0.0 {
      assert init[i] == s[i] && init[j] == s[j];
    }
    forall i | 0 <= i < |init| ensures cmp(s[|s| - 1], init[i]) >= 0.0 {
      assert init[i] == s[i];
    }
  }

  /** Sorting a non-empty sequence inserts its last element into its sorted prefix. */
  lemma SortWithSnoc<T>(s: seq<T>, cmp: (T, T) -> real)
    requires s != []
    ensures SortWith(s, cmp) == InsertWith(s[|s| - 1], SortWith(s[..|s| - 1], cmp), cmp)
  {
  }

  /** A comparator that never answers "before" (every comparison 0 or `NaN`) leaves the order as it is. */
  lemma {:induction false} SortWithTies<T>(s: seq<T>, cmp: (T, T) -> real)
    requires forall i, j :: 0 <= i < |s| && 0 <= j < |s| ==> cmp(s[i], s[j]) >= 0.0
    ensures SortWith(s, cmp) == s
  {
    if s != [] {
      var init := s[..|s| - 1];
      var x := s[|s| - 1];
      TiesInit(s, cmp);
      SortWithTies(init, cmp);
      InsertWithTiesLast(x, init, cmp);
      calc {
        SortWith(s, cmp);
      == { SortWithSnoc(s, cmp); }
        InsertWith(x, SortWith(init, cmp), cmp);
      ==
        InsertWith(x, init, cmp);
      ==
        init + [x];
      == { assert s == init + [x]; }
        s;
      }
    }
  }

  /** `s.slice(0, k)`. */
  function Take<T>(s: seq<T>, k: nat): (r: seq<T>)
    ensures |r| == if k <= |s| then k else |s|
    ensures r == s[..|r|]
  {
    if k <= |s| then s[..k] else s
  }

  /**
   * `[...s].sort(by key).slice(0, k)`: at most `k` elements of `s`, ordered by `key`;
   * together with the elements left out they make up `s`, and no element left out
   * has a smaller key than an element kept.
   */
  lemma SmallestFirst<T>(s: seq<T>, key: T -> real, k: nat)
    ensures SortedBy(Take(SortBy(s, key), k), key)
    ensures var r := SortBy(s, key); var t := Take(r, k);
      multiset(s) == multiset(t) + multiset(r[|t|..])
    ensures var r := SortBy(s, key); var t := Take(r, k);
      forall x, y :: x in r[|t|..] && y in t ==> key(y) <= key(x)
  {
    var r := SortBy(s, key);
    var t := Take(r, k);
    assert r == t + r[|t|..];
    SortedSplit(r, key, |t|);
  }

  lemma SortedSplit<T>(r: seq<T>, key: T -> real, n: nat)
    requires SortedBy(r, key) && n <= |r|
    ensures SortedBy(r[..n], key)
    ensures forall x, y :: x in r[n..] && y in r[..n] ==> key(y) <= key(x)
  {
    forall x, y | x in r[n..] && y in r[..n] ensures key(y) <= key(x) {
      var i :| 0 <= i < n && r[..n][i] == y;
      var j :| 0 <= j < |r| - n && r[n..][j] == x;
      assert r[i] == y && r[n + j] == x;
    }
  }

  // ---------------------------------------------------------------- distinctness

  predicate Distinct<T(==)>(s: seq<T>) {
    forall i, j :: 0 <= i < j < |s| ==> s[i] != s[j]
  }

  /** `Array.from(new Set(s))`: each element once, at its first occurrence. */
  function Dedup<T(==, !new)>(s: seq<T>): (r: seq<T>)
    ensures Distinct(r)
    ensures forall x :: x in r <==> x in s
    ensures |r| <= |s|
  {
    if s == [] then [] else
      var init := Dedup(s[..|s| - 1]);
      assert forall x :: x in s <==> x in s[..|s| - 1] || x == s[|s| - 1];
      if s[|s| - 1] in init then init else init + [s[|s| - 1]]
  }

  /** One more element is appended to the de-duplication unless it is already there. */
  lemma DedupSnoc<T(!new)>(s: seq<T>, x: T)
    ensures Dedup(s + [x]) == if x in Dedup(s) then Dedup(s) else Dedup(s) + [x]
  {
    assert (s + [x])[..|s|] == s;
  }

  /** A sequence without repetitions is its own de-duplication. */
  lemma {:induction false} DedupOfDistinct<T(!new)>(s: seq<T>)
    requires Distinct(s)
    ensures Dedup(s) == s
  {
    if s != [] {
      DedupOfDistinct(s[..|s| - 1]);
      assert s == s[..|s| - 1] + [s[|s| - 1]];
    }
  }

  /** Filtering keeps a sequence free of repetitions. */
  lemma {:induction false} FilterKeepsDistinct<T(!new)>(s: seq<T>, p: T -> bool)
    requires Distinct(s)
    ensures Distinct(Filter(s, p))
  {
    if s != [] {
      var init := s[..|s| - 1];
      assert Distinct(init);
      FilterKeepsDistinct(init, p);
    }
  }

  /** Filtering by a test every element passes changes nothing. */
  lemma {:induction false} FilterAllPass<T(!new)>(s: seq<T>, p: T -> bool)
    requires forall x :: x in s ==> p(x)
    ensures Filter(s, p) == s
  {
    if s != [] {
      var init, last := s[..|s| - 1], s[|s| - 1];
      assert s == init + [last];
      assert p(last);
      assert forall x :: x in init ==> x in s;
      FilterAllPass(init, p);
      assert Filter(s, p) == Filter(init, p) + [last];
    }
  }

  /** An element that fails the test, appended at the end, is filtered away. */
  lemma FilterAppendFailing<T(!new)>(s: seq<T>, x: T, p: T -> bool)
    requires !p(x)
    ensures Filter(s + [x], p) == Filter(s, p)
  {
    assert (s + [x])[..|s|] == s;
  }
}
