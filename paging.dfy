/** The page arithmetic of the Products and Sales lists: `Math.ceil(n / size)` pages and `slice`. */
module Paging {

  /** `Math.ceil(n / size)`: the fewest pages of `size` rows that hold `n` rows. */
  function TotalPages(n: nat, size: nat): (p: nat)
    requires size > 0
    ensures (p == 0) == (n == 0)
    ensures n <= p * size
    ensures p == 0 || (p - 1) * size < n
  {
    var q := (n + size - 1) / size;
    var r := (n + size - 1) % size;
    assert n + size - 1 == q * size + r;
    assert (q - 1) * size == q * size - size;
    q
  }

  /** `s.slice((page - 1) * size, page * size)`; the page counter starts at 1 and never goes below it. */
  function Page<T>(s: seq<T>, page: nat, size: nat): (r: seq<T>)
    requires page >= 1
    ensures |r| <= size
    ensures r == s[Clamp((page - 1) * size, |s|)..Clamp(page * size, |s|)]
  {
    assert (page - 1) * size + size == page * size;
    s[Clamp((page - 1) * size, |s|)..Clamp(page * size, |s|)]
  }

  function Clamp(i: nat, n: nat): (r: nat)
    ensures r <= n && r <= i && (r == i || r == n)
  {
    if i <= n then i else n
  }

  /** Pages 1 to k, one after the other. */
  function FirstPages<T>(s: seq<T>, size: nat, k: nat): seq<T> {
    if k == 0 then [] else FirstPages(s, size, k - 1) + Page(s, k, size)
  }

  /** The first k pages are exactly the first k * size rows. */
  lemma {:induction false} FirstPagesArePrefix<T>(s: seq<T>, size: nat, k: nat)
    ensures FirstPages(s, size, k) == s[..Clamp(k * size, |s|)]
  {
    if k > 0 {
      FirstPagesArePrefix(s, size, k - 1);
      assert (k - 1) * size + size == k * size;
      assert (k - 1) * size <= k * size;
      var lo := Clamp((k - 1) * size, |s|);
      var hi := Clamp(k * size, |s|);
      assert s[..lo] + s[lo..hi] == s[..hi];
    }
  }

  /** Paging loses no row and repeats none: all pages together are the whole list, in order. */
  lemma PagesCoverList<T>(s: seq<T>, size: nat)
    requires size > 0
    ensures FirstPages(s, size, TotalPages(|s|, size)) == s
  {
    var p := TotalPages(|s|, size);
    FirstPagesArePrefix(s, size, p);
    assert s[..|s|] == s;
  }

  /** The Next button: disabled on the last page. */
  function NextPage(page: nat, total: nat): nat {
    if page == total then page else page + 1
  }

  /** The Prev button: disabled on page 1. */
  function PrevPage(page: nat): nat
    requires page >= 1
  {
    if page == 1 then page else page - 1
  }

  /**
   * The buttons keep the page counter within 1 to the number of pages, and
   * within that range each page shows at least one row.
   */
  lemma PagerInRange<T>(s: seq<T>, size: nat, page: nat)
    requires size > 0
    requires 1 <= page <= TotalPages(|s|, size)
    ensures 1 <= NextPage(page, TotalPages(|s|, size)) <= TotalPages(|s|, size)
    ensures 1 <= PrevPage(page) <= TotalPages(|s|, size)
    ensures Page(s, page, size) != []
  {
    var p := TotalPages(|s|, size);
    assert (page - 1) * size <= (p - 1) * size;
    assert page * size >= (page - 1) * size + 1;
  }

  /** `totalPages > 1`: the condition under which the Prev/Next pager is rendered at all. */
  predicate PagerShown(n: nat, size: nat)
    requires size > 0
  {
    TotalPages(n, size) > 1
  }

  /**
   * The pager is shown exactly when the rows do not fit on one page. When it
   * is hidden (in particular for an empty list, which has no pages) no button
   * can move the counter, and page 1, where every filter change puts it,
   * shows the whole list.
   */
  lemma PagerHiddenShowsAll<T>(s: seq<T>, size: nat)
    requires size > 0
    ensures PagerShown(|s|, size) <==> |s| > size
    ensures !PagerShown(|s|, size) ==> Page(s, 1, size) == s
  {
    var p := TotalPages(|s|, size);
    if |s| <= size {
      assert s[0..|s|] == s;
    }
  }
}
