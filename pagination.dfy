/** The pagination arithmetic every admin table shares: the page count,
    the page slice, the sliding window of at most five page buttons, the
    full page list, the "Showing a to b of n" bounds and the previous/next
    buttons, both the clamping and the guarded kind. */
module Pagination {
  import opened Arith

  function Min(a: int, b: int): int { if a <= b then a else b }
  function Max(a: int, b: int): int { if a >= b then a else b }

  /** `Math.ceil(count / size)`: the fewest pages of `size` rows holding `count` rows. */
  function TotalPages(count: nat, size: nat): (tp: nat)
    requires size > 0
    ensures count <= tp * size
    ensures tp > 0 ==> (tp - 1) * size < count
    ensures tp == 0 <==> count == 0
  {
    (count + size - 1) / size
  }

  /** The page number of the `i`-th button of the window. */
  function WindowPage(cp: int, tp: nat, i: nat): int {
    if tp <= 5 then i + 1
    else if cp <= 3 then i + 1
    else if cp >= tp - 2 then tp - 4 + i
    else cp - 2 + i
  }

  /** `Array.from({ length: Math.min(totalPages, 5) }, …)`: at most five
      consecutive ascending page numbers, all of them real pages, whatever
      the current page is. */
  function Window(cp: int, tp: nat): (w: seq<int>)
    ensures |w| == Min(tp, 5)
    ensures forall k :: 0 <= k < |w| ==> 1 <= w[k] <= tp
    ensures forall k :: 0 < k < |w| ==> w[k] == w[k - 1] + 1
  {
    seq(Min(tp, 5), k requires 0 <= k => WindowPage(cp, tp, k))
  }

  /** The current page has a button in the window exactly when it is a real page. */
  lemma WindowHasCurrent(cp: int, tp: nat)
    ensures cp in Window(cp, tp) <==> 1 <= cp <= tp
  {
    var w := Window(cp, tp);
    if 1 <= cp <= tp {
      if tp <= 5 || cp <= 3 {
        assert w[cp - 1] == cp;
      } else if cp >= tp - 2 {
        assert w[cp - tp + 4] == cp;
      } else {
        assert w[2] == cp;
      }
    }
  }

  /** The window starts at page 1 while the current page is near the start,
      ends at the last page near the end, and otherwise centres on the
      current page. */
  lemma WindowPosition(cp: int, tp: nat)
    requires tp > 0
    ensures cp <= 3 ==> Window(cp, tp)[0] == 1
    ensures cp >= tp - 2 ==> Window(cp, tp)[|Window(cp, tp)| - 1] == tp
    ensures tp > 5 && 3 < cp < tp - 2 ==> Window(cp, tp)[2] == cp
  {
  }

  /** `Array.from({ length: totalPages }, (_, i) => i + 1)`: every page, once, in order. */
  function PageList(tp: nat): (r: seq<int>)
    ensures |r| == tp
    ensures forall k :: 0 <= k < tp ==> r[k] == k + 1
  {
    seq(tp, k requires 0 <= k => k + 1)
  }

  lemma PageListMembers(tp: nat, x: int)
    ensures x in PageList(tp) <==> 1 <= x <= tp
  {
    if 1 <= x <= tp {
      assert PageList(tp)[x - 1] == x;
    }
  }

  /** With five pages or fewer the window is the full page list. */
  lemma WindowOfFewPages(cp: int, tp: nat)
    requires tp <= 5
    ensures Window(cp, tp) == PageList(tp)
  {
  }

  /** The index `Array.prototype.slice` starts or stops at: a negative
      argument counts from the end, and both are clamped to the array. */
  function SliceIndex(i: int, len: nat): (r: nat)
    ensures r <= len
    ensures 0 <= i <= len ==> r == i
  {
    if i < 0 then (if len + i < 0 then 0 else len + i)
    else if i > len then len
    else i
  }

  /** `s.slice(start, end)` in JavaScript. */
  function JsSlice<T>(s: seq<T>, start: int, end: int): (r: seq<T>)
    ensures |r| <= |s|
    ensures SliceIndex(start, |s|) + |r| <= |s|
    ensures forall k :: 0 <= k < |r| ==> r[k] == s[SliceIndex(start, |s|) + k]
  {
    var from := SliceIndex(start, |s|);
    var to := SliceIndex(end, |s|);
    if from < to then s[from..to] else []
  }

  /** `s.slice((page - 1) * size, page * size)`. */
  function PageSlice<T>(s: seq<T>, page: int, size: nat): seq<T> {
    JsSlice(s, (page - 1) * size, page * size)
  }

  /** A page never holds more than `size` rows, whatever the page number. */
  lemma PageSliceSize<T>(s: seq<T>, page: int, size: nat)
    ensures |PageSlice(s, page, size)| <= size
  {
    var a := (page - 1) * size;
    assert page * size == a + size;
    SliceIndexSpread(a, size, |s|);
  }

  /** Normalising two indices `size` apart leaves them at most `size` apart. */
  lemma SliceIndexSpread(a: int, size: nat, n: nat)
    ensures SliceIndex(a + size, n) <= SliceIndex(a, n) + size
  {
  }

  /** From page 1 on, a page is the rows from `(page - 1) * size` up to
      `page * size`, cut off at the end of the array. */
  lemma PageSliceContents<T>(s: seq<T>, page: int, size: nat)
    requires page >= 1
    ensures PageSlice(s, page, size) == s[Min((page - 1) * size, |s|)..Min(page * size, |s|)]
  {
    var a := (page - 1) * size;
    var b := page * size;
    MulMonotone(0, page - 1, size);
    assert b == a + size;
    var from := SliceIndex(a, |s|);
    var to := SliceIndex(b, |s|);
    assert from == Min(a, |s|) && to == Min(b, |s|);
    if from == to {
      assert s[from..to] == [];
    }
  }

  /** From page 1 on, the `k`-th row of a page is row `(page - 1) * size + k`. */
  lemma PageSliceRows<T>(s: seq<T>, page: int, size: nat)
    requires page >= 1
    ensures forall k :: 0 <= k < |PageSlice(s, page, size)| ==>
      (page - 1) * size + k < |s| && PageSlice(s, page, size)[k] == s[(page - 1) * size + k]
  {
    var a := (page - 1) * size;
    MulMonotone(0, page - 1, size);
    assert page * size == a + size;
    PageSliceContents(s, page, size);
    var r := PageSlice(s, page, size);
    var lo := Min(a, |s|);
    var hi := Min(page * size, |s|);
    assert r == s[lo..hi];
    if a >= |s| {
      assert r == [];
    } else {
      assert lo == a;
      forall k | 0 <= k < |r| ensures a + k < |s| && r[k] == s[a + k] {
        assert r[k] == s[lo..hi][k];
      }
    }
  }

  /** Pages 1 to `n` laid end to end. */
  function Pages<T>(s: seq<T>, size: nat, n: nat): seq<T> {
    if n == 0 then [] else Pages(s, size, n - 1) + PageSlice(s, n, size)
  }

  lemma {:induction false} PagesPrefix<T>(s: seq<T>, size: nat, n: nat)
    ensures Pages(s, size, n) == s[..Min(n * size, |s|)]
  {
    if n > 0 {
      PagesPrefix(s, size, n - 1);
      PageSliceContents(s, n, size);
      assert (n - 1) * size <= n * size;
      var lo := Min((n - 1) * size, |s|);
      var hi := Min(n * size, |s|);
      assert s[..lo] + s[lo..hi] == s[..hi];
    }
  }

  /** The pages 1 to `totalPages` together are the whole array, in order:
      no row is skipped or shown twice. */
  lemma PagesCoverAll<T>(s: seq<T>, size: nat)
    requires size > 0
    ensures Pages(s, size, TotalPages(|s|, size)) == s
  {
    PagesPrefix(s, size, TotalPages(|s|, size));
  }

  /** The first row number a table page shows: `(page - 1) * size + 1`. */
  function StartItem(page: int, size: nat): int {
    (page - 1) * size + 1
  }

  /** The last row number: `Math.min(page * size, total)`. */
  function EndItem(page: int, size: nat, total: nat): int {
    Min(page * size, total)
  }

  /** On a real page, "Showing start to end" counts exactly the rows of its slice. */
  lemma ShowingCountsSlice<T>(s: seq<T>, page: int, size: nat)
    requires size > 0 && 1 <= page <= TotalPages(|s|, size)
    ensures 1 <= StartItem(page, size) <= EndItem(page, size, |s|) <= |s|
    ensures EndItem(page, size, |s|) - StartItem(page, size) + 1 == |PageSlice(s, page, size)|
  {
    var tp := TotalPages(|s|, size);
    MulMonotone(page - 1, tp - 1, size);
    PageSliceLength(s, page, size);
  }

  lemma PageSliceLength<T>(s: seq<T>, page: int, size: nat)
    requires page >= 1
    ensures |PageSlice(s, page, size)| == Min(page * size, |s|) - Min((page - 1) * size, |s|)
  {
    var a := (page - 1) * size;
    MulMonotone(0, page - 1, size);
    assert page * size == a + size;
    PageSliceContents(s, page, size);
  }

  /** "Showing min(start, len)–min(end, len)": both bounds clamped to `len`. */
  function ClampedShowing(page: int, size: nat, len: nat): (r: (int, int)) {
    (Min(StartItem(page, size), len), Min(page * size, len))
  }

  /** When `len` is the length of the whole client-side list, the clamped
      bounds are the first and last row numbers of the page slice. */
  lemma ClampedShowingOfWholeList<T>(s: seq<T>, page: int, size: nat)
    requires size > 0 && 1 <= page <= TotalPages(|s|, size)
    ensures ClampedShowing(page, size, |s|).1 - ClampedShowing(page, size, |s|).0 + 1 == |PageSlice(s, page, size)|
  {
    ShowingCountsSlice(s, page, size);
  }

  /** The clamped bounds are in order on every page from 1 on. */
  lemma ClampedShowingOrdered(page: int, size: nat, len: nat)
    requires page >= 1 && len >= 1 && size > 0
    ensures 1 <= ClampedShowing(page, size, len).0 <= ClampedShowing(page, size, len).1 <= len
  {
    assert page * size == (page - 1) * size + size;
    MulMonotone(0, page - 1, size);
  }

  /** Clamping to the rows of a later page, as the server-paged tables do,
      collapses the range to the single number `len`: a page of `len`
      rows reads "len–len", counting one row. */
  lemma ClampedShowingOnLaterPage(page: int, size: nat, len: nat)
    requires page >= 2 && 1 <= len <= size
    ensures ClampedShowing(page, size, len) == (len, len)
    ensures len >= 2 ==> ClampedShowing(page, size, len).1 - ClampedShowing(page, size, len).0 + 1 != len
  {
    MulMonotone(1, page - 1, size);
    MulMonotone(1, page, size);
  }

  /** The bounds a server-paged table shows, given the `len` rows of the
      current page: from `(page - 1) * size + 1` to
      `min(page * size, (page - 1) * size + len)`. */
  function OffsetShowing(page: int, size: nat, len: nat): (r: (int, int)) {
    (StartItem(page, size), Min(page * size, (page - 1) * size + len))
  }

  /** A non-empty server page of at most `size` rows shows exactly `len`
      row numbers, starting after the rows of the earlier pages. */
  lemma OffsetShowingCountsRows(page: int, size: nat, len: nat)
    requires page >= 1 && 1 <= len <= size
    ensures OffsetShowing(page, size, len).0 == (page - 1) * size + 1
    ensures OffsetShowing(page, size, len).1 - OffsetShowing(page, size, len).0 + 1 == len
  {
    assert (page - 1) * size + len <= page * size;
  }

  /** `handlePageChange`: the page moves to `requested` only when it is a
      real page; otherwise the current page stays. */
  function Guarded(current: int, requested: int, tp: nat): (r: int)
    ensures r == requested || r == current
    ensures r == requested <==> 1 <= requested <= tp || requested == current
  {
    if requested >= 1 && requested <= tp then requested else current
  }

  /** The guard keeps the current page a real page once it is one. */
  lemma GuardedStaysInRange(current: int, requested: int, tp: nat)
    requires 1 <= current <= tp
    ensures 1 <= Guarded(current, requested, tp) <= tp
  {
  }

  /** `setCurrentPage(prev => Math.max(prev - 1, 1))`. */
  function PrevClamped(current: int): (r: int)
    ensures r >= 1
    ensures current > 1 ==> r == current - 1
    ensures current <= 1 ==> r == 1
  {
    Max(current - 1, 1)
  }

  /** `setCurrentPage(prev => Math.min(prev + 1, totalPages))`. */
  function NextClamped(current: int, tp: nat): (r: int)
    ensures r <= tp
    ensures current < tp ==> r == current + 1
    ensures current >= tp ==> r == tp
  {
    Min(current + 1, tp)
  }

  /** The clamps keep a real page a real page. */
  lemma ClampsStayInRange(current: int, tp: nat)
    requires 1 <= current <= tp
    ensures 1 <= PrevClamped(current) <= tp
    ensures 1 <= NextClamped(current, tp) <= tp
  {
  }

  /** The previous button is disabled on page 1. */
  predicate PrevDisabled(current: int) {
    current == 1
  }

  /** The next button as written: disabled only when the current page
      equals the page count. */
  predicate NextDisabledAsWritten(current: int, tp: nat) {
    current == tp
  }

  /** The next button disabled whenever there is no later page. */
  predicate NextDisabled(current: int, tp: nat) {
    current >= tp
  }

  /** With no rows there are no pages, yet the next button as written is
      enabled on page 1: clamping then moves to page 0, and an unguarded
      `currentPage + 1` moves to page 2. Neither is a page. */
  lemma NextEnabledWithoutPages()
    ensures TotalPages(0, 10) == 0 && TotalPages(0, 7) == 0
    ensures !NextDisabledAsWritten(1, TotalPages(0, 10))
    ensures NextClamped(1, TotalPages(0, 10)) == 0
    ensures !NextDisabledAsWritten(1, TotalPages(0, 7)) && 1 + 1 > TotalPages(0, 7)
  {
    var t10 := TotalPages(0, 10);
    var t7 := TotalPages(0, 7);
    assert t10 == 0 && t7 == 0;
  }

  /** With the corrected test an enabled button always leads to a real
      page, also on page 1 of an empty list, where the corrected test
      disables next and the written one does not. */
  lemma EnabledButtonsStayInRange(current: int, tp: nat)
    requires 1 <= current <= tp || (current == 1 && tp == 0)
    ensures !PrevDisabled(current) ==> 1 <= current - 1 <= tp
    ensures !NextDisabled(current, tp) ==> 1 <= current + 1 <= tp
    ensures tp == 0 ==> NextDisabled(current, tp) && !NextDisabledAsWritten(current, tp)
  {
  }

  /** With no rows the corrected test disables next on page 1 for either
      page size, where the written test leaves it enabled. */
  lemma NextDisabledWithoutPages()
    ensures NextDisabled(1, TotalPages(0, 10)) && !NextDisabledAsWritten(1, TotalPages(0, 10))
    ensures NextDisabled(1, TotalPages(0, 7)) && !NextDisabledAsWritten(1, TotalPages(0, 7))
  {
    var t10 := TotalPages(0, 10);
    var t7 := TotalPages(0, 7);
    assert t10 == 0 && t7 == 0;
  }

  /** The corrected test agrees with the written one whenever the current
      page is a real page. */
  lemma NextDisabledAgreesInRange(current: int, tp: nat)
    requires 1 <= current <= tp
    ensures NextDisabled(current, tp) <==> NextDisabledAsWritten(current, tp)
  {
  }
}
